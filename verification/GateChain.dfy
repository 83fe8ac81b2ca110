/** The six gates of the dispatch gate chain, over the reads made so far. A read the
    chain has not needed yet is `None`; `Undecided` names no gate. */
module GateChain {
  import opened Collections
  import opened Tables

  datatype Settings = Settings(
    cooldownHours: int,
    maxDailySendsPerCustomer: int,
    dailySendCap: int,
    monthlySendsCap: int
  )

  /** What `loadDispatchContext` hands to the chain and to the send. */
  datatype Context = Context(settings: Settings, subscribed: bool, hasEmail: bool, body: string)

  datatype Reads = Reads(
    suppressed: Option<bool>,
    orderedSince: Option<bool>,
    sentInCooldown: Option<nat>,
    sentToday: Option<nat>,
    inWindow: Option<bool>,
    quotaDay: Option<int>,
    quotaMonth: Option<int>
  )

  const NO_READS: Reads := Reads(None, None, None, None, None, None, None)

  datatype TransientGate = QuietHours | Quota

  datatype Outcome = Undecided | Suppress(gate: Reason) | Defer(transient: TransientGate) | Passed

  /** `runGateChain`: ordered, short-circuiting, terminal gates before transient ones. */
  function RunGateChain(ctx: Context, r: Reads): Outcome {
    if r.suppressed.None? then Undecided
    else if r.suppressed.value then Suppress(Suppression)
    else if !ctx.subscribed then Suppress(Consent)
    else if r.orderedSince.None? then Undecided
    else if r.orderedSince.value then Suppress(Freshness)
    else if r.sentInCooldown.None? then Undecided
    else if r.sentInCooldown.value > 0 then Suppress(Frequency)
    else if r.sentToday.None? then Undecided
    else if r.sentToday.value >= ctx.settings.maxDailySendsPerCustomer then Suppress(Frequency)
    else if r.inWindow.None? then Undecided
    else if !r.inWindow.value then Defer(QuietHours)
    else if r.quotaDay.None? || r.quotaMonth.None? then Undecided
    else if r.quotaDay.value >= ctx.settings.dailySendCap then Defer(Quota)
    else if r.quotaMonth.value >= ctx.settings.monthlySendsCap then Defer(Quota)
    else Passed
  }

  /** More has been read in `r'` than in `r`, and nothing differently. */
  ghost predicate Extends(r: Reads, r': Reads) {
    && (r.suppressed.Some? ==> r'.suppressed == r.suppressed)
    && (r.orderedSince.Some? ==> r'.orderedSince == r.orderedSince)
    && (r.sentInCooldown.Some? ==> r'.sentInCooldown == r.sentInCooldown)
    && (r.sentToday.Some? ==> r'.sentToday == r.sentToday)
    && (r.inWindow.Some? ==> r'.inWindow == r.inWindow)
    && (r.quotaDay.Some? ==> r'.quotaDay == r.quotaDay)
    && (r.quotaMonth.Some? ==> r'.quotaMonth == r.quotaMonth)
  }

  /** Once a gate has decided, whatever else might be read does not matter: reading gate by
      gate and stopping at the first decision gives what reading everything would. */
  lemma DecisionIsStable(ctx: Context, r: Reads, r': Reads)
    requires Extends(r, r') && RunGateChain(ctx, r) != Undecided
    ensures RunGateChain(ctx, r') == RunGateChain(ctx, r)
  {
  }

  /** Where in the chain a terminal gate stands. */
  function Place(gate: Reason): nat {
    match gate
    case Suppression => 1
    case Consent => 2
    case Freshness => 3
    case Frequency => 4
    case _ => 0
  }

  /** What a terminal gate has found against the send so far, if it has been read at all. */
  predicate Found(ctx: Context, r: Reads, gate: Reason) {
    match gate
    case Suppression => r.suppressed == Some(true)
    case Consent => !ctx.subscribed
    case Freshness => r.orderedSince == Some(true)
    case Frequency =>
      || (r.sentInCooldown.Some? && r.sentInCooldown.value != 0)
      || (r.sentToday.Some? && ctx.settings.maxDailySendsPerCustomer <= r.sentToday.value)
    case _ => false
  }

  /** The terminal gates' reads up to a place in the chain. */
  predicate ReadBefore(r: Reads, place: nat) {
    && (place > 1 ==> r.suppressed.Some?) && (place > 3 ==> r.orderedSince.Some?)
    && (place > 4 ==> r.sentInCooldown.Some? && r.sentToday.Some?)
  }

  /** The chain suppresses for the first terminal gate that objects; it defers for the window
      before it defers for the quota, and for either only when no terminal gate objects; and
      when the quota is asked it is asked about both the day and the month. */
  lemma FirstGateDecides(ctx: Context, r: Reads)
    ensures var o := RunGateChain(ctx, r);
            && (o.Suppress? ==>
                  && Found(ctx, r, o.gate) && ReadBefore(r, Place(o.gate))
                  && forall gate :: Place(gate) < Place(o.gate) ==> !Found(ctx, r, gate))
            && (o.Defer? || o.Passed? ==> ReadBefore(r, 5) && forall gate :: !Found(ctx, r, gate))
            && (o == Defer(QuietHours) ==> r.inWindow == Some(false))
            && (o == Defer(Quota) || o.Passed? ==>
                  r.inWindow == Some(true) && r.quotaDay.Some? && r.quotaMonth.Some?)
            && (o == Defer(Quota) ==> ctx.settings.dailySendCap <= r.quotaDay.value
                                      || ctx.settings.monthlySendsCap <= r.quotaMonth.value)
            && (o.Passed? ==> r.quotaDay.value < ctx.settings.dailySendCap
                              && r.quotaMonth.value < ctx.settings.monthlySendsCap)
  {
    var o := RunGateChain(ctx, r);
    if o.Suppress? {
      forall gate
        ensures Place(gate) < Place(o.gate) ==> !Found(ctx, r, gate)
      {
        assert gate in {Suppression, Consent, Freshness, Frequency} || !Found(ctx, r, gate);
      }
    } else if !o.Undecided? {
      forall gate
        ensures !Found(ctx, r, gate)
      {
        assert gate in {Suppression, Consent, Freshness, Frequency} || !Found(ctx, r, gate);
      }
    }
  }

  predicate AllRead(r: Reads) {
    && r.suppressed.Some? && r.orderedSince.Some? && r.sentInCooldown.Some? && r.sentToday.Some?
    && r.inWindow.Some? && r.quotaDay.Some? && r.quotaMonth.Some?
  }

  /** The gates that end a message for good. */
  predicate Objects(ctx: Context, r: Reads, gate: Reason)
    requires AllRead(r)
  {
    match gate
    case Suppression => r.suppressed.value
    case Consent => !ctx.subscribed
    case Freshness => r.orderedSince.value
    case Frequency => r.sentInCooldown.value > 0 || r.sentToday.value >= ctx.settings.maxDailySendsPerCustomer
    case _ => false
  }

  predicate Delays(ctx: Context, r: Reads)
    requires AllRead(r)
  {
    || !r.inWindow.value
    || r.quotaDay.value >= ctx.settings.dailySendCap
    || r.quotaMonth.value >= ctx.settings.monthlySendsCap
  }

  /** On complete reads the chain always decides: it suppresses if and only if some terminal
      gate objects, and names one that does; it defers if and only if none objects and a
      transient gate delays; it passes if and only if neither. */
  lemma ChainDecides(ctx: Context, r: Reads)
    requires AllRead(r)
    ensures var o := RunGateChain(ctx, r);
            && o != Undecided
            && (o.Suppress? <==> exists gate :: Objects(ctx, r, gate))
            && (o.Suppress? ==> Objects(ctx, r, o.gate))
            && (o.Defer? <==> Delays(ctx, r) && !exists gate :: Objects(ctx, r, gate))
            && (o.Passed? <==> !Delays(ctx, r) && !exists gate :: Objects(ctx, r, gate))
  {
    if exists gate :: Objects(ctx, r, gate) {
      var gate :| Objects(ctx, r, gate);
      assert gate in {Suppression, Consent, Freshness, Frequency};
    } else {
      assert !Objects(ctx, r, Suppression) && !Objects(ctx, r, Consent);
      assert !Objects(ctx, r, Freshness) && !Objects(ctx, r, Frequency);
    }
  }
}
