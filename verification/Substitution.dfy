/** `substituteDiscountTokens`: two literal split/join replacements, one after the other,
    leave no placeholder behind, even in text that nests or splits tokens. */
module Substitution {
  import opened Collections

  const DISCOUNT_CODE_TOKEN: string := "{{DISCOUNT_CODE}}"
  const DISCOUNT_VALUE_PERCENT_TOKEN: string := "{{DISCOUNT_VALUE_PERCENT}}"

  datatype Discount = Discount(code: string, valuePercent: string)

  datatype Substituted = Substituted(text: string, missingTokens: seq<string>)

  predicate StartsWith(s: string, w: string) {
    w <= s
  }

  predicate OccursAt(s: string, w: string, i: nat) {
    i <= |s| && StartsWith(s[i..], w)
  }

  predicate Includes(s: string, w: string) {
    exists i :: 0 <= i <= |s| && OccursAt(s, w, i)
  }

  /** The pieces between the leftmost, non-overlapping occurrences of the separator. */
  function Split(s: string, separator: string): (parts: seq<string>)
    requires separator != ""
    ensures parts != []
  {
    if s == "" then [""]
    else if StartsWith(s, separator) then [""] + Split(s[|separator|..], separator)
    else
      var rest := Split(s[1..], separator);
      [[s[0]] + rest[0]] + rest[1..]
  }

  function Join(parts: seq<string>, glue: string): string
    requires parts != []
  {
    if |parts| == 1 then parts[0] else parts[0] + glue + Join(parts[1..], glue)
  }

  function Replace(s: string, token: string, value: string): string
    requires token != ""
  {
    Join(Split(s, token), value)
  }

  function SubstituteDiscountTokens(text: string, discount: Option<Discount>): Substituted {
    if discount.None? then Substituted(text, [])
    else
      var missing := (if Includes(text, DISCOUNT_CODE_TOKEN) then [] else [DISCOUNT_CODE_TOKEN])
                     + (if Includes(text, DISCOUNT_VALUE_PERCENT_TOKEN) then [] else [DISCOUNT_VALUE_PERCENT_TOKEN]);
      var coded := Replace(text, DISCOUNT_CODE_TOKEN, discount.value.code);
      Substituted(Replace(coded, DISCOUNT_VALUE_PERCENT_TOKEN, discount.value.valuePercent), missing)
  }

  /** Replacement, seen from the left. */
  lemma ReplaceStep(s: string, token: string, value: string)
    requires token != "" && s != ""
    ensures Replace(s, token, value)
            == if StartsWith(s, token) then value + Replace(s[|token|..], token, value)
               else [s[0]] + Replace(s[1..], token, value)
  {
    var parts := Split(s, token);
    if StartsWith(s, token) {
      assert parts[1..] == Split(s[|token|..], token);
    } else {
      var rest := Split(s[1..], token);
      assert parts[1..] == rest[1..];
      if |rest| > 1 {
        assert Join(parts, value) == ([s[0]] + rest[0]) + value + Join(rest[1..], value);
        assert Join(rest, value) == rest[0] + value + Join(rest[1..], value);
      }
    }
  }

  /** The value cannot be mistaken for part of the token: it has neither of the token's end
      characters and is no piece of it. */
  predicate Foreign(value: string, token: string) {
    && token != "" && token[0] !in value && token[|token| - 1] !in value
    && !Includes(token, value)
  }

  /** No tail of the token starts where a foreign value stands. */
  lemma ForeignBlocks(value: string, rest: string, other: string, w: string)
    requires Foreign(value, other) && w != "" && |w| <= |other| && w == other[|other| - |w|..]
    ensures !StartsWith(value + rest, w)
  {
    if |value| <= |w| {
      assert !OccursAt(other, value, |other| - |w|);
      assert w[..|value|] != value == (value + rest)[..|value|];
    } else {
      var k := |w| - 1;
      assert w[k] == other[|other| - 1] && value[k] in value && w[k] != (value + rest)[k];
    }
  }

  /** A tail of a foreign token that starts the replaced text already started the original. */
  lemma {:induction false} TailWasThere(s: string, token: string, value: string, other: string, w: string)
    requires token != "" && Foreign(value, other)
    requires w != "" && |w| <= |other| && w == other[|other| - |w|..]
    ensures StartsWith(Replace(s, token, value), w) ==> StartsWith(s, w) && !StartsWith(s, token)
    decreases |w|
  {
    if s == "" {
      assert Replace(s, token, value) == "";
    } else {
      ReplaceStep(s, token, value);
      var t := Replace(s, token, value);
      if StartsWith(s, token) {
        ForeignBlocks(value, Replace(s[|token|..], token, value), other, w);
      } else if |w| > 1 {
        assert t[1..] == Replace(s[1..], token, value);
        TailWasThere(s[1..], token, value, other, w[1..]);
        assert w == [w[0]] + w[1..];
      }
    }
  }

  /** Where a foreign token occurs after a replacement it occurred before, and the token that
      was replaced occurs nowhere. */
  lemma {:induction false} OccurrenceWasThere(s: string, token: string, value: string, other: string, i: nat)
    requires token != "" && Foreign(value, other)
    ensures OccursAt(Replace(s, token, value), other, i) ==> other != token && Includes(s, other)
    decreases |s|
  {
    var t := Replace(s, token, value);
    if i == 0 {
      TailWasThere(s, token, value, other, other);
      assert t[0..] == t && s[0..] == s;
      assert OccursAt(s, other, 0) <==> StartsWith(s, other);
    } else if s == "" {
      assert t == "";
    } else {
      ReplaceStep(s, token, value);
      if StartsWith(s, token) {
        if i < |value| {
          assert value[i] in value && t[i..][0] == value[i] != other[0];
        } else if i <= |t| {
          var rest := s[|token|..];
          assert t[i..] == Replace(rest, token, value)[i - |value|..];
          OccurrenceWasThere(rest, token, value, other, i - |value|);
          IncludesLater(s, rest, |token|, other);
        }
      } else if i <= |t| {
        assert t[i..] == Replace(s[1..], token, value)[i - 1..];
        OccurrenceWasThere(s[1..], token, value, other, i - 1);
        IncludesLater(s, s[1..], 1, other);
      }
    }
  }

  lemma IncludesLater(s: string, rest: string, k: nat, w: string)
    requires k <= |s| && rest == s[k..]
    ensures Includes(rest, w) ==> Includes(s, w)
  {
    if Includes(rest, w) {
      var j :| 0 <= j <= |rest| && OccursAt(rest, w, j);
      assert s[j + k..] == rest[j..];
      assert OccursAt(s, w, j + k);
    }
  }

  lemma {:induction false} NothingToReplace(s: string, token: string, value: string)
    requires token != "" && !Includes(s, token)
    ensures Replace(s, token, value) == s
    decreases |s|
  {
    if s != "" {
      ReplaceStep(s, token, value);
      assert s[0..] == s && !OccursAt(s, token, 0);
      IncludesLater(s, s[1..], 1, token);
      NothingToReplace(s[1..], token, value);
    }
  }

  // ----------------------------------------------------------------- theorems

  predicate Digits(s: string) {
    s != "" && forall c :: c in s ==> '0' <= c <= '9'
  }

  predicate TokenFree(text: string) {
    !Includes(text, "{{DISCOUNT_CODE}}") && !Includes(text, "{{DISCOUNT_VALUE_PERCENT}}")
  }

  /** Neither token is in what the substitution makes of the text. */
  predicate Clean(text: string, discount: Discount) {
    TokenFree(SubstituteDiscountTokens(text, Some(discount)).text)
  }

  /** A code that cannot be mistaken for part of a token, and a percentage of digits. */
  predicate IsForeign(discount: Discount) {
    && '{' !in discount.code && '}' !in discount.code && Digits(discount.valuePercent)
    && !Includes(DISCOUNT_CODE_TOKEN, discount.code)
  }

  /** With a percentage of digits, a code without braces leaves no placeholder in any text if
      and only if it is no piece of the code token; the empty code is a piece of it. */
  lemma NoPlaceholderLeft(discount: Discount)
    requires '{' !in discount.code && '}' !in discount.code && Digits(discount.valuePercent)
    ensures (forall text :: Clean(text, discount)) <==> !Includes(DISCOUNT_CODE_TOKEN, discount.code)
  {
    if Includes(DISCOUNT_CODE_TOKEN, discount.code) {
      var text := PieceLeavesToken(discount);
      assert !Clean(text, discount);
    } else {
      forall text
        ensures Clean(text, discount)
      {
        ForeignCodeLeavesNone(text, discount);
      }
    }
  }

  lemma ForeignCodeLeavesNone(text: string, discount: Discount)
    requires IsForeign(discount)
    ensures Clean(text, discount)
  {
    var coded := Replace(text, DISCOUNT_CODE_TOKEN, discount.code);
    DigitsAreForeign(discount.valuePercent);
    NoOccurrenceLeft(text, DISCOUNT_CODE_TOKEN, discount.code, DISCOUNT_CODE_TOKEN);
    NoOccurrenceLeft(coded, DISCOUNT_VALUE_PERCENT_TOKEN, discount.valuePercent, DISCOUNT_CODE_TOKEN);
    NoOccurrenceLeft(coded, DISCOUNT_VALUE_PERCENT_TOKEN, discount.valuePercent, DISCOUNT_VALUE_PERCENT_TOKEN);
  }

  lemma NoOccurrenceLeft(s: string, token: string, value: string, other: string)
    requires token != "" && Foreign(value, other)
    ensures other == token || !Includes(s, other) ==> !Includes(Replace(s, token, value), other)
  {
    forall i | 0 <= i <= |Replace(s, token, value)|
      ensures OccursAt(Replace(s, token, value), other, i) ==> other != token && Includes(s, other)
    {
      OccurrenceWasThere(s, token, value, other, i);
    }
  }

  lemma {:induction false} SkipPrefix(pre: string, rest: string, token: string, value: string)
    requires token != "" && forall i :: 0 <= i < |pre| ==> !StartsWith((pre + rest)[i..], token)
    ensures Replace(pre + rest, token, value) == pre + Replace(rest, token, value)
    decreases |pre|
  {
    hide Replace, Includes, OccursAt;
    if pre == "" {
      assert pre + rest == rest;
    } else {
      var s := pre + rest;
      assert s[0..] == s && s[1..] == pre[1..] + rest;
      forall i | 0 <= i < |pre[1..]|
        ensures !StartsWith((pre[1..] + rest)[i..], token)
      {
        assert s[i + 1..] == (pre[1..] + rest)[i..];
      }
      SkipPrefix(pre[1..], rest, token, value);
      ReplaceStep(s, token, value);
      assert pre == [pre[0]] + pre[1..];
    }
  }

  /** A code that is itself a piece of a token completes a token split around an occurrence. */
  lemma CodeCanCompleteToken(pre: string, code: string, tail: string, token: string)
    requires token == pre + code + tail && token != "" && !Includes(tail, token)
    requires forall i :: 0 <= i < |pre| ==> !StartsWith((pre + (token + tail))[i..], token)
    ensures Replace(pre + (token + tail), token, code) == token
  {
    SkipPrefix(pre, token + tail, token, code);
    ReplaceStep(token + tail, token, code);
    assert (token + tail)[|token|..] == tail;
    NothingToReplace(tail, token, code);
    assert pre + (code + tail) == token;
  }

  /** The token's only opening braces are its first two characters. */
  predicate TwoBraces(token: string) {
    |token| > 2 && token[0] == token[1] == '{' && '{' !in token[2..]
  }

  /** No occurrence begins before the token that stands behind a proper start of it. */
  lemma NoneStartsEarlier(pre: string, token: string, tail: string)
    requires TwoBraces(token) && 2 <= |pre| < |token| && pre <= token
    ensures forall i :: 0 <= i < |pre| ==> !StartsWith((pre + (token + tail))[i..], token)
  {
    var s := pre + (token + tail);
    forall i | 0 <= i < |pre|
      ensures !StartsWith(s[i..], token)
    {
      var j := |pre| - i;
      assert s[i..][j] == '{' && (j == 1 ==> s[i..][2] == '{');
      assert j >= 2 ==> token[j] in token[2..];
      assert token[2] in token[2..];
    }
  }

  /** A brace-free piece of the token stands behind its two opening braces. */
  lemma PieceIsInside(code: string, token: string) returns (pre: string, tail: string)
    requires TwoBraces(token) && '{' !in code && Includes(token, code)
    ensures token == pre + code + tail && 2 <= |pre| && |pre| < |token|
  {
    var i :| 0 <= i <= |token| && OccursAt(token, code, i);
    if code == "" {
      pre, tail := token[..2], token[2..];
    } else {
      assert code[0] == token[i] && code[0] in code;
      pre, tail := token[..i], token[i..][|code|..];
    }
  }

  /** A piece of the code token completes one that was split around an occurrence. */
  lemma PieceLeavesToken(discount: Discount) returns (text: string)
    requires '{' !in discount.code && Includes(DISCOUNT_CODE_TOKEN, discount.code)
    ensures !Clean(text, discount)
  {
    var token, code := DISCOUNT_CODE_TOKEN, discount.code;
    var pre, tail := PieceIsInside(code, token);
    text := pre + (token + tail);
    hide Replace, Includes, DISCOUNT_CODE_TOKEN;
    NoneStartsEarlier(pre, token, tail);
    ShorterHasNoToken(tail, token);
    CodeCanCompleteToken(pre, code, tail, token);
    CodeTokenIsShorter();
    ShorterHasNoToken(token, DISCOUNT_VALUE_PERCENT_TOKEN);
    NothingToReplace(token, DISCOUNT_VALUE_PERCENT_TOKEN, discount.valuePercent);
    IncludesItself(token);
  }

  lemma CodeTokenIsShorter()
    ensures 0 < |DISCOUNT_CODE_TOKEN| < |DISCOUNT_VALUE_PERCENT_TOKEN|
  {
  }

  lemma IncludesItself(s: string)
    ensures Includes(s, s)
  {
    assert OccursAt(s, s, 0);
  }

  lemma ShorterHasNoToken(s: string, token: string)
    requires |s| < |token|
    ensures !Includes(s, token)
  {
  }

  /** Neither token has a digit. */
  lemma DigitsAreForeign(digits: string)
    requires Digits(digits)
    ensures Foreign(digits, DISCOUNT_VALUE_PERCENT_TOKEN) && Foreign(digits, DISCOUNT_CODE_TOKEN)
  {
    assert digits[0] in digits;
    assert forall c :: c in DISCOUNT_CODE_TOKEN || c in DISCOUNT_VALUE_PERCENT_TOKEN ==> c > '9';
    HasNoPiece(DISCOUNT_VALUE_PERCENT_TOKEN, digits);
    HasNoPiece(DISCOUNT_CODE_TOKEN, digits);
  }

  lemma HasNoPiece(s: string, w: string)
    requires w != "" && w[0] !in s
    ensures !Includes(s, w)
  {
    forall i | 0 <= i <= |s|
      ensures !OccursAt(s, w, i)
    {
      assert i < |s| ==> s[i] in s && s[i..][0] == s[i];
    }
  }

  /** Text without tokens comes back as it is, with both tokens reported missing; without a
      discount any text does, with nothing reported. */
  lemma TokenFreeTextUnchanged(text: string, discount: Option<Discount>)
    requires discount.Some? ==> !Includes(text, DISCOUNT_CODE_TOKEN) && !Includes(text, DISCOUNT_VALUE_PERCENT_TOKEN)
    ensures SubstituteDiscountTokens(text, discount)
            == Substituted(text, if discount.None? then [] else [DISCOUNT_CODE_TOKEN, DISCOUNT_VALUE_PERCENT_TOKEN])
  {
    if discount.Some? {
      NothingToReplace(text, DISCOUNT_CODE_TOKEN, discount.value.code);
      NothingToReplace(text, DISCOUNT_VALUE_PERCENT_TOKEN, discount.value.valuePercent);
    }
  }

  /** The text cut at every occurrence of a token: the parts, glued with it, are the text, and
      none of them has it inside. */
  predicate Cut(text: string, token: string, parts: seq<string>) {
    parts != [] && Join(parts, token) == text && forall i :: 0 <= i < |parts| ==> !Includes(parts[i], token)
  }

  /** The text with the code in the place of each code token, and in what that gives the
      percentage in the place of each percentage token. */
  ghost predicate Filled(text: string, discount: Discount, filled: string) {
    exists parts, parts' ::
      && Cut(text, "{{DISCOUNT_CODE}}", parts)
      && Cut(Join(parts, discount.code), "{{DISCOUNT_VALUE_PERCENT}}", parts')
      && filled == Join(parts', discount.valuePercent)
  }

  lemma HeadHasNone(rest: string, s: string, token: string)
    requires token != "" && s != "" && rest <= s[1..]
    requires !StartsWith(s, token) && !Includes(rest, token)
    ensures [s[0]] + rest <= s && !Includes([s[0]] + rest, token)
  {
    var head := [s[0]] + rest;
    forall i | 0 <= i <= |head|
      ensures !OccursAt(head, token, i)
    {
      if i == 0 {
        assert head[0..] == head;
      } else {
        assert head[i..] == rest[i - 1..] && !OccursAt(rest, token, i - 1);
      }
    }
  }

  lemma {:induction false} SplitCuts(s: string, token: string)
    requires token != ""
    ensures Cut(s, token, Split(s, token)) && Split(s, token)[0] <= s
    decreases |s|
  {
    var parts := Split(s, token);
    if s == "" {
    } else if StartsWith(s, token) {
      var rest := s[|token|..];
      SplitCuts(rest, token);
      assert parts[1..] == Split(rest, token) && s == token + rest;
      assert forall i :: 0 < i < |parts| ==> parts[i] == Split(rest, token)[i - 1];
    } else {
      var rest := Split(s[1..], token);
      SplitCuts(s[1..], token);
      ReplaceStep(s, token, token);
      assert parts[1..] == rest[1..] && s == [s[0]] + s[1..];
      assert forall i :: 0 < i < |parts| ==> parts[i] == rest[i];
      HeadHasNone(rest[0], s, token);
    }
  }

  /** Each placeholder is filled with its own value, and exactly the tokens that the text does
      not have are reported missing, the code's first. */
  lemma FillsPlaceholders(text: string, discount: Discount)
    ensures var r := SubstituteDiscountTokens(text, Some(discount));
            && Filled(text, discount, r.text)
            && r.missingTokens == (if Includes(text, "{{DISCOUNT_CODE}}") then [] else ["{{DISCOUNT_CODE}}"])
                                  + (if Includes(text, "{{DISCOUNT_VALUE_PERCENT}}") then []
                                     else ["{{DISCOUNT_VALUE_PERCENT}}"])
  {
    var parts := Split(text, DISCOUNT_CODE_TOKEN);
    SplitCuts(text, DISCOUNT_CODE_TOKEN);
    SplitCuts(Join(parts, discount.code), DISCOUNT_VALUE_PERCENT_TOKEN);
    hide Split, Join, Includes;
  }
}
