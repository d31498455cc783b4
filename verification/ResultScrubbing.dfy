/**
 Redaction of a child's result before its parent sees it.  The labelled-value pattern and the sensitive-key test
 are parameters: what is proved about literal values holds whatever they do.
 */
module ResultScrubbing {
  import opened Common

  const MARKER: string := "[redacted]"

  /** Laid over the marker with its first character at position s, the value agrees wherever both have one. */
  predicate FitsOver(v: string, s: int) {
    forall t :: 0 <= t < |v| && 0 <= s + t < |MARKER| ==> v[t] == MARKER[s + t]
  }

  /** The value cannot share a character position with a marker in any text. */
  predicate Apart(v: string) {
    forall s :: -|v| < s < |MARKER| ==> !FitsOver(v, s)
  }

  // ---- left-to-right replacement ---------------------------------------------------------

  /** The length of the match at a position, or zero. */
  type Matcher = (string, nat) -> nat

  function Mark(text: string, i: nat, match_: Matcher): string
    requires i <= |text|
    decreases |text| - i
  {
    if i == |text| then ""
    else
      var n := match_(text, i);
      if 0 < n <= |text| - i then MARKER + Mark(text, i + n, match_) else [text[i]] + Mark(text, i + 1, match_)
  }

  predicate Kept(text: string, i: nat, match_: Matcher)
    requires i < |text|
  {
    !(0 < match_(text, i) <= |text| - i)
  }

  /** In a text cut by a marker, an occurrence that avoids the marker lies on one side of it. */
  lemma Sides(v: string, left: string, right: string, i: int)
    requires v != "" && Apart(v) && OccursAt(v, left + MARKER + right, i)
    ensures OccursAt(v, left, i) || OccursAt(v, right, i - |left| - |MARKER|)
  {
    var text := left + MARKER + right;
    if i + |v| <= |left| {
      assert text[i..i + |v|] == left[i..i + |v|];
    } else if |left| + |MARKER| <= i {
      var j := i - |left| - |MARKER|;
      assert text[i..i + |v|] == right[j..j + |v|];
    } else {
      var s := i - |left|;
      forall t | 0 <= t < |v| && 0 <= s + t < |MARKER| ensures v[t] == MARKER[s + t] {
        assert v[t] == text[i..i + |v|][t] == text[i + t];
      }
      assert FitsOver(v, s);
    }
  }

  /** An occurrence in a part is an occurrence in the whole. */
  lemma InPart(v: string, text: string, j: nat, i: nat, k: int)
    requires j <= i <= |text| && OccursAt(v, text[j..i], k)
    ensures OccursAt(v, text, j + k) && j + k <= i
  {
    forall t | 0 <= t < |v| ensures text[j + k + t] == v[t] {
      assert text[j..i][k..k + |v|][t] == text[j..i][k + t] == text[j + k + t];
    }
    assert text[j + k..j + k + |v|] == v;
  }

  lemma PartIsFree(v: string, text: string, j: nat, i: nat)
    requires v != "" && j <= i <= |text| && forall k :: j <= k < i ==> !OccursAt(v, text, k)
    ensures !Occurs(v, text[j..i])
  {
    forall k ensures !OccursAt(v, text[j..i], k) {
      if OccursAt(v, text[j..i], k) {
        InPart(v, text, j, i, k);
      }
    }
  }

  lemma JoinIsFree(v: string, left: string, right: string)
    requires v != "" && Apart(v) && !Occurs(v, left) && !Occurs(v, right)
    ensures !Occurs(v, left + MARKER + right)
  {
    forall k ensures !OccursAt(v, left + MARKER + right, k) {
      if OccursAt(v, left + MARKER + right, k) {
        Sides(v, left, right, k);
      }
    }
  }

  lemma MarkKept(text: string, i: nat, match_: Matcher)
    requires i < |text| && Kept(text, i, match_)
    ensures Mark(text, i, match_) == [text[i]] + Mark(text, i + 1, match_)
  {
  }

  lemma MarkCut(text: string, i: nat, match_: Matcher)
    requires i < |text| && !Kept(text, i, match_)
    ensures Mark(text, i, match_) == MARKER + Mark(text, i + match_(text, i), match_)
  {
  }

  lemma Regroup(a: string, b: string, c: string)
    ensures a + (b + c) == (a + b) + c
  {
  }

  lemma OneMore(text: string, j: nat, i: nat)
    requires j <= i < |text|
    ensures text[j..i] + [text[i]] == text[j..i + 1]
  {
  }

  /**
   No occurrence starts at a kept position, so none survives: `text[j..i]` is what has been kept since the last marker.
   */
  lemma {:induction false} MarkLeavesNone(text: string, j: nat, i: nat, match_: Matcher, v: string)
    requires v != "" && Apart(v) && j <= i <= |text|
    requires forall k :: j <= k < i ==> !OccursAt(v, text, k)
    requires forall k :: 0 <= k < |text| && Kept(text, k, match_) ==> !OccursAt(v, text, k)
    ensures !Occurs(v, text[j..i] + Mark(text, i, match_))
    decreases |text| - i
  {
    if i == |text| {
      PartIsFree(v, text, j, i);
      assert text[j..i] + "" == text[j..i];
    } else if Kept(text, i, match_) {
      MarkLeavesNone(text, j, i + 1, match_, v);
      MarkKept(text, i, match_);
      OneMore(text, j, i);
      Regroup(text[j..i], [text[i]], Mark(text, i + 1, match_));
    } else {
      var n := match_(text, i);
      MarkLeavesNone(text, i + n, i + n, match_, v);
      var right := Mark(text, i + n, match_);
      assert text[i + n..i + n] + right == right;
      PartIsFree(v, text, j, i);
      JoinIsFree(v, text[j..i], right);
      MarkCut(text, i, match_);
      Regroup(text[j..i], MARKER, right);
    }
  }

  // ---- the two replacements --------------------------------------------------------------

  function Literal(v: string): Matcher {
    (text, i) => if OccursAt(v, text, i) then |v| else 0
  }

  predicate WordChar(c: char) {
    'a' <= c <= 'z' || 'A' <= c <= 'Z' || '0' <= c <= '9' || c == '_'
  }

  /** The digits, not preceded or followed by a word character. */
  function Whole(digits: string): Matcher {
    (text, i) =>
      if OccursAt(digits, text, i)
         && !(0 < i <= |text| && WordChar(text[i - 1]))
         && !(i + |digits| < |text| && WordChar(text[i + |digits|]))
      then |digits| else 0
  }

  function Replace(text: string, v: string): string {
    Mark(text, 0, Literal(v))
  }

  function ReplaceWhole(text: string, digits: string): string {
    Mark(text, 0, Whole(digits))
  }

  /** Replacing a value removes it, if it stays apart from the marker. */
  lemma ReplaceRemoves(text: string, v: string)
    requires v != "" && Apart(v)
    ensures !Occurs(v, Replace(text, v))
  {
    MarkLeavesNone(text, 0, 0, Literal(v), v);
    assert text[0..0] + Replace(text, v) == Replace(text, v);
  }

  /** No later replacement brings an absent value back. */
  lemma MarkKeepsAbsent(text: string, match_: Matcher, v: string)
    requires v != "" && Apart(v) && !Occurs(v, text)
    ensures !Occurs(v, Mark(text, 0, match_))
  {
    MarkLeavesNone(text, 0, 0, match_, v);
    assert text[0..0] + Mark(text, 0, match_) == Mark(text, 0, match_);
  }

  // ---- numbers standing alone ------------------------------------------------------------

  /** The digits at this place, with no word character on either side. */
  predicate StandsAt(digits: string, text: string, i: int) {
    && OccursAt(digits, text, i)
    && (0 < i ==> !WordChar(text[i - 1]))
    && (i + |digits| < |text| ==> !WordChar(text[i + |digits|]))
  }

  predicate StandsAlone(digits: string, text: string) {
    exists i :: 0 <= i <= |text| && StandsAt(digits, text, i)
  }

  predicate Numeral(v: string) {
    v != "" && forall t :: 0 <= t < |v| ==> '0' <= v[t] <= '9'
  }

  lemma {:induction false} DigitsAreNumeral(n: nat)
    ensures Numeral(Digits(n))
  {
    if n >= 10 {
      DigitsAreNumeral(n / 10);
    }
  }

  lemma NoDigitInMarker(k: nat)
    requires k < |MARKER|
    ensures !('0' <= MARKER[k] <= '9')
  {
    assert MARKER[k] in {'[', 'r', 'e', 'd', 'a', 'c', 't', ']'};
  }

  lemma NumeralIsApart(v: string)
    requires Numeral(v)
    ensures Apart(v)
  {
    forall s | -|v| < s < |MARKER| ensures !FitsOver(v, s) {
      var t := if s < 0 then -s else 0;
      NoDigitInMarker(s + t);
      assert v[t] != MARKER[s + t];
    }
  }

  /** What stands alone after the last marker stood alone in the text. */
  lemma StandsInPart(v: string, text: string, j: nat, i: nat, k: int)
    requires Numeral(v) && j <= i <= |text| && OccursAt(v, text[j..i], k)
    requires 0 < k ==> !WordChar(text[j..i][k - 1])
    requires 0 < j < |text| ==> !WordChar(text[j])
    requires j + k + |v| < |text| ==> !WordChar(text[j + k + |v|])
    ensures StandsAt(v, text, j + k) && j + k < i
  {
    InPart(v, text, j, i, k);
    assert text[j..i][k..k + |v|][0] == text[j + k];
    assert WordChar(text[j + k]);
  }

  lemma PartHasNone(v: string, text: string, j: nat, i: nat)
    requires Numeral(v) && j <= i == |text| && (0 < j < |text| ==> !WordChar(text[j]))
    requires forall k :: j <= k < i ==> !StandsAt(v, text, k)
    ensures !StandsAlone(v, text[j..i])
  {
    forall k ensures !StandsAt(v, text[j..i], k) {
      if StandsAt(v, text[j..i], k) {
        if j + k + |v| < |text| {
          assert text[j..i][k + |v|] == text[j + k + |v|];
        }
        StandsInPart(v, text, j, i, k);
      }
    }
  }

  /** A number is matched at i, so nothing that stands alone ends there. */
  lemma JoinHasNone(v: string, text: string, j: nat, i: nat, right: string)
    requires Numeral(v) && j <= i < |text| && (0 < j ==> !WordChar(text[j])) && (0 < i ==> !WordChar(text[i - 1]))
    requires (forall k :: j <= k < i ==> !StandsAt(v, text, k)) && !StandsAlone(v, right)
    ensures !StandsAlone(v, text[j..i] + MARKER + right)
  {
    var left := text[j..i];
    var whole := left + MARKER + right;
    NumeralIsApart(v);
    forall k ensures !StandsAt(v, whole, k) {
      if StandsAt(v, whole, k) {
        Sides(v, left, right, k);
        if OccursAt(v, left, k) {
          if k + |v| == |left| {
            EndsInWord(v, text, j, i, k);
          } else {
            LeftHasNone(v, text, j, i, k, whole);
          }
        } else {
          var m := k - |left| - |MARKER|;
          assert 0 < m ==> whole[k - 1] == right[m - 1];
          assert m + |v| < |right| ==> whole[k + |v|] == right[m + |v|];
          assert StandsAt(v, right, m);
        }
      }
    }
  }

  lemma EndsInWord(v: string, text: string, j: nat, i: nat, k: int)
    requires Numeral(v) && j <= i <= |text| && OccursAt(v, text[j..i], k) && k + |v| == i - j
    ensures i > 0 && WordChar(text[i - 1])
  {
    assert text[j..i][k..k + |v|][|v| - 1] == text[i - 1];
  }

  lemma LeftHasNone(v: string, text: string, j: nat, i: nat, k: int, whole: string)
    requires Numeral(v) && j <= i < |text| && (0 < j ==> !WordChar(text[j]))
    requires (forall k :: j <= k < i ==> !StandsAt(v, text, k)) && text[j..i] <= whole
    requires OccursAt(v, text[j..i], k) && k + |v| < i - j
    ensures !StandsAt(v, whole, k)
  {
    var left := text[j..i];
    assert 0 < k ==> whole[k - 1] == left[k - 1];
    assert whole[k + |v|] == left[k + |v|] == text[j + k + |v|];
    if (0 < k ==> !WordChar(left[k - 1])) && !WordChar(text[j + k + |v|]) {
      StandsInPart(v, text, j, i, k);
    }
  }

  /** The pattern matches exactly where the digits stand alone. */
  lemma MatchesWhereAlone(text: string, i: nat, digits: string)
    requires Numeral(digits) && i < |text|
    ensures Kept(text, i, Whole(digits)) <==> !StandsAt(digits, text, i)
    ensures StandsAt(digits, text, i) ==> Whole(digits)(text, i) == |digits|
  {
  }

  /** Nothing stands alone after the marking that did not stand alone at a kept place. */
  lemma {:induction false} MarkLeavesNoneAlone(text: string, j: nat, i: nat, digits: string, v: string)
    requires Numeral(v) && Numeral(digits) && j <= i <= |text| && (0 < j < |text| ==> !WordChar(text[j]))
    requires forall k :: j <= k < i ==> !StandsAt(v, text, k)
    requires forall k :: 0 <= k < |text| && StandsAt(v, text, k) ==> StandsAt(digits, text, k)
    ensures !StandsAlone(v, text[j..i] + Mark(text, i, Whole(digits)))
    decreases |text| - i
  {
    if i == |text| {
      PartHasNone(v, text, j, i);
      assert text[j..i] + "" == text[j..i];
    } else {
      MatchesWhereAlone(text, i, digits);
      if StandsAt(digits, text, i) {
        var next := i + |digits|;
        MarkLeavesNoneAlone(text, next, next, digits, v);
        var right := Mark(text, next, Whole(digits));
        assert text[next..next] + right == right;
        JoinHasNone(v, text, j, i, right);
        MarkCut(text, i, Whole(digits));
        Regroup(text[j..i], MARKER, right);
      } else {
        MarkLeavesNoneAlone(text, j, i + 1, digits, v);
        MarkKept(text, i, Whole(digits));
        OneMore(text, j, i);
        Regroup(text[j..i], [text[i]], Mark(text, i + 1, Whole(digits)));
      }
    }
  }

  /** Replacing a number removes it wherever it stands alone, and brings no other one to stand alone. */
  lemma WholeLeavesNoneAlone(text: string, digits: string, v: string)
    requires Numeral(v) && Numeral(digits) && (v == digits || !StandsAlone(v, text))
    ensures !StandsAlone(v, ReplaceWhole(text, digits))
  {
    MarkLeavesNoneAlone(text, 0, 0, digits, v);
    assert text[0..0] + ReplaceWhole(text, digits) == ReplaceWhole(text, digits);
  }

  // ---- scrubbing a text ------------------------------------------------------------------

  function ScrubStrings(text: string, values: seq<string>): string
    decreases |values|
  {
    if values == [] then text else ScrubStrings(Replace(text, values[0]), values[1..])
  }

  function ScrubIntegers(text: string, values: seq<nat>): string
    decreases |values|
  {
    if values == [] then text else ScrubIntegers(ReplaceWhole(text, Digits(values[0])), values[1..])
  }

  function Scrub(text: string, strings: seq<string>, integers: seq<nat>): string {
    ScrubIntegers(ScrubStrings(text, strings), integers)
  }

  /** The loop over the known values. */
  method ScrubText(text: string, strings: seq<string>, integers: seq<nat>) returns (result: string)
    ensures result == Scrub(text, strings, integers)
  {
    result := text;
    for i := 0 to |strings|
      invariant ScrubStrings(text, strings) == ScrubStrings(result, strings[i..])
    {
      result := Replace(result, strings[i]);
      assert strings[i..][1..] == strings[i + 1..];
    }
    for i := 0 to |integers|
      invariant Scrub(text, strings, integers) == ScrubIntegers(result, integers[i..])
    {
      result := ReplaceWhole(result, Digits(integers[i]));
      assert integers[i..][1..] == integers[i + 1..];
    }
  }

  lemma {:induction false} StringsKeepAbsent(text: string, values: seq<string>, v: string)
    requires v != "" && Apart(v) && !Occurs(v, text)
    ensures !Occurs(v, ScrubStrings(text, values))
    decreases |values|
  {
    if values != [] {
      MarkKeepsAbsent(text, Literal(values[0]), v);
      StringsKeepAbsent(Replace(text, values[0]), values[1..], v);
    }
  }

  lemma {:induction false} StringsRemove(text: string, values: seq<string>, v: string)
    requires v != "" && Apart(v) && v in values
    ensures !Occurs(v, ScrubStrings(text, values))
    decreases |values|
  {
    if values[0] == v {
      ReplaceRemoves(text, v);
      StringsKeepAbsent(Replace(text, v), values[1..], v);
    } else {
      StringsRemove(Replace(text, values[0]), values[1..], v);
    }
  }

  lemma {:induction false} IntegersKeepAbsent(text: string, values: seq<nat>, v: string)
    requires v != "" && Apart(v) && !Occurs(v, text)
    ensures !Occurs(v, ScrubIntegers(text, values))
    decreases |values|
  {
    if values != [] {
      MarkKeepsAbsent(text, Whole(Digits(values[0])), v);
      IntegersKeepAbsent(ReplaceWhole(text, Digits(values[0])), values[1..], v);
    }
  }

  /**
   Whatever the text and in whatever order the values are replaced, a known value that stays apart from the marker is
   gone.
   */
  lemma ScrubRemoves(text: string, strings: seq<string>, integers: seq<nat>, v: string)
    requires v != "" && Apart(v) && v in strings
    ensures !Occurs(v, Scrub(text, strings, integers))
  {
    StringsRemove(text, strings, v);
    IntegersKeepAbsent(ScrubStrings(text, strings), integers, v);
  }

  lemma {:induction false} IntegersKeepNoneAlone(text: string, values: seq<nat>, v: string)
    requires Numeral(v) && !StandsAlone(v, text)
    ensures !StandsAlone(v, ScrubIntegers(text, values))
    decreases |values|
  {
    if values != [] {
      DigitsAreNumeral(values[0]);
      WholeLeavesNoneAlone(text, Digits(values[0]), v);
      IntegersKeepNoneAlone(ReplaceWhole(text, Digits(values[0])), values[1..], v);
    }
  }

  /** A known number stands alone nowhere in a scrubbed text, whatever the text and the order of replacement. */
  lemma {:induction false} ScrubRemovesNumbers(text: string, strings: seq<string>, integers: seq<nat>, n: nat)
    requires n in integers
    ensures !StandsAlone(Digits(n), Scrub(text, strings, integers))
  {
    IntegersRemove(ScrubStrings(text, strings), integers, n);
  }

  lemma {:induction false} IntegersRemove(text: string, values: seq<nat>, n: nat)
    requires n in values
    ensures !StandsAlone(Digits(n), ScrubIntegers(text, values))
    decreases |values|
  {
    DigitsAreNumeral(n);
    if values[0] == n {
      WholeLeavesNoneAlone(text, Digits(n), Digits(n));
      IntegersKeepNoneAlone(ReplaceWhole(text, Digits(n)), values[1..], Digits(n));
    } else {
      IntegersRemove(ReplaceWhole(text, Digits(values[0])), values[1..], n);
    }
  }

  // ---- exactly when ----------------------------------------------------------------------

  lemma InsideWord(v: string, s: int)
    requires 1 <= s && s + |v| <= |MARKER| - 1 && FitsOver(v, s)
    ensures OccursAt(v, "redacted", s - 1)
  {
    var word := "redacted";
    assert word == MARKER[1..|MARKER| - 1];
    forall t | 0 <= t < |v| ensures word[s - 1 + t] == v[t] {
      assert MARKER[s + t] == v[t];
    }
    assert word[s - 1..s - 1 + |v|] == v;
  }

  /** Values without brackets that are no part of the marker's word stay apart from it. */
  lemma PlainValuesAreApart(v: string)
    requires v != "" && '[' !in v && ']' !in v && !Occurs(v, "redacted")
    ensures Apart(v)
  {
    forall s | -|v| < s < |MARKER| ensures !FitsOver(v, s) {
      if s <= 0 {
        assert MARKER[s + -s] == '[' && v[-s] in v;
      } else if |MARKER| - 1 - s < |v| {
        assert v[|MARKER| - 1 - s] in v && MARKER[|MARKER| - 1] == ']';
      } else if FitsOver(v, s) {
        InsideWord(v, s);
      }
    }
  }

  ghost predicate AlwaysRemoved(v: string) {
    forall text: string, strings: seq<string> :: LongestFirst(strings) && v in strings ==>
      !Occurs(v, Scrub(text, strings, []))
  }

  /** The order in which the known strings are replaced. */
  predicate LongestFirst(values: seq<string>) {
    forall i, j :: 0 <= i < j < |values| ==> |values[i]| >= |values[j]|
  }

  /**
   A value is removed from every text, whatever else is known, if and only if it stays apart from the marker.
   The character is any one that the value does not use.
   */
  lemma RemovedIffApart(v: string, unused: char)
    requires v != "" && unused !in v
    ensures AlwaysRemoved(v) <==> Apart(v)
  {
    if Apart(v) {
      forall text: string, strings: seq<string> | LongestFirst(strings) && v in strings
        ensures !Occurs(v, Scrub(text, strings, []))
      {
        ScrubRemoves(text, strings, [], v);
      }
    } else {
      var s :| -|v| < s < |MARKER| && FitsOver(v, s);
      if 0 <= s && s + |v| <= |MARKER| {
        InsideSurvives(v, s);
      } else {
        StraddlingSurvives(v, s, unused);
      }
    }
  }

  lemma Survives(v: string, text: string, strings: seq<string>)
    requires LongestFirst(strings) && v in strings && Occurs(v, ScrubStrings(text, strings))
    ensures !AlwaysRemoved(v)
  {
    assert Occurs(v, Scrub(text, strings, []));
  }

  /** A part of the marker is put back by its own replacement. */
  lemma InsideSurvives(v: string, s: int)
    requires v != "" && 0 <= s && s + |v| <= |MARKER| && FitsOver(v, s)
    ensures !AlwaysRemoved(v)
  {
    assert OccursAt(v, v, 0);
    assert Replace(v, v) == MARKER + Mark(v, |v|, Literal(v)) == MARKER;
    assert MARKER[s..s + |v|] == v;
    assert OccursAt(v, MARKER, s);
    assert [v][1..] == [];
    assert ScrubStrings(v, [v]) == ScrubStrings(MARKER, []) == MARKER;
    Survives(v, v, [v]);
  }

  lemma {:induction false} KeptPrefix(text: string, i: nat, n: nat, match_: Matcher)
    requires i <= n <= |text| && forall k :: i <= k < n ==> Kept(text, k, match_)
    ensures Mark(text, i, match_) == text[i..n] + Mark(text, n, match_)
    decreases n - i
  {
    if i == n {
      assert text[i..n] + Mark(text, n, match_) == Mark(text, n, match_);
    } else {
      KeptPrefix(text, i + 1, n, match_);
      MarkKept(text, i, match_);
      Regroup([text[i]], text[i + 1..n], Mark(text, n, match_));
      assert text[i..n] == [text[i]] + text[i + 1..n];
    }
  }

  lemma NothingToMark(text: string, match_: Matcher)
    requires forall k :: 0 <= k < |text| ==> Kept(text, k, match_)
    ensures Mark(text, 0, match_) == text
  {
    KeptPrefix(text, 0, |text|, match_);
    assert text[0..|text|] == text;
  }

  /** A value absent from the text is not replaced. */
  lemma AbsentIsKept(text: string, v: string)
    requires !Occurs(v, text)
    ensures Replace(text, v) == text
  {
    forall k | 0 <= k < |text| ensures Kept(text, k, Literal(v)) {
      assert !OccursAt(v, text, k);
    }
    NothingToMark(text, Literal(v));
  }

  lemma SingleReplaced(left: string, right: string, c: char)
    requires c !in left && c !in right
    ensures Replace(left + [c] + right, [c]) == left + MARKER + right
  {
    var text, m := left + [c] + right, Literal([c]);
    forall k | 0 <= k < |text| && k != |left| ensures Kept(text, k, m) {
      assert text[k] in left || text[k] in right;
      assert text[k..k + 1] == [text[k]];
    }
    KeptPrefix(text, 0, |left|, m);
    assert OccursAt([c], text, |left|);
    KeptPrefix(text, |left| + 1, |text|, m);
    assert text[0..|left|] == left && text[|left| + 1..|text|] == right;
    assert Mark(text, 0, m) == left + (MARKER + (right + ""));
  }

  lemma CharOfOccurrence(v: string, text: string, k: int, p: int)
    requires OccursAt(v, text, k) && k <= p < k + |v|
    ensures text[p] in v
  {
    assert text[k..k + |v|][p - k] == text[p];
  }

  /** A text too short on both sides of an unused character does not contain the value. */
  lemma AbsentAround(v: string, left: string, right: string, c: char)
    requires |left| < |v| && |right| < |v| && c !in v
    ensures !Occurs(v, left + [c] + right)
  {
    forall k ensures !OccursAt(v, left + [c] + right, k) {
      if OccursAt(v, left + [c] + right, k) {
        CharOfOccurrence(v, left + [c] + right, k, |left|);
      }
    }
  }

  /**
   A value that reaches over an edge of the marker is put together when a shorter known value beside it is redacted.
   */
  lemma StraddlingSurvives(v: string, s: int, c: char)
    requires v != "" && -|v| < s < |MARKER| && FitsOver(v, s) && !(0 <= s && s + |v| <= |MARKER|) && c !in v
    ensures !AlwaysRemoved(v)
  {
    var left := if s < 0 then v[..-s] else "";
    var right := if s + |v| > |MARKER| then v[|MARKER| - s..] else "";
    var text, result := left + [c] + right, left + MARKER + right;
    AbsentAround(v, left, right, c);
    AbsentIsKept(text, v);
    SingleReplaced(left, right, c);
    assert [v, [c]][1..] == [[c]] && [[c]][1..] == [];
    assert ScrubStrings(text, [v, [c]]) == ScrubStrings(text, [[c]]) == ScrubStrings(result, []) == result;
    Reassembled(v, s, left, right);
    Survives(v, text, [v, [c]]);
  }

  lemma ReassembledAt(v: string, s: int, left: string, right: string, t: int)
    requires -|v| < s < |MARKER| && FitsOver(v, s) && 0 <= t < |v|
    requires left == (if s < 0 then v[..-s] else "") && right == if s + |v| > |MARKER| then v[|MARKER| - s..] else ""
    ensures var at := (if s < 0 then 0 else s) + t; at < |left + MARKER + right| && (left + MARKER + right)[at] == v[t]
  {
    var result, at := left + MARKER + right, (if s < 0 then 0 else s) + t;
    if s + t < 0 {
      assert result[at] == left[t];
    } else if s + t < |MARKER| {
      assert result[at] == MARKER[s + t];
    } else {
      assert result[at] == right[s + t - |MARKER|];
    }
  }

  lemma Reassembled(v: string, s: int, left: string, right: string)
    requires v != "" && -|v| < s < |MARKER| && FitsOver(v, s)
    requires left == (if s < 0 then v[..-s] else "") && right == if s + |v| > |MARKER| then v[|MARKER| - s..] else ""
    ensures Occurs(v, left + MARKER + right)
  {
    var result, at := left + MARKER + right, if s < 0 then 0 else s;
    ReassembledAt(v, s, left, right, |v| - 1);
    forall t | 0 <= t < |v| ensures result[at + t] == v[t] {
      ReassembledAt(v, s, left, right, t);
    }
    OccursByChars(v, result, at);
  }

  lemma OccursByChars(v: string, text: string, at: nat)
    requires at + |v| <= |text| && forall t :: 0 <= t < |v| ==> text[at + t] == v[t]
    ensures OccursAt(v, text, at)
  {
    assert text[at..at + |v|] == v;
  }

  // ---- JSON ------------------------------------------------------------------------------

  datatype Json = Null | Bool(b: bool) | Int(n: int) | Real(x: real) | Str(s: string)
                | Arr(items: seq<Json>) | Obj(fields: seq<Field>)

  datatype Field = Field(key: string, value: Json)

  /** How texts are labelled and keys judged; both belong to the pattern tables. */
  datatype Policy = Policy(relabel: string -> string, sensitive: string -> bool)

  /** Insertion into a dictionary: a repeated key keeps its place and takes the new value. */
  function Put(fields: seq<Field>, f: Field): seq<Field> {
    if fields == [] then [f]
    else if fields[0].key == f.key then [f] + fields[1..]
    else [fields[0]] + Put(fields[1..], f)
  }

  function SanitizeText(p: Policy, text: string, strings: seq<string>, integers: seq<nat>): string {
    Scrub(p.relabel(text), strings, integers)
  }

  function Sanitize(p: Policy, j: Json, strings: seq<string>, integers: seq<nat>): Json
    decreases j, 1
  {
    match j
    case Obj(fields) => Obj(SanitizeFields(p, j, |fields|, strings, integers))
    case Arr(items) => Arr(seq(|items|, i requires 0 <= i < |items| => Sanitize(p, items[i], strings, integers)))
    case Str(s) => Str(SanitizeText(p, s, strings, integers))
    case Int(n) => if n > 0 && n in integers then Str(MARKER) else j
    case _ => j
  }

  /** The first n fields, in order. */
  function SanitizeFields(p: Policy, j: Json, n: nat, strings: seq<string>, integers: seq<nat>): seq<Field>
    requires j.Obj? && n <= |j.fields|
    decreases j, 0, n
  {
    if n == 0 then []
    else
      Put(SanitizeFields(p, j, n - 1, strings, integers), CleanField(p, j.fields[n - 1], strings, integers))
  }

  function CleanField(p: Policy, f: Field, strings: seq<string>, integers: seq<nat>): Field
    decreases f, 2
  {
    Field(Scrub(f.key, strings, integers),
      if p.sensitive(f.key) then Str(MARKER) else Sanitize(p, f.value, strings, integers))
  }

  /** Every key and string is of one kind, every number of another. */
  ghost predicate Everywhere(texts: string -> bool, numbers: int -> bool, j: Json)
    decreases j
  {
    match j
    case Str(s) => texts(s)
    case Int(n) => numbers(n)
    case Arr(items) => forall i :: 0 <= i < |items| ==> Everywhere(texts, numbers, items[i])
    case Obj(fields) =>
      forall i :: 0 <= i < |fields| ==> texts(fields[i].key) && Everywhere(texts, numbers, fields[i].value)
    case _ => true
  }

  ghost predicate InFields(texts: string -> bool, numbers: int -> bool, fields: seq<Field>) {
    forall i :: 0 <= i < |fields| ==> texts(fields[i].key) && Everywhere(texts, numbers, fields[i].value)
  }

  /** The value occurs in no key and no string. */
  ghost predicate Free(v: string, j: Json) {
    Everywhere((s: string) => !Occurs(v, s), (n: int) => true, j)
  }

  /** The number is nowhere, and stands alone in no key and no string. */
  ghost predicate NumberFree(n: nat, j: Json) {
    Everywhere((s: string) => !StandsAlone(Digits(n), s), (m: int) => m != n, j)
  }

  lemma {:induction false} PutKeepsKind(texts: string -> bool, numbers: int -> bool, fields: seq<Field>, f: Field)
    requires InFields(texts, numbers, fields) && texts(f.key) && Everywhere(texts, numbers, f.value)
    ensures InFields(texts, numbers, Put(fields, f))
  {
    if fields != [] && fields[0].key != f.key {
      PutKeepsKind(texts, numbers, fields[1..], f);
    }
  }

  /** Scrubbing yields such texts, the marker is one, and so is every number left. */
  ghost predicate Yields(strings: seq<string>, integers: seq<nat>, texts: string -> bool, numbers: int -> bool) {
    && texts(MARKER)
    && (forall s :: texts(Scrub(s, strings, integers)))
    && (forall n: int :: numbers(n) || (n > 0 && n in integers))
  }

  lemma {:induction false} SanitizedEverywhere(p: Policy, j: Json, strings: seq<string>, integers: seq<nat>,
                                               texts: string -> bool, numbers: int -> bool)
    requires Yields(strings, integers, texts, numbers)
    ensures Everywhere(texts, numbers, Sanitize(p, j, strings, integers))
    decreases j, 1
  {
    match j
    case Obj(fields) => FieldsEverywhere(p, j, |fields|, strings, integers, texts, numbers);
    case Arr(items) =>
      forall i | 0 <= i < |items| ensures Everywhere(texts, numbers, Sanitize(p, items[i], strings, integers)) {
        SanitizedEverywhere(p, items[i], strings, integers, texts, numbers);
      }
    case _ =>
  }

  lemma {:induction false} FieldsEverywhere(p: Policy, j: Json, n: nat, strings: seq<string>, integers: seq<nat>,
                                            texts: string -> bool, numbers: int -> bool)
    requires Yields(strings, integers, texts, numbers) && j.Obj? && n <= |j.fields|
    ensures InFields(texts, numbers, SanitizeFields(p, j, n, strings, integers))
    decreases j, 0, n
  {
    if n > 0 {
      var f := j.fields[n - 1];
      FieldsEverywhere(p, j, n - 1, strings, integers, texts, numbers);
      SanitizedEverywhere(p, f.value, strings, integers, texts, numbers);
      PutKeepsKind(texts, numbers, SanitizeFields(p, j, n - 1, strings, integers), CleanField(p, f, strings, integers));
    }
  }

  lemma MarkerIsFree(v: string)
    requires v != "" && Apart(v)
    ensures !Occurs(v, MARKER)
  {
    forall i ensures !OccursAt(v, MARKER, i) {
      if OccursAt(v, MARKER, i) {
        forall t | 0 <= t < |v| && 0 <= i + t < |MARKER| ensures v[t] == MARKER[i + t] {
          assert MARKER[i..i + |v|][t] == MARKER[i + t];
        }
        assert FitsOver(v, i);
      }
    }
  }

  /** No known value survives in any key or string of the sanitized JSON. */
  lemma SanitizedIsFree(p: Policy, j: Json, strings: seq<string>, integers: seq<nat>, v: string)
    requires v != "" && Apart(v) && v in strings
    ensures Free(v, Sanitize(p, j, strings, integers))
  {
    MarkerIsFree(v);
    forall s ensures !Occurs(v, Scrub(s, strings, integers)) {
      ScrubRemoves(s, strings, integers, v);
    }
    SanitizedEverywhere(p, j, strings, integers, (s: string) => !Occurs(v, s), (n: int) => true);
  }

  /** No known number survives as a number, or standing alone in a key or string. */
  lemma SanitizedIsNumberFree(p: Policy, j: Json, strings: seq<string>, integers: seq<nat>, n: nat)
    requires n > 0 && n in integers
    ensures NumberFree(n, Sanitize(p, j, strings, integers))
  {
    DigitsAreNumeral(n);
    NumeralIsApart(Digits(n));
    MarkerIsFree(Digits(n));
    forall s ensures !StandsAlone(Digits(n), Scrub(s, strings, integers)) {
      ScrubRemovesNumbers(s, strings, integers, n);
    }
    SanitizedEverywhere(p, j, strings, integers, (s: string) => !StandsAlone(Digits(n), s), (m: int) => m != n);
  }

  // ---- input and output side by side -----------------------------------------------------

  /** What a dictionary holds under a key. */
  function Lookup(fields: seq<Field>, key: string): Option<Json> {
    if fields == [] then None else if fields[0].key == key then Some(fields[0].value) else Lookup(fields[1..], key)
  }

  /** No later field takes this one's place: its key, once scrubbed, does not come again. */
  predicate Lasts(fields: seq<Field>, n: nat, i: nat, strings: seq<string>, integers: seq<nat>)
    requires i < n <= |fields|
  {
    forall k :: i < k < n ==> Scrub(fields[k].key, strings, integers) != Scrub(fields[i].key, strings, integers)
  }

  ghost predicate Named(fields: seq<Field>, n: nat, key: string, strings: seq<string>, integers: seq<nat>)
    requires n <= |fields|
  {
    exists i :: 0 <= i < n && Scrub(fields[i].key, strings, integers) == key
  }

  /**
   The output for an input, part by part: under a sensitive key exactly the marker, whatever the value; a known number
   is the marker; every other text is relabelled and then scrubbed; everything else is as it was.
   */
  ghost predicate Cleaned(p: Policy, j: Json, out: Json, strings: seq<string>, integers: seq<nat>)
    decreases j
  {
    match j
    case Str(s) => out == Str(Scrub(p.relabel(s), strings, integers))
    case Int(n) => out == if n > 0 && n in integers then Str(MARKER) else j
    case Arr(items) =>
      && out.Arr? && |out.items| == |items|
      && forall i :: 0 <= i < |items| ==> Cleaned(p, items[i], out.items[i], strings, integers)
    case Obj(fields) =>
      && out.Obj?
      && (forall key :: Lookup(out.fields, key).Some? <==> Named(fields, |fields|, key, strings, integers))
      && (forall i :: 0 <= i < |fields| && Lasts(fields, |fields|, i, strings, integers) ==>
            var held := Lookup(out.fields, Scrub(fields[i].key, strings, integers));
            && held.Some?
            && if p.sensitive(fields[i].key) then held.value == Str(MARKER)
               else Cleaned(p, fields[i].value, held.value, strings, integers))
    case _ => out == j
  }

  lemma {:induction false} PutThenLookup(fields: seq<Field>, f: Field, key: string)
    ensures Lookup(Put(fields, f), key) == if key == f.key then Some(f.value) else Lookup(fields, key)
  {
    if fields != [] && fields[0].key != f.key {
      PutThenLookup(fields[1..], f, key);
      assert Put(fields, f)[1..] == Put(fields[1..], f);
    } else if fields != [] {
      assert Put(fields, f)[1..] == fields[1..];
    }
  }

  /** Each field's own output is what the dictionary of the first n holds, unless a later one of them replaced it. */
  lemma {:induction false} FieldIsHeld(p: Policy, j: Json, n: nat, i: nat, strings: seq<string>, integers: seq<nat>)
    requires j.Obj? && i < n <= |j.fields| && Lasts(j.fields, n, i, strings, integers)
    ensures var f := CleanField(p, j.fields[i], strings, integers);
            Lookup(SanitizeFields(p, j, n, strings, integers), f.key) == Some(f.value)
    decreases n
  {
    var f := CleanField(p, j.fields[i], strings, integers);
    var last := CleanField(p, j.fields[n - 1], strings, integers);
    PutThenLookup(SanitizeFields(p, j, n - 1, strings, integers), last, f.key);
    if i < n - 1 {
      FieldIsHeld(p, j, n - 1, i, strings, integers);
    }
  }

  lemma {:induction false} KeysAreNamed(p: Policy, j: Json, n: nat, key: string, strings: seq<string>,
                                        integers: seq<nat>)
    requires j.Obj? && n <= |j.fields|
    ensures Lookup(SanitizeFields(p, j, n, strings, integers), key).Some? <==>
            Named(j.fields, n, key, strings, integers)
    decreases n
  {
    if n > 0 {
      var last := CleanField(p, j.fields[n - 1], strings, integers);
      PutThenLookup(SanitizeFields(p, j, n - 1, strings, integers), last, key);
      KeysAreNamed(p, j, n - 1, key, strings, integers);
    }
  }

  lemma {:induction false} SanitizedIsCleaned(p: Policy, j: Json, strings: seq<string>, integers: seq<nat>)
    ensures Cleaned(p, j, Sanitize(p, j, strings, integers), strings, integers)
    decreases j, 1
  {
    match j
    case Obj(fields) => ObjectIsCleaned(p, j, strings, integers);
    case Arr(items) =>
      forall i | 0 <= i < |items|
        ensures Cleaned(p, items[i], Sanitize(p, items[i], strings, integers), strings, integers)
      {
        SanitizedIsCleaned(p, items[i], strings, integers);
      }
    case _ =>
  }

  lemma {:induction false} ObjectIsCleaned(p: Policy, j: Json, strings: seq<string>, integers: seq<nat>)
    requires j.Obj?
    ensures Cleaned(p, j, Sanitize(p, j, strings, integers), strings, integers)
    decreases j, 0
  {
    var fields := j.fields;
    var out := Sanitize(p, j, strings, integers);
    forall key ensures Lookup(out.fields, key).Some? <==> Named(fields, |fields|, key, strings, integers) {
      KeysAreNamed(p, j, |fields|, key, strings, integers);
    }
    forall i | 0 <= i < |fields| && Lasts(fields, |fields|, i, strings, integers)
      ensures var f := CleanField(p, fields[i], strings, integers);
              Lookup(out.fields, f.key) == Some(f.value)
      ensures Cleaned(p, fields[i].value, Sanitize(p, fields[i].value, strings, integers), strings, integers)
    {
      FieldIsHeld(p, j, |fields|, i, strings, integers);
      SanitizedIsCleaned(p, fields[i].value, strings, integers);
    }
  }

  // ---- ordinary data ---------------------------------------------------------------------

  /** No known string occurs in the text, and no known number stands alone in it. */
  ghost predicate Ordinary(text: string, strings: seq<string>, integers: seq<nat>) {
    (forall v :: v in strings ==> !Occurs(v, text)) && forall n :: n in integers ==> !StandsAlone(Digits(n), text)
  }

  lemma WholeIsKept(text: string, digits: string)
    requires !StandsAlone(digits, text)
    ensures ReplaceWhole(text, digits) == text
  {
    forall k | 0 <= k < |text| ensures Kept(text, k, Whole(digits)) {
      assert !StandsAt(digits, text, k);
    }
    NothingToMark(text, Whole(digits));
  }

  lemma {:induction false} ScrubKeepsOrdinary(text: string, strings: seq<string>, integers: seq<nat>)
    requires Ordinary(text, strings, integers)
    ensures Scrub(text, strings, integers) == text
    decreases |strings| + |integers|
  {
    if strings != [] {
      AbsentIsKept(text, strings[0]);
      ScrubKeepsOrdinary(text, strings[1..], integers);
    } else if integers != [] {
      WholeIsKept(text, Digits(integers[0]));
      ScrubKeepsOrdinary(text, strings, integers[1..]);
    }
  }

  /** Neither labelled, nor known, nor under a sensitive key. */
  ghost predicate Untouched(p: Policy, j: Json, strings: seq<string>, integers: seq<nat>)
    decreases j
  {
    match j
    case Str(s) => p.relabel(s) == s && Ordinary(s, strings, integers)
    case Int(n) => !(n > 0 && n in integers)
    case Arr(items) => forall i :: 0 <= i < |items| ==> Untouched(p, items[i], strings, integers)
    case Obj(fields) =>
      && (forall i :: 0 <= i < |fields| ==>
            !p.sensitive(fields[i].key) && Ordinary(fields[i].key, strings, integers)
              && Untouched(p, fields[i].value, strings, integers))
      && (forall i, k :: 0 <= i < k < |fields| ==> fields[i].key != fields[k].key)
    case _ => true
  }

  lemma {:induction false} PutAppends(fields: seq<Field>, f: Field)
    requires forall i :: 0 <= i < |fields| ==> fields[i].key != f.key
    ensures Put(fields, f) == fields + [f]
  {
    if fields != [] {
      PutAppends(fields[1..], f);
      assert [fields[0]] + (fields[1..] + [f]) == fields + [f];
    }
  }

  /** Ordinary data survives intact. */
  lemma {:induction false} UntouchedSurvives(p: Policy, j: Json, strings: seq<string>, integers: seq<nat>)
    requires Untouched(p, j, strings, integers)
    ensures Sanitize(p, j, strings, integers) == j
    decreases j, 1
  {
    match j
    case Obj(fields) =>
      UntouchedFieldsSurvive(p, j, |fields|, strings, integers);
      assert fields[..|fields|] == fields;
    case Arr(items) =>
      forall i | 0 <= i < |items| ensures Sanitize(p, items[i], strings, integers) == items[i] {
        UntouchedSurvives(p, items[i], strings, integers);
      }
      assert Sanitize(p, j, strings, integers).items == items;
    case Str(s) => ScrubKeepsOrdinary(s, strings, integers);
    case _ =>
  }

  lemma {:induction false} UntouchedFieldsSurvive(p: Policy, j: Json, n: nat, strings: seq<string>, integers: seq<nat>)
    requires Untouched(p, j, strings, integers) && j.Obj? && n <= |j.fields|
    ensures SanitizeFields(p, j, n, strings, integers) == j.fields[..n]
    decreases j, 0, n
  {
    if n > 0 {
      var f := j.fields[n - 1];
      UntouchedFieldsSurvive(p, j, n - 1, strings, integers);
      ScrubKeepsOrdinary(f.key, strings, integers);
      UntouchedSurvives(p, f.value, strings, integers);
      PutAppends(j.fields[..n - 1], f);
      assert j.fields[..n] == j.fields[..n - 1] + [f];
    }
  }

  // ---- the projection --------------------------------------------------------------------

  datatype Authority = Text(text: string) | Number(number: int)

  lemma InsertedInOrder(values: seq<string>, i: nat, v: string)
    requires LongestFirst(values) && i <= |values|
    requires forall k :: 0 <= k < i ==> |values[k]| >= |v|
    requires i < |values| ==> |values[i]| < |v|
    ensures LongestFirst(values[..i] + [v] + values[i..])
  {
    var result := values[..i] + [v] + values[i..];
    forall a, b | 0 <= a < b < |result| ensures |result[a]| >= |result[b]| {
      assert b > i ==> result[b] == values[b - 1] && |values[b - 1]| <= |values[i]|;
      assert a > i ==> result[a] == values[a - 1];
    }
  }

  method InsertLongest(values: seq<string>, v: string) returns (result: seq<string>)
    requires LongestFirst(values)
    ensures LongestFirst(result) && forall x :: x in result <==> x == v || x in values
  {
    var i := 0;
    while i < |values| && |values[i]| >= |v|
      invariant 0 <= i <= |values|
      invariant forall k :: 0 <= k < i ==> |values[k]| >= |v|
    {
      i := i + 1;
    }
    InsertedInOrder(values, i, v);
    assert values == values[..i] + values[i..];
    result := values[..i] + [v] + values[i..];
  }

  /** Known non-empty strings, longest first, and known positive integers; the rest is dropped. */
  method Normalize(values: seq<Authority>) returns (strings: seq<string>, integers: seq<nat>)
    ensures LongestFirst(strings)
    ensures forall s :: s in strings <==> s != "" && Text(s) in values
    ensures forall n :: n in integers <==> n > 0 && Number(n) in values
  {
    strings, integers := [], [];
    for i := 0 to |values|
      invariant LongestFirst(strings)
      invariant forall s :: s in strings <==> s != "" && Text(s) in values[..i]
      invariant forall n :: n in integers <==> n > 0 && Number(n) in values[..i]
    {
      assert values[..i + 1] == values[..i] + [values[i]];
      match values[i]
      case Text(s) =>
        if s != "" && s !in strings {
          strings := InsertLongest(strings, s);
        }
      case Number(n) =>
        if n > 0 && n !in integers {
          integers := integers + [n];
        }
    }
    assert values[..|values|] == values;
  }

  /** The strings and numbers that are looked for. */
  ghost predicate Known(values: seq<Authority>, strings: seq<string>, integers: seq<nat>) {
    && LongestFirst(strings)
    && (forall s :: s in strings <==> s != "" && Text(s) in values)
    && (forall n :: n in integers <==> n > 0 && Number(n) in values)
  }

  /**
   The parent-facing summary and details, part by part; in particular no known string that stays apart from the marker
   is in either, and no known number is a number of the details or stands alone in a text.
   */
  method Project(p: Policy, summary: Option<string>, details: Json, values: seq<Authority>)
    returns (safeSummary: Option<string>, safeDetails: Json, ghost strings: seq<string>, ghost integers: seq<nat>)
    ensures Known(values, strings, integers)
    ensures safeSummary.Some? <==> summary.Some?
    ensures summary.Some? ==> safeSummary.value == Scrub(p.relabel(summary.value), strings, integers)
    ensures Cleaned(p, details, safeDetails, strings, integers)
    ensures forall v: string :: v != "" && Text(v) in values && Apart(v) ==>
            (safeSummary.Some? ==> !Occurs(v, safeSummary.value)) && Free(v, safeDetails)
    ensures forall n: nat :: n > 0 && Number(n) in values ==>
            (safeSummary.Some? ==> !StandsAlone(Digits(n), safeSummary.value)) && NumberFree(n, safeDetails)
  {
    var texts, numbers := Normalize(values);
    strings, integers := texts, numbers;
    safeSummary := None;
    if summary.Some? {
      var text := ScrubText(p.relabel(summary.value), texts, numbers);
      safeSummary := Some(text);
    }
    safeDetails := Sanitize(p, details, texts, numbers);
    SanitizedIsCleaned(p, details, strings, integers);
    forall v: string | v != "" && Text(v) in values && Apart(v)
      ensures (safeSummary.Some? ==> !Occurs(v, safeSummary.value)) && Free(v, safeDetails)
    {
      if summary.Some? {
        ScrubRemoves(p.relabel(summary.value), strings, integers, v);
      }
      SanitizedIsFree(p, details, strings, integers, v);
    }
    forall n: nat | n > 0 && Number(n) in values
      ensures (safeSummary.Some? ==> !StandsAlone(Digits(n), safeSummary.value)) && NumberFree(n, safeDetails)
    {
      if summary.Some? {
        ScrubRemovesNumbers(p.relabel(summary.value), strings, integers, n);
      }
      SanitizedIsNumberFree(p, details, strings, integers, n);
    }
  }
}
