/**
 The conversation section of the prompt: the newest lines that fit, behind a header and a count of what was left out.
 `collapse` joins the words of a text with single blanks.
 */
module ConversationSection {
  import opened Common

  const HEADER: string := "# CONVERSATION"
  const SUFFIX: string := "\U{2026}[truncated]"

  datatype Context = Context(lines: seq<string>, omitted: nat)

  function Notice(omitted: nat): string {
    "[" + Digits(omitted) + " older turn(s) omitted]"
  }

  function Prefix(omitted: nat): seq<string> {
    if omitted == 0 then [HEADER] else [HEADER, Notice(omitted)]
  }

  /** Lines separated by newlines. */
  function Join(lines: seq<string>): string {
    if lines == [] then "" else if |lines| == 1 then lines[0] else lines[0] + "\n" + Join(lines[1..])
  }

  function Clip(collapse: string -> string, text: string, limit: nat): (clipped: string)
    requires limit > |SUFFIX|
    ensures |clipped| <= limit
  {
    var collapsed := collapse(text);
    if |collapsed| <= limit then collapsed else collapsed[..limit - |SUFFIX|] + SUFFIX
  }

  /** The lines kept so far, oldest first, and how many were left out. */
  datatype Window = Window(kept: seq<string>, omitted: nat)

  function Document(w: Window): string {
    Join(Prefix(w.omitted) + w.kept)
  }

  function Room(omitted: nat, maxChars: nat): int {
    maxChars - |Join(Prefix(omitted))| - 1
  }

  /** One line further back: keep it if the section still fits, or keep as much of the very newest one as does. */
  function Absorb(collapse: string -> string, w: Window, line: string, maxChars: nat): Window {
    if |Join(Prefix(w.omitted) + [line] + w.kept)| <= maxChars then Window([line] + w.kept, w.omitted)
    else if w.kept == [] && Room(w.omitted + 1, maxChars) > |SUFFIX|
    then Window([Clip(collapse, line, Room(w.omitted + 1, maxChars))], w.omitted + 1)
    else w.(omitted := w.omitted + 1)
  }

  function AbsorbAll(collapse: string -> string, w: Window, lines: seq<string>, maxChars: nat): Window
    decreases |lines|
  {
    if lines == [] then w
    else AbsorbAll(collapse, Absorb(collapse, w, lines[|lines| - 1], maxChars), lines[..|lines| - 1], maxChars)
  }

  /** The growing count may push a kept line over the edge again. */
  function Evict(w: Window, maxChars: nat): Window
    decreases |w.kept|
  {
    if |Document(w)| > maxChars && |w.kept| > 1 then Evict(Window(w.kept[1..], w.omitted + 1), maxChars) else w
  }

  /** Clip the last line that is left; if even that does not help, show as much of the header as fits. */
  function Finish(collapse: string -> string, w: Window, maxChars: nat): (document: string)
    ensures |document| <= maxChars
  {
    var document :=
      if |Document(w)| > maxChars && w.kept != [] && Room(w.omitted, maxChars) > |SUFFIX|
      then Join(Prefix(w.omitted) + [Clip(collapse, w.kept[|w.kept| - 1], Room(w.omitted, maxChars))])
      else Document(w);
    if |document| <= maxChars then document else if maxChars < |HEADER| then HEADER[..maxChars] else HEADER
  }

  function Section(collapse: string -> string, c: Context, maxChars: nat): (document: string)
    ensures |document| <= maxChars
  {
    if c.lines == [] && c.omitted == 0 then ""
    else Finish(collapse, Evict(AbsorbAll(collapse, Window([], c.omitted), c.lines, maxChars), maxChars), maxChars)
  }

  /** Two loops and a last resort; the result is never longer than asked for. */
  method BuildSection(collapse: string -> string, c: Context, maxChars: nat) returns (document: string)
    requires maxChars >= 1
    ensures document == Section(collapse, c, maxChars)
  {
    if c.lines == [] && c.omitted == 0 {
      return "";
    }
    var w := Window([], c.omitted);
    var i := |c.lines|;
    assert c.lines[..i] == c.lines;
    while i > 0
      invariant i <= |c.lines|
      invariant AbsorbAll(collapse, w, c.lines[..i], maxChars) ==
                AbsorbAll(collapse, Window([], c.omitted), c.lines, maxChars)
    {
      i := i - 1;
      assert c.lines[..i + 1][..i] == c.lines[..i];
      w := Absorb(collapse, w, c.lines[i], maxChars);
    }
    ghost var absorbed := w;
    while |Document(w)| > maxChars && |w.kept| > 1
      invariant Evict(w, maxChars) == Evict(absorbed, maxChars)
      decreases |w.kept|
    {
      w := Window(w.kept[1..], w.omitted + 1);
    }
    document := Finish(collapse, w, maxChars);
  }

  // ---- nothing is left out needlessly ----------------------------------------------------

  lemma {:induction false} JoinGrows(front: seq<string>, line: string, back: seq<string>)
    ensures |Join(front + back)| <= |Join(front + [line] + back)|
  {
    if front == [] {
      assert front + back == back && front + [line] + back == [line] + back;
      assert ([line] + back)[1..] == back;
    } else {
      assert (front + back)[1..] == front[1..] + back && (front + [line] + back)[1..] == front[1..] + [line] + back;
      JoinGrows(front[1..], line, back);
    }
  }

  lemma {:induction false} JoinGrowsBy(front: seq<string>, lines: seq<string>, back: seq<string>)
    ensures |Join(front + back)| <= |Join(front + lines + back)|
  {
    if lines == [] {
      assert front + lines + back == front + back;
    } else {
      JoinGrowsBy(front, lines[1..], back);
      JoinGrows(front, lines[0], lines[1..] + back);
      assert front + [lines[0]] + (lines[1..] + back) == front + lines + back;
      assert front + (lines[1..] + back) == front + lines[1..] + back;
    }
  }

  lemma {:induction false} AbsorbsWhatFits(collapse: string -> string, w: Window, lines: seq<string>, maxChars: nat)
    requires |Document(Window(lines + w.kept, w.omitted))| <= maxChars
    ensures AbsorbAll(collapse, w, lines, maxChars) == Window(lines + w.kept, w.omitted)
    decreases |lines|
  {
    if lines == [] {
      assert lines + w.kept == w.kept;
    } else {
      var front, last := lines[..|lines| - 1], lines[|lines| - 1];
      var kept := [last] + w.kept;
      assert lines + w.kept == front + kept;
      assert Prefix(w.omitted) + (front + kept) == Prefix(w.omitted) + front + kept;
      JoinGrowsBy(Prefix(w.omitted), front, kept);
      assert Prefix(w.omitted) + kept == Prefix(w.omitted) + [last] + w.kept;
      AbsorbsWhatFits(collapse, Window(kept, w.omitted), front, maxChars);
    }
  }

  /** A conversation that fits is shown whole. */
  lemma SectionIsWhole(collapse: string -> string, c: Context, maxChars: nat)
    requires c.lines != [] || c.omitted > 0
    requires |Join(Prefix(c.omitted) + c.lines)| <= maxChars
    ensures Section(collapse, c, maxChars) == Join(Prefix(c.omitted) + c.lines)
  {
    assert c.lines + [] == c.lines;
    AbsorbsWhatFits(collapse, Window([], c.omitted), c.lines, maxChars);
  }

  // ---- what a shortened conversation shows -----------------------------------------------

  /** Positions in the conversation, oldest first. */
  ghost predicate Choice(chosen: seq<nat>, n: nat) {
    && (forall k :: 0 <= k < |chosen| ==> chosen[k] < n)
    && (forall k, m :: 0 <= k < m < |chosen| ==> chosen[k] < chosen[m])
  }

  function Pick(lines: seq<string>, chosen: seq<nat>): seq<string>
    requires forall k :: 0 <= k < |chosen| ==> chosen[k] < |lines|
  {
    seq(|chosen|, k requires 0 <= k < |chosen| => lines[chosen[k]])
  }

  /** With something kept already, each older line is kept whole or counted. */
  lemma {:induction false} AbsorbsOrCounts(collapse: string -> string, w: Window, lines: seq<string>, maxChars: nat)
    returns (chosen: seq<nat>)
    requires w.kept != []
    ensures Choice(chosen, |lines|)
    ensures var w' := AbsorbAll(collapse, w, lines, maxChars);
            w'.kept == Pick(lines, chosen) + w.kept && w'.omitted + |chosen| == w.omitted + |lines|
    decreases |lines|
  {
    if lines == [] {
      chosen := [];
      assert Pick(lines, chosen) + w.kept == w.kept;
    } else {
      var front, last := lines[..|lines| - 1], lines[|lines| - 1];
      var w' := Absorb(collapse, w, last, maxChars);
      chosen := AbsorbsOrCounts(collapse, w', front, maxChars);
      assert Pick(front, chosen) == Pick(lines, chosen);
      if w'.omitted == w.omitted {
        var more := chosen + [|front|];
        assert Pick(lines, more) == Pick(lines, chosen) + [last];
        assert Pick(lines, chosen) + ([last] + w.kept) == Pick(lines, more) + w.kept;
        chosen := more;
      }
    }
  }

  /**
   The window shows these lines of the conversation, the newest of them clipped if so said, and counts every line that
   it does not show whole.
   */
  ghost predicate Shows(collapse: string -> string, c: Context, w: Window, chosen: seq<nat>, clipped: Option<nat>) {
    && Choice(chosen, |c.lines|)
    && match clipped
       case None => w.kept == Pick(c.lines, chosen) && w.omitted + |chosen| == c.omitted + |c.lines|
       case Some(limit) =>
         && chosen != [] && limit > |SUFFIX|
         && var n := |chosen| - 1;
            && w.kept == Pick(c.lines, chosen[..n]) + [Clip(collapse, c.lines[chosen[n]], limit)]
            && w.omitted + n == c.omitted + |c.lines|
  }

  lemma {:induction false} AbsorbShows(collapse: string -> string, c: Context, maxChars: nat)
    returns (chosen: seq<nat>, clipped: Option<nat>)
    ensures Shows(collapse, c, AbsorbAll(collapse, Window([], c.omitted), c.lines, maxChars), chosen, clipped)
    ensures NewestFits(c, maxChars) ==> clipped.None? && chosen != [] && chosen[|chosen| - 1] == |c.lines| - 1
    decreases |c.lines|
  {
    if c.lines == [] {
      chosen, clipped := [], None;
      assert Pick(c.lines, []) == [];
    } else {
      var w := Absorb(collapse, Window([], c.omitted), c.lines[|c.lines| - 1], maxChars);
      FitsIfKept(collapse, c, maxChars);
      if w.kept == [] {
        var front := c.lines[..|c.lines| - 1];
        chosen, clipped := AbsorbShows(collapse, Context(front, c.omitted + 1), maxChars);
        FrontShows(collapse, c, AbsorbAll(collapse, w, front, maxChars), chosen, clipped);
      } else {
        chosen, clipped := NewestShown(collapse, c, w, maxChars);
      }
    }
  }

  lemma FitsIfKept(collapse: string -> string, c: Context, maxChars: nat)
    requires c.lines != []
    ensures var w := Absorb(collapse, Window([], c.omitted), c.lines[|c.lines| - 1], maxChars);
            && (NewestFits(c, maxChars) ==> w.kept != [] && w.omitted == c.omitted)
            && (w.kept == [] ==> w == Window([], c.omitted + 1))
  {
    var last := c.lines[|c.lines| - 1];
    assert Prefix(c.omitted) + [last] + [] == Prefix(c.omitted) + [last];
  }

  lemma FrontShows(collapse: string -> string, c: Context, w: Window, chosen: seq<nat>, clipped: Option<nat>)
    requires c.lines != []
    requires Shows(collapse, Context(c.lines[..|c.lines| - 1], c.omitted + 1), w, chosen, clipped)
    ensures Shows(collapse, c, w, chosen, clipped)
  {
    PickFront(c.lines, c.lines[..|c.lines| - 1], chosen);
  }

  /** The newest line is kept, whole or clipped. */
  lemma NewestShown(collapse: string -> string, c: Context, w: Window, maxChars: nat)
    returns (chosen: seq<nat>, clipped: Option<nat>)
    requires c.lines != [] && w.kept != []
    requires w == Absorb(collapse, Window([], c.omitted), c.lines[|c.lines| - 1], maxChars)
    ensures Shows(collapse, c, AbsorbAll(collapse, w, c.lines[..|c.lines| - 1], maxChars), chosen, clipped)
    ensures clipped.None? <==> w.omitted == c.omitted
    ensures chosen != [] && chosen[|chosen| - 1] == |c.lines| - 1
  {
    var front, last := c.lines[..|c.lines| - 1], c.lines[|c.lines| - 1];
    var older := AbsorbsOrCounts(collapse, w, front, maxChars);
    PickFront(c.lines, front, older);
    chosen, clipped := older + [|front|], None;
    assert chosen[..|older|] == older;
    if w.omitted == c.omitted {
      assert w.kept == [last];
      assert Pick(c.lines, chosen) == Pick(c.lines, older) + [last];
    } else {
      clipped := Some(Room(c.omitted + 1, maxChars));
    }
  }

  lemma PickFront(lines: seq<string>, front: seq<string>, chosen: seq<nat>)
    requires front <= lines && Choice(chosen, |front|)
    ensures Pick(lines, chosen) == Pick(front, chosen)
    ensures chosen != [] ==> Pick(lines, chosen[..|chosen| - 1]) == Pick(front, chosen[..|chosen| - 1])
  {
  }

  /** The newest line fits under the header. */
  predicate NewestFits(c: Context, maxChars: nat) {
    c.lines != [] && |Join(Prefix(c.omitted) + [c.lines[|c.lines| - 1]])| <= maxChars
  }

  /** Dropping the oldest shown line moves it to the count. */
  lemma {:induction false} EvictShows(collapse: string -> string, c: Context, w: Window, chosen: seq<nat>,
                                      clipped: Option<nat>, maxChars: nat)
    returns (rest: seq<nat>)
    requires Shows(collapse, c, w, chosen, clipped)
    ensures Shows(collapse, c, Evict(w, maxChars), rest, clipped)
    ensures |chosen| > 0 ==> |rest| > 0 && rest[|rest| - 1] == chosen[|chosen| - 1]
    decreases |w.kept|
  {
    rest := chosen;
    if |Document(w)| > maxChars && |w.kept| > 1 {
      var fewer := chosen[1..];
      var w' := Window(w.kept[1..], w.omitted + 1);
      if clipped.Some? {
        var n := |chosen| - 1;
        assert fewer[..n - 1] == chosen[..n][1..];
        assert Pick(c.lines, chosen[..n])[1..] == Pick(c.lines, fewer[..n - 1]);
      } else {
        assert Pick(c.lines, chosen)[1..] == Pick(c.lines, fewer);
      }
      assert Shows(collapse, c, w', fewer, clipped);
      rest := EvictShows(collapse, c, w', fewer, clipped, maxChars);
    }
  }

  /** As much of the header as fits, or the newest shown line alone, clipped. */
  ghost predicate LastResort(collapse: string -> string, w: Window, maxChars: nat, document: string) {
    || document == HEADER[..if maxChars < |HEADER| then maxChars else |HEADER|]
    || (w.kept != [] && Room(w.omitted, maxChars) > |SUFFIX|
        && document == Join(Prefix(w.omitted) + [Clip(collapse, w.kept[|w.kept| - 1], Room(w.omitted, maxChars))]))
  }

  /**
   Every section is a header, the count of the lines it does not show whole, and lines of the conversation in their
   order, ending with the newest one if that fits; only a section that is still too long falls back to less.
   */
  lemma SectionShows(collapse: string -> string, c: Context, maxChars: nat)
    returns (w: Window, chosen: seq<nat>, clipped: Option<nat>)
    requires c.lines != [] || c.omitted > 0
    ensures Shows(collapse, c, w, chosen, clipped)
    ensures NewestFits(c, maxChars) ==> clipped.None? && chosen != [] && chosen[|chosen| - 1] == |c.lines| - 1
    ensures |Document(w)| <= maxChars ==> Section(collapse, c, maxChars) == Document(w)
    ensures |Document(w)| > maxChars ==>
            |w.kept| <= 1 && LastResort(collapse, w, maxChars, Section(collapse, c, maxChars))
  {
    var all := AbsorbAll(collapse, Window([], c.omitted), c.lines, maxChars);
    chosen, clipped := AbsorbShows(collapse, c, maxChars);
    chosen := EvictShows(collapse, c, all, chosen, clipped, maxChars);
    w := Evict(all, maxChars);
    EvictStops(all, maxChars);
    if |Document(w)| > maxChars {
      assert HEADER[..|HEADER|] == HEADER;
    }
  }

  lemma {:induction false} EvictStops(w: Window, maxChars: nat)
    ensures var w' := Evict(w, maxChars); |Document(w')| <= maxChars || |w'.kept| <= 1
    decreases |w.kept|
  {
    if |Document(w)| > maxChars && |w.kept| > 1 {
      EvictStops(Window(w.kept[1..], w.omitted + 1), maxChars);
    }
  }
}
