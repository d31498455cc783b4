/** A run's event log and the stream that resumes from the last event a client has seen. */
module EventLog {
  import opened Common

  const PAGE: nat := 100

  type RunId = nat

  datatype Event = Event(sequence: nat, body: string)

  /** Sequences 1, 2, 3, ... without gaps or repeats. */
  ghost predicate GapFree(log: seq<Event>) {
    forall i :: 0 <= i < |log| ==> log[i].sequence == i + 1
  }

  function Numbered(bodies: seq<string>, start: nat): seq<Event> {
    seq(|bodies|, i requires 0 <= i < |bodies| => Event(start + i, bodies[i]))
  }

  lemma NumberedGrows(bodies: seq<string>, start: nat, n: nat)
    requires n < |bodies|
    ensures Numbered(bodies[..n + 1], start) == Numbered(bodies[..n], start) + [Event(start + n, bodies[n])]
  {
  }

  lemma BatchIsGapFree(log: seq<Event>, bodies: seq<string>)
    requires GapFree(log)
    ensures GapFree(log + Numbered(bodies, |log| + 1))
  {
  }

  /** The counters and rows behind the event store. */
  class EventStore {
    var counters: map<RunId, nat>
    var rows: map<RunId, seq<Event>>

    function Log(r: RunId): seq<Event>
      reads this
    {
      if r in rows then rows[r] else []
    }

    function NextFree(r: RunId): nat
      reads this
    {
      if r in counters then counters[r] else 1
    }

    /** The counter of a run is the next free sequence of its log. */
    ghost predicate Consistent(r: RunId)
      reads this
    {
      GapFree(Log(r)) && NextFree(r) == |Log(r)| + 1
    }

    ghost predicate Valid()
      reads this
    {
      forall r :: Consistent(r)
    }

    constructor ()
      ensures Valid() && forall r :: Log(r) == []
    {
      counters, rows := map[], map[];
    }

    /** Reserve a block and return its first sequence. */
    method ReserveSequences(r: RunId, count: nat) returns (start: nat)
      modifies this`counters
      ensures start == old(NextFree(r)) && counters == old(counters)[r := start + count]
    {
      start := NextFree(r);
      counters := counters[r := start + count];
    }

    method AppendRows(r: RunId, bodies: seq<string>, start: nat)
      modifies this`rows
      ensures Log(r) == old(Log(r)) + Numbered(bodies, start)
      ensures forall x :: x != r ==> Log(x) == old(Log(x))
    {
      ghost var log := Log(r);
      for offset := 0 to |bodies|
        invariant Log(r) == log + Numbered(bodies[..offset], start)
        invariant forall x :: x != r ==> Log(x) == old(Log(x))
      {
        NumberedGrows(bodies, start, offset);
        rows := rows[r := Log(r) + [Event(start + offset, bodies[offset])]];
      }
      assert bodies[..|bodies|] == bodies;
    }

    /** One batch, numbered consecutively behind whatever the run's log holds; other logs are untouched. */
    method AppendBatch(r: RunId, bodies: seq<string>)
      requires Valid() && |bodies| >= 1
      modifies this
      ensures Valid()
      ensures Log(r) == old(Log(r)) + Numbered(bodies, |old(Log(r))| + 1)
      ensures forall x :: x != r ==> Log(x) == old(Log(x))
    {
      assert Consistent(r);
      BatchIsGapFree(Log(r), bodies);
      var start := ReserveSequences(r, |bodies|);
      AppendRows(r, bodies, start);
      forall x ensures Consistent(x) {
        assert old(Consistent(x));
      }
    }
  }

  // ---- the query -------------------------------------------------------------------------

  /** The events with low < sequence <= high, in the order of the log. */
  function Window(log: seq<Event>, low: nat, high: nat): seq<Event> {
    if log == [] then []
    else
      var last := log[|log| - 1];
      Window(log[..|log| - 1], low, high) + (if low < last.sequence <= high then [last] else [])
  }

  /** WHERE sequence > after ORDER BY sequence, over a log kept in that order. */
  function Above(log: seq<Event>, after: nat): seq<Event> {
    if log == [] then []
    else
      var last := log[|log| - 1];
      Above(log[..|log| - 1], after) + (if last.sequence > after then [last] else [])
  }

  /** ... LIMIT limit. */
  function AfterSequence(log: seq<Event>, after: nat, limit: nat): seq<Event> {
    var rows := Above(log, after);
    if |rows| <= limit then rows else rows[..limit]
  }

  /** In a gap-free log the filter is a suffix. */
  lemma {:induction false} AboveIsSuffix(log: seq<Event>, after: nat)
    requires GapFree(log)
    ensures Above(log, after) == if after >= |log| then [] else log[after..]
  {
    if log != [] {
      AboveIsSuffix(log[..|log| - 1], after);
      if after < |log| {
        assert log[after..] == log[..|log| - 1][after..] + [log[|log| - 1]];
      }
    }
  }

  /** ... and a window of it is a slice. */
  lemma {:induction false} WindowIsSlice(log: seq<Event>, low: nat, high: nat)
    requires GapFree(log) && low <= high
    ensures Window(log, low, high) == log[Least(low, |log|)..Least(high, |log|)]
  {
    if log != [] {
      var front := log[..|log| - 1];
      WindowIsSlice(front, low, high);
      if high < |log| {
        assert log[low..high] == front[low..high];
      } else if low < |log| {
        assert log[low..|log|] == front[low..|front|] + [log[|log| - 1]];
      }
    }
  }

  /** The query returns the next page of the log. */
  lemma QueryIsPage(log: seq<Event>, after: nat, limit: nat)
    requires GapFree(log)
    ensures AfterSequence(log, after, limit) == if after >= |log| then [] else log[after..Least(|log|, after + limit)]
  {
    AboveIsSuffix(log, after);
  }

  // ---- the resumable stream --------------------------------------------------------------

  /** One poll: emit what is new in the page and remember the last sequence emitted. */
  method Poll(log: seq<Event>, lastSeen: nat) returns (emitted: seq<Event>, now: nat)
    requires GapFree(log)
    ensures emitted == AfterSequence(log, lastSeen, PAGE)
    ensures now == if emitted == [] then lastSeen else emitted[|emitted| - 1].sequence
    ensures emitted == Window(log, lastSeen, now) && |emitted| == now - lastSeen
  {
    var page := AfterSequence(log, lastSeen, PAGE);
    QueryIsPage(log, lastSeen, PAGE);
    emitted, now := [], lastSeen;
    for i := 0 to |page|
      invariant emitted == page[..i] && now == lastSeen + i
    {
      assert page[i] == log[lastSeen + i];
      if page[i].sequence > now {
        now := page[i].sequence;
        emitted := emitted + [page[i]];
      }
    }
    assert page[..|page|] == page;
    WindowIsSlice(log, lastSeen, now);
  }

  /** A client that resumed from `from` while the log grows. */
  datatype Session = Session(log: seq<Event>, lastSeen: nat, emitted: seq<Event>)

  datatype Step = Append(bodies: seq<string>) | Read

  function Next(s: Session, step: Step): Session {
    match step
    case Append(bodies) => s.(log := s.log + Numbered(bodies, |s.log| + 1))
    case Read =>
      var page := AfterSequence(s.log, s.lastSeen, PAGE);
      Session(s.log, if page == [] then s.lastSeen else page[|page| - 1].sequence, s.emitted + page)
  }

  function Run(s: Session, steps: seq<Step>): Session {
    if steps == [] then s else Next(Run(s, steps[..|steps| - 1]), steps[|steps| - 1])
  }

  /** What has been emitted is the slice of the log from just above `from` up to the last sequence seen. */
  ghost predicate InStep(s: Session, from: nat) {
    && GapFree(s.log)
    && (if s.lastSeen <= from then s.lastSeen == from && s.emitted == []
        else s.lastSeen <= |s.log| && s.emitted == s.log[from..s.lastSeen])
  }

  lemma NextInStep(s: Session, from: nat, step: Step)
    requires InStep(s, from)
    ensures InStep(Next(s, step), from) && |s.log| <= |Next(s, step).log| && s.log <= Next(s, step).log
  {
    var s' := Next(s, step);
    QueryIsPage(s.log, s.lastSeen, PAGE);
    if step.Append? {
      if s.lastSeen > from {
        assert s'.log[from..s.lastSeen] == s.log[from..s.lastSeen];
      }
    } else if s.lastSeen < |s.log| {
      var end := Least(|s.log|, s.lastSeen + PAGE);
      if s.lastSeen > from {
        assert s.log[from..s.lastSeen] + s.log[s.lastSeen..end] == s.log[from..end];
      }
    }
  }

  lemma {:induction false} StreamInStep(log: seq<Event>, from: nat, steps: seq<Step>)
    requires GapFree(log)
    ensures InStep(Run(Session(log, from, []), steps), from)
  {
    if steps != [] {
      StreamInStep(log, from, steps[..|steps| - 1]);
      NextInStep(Run(Session(log, from, []), steps[..|steps| - 1]), from, steps[|steps| - 1]);
    }
  }

  /**
   For every interleaving of appends and polls: the log stays gap-free, and the stream has emitted exactly the events
   with Last-Event-ID < sequence <= the last one seen, each once and in order; only an ID beyond the log exceeds it.
   */
  lemma StreamIsExact(log: seq<Event>, from: nat, steps: seq<Step>)
    requires GapFree(log)
    ensures var s := Run(Session(log, from, []), steps);
            && GapFree(s.log) && s.emitted == Window(s.log, from, s.lastSeen)
            && from <= s.lastSeen && (s.lastSeen <= |s.log| || s.lastSeen == from)
  {
    StreamInStep(log, from, steps);
    var s := Run(Session(log, from, []), steps);
    WindowIsSlice(s.log, from, s.lastSeen);
  }

  function Reads(n: nat): seq<Step> {
    seq(n, i => Read)
  }

  /** With no further appends, n polls deliver everything once n pages cover the backlog. */
  lemma {:induction false} StreamCatchesUp(log: seq<Event>, from: nat, n: nat)
    requires GapFree(log) && from <= |log| <= from + n * PAGE
    ensures Run(Session(log, from, []), Reads(n)).emitted == Above(log, from)
  {
    AboveIsSuffix(log, from);
    ReadsReach(log, from, n);
    StreamInStep(log, from, Reads(n));
    var s := Run(Session(log, from, []), Reads(n));
    if s.lastSeen > from {
      assert log[from..|log|] == log[from..];
    }
  }

  lemma {:induction false} ReadsReach(log: seq<Event>, from: nat, n: nat)
    requires GapFree(log) && from <= |log|
    ensures var s := Run(Session(log, from, []), Reads(n)); s.log == log && s.lastSeen == Least(|log|, from + n * PAGE)
  {
    if n > 0 {
      ReadsReach(log, from, n - 1);
      assert Reads(n)[..n - 1] == Reads(n - 1) && Reads(n)[n - 1] == Read;
      QueryIsPage(log, Least(|log|, from + (n - 1) * PAGE), PAGE);
    }
  }
}
