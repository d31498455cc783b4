/**
 A schedule and its fires on top of the runtime.  The recurrence rule is any function to a strictly later time; the
 scheduler's clock does not go back.
 */
module ScheduleFiring {
  import opened Common
  import opened RuntimeModel
  import opened RuntimeInvariants
  import opened RuntimeFrames
  import opened RuntimeProtocol
  import opened RuntimeEvolution
  import opened AttemptHistory

  datatype Kind = Once(runAt: Time) | Cron

  datatype ScheduleStatus = Enabled | Paused | Finished | Dropped

  datatype Schedule = Schedule(task: TaskId, kind: Kind, status: ScheduleStatus, nextFireAt: Option<Time>)

  datatype Fire = Fire(scheduledFor: Time, firedAt: Time, run: RunId)

  datatype Plan = Plan(w: World, schedule: Schedule, fires: seq<Fire>, clock: Time)

  datatype Tick = Runtime(step: Step)
                | FireDue(run: RunId, now: Time)
                | Pause(now: Time)
                | Resume(now: Time)
                | Stop(now: Time, cancelled: bool)

  type Recurrence = Time -> Time

  ghost predicate Advances(next: Recurrence) {
    forall t :: next(t) > t
  }

  /** The run a fire started, or a retry of it, has not ended. */
  ghost predicate OpenFire(runs: Runs, f: Fire) {
    HasActive(runs, f.run)
  }

  ghost predicate HasOpenFire(runs: Runs, fires: seq<Fire>) {
    exists i :: 0 <= i < |fires| && OpenFire(runs, fires[i])
  }

  /** The next occurrence after a fire: none for a one-shot, and for a recurring schedule the first one after now. */
  function CoalescedNext(s: Schedule, next: Recurrence, now: Time): Option<Time> {
    if s.kind.Once? then None else Some(next(now))
  }

  /** The next occurrence after a pause. */
  function NextOccurrence(s: Schedule, next: Recurrence, now: Time): Option<Time> {
    match s.kind
    case Once(runAt) => if runAt > now then Some(runAt) else None
    case Cron => Some(next(now))
  }

  function Reschedule(s: Schedule, at: Option<Time>): Schedule {
    s.(nextFireAt := at, status := if at.Some? then Enabled else Finished)
  }

  /** Fire a due occurrence by starting a run, unless an earlier fire is still open. */
  ghost function MaterializeOne(p: Plan, next: Recurrence, r: RunId, now: Time): Plan {
    var s, db := p.schedule, p.w.db;
    if !s.status.Enabled? || s.nextFireAt.None? || s.nextFireAt.value > now || s.task !in db.tasks then p
    else if db.tasks[s.task].TaskEnded? then p.(schedule := s.(status := Finished, nextFireAt := None))
    else if HasOpenFire(db.runs, p.fires) || StartRun(db, s.task, r, now).Abort? then p
    else Plan(p.w.(db := StartRun(db, s.task, r, now).db), Reschedule(s, CoalescedNext(s, next, now)),
              p.fires + [Fire(s.nextFireAt.value, now, r)], p.clock)
  }

  ghost function Control(p: Plan, next: Recurrence, tick: Tick): Plan {
    var s := p.schedule;
    match tick
    case Pause(_) => if s.status.Enabled? then p.(schedule := s.(status := Paused)) else p
    case Resume(now) => if s.status.Paused? then p.(schedule := Reschedule(s, NextOccurrence(s, next, now))) else p
    case Stop(_, cancelled) =>
      if s.status.Finished? || s.status.Dropped? then p
      else p.(schedule := s.(status := if cancelled then Dropped else Finished, nextFireAt := None))
    case _ => p
  }

  /** A tick that reads the clock; a reading before an earlier one does not occur. */
  ghost function NextPlan(cfg: Config, next: Recurrence, p: Plan, tick: Tick): Plan
    requires cfg.Valid()
  {
    match tick
    case Runtime(step) => p.(w := Next(cfg, p.w, step))
    case FireDue(r, now) => if now < p.clock then p else MaterializeOne(p.(clock := now), next, r, now)
    case _ => if tick.now < p.clock then p else Control(p.(clock := tick.now), next, tick)
  }

  ghost function Unfold(cfg: Config, next: Recurrence, p: Plan, ticks: seq<Tick>): Plan
    requires cfg.Valid()
  {
    if ticks == [] then p else NextPlan(cfg, next, Unfold(cfg, next, p, ticks[..|ticks| - 1]), ticks[|ticks| - 1])
  }

  // ---- the times of the fires ------------------------------------------------------------

  ghost predicate Times(p: Plan) {
    && (forall i :: 0 <= i < |p.fires| ==> p.fires[i].scheduledFor <= p.fires[i].firedAt <= p.clock)
    && (forall i, j :: 0 <= i < j < |p.fires| ==> p.fires[i].firedAt < p.fires[j].scheduledFor)
    && (p.schedule.nextFireAt.Some? ==> forall i :: 0 <= i < |p.fires| ==>
         p.fires[i].firedAt < p.schedule.nextFireAt.value)
    && (p.schedule.kind.Once? ==> |p.fires| <= 1)
    && (p.schedule.kind.Once? && p.fires != [] ==>
         p.schedule.nextFireAt.None? && (p.schedule.status.Finished? || p.schedule.status.Dropped?))
  }

  lemma FireKeepsTimes(p: Plan, next: Recurrence, r: RunId, now: Time)
    requires Times(p) && Advances(next) && p.clock == now
    ensures Times(MaterializeOne(p, next, r, now))
  {
    assert next(now) > now;
  }

  lemma ControlKeepsTimes(p: Plan, next: Recurrence, tick: Tick)
    requires Times(p) && Advances(next) && !tick.Runtime? && tick.now == p.clock
    ensures Times(Control(p, next, tick))
  {
    assert next(tick.now) > tick.now;
  }

  lemma NextKeepsTimes(cfg: Config, next: Recurrence, p: Plan, tick: Tick)
    requires cfg.Valid() && Advances(next) && Times(p)
    ensures Times(NextPlan(cfg, next, p, tick))
  {
    match tick
    case Runtime(step) =>
    case FireDue(r, now) =>
      if now >= p.clock {
        FireKeepsTimes(p.(clock := now), next, r, now);
      }
    case _ =>
      if tick.now >= p.clock {
        ControlKeepsTimes(p.(clock := tick.now), next, tick);
      }
  }

  // ---- at most one open fire -------------------------------------------------------------

  /** Fires started distinct executions of the schedule's task, at most one of which is open. */
  ghost predicate Started(p: Plan) {
    && (forall i :: 0 <= i < |p.fires| ==> RootOfTask(p.w.db.runs, p.fires[i].run, p.schedule.task))
    && (forall i, j ::
          0 <= i < |p.fires| && 0 <= j < |p.fires| && OpenFire(p.w.db.runs, p.fires[i])
          && OpenFire(p.w.db.runs, p.fires[j]) ==>
            i == j)
    && (forall i, j :: 0 <= i < j < |p.fires| ==> p.fires[i].run != p.fires[j].run)
  }

  predicate RootOfTask(runs: Runs, r: RunId, task: TaskId) {
    r in runs && runs[r].execution == r && runs[r].task == task
  }

  /** A manual retry reopens one execution, and only while its task has no open run. */
  lemma RetryReopensAlone(cfg: Config, w: World, step: Step, e: RunId)
    requires cfg.Valid() && Core(w.db) && ManualRetry(step) && e in w.db.runs && !HasActive(w.db.runs, e)
    ensures HasActive(Next(cfg, w, step).db.runs, e) ==>
              forall f ::
                f in w.db.runs && w.db.runs[f].execution == f && w.db.runs[f].task == w.db.runs[e].task
                && f != e ==>
                  !HasActive(Next(cfg, w, step).db.runs, f)
  {
    var r, retry, now := step.request.end.run, step.request.end.retry, step.request.end.now;
    var db' := After(w.db, RetryFailedRun(w.db, r, retry, now));
    assert Next(cfg, w, step).db == db';
    NextEvolves(cfg, w, step);
    if !RetryFailedRun(w.db, r, retry, now).Commit? || w.db.runs[r].execution != e {
      StaysClosed(w.db.runs, db'.runs, e);
    } else {
      forall f | f in w.db.runs && w.db.runs[f].execution == f && w.db.runs[f].task == w.db.runs[e].task && f != e
        ensures !HasActive(db'.runs, f)
      {
        assert Rooted(w.db.runs, r);
        NoneOpenOfTask(w.db, w.db.runs[r].task, f);
        StaysClosed(w.db.runs, db'.runs, f);
      }
    }
  }

  lemma NoneOpenOfTask(db: Db, task: TaskId, f: RunId)
    requires Core(db) && !(exists x :: x in db.runs && db.runs[x].task == task && !Terminal(db.runs[x].status))
    requires f in db.runs && db.runs[f].task == task
    ensures !HasActive(db.runs, f)
  {
    forall x ensures !Active(db.runs, x, f) {
      if x in db.runs && db.runs[x].execution == f {
        assert Rooted(db.runs, x);
      }
    }
  }

  lemma RuntimeKeepsStarted(cfg: Config, p: Plan, step: Step)
    requires cfg.Valid() && Core(p.w.db) && Started(p)
    ensures Started(p.(w := Next(cfg, p.w, step)))
  {
    var runs, runs' := p.w.db.runs, Next(cfg, p.w, step).db.runs;
    NextEvolves(cfg, p.w, step);
    forall i | 0 <= i < |p.fires| ensures RootOfTask(runs', p.fires[i].run, p.schedule.task) {
      assert RootOfTask(runs, p.fires[i].run, p.schedule.task);
      assert SameAttempt(runs[p.fires[i].run], runs'[p.fires[i].run]);
    }
    forall i, j | 0 <= i < |p.fires| && 0 <= j < |p.fires| && OpenFire(runs', p.fires[i]) && OpenFire(runs', p.fires[j])
      ensures i == j
    {
      if i != j {
        BothOpened(cfg, p, step, i, j);
      }
    }
  }

  lemma BothOpened(cfg: Config, p: Plan, step: Step, i: nat, j: nat)
    requires cfg.Valid() && Core(p.w.db) && Started(p) && i < |p.fires| && j < |p.fires| && i != j
    ensures !(OpenFire(Next(cfg, p.w, step).db.runs, p.fires[i]) && OpenFire(Next(cfg, p.w, step).db.runs, p.fires[j]))
  {
    var a, b := p.fires[i].run, p.fires[j].run;
    assert RootOfTask(p.w.db.runs, a, p.schedule.task) && RootOfTask(p.w.db.runs, b, p.schedule.task);
    if !HasActive(p.w.db.runs, a) {
      Reopened(cfg, p.w, step, a, b);
    } else {
      Reopened(cfg, p.w, step, b, a);
    }
  }

  lemma Reopened(cfg: Config, w: World, step: Step, e: RunId, f: RunId)
    requires cfg.Valid() && Core(w.db) && e != f && e in w.db.runs && !HasActive(w.db.runs, e)
    requires f in w.db.runs && w.db.runs[f].execution == f && w.db.runs[f].task == w.db.runs[e].task
    ensures !(HasActive(Next(cfg, w, step).db.runs, e) && HasActive(Next(cfg, w, step).db.runs, f))
  {
    if ManualRetry(step) {
      RetryReopensAlone(cfg, w, step, e);
    } else {
      ClosedForGood(cfg, w, step, e);
    }
  }

  lemma FireKeepsStarted(p: Plan, next: Recurrence, r: RunId, now: Time)
    requires Core(p.w.db) && Started(p)
    ensures Started(MaterializeOne(p, next, r, now))
  {
    var p' := MaterializeOne(p, next, r, now);
    if p'.fires != p.fires {
      var runs, runs' := p.w.db.runs, p'.w.db.runs;
      StartRunEvolves(p.w.db, p.schedule.task, r, now);
      forall i | 0 <= i < |p.fires|
        ensures !OpenFire(runs', p.fires[i]) && RootOfTask(runs', p.fires[i].run, p.schedule.task)
        ensures p.fires[i].run != r
      {
        assert RootOfTask(runs, p.fires[i].run, p.schedule.task);
        assert !OpenFire(runs, p.fires[i]);
        StaysClosed(runs, runs', p.fires[i].run);
      }
    }
  }

  // ---- every run -------------------------------------------------------------------------

  lemma StartRunKeepsCore(db: Db, task: TaskId, r: RunId, now: Time)
    requires Core(db)
    ensures StartRun(db, task, r, now).Commit? ==> Core(StartRun(db, task, r, now).db)
  {
    CoreIsInv(db);
    QueueTxnKeeps(db, CoreOnly(), DoStartRun(task, r, now));
  }

  lemma FireKeepsRows(p: Plan, next: Recurrence, r: RunId, now: Time)
    requires Core(p.w.db) && Started(p)
    ensures var p' := MaterializeOne(p, next, r, now); Core(p'.w.db) && Started(p')
  {
    FireKeepsStarted(p, next, r, now);
    StartRunKeepsCore(p.w.db, p.schedule.task, r, now);
  }

  lemma ControlKeepsRows(p: Plan, next: Recurrence, tick: Tick)
    requires Started(p)
    ensures var p' := Control(p, next, tick); p'.w == p.w && Started(p')
  {
  }

  lemma NextKeepsRows(cfg: Config, next: Recurrence, p: Plan, tick: Tick)
    requires cfg.Valid() && Core(p.w.db) && Started(p)
    ensures var p' := NextPlan(cfg, next, p, tick); Core(p'.w.db) && Started(p')
  {
    match tick
    case Runtime(step) =>
      NextKeepsCore(cfg, p.w, step);
      RuntimeKeepsStarted(cfg, p, step);
    case FireDue(r, now) =>
      if now >= p.clock {
        FireKeepsRows(p.(clock := now), next, r, now);
      }
    case _ =>
      if tick.now >= p.clock {
        ControlKeepsRows(p.(clock := tick.now), next, tick);
      }
  }

  /** A schedule that has not fired yet, over a fresh runtime. */
  ghost predicate Begins(p: Plan) {
    Fresh(p.w) && p.fires == []
  }

  lemma {:induction false} TimesAlways(cfg: Config, next: Recurrence, p: Plan, ticks: seq<Tick>)
    requires cfg.Valid() && Advances(next) && Begins(p)
    ensures Times(Unfold(cfg, next, p, ticks))
  {
    if ticks != [] {
      TimesAlways(cfg, next, p, ticks[..|ticks| - 1]);
      NextKeepsTimes(cfg, next, Unfold(cfg, next, p, ticks[..|ticks| - 1]), ticks[|ticks| - 1]);
    }
  }

  lemma {:induction false} RowsAlways(cfg: Config, next: Recurrence, p: Plan, ticks: seq<Tick>)
    requires cfg.Valid() && Begins(p)
    ensures Core(Unfold(cfg, next, p, ticks).w.db) && Started(Unfold(cfg, next, p, ticks))
  {
    if ticks == [] {
      FreshHolds(p.w);
    } else {
      RowsAlways(cfg, next, p, ticks[..|ticks| - 1]);
      NextKeepsRows(cfg, next, Unfold(cfg, next, p, ticks[..|ticks| - 1]), ticks[|ticks| - 1]);
    }
  }

  /**
   Over every interleaving of the runtime and the scheduler: a later fire's occurrence lies after the moment the earlier
   one fired, so occurrences strictly increase and missed ones coalesce; and a one-shot fires at most once.
   */
  lemma FiresIncrease(cfg: Config, next: Recurrence, p: Plan, ticks: seq<Tick>, i: nat, j: nat)
    requires cfg.Valid() && Advances(next) && Begins(p) && i < j < |Unfold(cfg, next, p, ticks).fires|
    ensures var fires := Unfold(cfg, next, p, ticks).fires;
            fires[i].scheduledFor <= fires[i].firedAt < fires[j].scheduledFor
    ensures !Unfold(cfg, next, p, ticks).schedule.kind.Once?
  {
    TimesAlways(cfg, next, p, ticks);
  }

  /** At most one scheduled execution is open at any time, retries included. */
  lemma OneOpenExecution(cfg: Config, next: Recurrence, p: Plan, ticks: seq<Tick>, i: nat, j: nat)
    requires cfg.Valid() && Begins(p) && i < |Unfold(cfg, next, p, ticks).fires|
    requires j < |Unfold(cfg, next, p, ticks).fires|
    requires var q := Unfold(cfg, next, p, ticks);
             OpenFire(q.w.db.runs, q.fires[i]) && OpenFire(q.w.db.runs, q.fires[j])
    ensures i == j
  {
    RowsAlways(cfg, next, p, ticks);
  }

  // ---- which occurrence comes next -------------------------------------------------------

  /** The first occurrence after an instant. */
  ghost predicate First(occurs: Time -> bool, after: Time, x: Time) {
    occurs(x) && x > after && forall y :: occurs(y) && y > after ==> x <= y
  }

  /** The rule yields the first occurrence after any instant. */
  ghost predicate Recurs(next: Recurrence, occurs: Time -> bool) {
    forall t :: First(occurs, t, next(t))
  }

  /** The instants at which the schedule was resumed. */
  function Resumes(ticks: seq<Tick>): set<Time> {
    set k | 0 <= k < |ticks| && ticks[k].Resume? :: ticks[k].now
  }

  /** The first occurrence after an instant, or after a later resume. */
  ghost predicate FirstSince(occurs: Time -> bool, resumes: set<Time>, after: Time, x: Time) {
    First(occurs, after, x) || exists m :: m in resumes && m >= after && First(occurs, m, x)
  }

  /** From one fire to the next, and from the last one to what is due. */
  ghost predicate Chained(p: Plan, occurs: Time -> bool, resumes: set<Time>) {
    && (forall i :: 0 < i < |p.fires| ==>
          FirstSince(occurs, resumes, p.fires[i - 1].firedAt, p.fires[i].scheduledFor))
    && (p.fires != [] && p.schedule.nextFireAt.Some? ==>
         FirstSince(occurs, resumes, p.fires[|p.fires| - 1].firedAt, p.schedule.nextFireAt.value))
  }

  lemma MoreResumes(p: Plan, occurs: Time -> bool, resumes: set<Time>, more: set<Time>)
    requires Chained(p, occurs, resumes) && resumes <= more
    ensures Chained(p, occurs, more)
  {
    forall i | 0 < i < |p.fires| ensures FirstSince(occurs, more, p.fires[i - 1].firedAt, p.fires[i].scheduledFor) {
      assert FirstSince(occurs, resumes, p.fires[i - 1].firedAt, p.fires[i].scheduledFor);
    }
  }

  lemma FireKeepsChain(p: Plan, next: Recurrence, occurs: Time -> bool, resumes: set<Time>, r: RunId, now: Time)
    requires Recurs(next, occurs) && Chained(p, occurs, resumes)
    ensures Chained(MaterializeOne(p, next, r, now), occurs, resumes)
  {
    assert First(occurs, now, next(now));
  }

  lemma ControlKeepsChain(p: Plan, next: Recurrence, occurs: Time -> bool, resumes: set<Time>, tick: Tick)
    requires Recurs(next, occurs) && Times(p) && Chained(p, occurs, resumes) && !tick.Runtime? && p.clock == tick.now
    requires tick.Resume? ==> tick.now in resumes
    ensures Chained(Control(p, next, tick), occurs, resumes)
  {
    assert First(occurs, tick.now, next(tick.now));
    if tick.Resume? && p.fires != [] && p.schedule.status.Paused? {
      assert p.schedule.kind.Cron?;
    }
  }

  lemma SameChain(p: Plan, q: Plan, occurs: Time -> bool, resumes: set<Time>)
    requires Chained(p, occurs, resumes) && q.fires == p.fires && q.schedule == p.schedule
    ensures Chained(q, occurs, resumes)
  {
  }

  lemma LaterTimes(p: Plan, now: Time)
    requires Times(p) && p.clock <= now
    ensures Times(p.(clock := now))
  {
  }

  lemma NextKeepsChain(cfg: Config, next: Recurrence, occurs: Time -> bool, resumes: set<Time>, p: Plan, tick: Tick)
    requires cfg.Valid() && Recurs(next, occurs) && Times(p) && Chained(p, occurs, resumes)
    requires tick.Resume? ==> tick.now in resumes
    ensures Chained(NextPlan(cfg, next, p, tick), occurs, resumes)
  {
    if tick.Runtime? {
      SameChain(p, NextPlan(cfg, next, p, tick), occurs, resumes);
    } else if tick.now >= p.clock {
      var q := p.(clock := tick.now);
      SameChain(p, q, occurs, resumes);
      LaterTimes(p, tick.now);
      if tick.FireDue? {
        FireKeepsChain(q, next, occurs, resumes, tick.run, tick.now);
      } else {
        ControlKeepsChain(q, next, occurs, resumes, tick);
      }
    }
  }

  lemma RecurringAdvances(next: Recurrence, occurs: Time -> bool)
    requires Recurs(next, occurs)
    ensures Advances(next)
  {
    forall t ensures next(t) > t {
      assert First(occurs, t, next(t));
    }
  }

  lemma {:induction false} ChainAlways(cfg: Config, next: Recurrence, occurs: Time -> bool, p: Plan, ticks: seq<Tick>)
    requires cfg.Valid() && Recurs(next, occurs) && Begins(p)
    ensures Chained(Unfold(cfg, next, p, ticks), occurs, Resumes(ticks))
  {
    if ticks != [] {
      var front := ticks[..|ticks| - 1];
      var q := Unfold(cfg, next, p, front);
      ChainAlways(cfg, next, occurs, p, front);
      RecurringAdvances(next, occurs);
      TimesAlways(cfg, next, p, front);
      MoreResumes(q, occurs, Resumes(front), Resumes(ticks));
      NextKeepsChain(cfg, next, occurs, Resumes(ticks), q, ticks[|ticks| - 1]);
    }
  }

  /**
   Missed occurrences coalesce into exactly one: over every interleaving, what fires after a fire is the first
   occurrence after the moment of that fire, or after a later moment at which the schedule was resumed.
   */
  lemma FiresAreFirst(cfg: Config, next: Recurrence, occurs: Time -> bool, p: Plan, ticks: seq<Tick>, i: nat)
    requires cfg.Valid() && Recurs(next, occurs) && Begins(p) && 0 < i < |Unfold(cfg, next, p, ticks).fires|
    ensures var fires := Unfold(cfg, next, p, ticks).fires;
            FirstSince(occurs, Resumes(ticks), fires[i - 1].firedAt, fires[i].scheduledFor)
  {
    ChainAlways(cfg, next, occurs, p, ticks);
  }

  /** Due, with an open task, no earlier fire still open, and a free run id. */
  ghost predicate Fireable(p: Plan, r: RunId, now: Time) {
    && p.schedule.status.Enabled? && p.schedule.nextFireAt.Some? && p.schedule.nextFireAt.value <= now
    && p.schedule.task in p.w.db.tasks && !p.w.db.tasks[p.schedule.task].TaskEnded?
    && r !in p.w.db.runs && !HasOpenFire(p.w.db.runs, p.fires)
  }

  /** One new fire of the due occurrence, and its queued run. */
  predicate Fired(p: Plan, p': Plan, r: RunId, now: Time) {
    && p.schedule.nextFireAt.Some?
    && p'.fires == p.fires + [Fire(p.schedule.nextFireAt.value, now, r)]
    && p'.w.db.runs == p.w.db.runs[r := Run(p.schedule.task, r, now, Queued, None, None)]
    && r in p'.w.db.queue && p'.w.db.queue[r].availableAt == now
    && p'.schedule.status == (if p.schedule.kind.Once? then Finished else Enabled)
    && (p.schedule.kind.Once? ==> p'.schedule.nextFireAt.None?)
  }

  // ---- the scheduler as it runs ----------------------------------------------------------

  class Scheduler {
    var w: World
    var schedule: Schedule
    var fires: seq<Fire>
    var clock: Time

    function Contents(): Plan
      reads this
    {
      Plan(w, schedule, fires, clock)
    }

    method FindOpenFire() returns (open: bool)
      ensures open <==> HasOpenFire(w.db.runs, fires)
    {
      for i := 0 to |fires|
        invariant forall k :: 0 <= k < i ==> !OpenFire(w.db.runs, fires[k])
      {
        if exists r :: r in w.db.runs && Active(w.db.runs, r, fires[i].run) {
          assert OpenFire(w.db.runs, fires[i]);
          return true;
        }
      }
      return false;
    }

    /** One due schedule: complete it with its task, leave it due behind an open execution, or fire and advance it. */
    method FireOne(next: Recurrence, r: RunId, now: Time) returns (fired: bool)
      modifies this
      ensures Contents() == MaterializeOne(old(Contents()), next, r, now)
      ensures fired <==> Fireable(old(Contents()), r, now)
      ensures fired ==> Fired(old(Contents()), Contents(), r, now)
      ensures forall occurs :: Recurs(next, occurs) && fired && old(schedule).kind.Cron? ==>
                schedule.nextFireAt.Some? && First(occurs, now, schedule.nextFireAt.value)
    {
      forall occurs | Recurs(next, occurs) ensures First(occurs, now, next(now)) {
      }
      fired := false;
      if !schedule.status.Enabled? || schedule.nextFireAt.None? || schedule.nextFireAt.value > now
         || schedule.task !in w.db.tasks {
        return;
      }
      if w.db.tasks[schedule.task].TaskEnded? {
        schedule := schedule.(status := Finished, nextFireAt := None);
        return;
      }
      var open := FindOpenFire();
      var started := StartRun(w.db, schedule.task, r, now);
      if open || started.Abort? {
        return;
      }
      w := w.(db := started.db);
      fires := fires + [Fire(schedule.nextFireAt.value, now, r)];
      schedule := Reschedule(schedule, CoalescedNext(schedule, next, now));
      fired := true;
    }
  }
}
