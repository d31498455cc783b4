/**
 The worklist that collects what may authorize anything in a delegated subtree: it visits exactly the executions
 reachable through nested delegations and gathers exactly their values.
 */
module AuthorityClosure {
  import opened Common
  import opened RuntimeModel

  /** A value that can take part in an authorization. */
  datatype Secret = ApprovalRef(approval: ApprovalId)
                  | ToolRef(tool: ToolId)
                  | ClaimToken(token: string)
                  | ActionPrint(fingerprint: Fingerprint)
                  | BindingPrint(external: ToolId)
                  | RequestPrint(request: DelegationId)

  function Ref(a: Option<ApprovalId>): set<Secret> {
    if a.Some? then {ApprovalRef(a.value)} else {}
  }

  function ApprovalSecrets(id: ApprovalId, a: Approval): set<Secret> {
    {ApprovalRef(id)} + if a.fingerprint.Some? then {ActionPrint(a.fingerprint.value)} else {}
  }

  function ToolSecrets(id: ToolId, t: Tool): set<Secret> {
    {ToolRef(id)} + Ref(t.approval) + if t.external then {BindingPrint(id)} else {}
  }

  function LeaseSecrets(queue: map<RunId, WorkItem>, r: RunId): set<Secret> {
    if r in queue && queue[r].lease.Some? then {ClaimToken(queue[r].lease.value.token)} else {}
  }

  /**
   Everything one attempt holds: its marker and lease, its steps, approvals and invocations, and the requests it made.
   */
  predicate Holds(db: Db, r: RunId, v: Secret) {
    || (r in db.runs && v in Ref(db.runs[r].approval))
    || v in LeaseSecrets(db.queue, r)
    || (exists s :: s in db.steps && db.steps[s].run == r && v in Ref(db.steps[s].approval))
    || (exists a :: a in db.approvals && db.approvals[a].run == r && v in ApprovalSecrets(a, db.approvals[a]))
    || (exists t :: t in db.tools && db.tools[t].run == r && v in ToolSecrets(t, db.tools[t]))
    || (exists d :: d in db.delegations && db.delegations[d].parent == r && v == RequestPrint(d))
  }

  ghost predicate ExecutionHolds(db: Db, e: RunId, v: Secret) {
    exists r :: Attempt(db.runs, r, e) && Holds(db, r, v)
  }

  /** Some attempt of e delegated to execution f. */
  predicate Nested(db: Db, e: RunId, d: DelegationId, f: RunId) {
    && d in db.delegations && Attempt(db.runs, db.delegations[d].parent, e)
    && db.delegations[d].child.Some? && db.delegations[d].child.value in db.runs
    && db.runs[db.delegations[d].child.value].execution == f
  }

  ghost predicate Step(db: Db, e: RunId, f: RunId) {
    exists d :: Nested(db, e, d, f)
  }

  ghost predicate Path(db: Db, path: seq<RunId>) {
    path != [] && forall k :: 0 <= k < |path| - 1 ==> Step(db, path[k], path[k + 1])
  }

  ghost predicate Leads(db: Db, path: seq<RunId>, start: RunId, e: RunId) {
    Path(db, path) && path[0] == start && path[|path| - 1] == e
  }

  ghost predicate Reachable(db: Db, start: RunId, e: RunId) {
    exists path :: Leads(db, path, start, e)
  }

  lemma Extends(db: Db, start: RunId, e: RunId, f: RunId)
    requires Reachable(db, start, e) && Step(db, e, f)
    ensures Reachable(db, start, f)
  {
    var path :| Leads(db, path, start, e);
    var longer := path + [f];
    forall k | 0 <= k < |longer| - 1 ensures Step(db, longer[k], longer[k + 1]) {
      if k < |path| - 1 {
        assert Step(db, path[k], path[k + 1]);
      }
    }
    assert Leads(db, longer, start, f);
  }

  /** A set of executions that contains the start and is closed under delegation contains all that is reachable. */
  lemma {:induction false} ClosedContains(db: Db, visited: set<RunId>, path: seq<RunId>)
    requires Path(db, path) && path[0] in visited
    requires forall e, f :: e in visited && Step(db, e, f) ==> f in visited
    ensures path[|path| - 1] in visited
    decreases |path|
  {
    if |path| > 1 {
      var front := path[..|path| - 1];
      forall k | 0 <= k < |front| - 1 ensures Step(db, front[k], front[k + 1]) {
        assert Step(db, path[k], path[k + 1]);
      }
      ClosedContains(db, visited, front);
      assert Step(db, path[|path| - 2], path[|path| - 1]);
    }
  }

  /** Every execution that occurs in the database. */
  function AllExecutions(db: Db): set<RunId> {
    set r | r in db.runs :: db.runs[r].execution
  }

  /** The values of one execution, attempt by attempt. */
  method Gather(db: Db, e: RunId) returns (values: set<Secret>)
    ensures forall v :: v in values <==> ExecutionHolds(db, e, v)
  {
    values := {};
    var pending := set r | r in db.runs && db.runs[r].execution == e;
    while pending != {}
      invariant forall r :: r in pending ==> Attempt(db.runs, r, e)
      invariant forall v :: v in values <==> exists r :: Attempt(db.runs, r, e) && r !in pending && Holds(db, r, v)
      decreases pending
    {
      var r :| r in pending;
      var held := Remember(db, r);
      ghost var before, values0 := pending, values;
      values := values + held;
      pending := pending - {r};
      forall v ensures v in values <==> exists x :: Attempt(db.runs, x, e) && x !in pending && Holds(db, x, v) {
        if v in values0 {
          var x :| Attempt(db.runs, x, e) && x !in before && Holds(db, x, v);
          assert x !in pending;
        }
        if v in held {
          assert Attempt(db.runs, r, e) && r !in pending && Holds(db, r, v);
        }
        if x :| Attempt(db.runs, x, e) && x !in pending && Holds(db, x, v) {
          assert x == r || x !in before;
        }
      }
    }
    assert forall r :: Attempt(db.runs, r, e) ==> r !in pending;
  }

  /** What one attempt holds. */
  method Remember(db: Db, r: RunId) returns (values: set<Secret>)
    requires r in db.runs
    ensures forall v :: v in values <==> Holds(db, r, v)
  {
    values := Ref(db.runs[r].approval) + LeaseSecrets(db.queue, r);
    values := values + set s, v | s in db.steps && db.steps[s].run == r && v in Ref(db.steps[s].approval) :: v;
    values := values + set a, v | a in db.approvals && db.approvals[a].run == r
      && v in ApprovalSecrets(a, db.approvals[a]) :: v;
    values := values + set t, v | t in db.tools && db.tools[t].run == r && v in ToolSecrets(t, db.tools[t]) :: v;
    values := values + set d | d in db.delegations && db.delegations[d].parent == r :: RequestPrint(d);
  }

  /** The executions nested directly below one, through requests not met before. */
  method Below(db: Db, e: RunId, seen: set<DelegationId>) returns (requests: set<DelegationId>, next: set<RunId>)
    ensures requests == set d | d in db.delegations && Attempt(db.runs, db.delegations[d].parent, e) && d !in seen
    ensures forall f :: f in next <==> exists d :: d !in seen && Nested(db, e, d, f)
  {
    requests := set d | d in db.delegations && Attempt(db.runs, db.delegations[d].parent, e) && d !in seen;
    next := set d | d in requests && db.delegations[d].child.Some?
      && db.delegations[d].child.value in db.runs :: db.runs[db.delegations[d].child.value].execution;
    forall f ensures f in next <==> exists d :: d !in seen && Nested(db, e, d, f) {
      if f in next {
        var d :| d in requests && db.delegations[d].child.Some? && db.delegations[d].child.value in db.runs
          && db.runs[db.delegations[d].child.value].execution == f;
        assert d !in seen && Nested(db, e, d, f);
      }
      if d :| d !in seen && Nested(db, e, d, f) {
        assert d in requests;
      }
    }
  }

  /** Requests already met lead to executions already visited or waiting. */
  ghost predicate Covered(db: Db, met: set<DelegationId>, known: set<RunId>) {
    forall d, e, f :: d in met && Nested(db, e, d, f) ==> f in known
  }

  /**
   The worklist: exactly the values held by the executions reachable from the delegated one, plus the print of the
   request itself.
   */
  method CollectAuthority(db: Db, start: RunId, request: DelegationId) returns (values: set<Secret>)
    requires forall e, f :: Nested(db, e, request, f) ==> f == start
    ensures forall v :: v in values <==>
            v == RequestPrint(request) || exists e :: Reachable(db, start, e) && ExecutionHolds(db, e, v)
  {
    values := {RequestPrint(request)};
    var pending: seq<RunId> := [start];
    var visited: set<RunId> := {};
    var met: set<DelegationId> := {request};
    ghost var universe := AllExecutions(db) + {start};
    assert Leads(db, [start], start, start);
    while pending != []
      invariant forall v :: v in values <==>
                v == RequestPrint(request) || exists e :: e in visited && ExecutionHolds(db, e, v)
      invariant forall e :: e in visited || e in pending ==> Reachable(db, start, e) && e in universe
      invariant start in visited || start in pending
      invariant Covered(db, met, visited + set e | e in pending)
      invariant forall e, d, f :: e in visited && Nested(db, e, d, f) ==> d in met
      decreases universe - visited, |pending|
    {
      var e := pending[|pending| - 1];
      assert e in pending;
      ghost var pending0 := pending;
      pending := pending[..|pending| - 1];
      assert forall x :: x in pending0 <==> x in pending || x == e;
      if e !in visited {
        var held := Gather(db, e);
        var requests, next := Below(db, e, met);
        ghost var visited0, values0, met0 := visited, values, met;
        visited := visited + {e};
        values := values + held;
        met := met + requests;
        var added := AsSequence(next);
        Grown(db, start, e, next, met0);
        pending := pending + added;
        MeetsMore(db, e, met0, requests, next, visited0 + (set x | x in pending0), visited + set x | x in pending);
      }
    }
    forall e | Reachable(db, start, e) ensures e in visited {
      var path :| Leads(db, path, start, e);
      forall x, f | x in visited && Step(db, x, f) ensures f in visited {
        var d :| Nested(db, x, d, f);
        assert d in met;
      }
      ClosedContains(db, visited, path);
    }
  }

  /** The executions found below a reachable one are reachable and occur in the database. */
  lemma Grown(db: Db, start: RunId, e: RunId, next: set<RunId>, met: set<DelegationId>)
    requires Reachable(db, start, e) && forall f :: f in next <==> exists d :: d !in met && Nested(db, e, d, f)
    ensures forall f :: f in next ==> Reachable(db, start, f) && f in AllExecutions(db)
  {
    forall f | f in next ensures Reachable(db, start, f) && f in AllExecutions(db) {
      var d :| d !in met && Nested(db, e, d, f);
      assert Step(db, e, f);
      Extends(db, start, e, f);
    }
  }

  lemma MeetsMore(db: Db, e: RunId, met: set<DelegationId>, requests: set<DelegationId>, next: set<RunId>,
                  known: set<RunId>, known': set<RunId>)
    requires Covered(db, met, known) && known <= known' && next <= known'
    requires requests == set d | d in db.delegations && Attempt(db.runs, db.delegations[d].parent, e) && d !in met
    requires forall f :: f in next <==> exists d :: d !in met && Nested(db, e, d, f)
    ensures Covered(db, met + requests, known')
    ensures forall d, f :: Nested(db, e, d, f) ==> d in met + requests
  {
    forall d, x, f | d in met + requests && Nested(db, x, d, f) ensures f in known' {
      if d !in met {
        assert x == e;
        assert Nested(db, e, d, f);
      }
    }
  }

  method AsSequence(s: set<RunId>) returns (q: seq<RunId>)
    ensures forall x :: x in q <==> x in s
  {
    q := [];
    var rest := s;
    while rest != {}
      invariant rest <= s
      invariant forall x :: x in q <==> x in s && x !in rest
      decreases rest
    {
      var x :| x in rest;
      q := q + [x];
      rest := rest - {x};
    }
  }
}
