/** No authority of a delegated subtree reaches the parent: the closure feeds the redaction. */
module ParentProjection {
  import opened Common
  import opened RuntimeModel
  import AC = AuthorityClosure
  import RS = ResultScrubbing

  /** Something in the subtree below a delegated execution, or the request itself, holds the value. */
  ghost predicate InSubtree(db: Db, start: RunId, request: DelegationId, v: AC.Secret) {
    v == AC.RequestPrint(request) || exists e :: AC.Reachable(db, start, e) && AC.ExecutionHolds(db, e, v)
  }

  method Listing(values: set<AC.Secret>, show: AC.Secret -> string) returns (known: seq<RS.Authority>)
    ensures forall a :: a in known <==> exists v :: v in values && a == RS.Text(show(v))
  {
    known := [];
    var rest := values;
    while rest != {}
      invariant rest <= values
      invariant forall v :: v in values && v !in rest ==> RS.Text(show(v)) in known
      invariant forall a :: a in known ==> exists v :: v in values && a == RS.Text(show(v))
      decreases rest
    {
      var v :| v in rest;
      known := known + [RS.Text(show(v))];
      rest := rest - {v};
    }
  }

  /** The texts looked for are exactly those of the values held in the subtree. */
  ghost predicate Sought(db: Db, start: RunId, request: DelegationId, show: AC.Secret -> string, strings: seq<string>) {
    && RS.LongestFirst(strings)
    && forall s :: s in strings <==> s != "" && exists v :: InSubtree(db, start, request, v) && s == show(v)
  }

  /**
   The parent's view of a delegated result.  `show` writes a value the way results may quote it.  Exactly the values
   held in the subtree are looked for, and none of them occurs in the summary, in a key or in a string of the details,
   if its text stays apart from the marker.
   */
  method ProjectForParent(db: Db, start: RunId, request: DelegationId, show: AC.Secret -> string, p: RS.Policy,
                          summary: Option<string>, details: RS.Json)
    returns (safeSummary: Option<string>, safeDetails: RS.Json, ghost strings: seq<string>)
    requires forall e, f :: AC.Nested(db, e, request, f) ==> f == start
    ensures Sought(db, start, request, show, strings)
    ensures safeSummary.Some? <==> summary.Some?
    ensures summary.Some? ==> safeSummary.value == RS.Scrub(p.relabel(summary.value), strings, [])
    ensures RS.Cleaned(p, details, safeDetails, strings, [])
    ensures forall v :: InSubtree(db, start, request, v) && show(v) != "" && RS.Apart(show(v)) ==>
              (safeSummary.Some? ==> !Occurs(show(v), safeSummary.value)) && RS.Free(show(v), safeDetails)
  {
    var values := AC.CollectAuthority(db, start, request);
    var known := Listing(values, show);
    ghost var integers: seq<nat>;
    safeSummary, safeDetails, strings, integers := RS.Project(p, summary, details, known);
    NoNumbers(known, integers);
    forall s: string ensures s in strings <==> s != "" && exists v :: InSubtree(db, start, request, v) && s == show(v) {
      if s != "" {
        assert s in strings <==> RS.Text(s) in known;
        assert forall v :: v in values <==> InSubtree(db, start, request, v);
      }
    }
  }

  lemma NoNumbers(known: seq<RS.Authority>, integers: seq<nat>)
    requires (forall a :: a in known ==> a.Text?) && forall n :: n in integers ==> RS.Number(n) in known
    ensures integers == []
  {
    forall n: nat ensures n !in integers {
    }
    AllIn(integers);
  }

  lemma AllIn(integers: seq<nat>)
    ensures integers == [] || exists n: nat :: n in integers
  {
    if integers != [] {
      assert integers[0] in integers;
    }
  }
}
