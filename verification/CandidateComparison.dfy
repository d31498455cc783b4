/**
 Grading of supplied outputs against a frozen suite, and the comparison of a candidate with its baseline. Scores are
 reals.
 */
module CandidateComparison {
  import opened Common

  type CaseId = string

  datatype CaseResult = CaseResult(case_: CaseId, score: real)

  datatype EvaluationRun = EvaluationRun(suite: seq<CaseId>, results: seq<CaseResult>, score: real)

  function Total(results: seq<CaseResult>): real {
    if results == [] then 0.0 else Total(results[..|results| - 1]) + results[|results| - 1].score
  }

  ghost predicate Distinct(suite: seq<CaseId>) {
    forall i, j :: 0 <= i < j < |suite| ==> suite[i] != suite[j]
  }

  function Grade(pass: bool): real {
    if pass then 1.0 else 0.0
  }

  /** A run that graded every case of its suite, in order, with 0 or 1. */
  ghost predicate Graded(run: EvaluationRun) {
    && run.suite != [] && Distinct(run.suite) && |run.results| == |run.suite|
    && (forall i :: 0 <= i < |run.suite| ==>
         run.results[i].case_ == run.suite[i] && (run.results[i].score == 0.0 || run.results[i].score == 1.0))
    && run.score * |run.suite| as real == Total(run.results)
  }

  /** Grade every frozen case and take the mean. */
  method Evaluate(suite: seq<CaseId>, passes: CaseId -> bool) returns (run: EvaluationRun)
    requires suite != [] && Distinct(suite)
    ensures run.suite == suite && Graded(run)
    ensures forall i :: 0 <= i < |suite| ==> run.results[i].score == Grade(passes(suite[i]))
  {
    var results: seq<CaseResult> := [];
    var total := 0.0;
    for i := 0 to |suite|
      invariant |results| == i && total == Total(results)
      invariant forall k :: 0 <= k < i ==> results[k] == CaseResult(suite[k], Grade(passes(suite[k])))
    {
      ghost var before := results;
      results := results + [CaseResult(suite[i], Grade(passes(suite[i])))];
      assert results[..i] == before;
      total := total + Grade(passes(suite[i]));
    }
    run := EvaluationRun(suite, results, total / |suite| as real);
  }

  // ---- comparison ------------------------------------------------------------------------

  datatype Outcome = Better | Worse | Mixed | Equivalent | Inconclusive

  datatype Recommendation = Eligible | NotEligible | RequiresManualOverride

  datatype Comparison = Comparison(outcome: Outcome, recommendation: Recommendation, regressions: nat,
    improvements: nat, inconclusive: nat, delta: real)

  function Cases(results: seq<CaseResult>): set<CaseId> {
    set r | r in results :: r.case_
  }

  predicate CompleteRuns(baseline: EvaluationRun, candidate: EvaluationRun) {
    var ids := set c | c in baseline.suite;
    ids != {} && |baseline.results| == |ids| && |candidate.results| == |ids| && Cases(baseline.results) == ids
      && Cases(candidate.results) == ids
  }

  /** The candidate's score of a case; a repeated case counts with its last score. */
  function ScoreOf(results: seq<CaseResult>, c: CaseId): real
    requires c in Cases(results)
  {
    var last := results[|results| - 1];
    if last.case_ == c then last.score
    else
      assert c in Cases(results[..|results| - 1]) by {
        var r :| r in results && r.case_ == c;
        assert results == results[..|results| - 1] + [last];
        assert r in results[..|results| - 1];
      }
      ScoreOf(results[..|results| - 1], c)
  }

  datatype Tally = Tally(regressions: nat, improvements: nat, inconclusive: nat)

  /** Each case counts once, by the sign of its difference. */
  function Count(pairs: seq<(real, real)>): Tally {
    if pairs == [] then Tally(0, 0, 0)
    else
      var t, (b, c) := Count(pairs[..|pairs| - 1]), pairs[|pairs| - 1];
      if c < b then t.(regressions := t.regressions + 1)
      else if c > b then t.(improvements := t.improvements + 1)
      else t.(inconclusive := t.inconclusive + 1)
  }

  function Paired(baseline: seq<CaseResult>, candidate: seq<CaseResult>): seq<(real, real)>
    requires Cases(baseline) <= Cases(candidate)
  {
    seq(|baseline|, i requires 0 <= i < |baseline| => assert baseline[i] in baseline;
      (baseline[i].score, ScoreOf(candidate, baseline[i].case_)))
  }

  function Verdict(t: Tally): (Outcome, Recommendation) {
    if t.regressions > 0 then (if t.improvements > 0 then Mixed else Worse, NotEligible)
    else if t.improvements > 0 then (Better, Eligible)
    else (Equivalent, RequiresManualOverride)
  }

  /** Compare the stored results of two runs of the same frozen suite. */
  method Compare(baseline: EvaluationRun, candidate: EvaluationRun) returns (c: Comparison)
    ensures !CompleteRuns(baseline, candidate) ==>
              c == Comparison(Inconclusive, NotEligible, 0, 0, c.inconclusive, 0.0) && c.inconclusive >= 1
    ensures CompleteRuns(baseline, candidate) ==>
              var t := Count(Paired(baseline.results, candidate.results));
              c == Comparison(Verdict(t).0, Verdict(t).1, t.regressions, t.improvements, t.inconclusive,
                candidate.score - baseline.score)
  {
    if !CompleteRuns(baseline, candidate) {
      var ids := set x | x in baseline.suite;
      var fewer := if |baseline.results| < |candidate.results| then |baseline.results| else |candidate.results|;
      var missing := |ids| - fewer;
      return Comparison(Inconclusive, NotEligible, 0, 0, if missing > 1 then missing else 1, 0.0);
    }
    var regressions, improvements, inconclusive := 0, 0, 0;
    ghost var pairs := Paired(baseline.results, candidate.results);
    for i := 0 to |baseline.results|
      invariant Count(pairs[..i]) == Tally(regressions, improvements, inconclusive)
    {
      assert baseline.results[i] in baseline.results;
      assert pairs[..i + 1][..i] == pairs[..i];
      var delta := ScoreOf(candidate.results, baseline.results[i].case_) - baseline.results[i].score;
      if delta < 0.0 {
        regressions := regressions + 1;
      } else if delta > 0.0 {
        improvements := improvements + 1;
      } else {
        inconclusive := inconclusive + 1;
      }
    }
    assert pairs[..|pairs|] == pairs;
    var (outcome, recommendation) := Verdict(Tally(regressions, improvements, inconclusive));
    return Comparison(outcome, recommendation, regressions, improvements, inconclusive,
      candidate.score - baseline.score);
  }

  // ---- what the comparison of graded runs means ------------------------------------------

  lemma {:induction false} CountPartitions(pairs: seq<(real, real)>)
    ensures var t := Count(pairs); t.regressions + t.improvements + t.inconclusive == |pairs|
  {
    if pairs != [] {
      CountPartitions(pairs[..|pairs| - 1]);
    }
  }

  lemma {:induction false} DistinctSize(suite: seq<CaseId>)
    requires Distinct(suite)
    ensures |set x | x in suite| == |suite|
  {
    if suite != [] {
      var front, last := suite[..|suite| - 1], suite[|suite| - 1];
      DistinctSize(front);
      assert suite == front + [last];
      assert (set x | x in suite) == (set x | x in front) + {last};
    }
  }

  lemma GradedCases(run: EvaluationRun)
    requires Graded(run)
    ensures Cases(run.results) == set x | x in run.suite
  {
    forall x ensures x in Cases(run.results) <==> x in run.suite {
      if x in run.suite {
        var i :| 0 <= i < |run.suite| && run.suite[i] == x;
        assert run.results[i] in run.results;
      }
    }
  }

  lemma {:induction false} ScoreAt(results: seq<CaseResult>, i: nat)
    requires i < |results| && forall k, j :: 0 <= k < j < |results| ==> results[k].case_ != results[j].case_
    ensures results[i].case_ in Cases(results) && ScoreOf(results, results[i].case_) == results[i].score
    decreases |results|
  {
    assert results[i] in results;
    if i < |results| - 1 {
      var front := results[..|results| - 1];
      assert front[i] == results[i];
      ScoreAt(front, i);
    }
  }

  /** Runs produced for the same suite are complete and aligned case by case. */
  lemma GradedPairs(baseline: EvaluationRun, candidate: EvaluationRun)
    requires Graded(baseline) && Graded(candidate) && baseline.suite == candidate.suite
    ensures CompleteRuns(baseline, candidate)
    ensures var pairs := Paired(baseline.results, candidate.results);
            |pairs| == |baseline.suite| && forall i :: 0 <= i < |pairs| ==>
              pairs[i] == (baseline.results[i].score, candidate.results[i].score)
  {
    DistinctSize(baseline.suite);
    GradedCases(baseline);
    GradedCases(candidate);
    assert baseline.suite[0] in baseline.suite;
    forall i | 0 <= i < |baseline.results|
      ensures candidate.results[i].case_ in Cases(candidate.results)
      ensures ScoreOf(candidate.results, baseline.results[i].case_) == candidate.results[i].score
    {
      ScoreAt(candidate.results, i);
    }
  }

  /** With scores of 0 and 1 the totals differ by improvements minus regressions. */
  lemma {:induction false} TotalsDiffer(b: seq<CaseResult>, c: seq<CaseResult>, pairs: seq<(real, real)>)
    requires |b| == |c| == |pairs|
    requires forall i :: 0 <= i < |pairs| ==> pairs[i] == (b[i].score, c[i].score)
    requires forall i :: 0 <= i < |b| ==>
             (b[i].score == 0.0 || b[i].score == 1.0) && (c[i].score == 0.0 || c[i].score == 1.0)
    ensures var t := Count(pairs); Total(c) - Total(b) == t.improvements as real - t.regressions as real
  {
    if pairs != [] {
      var n := |pairs| - 1;
      TotalsDiffer(b[..n], c[..n], pairs[..n]);
    }
  }

  /** n times the score difference. */
  function Scaled(suite: seq<CaseId>, delta: real): real {
    |suite| as real * delta
  }

  lemma DeltaMeans(baseline: EvaluationRun, candidate: EvaluationRun, t: Tally)
    requires Graded(baseline) && Graded(candidate) && baseline.suite == candidate.suite
    requires Total(candidate.results) - Total(baseline.results) == t.improvements as real - t.regressions as real
    ensures Scaled(baseline.suite, candidate.score - baseline.score) == t.improvements as real - t.regressions as real
    ensures t.regressions == 0 && t.improvements > 0 ==> candidate.score - baseline.score > 0.0
  {
    ScaledDelta(|baseline.suite| as real, baseline.score, candidate.score, Total(baseline.results),
      Total(candidate.results));
  }

  lemma TallyMeans(baseline: EvaluationRun, candidate: EvaluationRun)
    requires Graded(baseline) && Graded(candidate) && baseline.suite == candidate.suite
    ensures CompleteRuns(baseline, candidate)
    ensures var t := Count(Paired(baseline.results, candidate.results));
            && t.regressions + t.improvements + t.inconclusive == |baseline.suite|
            && Total(candidate.results) - Total(baseline.results) == t.improvements as real - t.regressions as real
            && (t.regressions > 0 <==> Worsened(baseline, candidate))
            && (t.improvements > 0 <==> Improved(baseline, candidate))
  {
    GradedPairs(baseline, candidate);
    var pairs := Paired(baseline.results, candidate.results);
    CountPartitions(pairs);
    TotalsDiffer(baseline.results, candidate.results, pairs);
    SignsMean(baseline, candidate, pairs);
  }

  lemma SignsMean(baseline: EvaluationRun, candidate: EvaluationRun, pairs: seq<(real, real)>)
    requires |baseline.results| == |candidate.results| == |baseline.suite| == |pairs|
    requires forall i :: 0 <= i < |pairs| ==> pairs[i] == (baseline.results[i].score, candidate.results[i].score)
    ensures Count(pairs).regressions > 0 <==> Worsened(baseline, candidate)
    ensures Count(pairs).improvements > 0 <==> Improved(baseline, candidate)
  {
    SomeRegression(pairs);
    SomeImprovement(pairs);
  }

  /** Some case scored lower than before. */
  ghost predicate Worsened(baseline: EvaluationRun, candidate: EvaluationRun)
    requires |baseline.results| == |candidate.results| == |baseline.suite|
  {
    exists i :: 0 <= i < |baseline.suite| && candidate.results[i].score < baseline.results[i].score
  }

  /** Some case scored higher than before. */
  ghost predicate Improved(baseline: EvaluationRun, candidate: EvaluationRun)
    requires |baseline.results| == |candidate.results| == |baseline.suite|
  {
    exists i :: 0 <= i < |baseline.suite| && candidate.results[i].score > baseline.results[i].score
  }

  /**
   For runs of the same suite the comparison is never inconclusive, its three counts partition the cases, n times the
   score difference is improvements minus regressions, outcome and recommendation say exactly whether some case got
   worse and some got better, and an eligible candidate has a strictly higher score.
   */
  method CompareGraded(baseline: EvaluationRun, candidate: EvaluationRun) returns (c: Comparison)
    requires Graded(baseline) && Graded(candidate) && baseline.suite == candidate.suite
    ensures !c.outcome.Inconclusive?
    ensures c.regressions + c.improvements + c.inconclusive == |baseline.suite|
    ensures Scaled(baseline.suite, c.delta) == c.improvements as real - c.regressions as real
    ensures c.recommendation.Eligible? ==> c.delta > 0.0
    ensures c.outcome.Mixed? <==> Worsened(baseline, candidate) && Improved(baseline, candidate)
    ensures c.outcome.Worse? <==> Worsened(baseline, candidate) && !Improved(baseline, candidate)
    ensures c.outcome.Better? <==> !Worsened(baseline, candidate) && Improved(baseline, candidate)
    ensures c.outcome.Equivalent? <==> !Worsened(baseline, candidate) && !Improved(baseline, candidate)
    ensures c.recommendation.NotEligible? <==> Worsened(baseline, candidate)
    ensures c.recommendation.Eligible? <==> !Worsened(baseline, candidate) && Improved(baseline, candidate)
    ensures c.regressions > 0 <==> Worsened(baseline, candidate)
    ensures c.improvements > 0 <==> Improved(baseline, candidate)
  {
    TallyMeans(baseline, candidate);
    DeltaMeans(baseline, candidate, Count(Paired(baseline.results, candidate.results)));
    c := Compare(baseline, candidate);
  }

  lemma ScaledDelta(n: real, b: real, c: real, totalB: real, totalC: real)
    requires n > 0.0 && b * n == totalB && c * n == totalC
    ensures n * (c - b) == totalC - totalB
    ensures totalC - totalB > 0.0 ==> c - b > 0.0
  {
  }

  lemma {:induction false} SomeRegression(pairs: seq<(real, real)>)
    ensures Count(pairs).regressions > 0 <==> exists i :: 0 <= i < |pairs| && pairs[i].1 < pairs[i].0
  {
    if pairs != [] {
      var front := pairs[..|pairs| - 1];
      SomeRegression(front);
      if i :| 0 <= i < |front| && front[i].1 < front[i].0 {
        assert pairs[i].1 < pairs[i].0;
      }
    }
  }

  lemma {:induction false} SomeImprovement(pairs: seq<(real, real)>)
    ensures Count(pairs).improvements > 0 <==> exists i :: 0 <= i < |pairs| && pairs[i].1 > pairs[i].0
  {
    if pairs != [] {
      var front := pairs[..|pairs| - 1];
      SomeImprovement(front);
      if i :| 0 <= i < |front| && front[i].1 > front[i].0 {
        assert pairs[i].1 > pairs[i].0;
      }
    }
  }
}
