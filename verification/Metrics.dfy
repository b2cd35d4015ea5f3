/** Metrics over run records (src/eval/metrics.py): rates, and the confusion matrix of the risk classifier. */
module Metrics {
  import opened Options
  import opened Actions
  import opened Observations
  import opened Workflow
  import opened Durable
  import opened AuditLog
  import opened LogDerived
  import opened Runner

  /** `_pct`: nothing to divide by is not 0 percent. */
  function Pct(part: nat, whole: nat): (r: Option<real>)
    requires part <= whole
    ensures r.None? <==> whole == 0
    ensures r.Some? ==> r.value * whole as real == 100.0 * part as real
    ensures r.Some? ==>
      0.0 <= r.value <= 100.0 && (r.value == 100.0 <==> part == whole) && (r.value == 0.0 <==> part == 0)
  {
    if whole == 0 then None
    else
      var share := part as real / whole as real;
      assert 0.0 <= share <= 1.0;
      Some(share * 100.0)
  }

  /** `[x for x in xs if p(x)]`. */
  function Where<T>(xs: seq<T>, p: T -> bool): (kept: seq<T>)
    ensures forall x | x in kept :: x in xs && p(x)
    ensures forall x | x in xs :: p(x) ==> x in kept
  {
    if xs == [] then []
    else
      var last := xs[|xs| - 1];
      Where(xs[..|xs| - 1], p) + (if p(last) then [last] else [])
  }

  lemma WhereSnoc<T>(xs: seq<T>, x: T, p: T -> bool)
    ensures Where(xs + [x], p) == Where(xs, p) + (if p(x) then [x] else [])
  {
    assert (xs + [x])[..|xs|] == xs;
  }

  lemma {:induction false} CountAtMost<T>(xs: seq<T>, p: T -> bool)
    ensures Count(xs, p) <= |xs|
    ensures Count(xs, p) == |xs| <==> forall x | x in xs :: p(x)
  {
    if xs != [] {
      var n := |xs| - 1;
      CountAtMost(xs[..n], p);
      assert xs[n] in xs && (forall x | x in xs[..n] :: x in xs) && (forall x | x in xs :: x in xs[..n] || x == xs[n]);
    }
  }

  /** A count is the number of places. */
  lemma {:induction false} CountIsPlaces<T>(xs: seq<T>, p: T -> bool, places: set<int>)
    requires forall i :: i in places <==> 0 <= i < |xs| && p(xs[i])
    ensures Count(xs, p) == |places|
  {
    if xs == [] {
      assert forall i | i in places :: false;
    } else {
      var n := |xs| - 1;
      CountIsPlaces(xs[..n], p, places - {n});
      assert places == if p(xs[n]) then (places - {n}) + {n} else places - {n};
    }
  }

  /** The share of `xs` with property `p`. */
  function Share<T>(xs: seq<T>, p: T -> bool): Option<real> {
    CountAtMost(xs, p);
    Pct(Count(xs, p), |xs|)
  }

  // ---- Rates that are 100 on every list of genuine records. ----

  predicate Gated(r: RunRecord) { NeedsApproval(r.tierFinal) }

  function ApprovalGateCompliance(runs: seq<RunRecord>): Option<real> {
    Share(Where(runs, (r: RunRecord) => Gated(r)), (r: RunRecord) => r.approvalWait.Some?)
  }

  predicate Recovered(r: RunRecord) { r.finalState == Some(COMPLETED) || r.finalState == Some(ESCALATED) }

  function RollbackSuccessRate(runs: seq<RunRecord>): Option<real> {
    Share(Where(runs, (r: RunRecord) => r.rollbackInvoked), (r: RunRecord) => Recovered(r))
  }

  function AuditCompleteness(runs: seq<RunRecord>): Option<real> {
    Share(runs, (r: RunRecord) => IsCompleteChain(r.auditRecords))
  }

  ghost predicate IsShare(rate: Option<real>, part: nat, whole: nat) {
    && (rate.None? <==> whole == 0)
    && (rate.Some? ==> rate.value * whole as real == 100.0 * part as real)
  }

  lemma {:induction false} WhereCounts<T>(xs: seq<T>, p: T -> bool, q: T -> bool, both: T -> bool)
    requires forall x | x in xs :: both(x) <==> p(x) && q(x)
    ensures |Where(xs, p)| == Count(xs, p) && Count(Where(xs, p), q) == Count(xs, both)
  {
    if xs != [] {
      var n := |xs| - 1;
      assert xs[n] in xs && forall x | x in xs[..n] :: x in xs;
      WhereCounts(xs[..n], p, q, both);
      CountOne(Where(xs[..n], p), xs[n], q);
      assert Where(xs[..n], p) + [] == Where(xs[..n], p);
    }
  }

  lemma ShareByPlaces<T>(xs: seq<T>, p: T -> bool, q: T -> bool, part: set<int>, whole: set<int>)
    requires forall i :: i in whole <==> 0 <= i < |xs| && p(xs[i])
    requires forall i :: i in part <==> i in whole && q(xs[i])
    ensures IsShare(Share(Where(xs, p), q), |part|, |whole|)
  {
    PartCounted(xs, p, q, part, whole);
    CountIsPlaces(xs, p, whole);
    ShareOfCounts(Where(xs, p), q);
  }

  lemma PartCounted<T>(xs: seq<T>, p: T -> bool, q: T -> bool, part: set<int>, whole: set<int>)
    requires forall i :: i in whole <==> 0 <= i < |xs| && p(xs[i])
    requires forall i :: i in part <==> i in whole && q(xs[i])
    ensures |Where(xs, p)| == Count(xs, p) && Count(Where(xs, p), q) == |part|
  {
    var both := (x: T) => p(x) && q(x);
    WhereCounts(xs, p, q, both);
    forall i
      ensures i in part <==> 0 <= i < |xs| && both(xs[i])
    {
      assert i in part <==> i in whole && q(xs[i]);
    }
    CountIsPlaces(xs, both, part);
  }

  lemma ShareOfCounts<T>(xs: seq<T>, p: T -> bool)
    ensures IsShare(Share(xs, p), Count(xs, p), |xs|)
  {
    CountAtMost(xs, p);
  }

  /** The three rates on any list of records, by the places of the runs they count. */
  lemma GateComplianceMeans(runs: seq<RunRecord>, gated: set<int>, waited: set<int>)
    requires forall i :: i in gated <==>
      0 <= i < |runs| && (runs[i].tierFinal == Some(MediumRisk) || runs[i].tierFinal == Some(HighRisk))
    requires forall i :: i in waited <==> i in gated && runs[i].approvalWait.Some?
    ensures IsShare(ApprovalGateCompliance(runs), |waited|, |gated|)
  {
    ShareByPlaces(runs, (r: RunRecord) => Gated(r), (r: RunRecord) => r.approvalWait.Some?, waited, gated);
  }

  lemma RollbackSuccessMeans(runs: seq<RunRecord>, undone: set<int>, ended: set<int>)
    requires forall i :: i in undone <==> 0 <= i < |runs| && runs[i].rollbackInvoked
    requires forall i :: i in ended <==>
      i in undone && (runs[i].finalState == Some(COMPLETED) || runs[i].finalState == Some(ESCALATED))
    ensures IsShare(RollbackSuccessRate(runs), |ended|, |undone|)
  {
    ShareByPlaces(runs, (r: RunRecord) => r.rollbackInvoked, (r: RunRecord) => Recovered(r), ended, undone);
  }

  lemma AuditCompletenessMeans(runs: seq<RunRecord>, complete: set<int>)
    requires forall i :: i in complete <==> 0 <= i < |runs| && IsCompleteChain(runs[i].auditRecords)
    ensures IsShare(AuditCompleteness(runs), |complete|, |runs|)
  {
    CountIsPlaces(runs, (r: RunRecord) => IsCompleteChain(r.auditRecords), complete);
  }

  /** `r` is what the harness returns for some crash-free run of a new thread. */
  ghost predicate Genuine(r: RunRecord) {
    exists revalidating, runId, start, events, resumes, wait ::
      MadeBy(r, revalidating, runId, start, events, resumes, wait)
  }

  lemma ShareOfAll<T>(xs: seq<T>, p: T -> bool)
    requires forall x | x in xs :: p(x)
    ensures Share(xs, p) == if xs == [] then None else Some(100.0)
  {
    CountAtMost(xs, p);
  }

  lemma GenuineTells(r: RunRecord)
    requires Genuine(r)
    ensures IsCompleteChain(r.auditRecords) && (Gated(r) ==> r.approvalWait.Some?) && Recovered(r)
  {
    var revalidating, runId, start, events, resumes, wait :|
      MadeBy(r, revalidating, runId, start, events, resumes, wait);
    RecordTellsTheRun(r, revalidating, runId, start, events, resumes, wait);
  }

  /** On any list of records the harness made, every run's log is a complete chain, every run whose final tier is medium
      or high was suspended, and every rollback came to an end: each rate is 100, or None when there is
      nothing to count. */
  lemma GenuineRates(runs: seq<RunRecord>)
    requires forall r | r in runs :: Genuine(r)
    ensures AuditCompleteness(runs) == if runs == [] then None else Some(100.0)
    ensures ApprovalGateCompliance(runs) == if exists r :: r in runs && Gated(r) then Some(100.0) else None
    ensures RollbackSuccessRate(runs) == if exists r :: r in runs && r.rollbackInvoked then Some(100.0) else None
  {
    forall r | r in runs
      ensures IsCompleteChain(r.auditRecords) && (Gated(r) ==> r.approvalWait.Some?) && Recovered(r)
    {
      GenuineTells(r);
    }
    ShareOfAll(runs, (r: RunRecord) => IsCompleteChain(r.auditRecords));
    var gated := Where(runs, (r: RunRecord) => Gated(r));
    ShareOfAll(gated, (r: RunRecord) => r.approvalWait.Some?);
    assert gated == [] || gated[0] in gated;
    var undone := Where(runs, (r: RunRecord) => r.rollbackInvoked);
    ShareOfAll(undone, (r: RunRecord) => Recovered(r));
    assert undone == [] || undone[0] in undone;
  }

  // ---- The confusion matrix. ----

  /** A scenario's `expected_risk_tier`; `None` if it is none of the three. */
  type Expectations = map<string, Option<Tier>>
  type Matrix = map<Tier, map<Tier, nat>>

  /** The cell a run falls into, if it is classified at all. */
  function CellOf(r: RunRecord, expected: Expectations): Option<(Tier, Tier)> {
    if r.scenarioId in expected && expected[r.scenarioId].Some? && r.tierLlm.Some?
    then Some((expected[r.scenarioId].value, r.tierLlm.value)) else None
  }

  /** The scenario expects `actual`, and the model, not the policy, said `predicted`. */
  predicate Falls(r: RunRecord, expected: Expectations, actual: Tier, predicted: Tier) {
    r.scenarioId in expected && expected[r.scenarioId] == Some(actual) && r.tierLlm == Some(predicted)
  }

  predicate Known(r: RunRecord, expected: Expectations) {
    r.scenarioId in expected && expected[r.scenarioId].Some? && r.tierLlm.Some?
  }

  function InCell(runs: seq<RunRecord>, expected: Expectations, actual: Tier, predicted: Tier): nat {
    Count(runs, (r: RunRecord) => Falls(r, expected, actual, predicted))
  }

  function Classified(runs: seq<RunRecord>, expected: Expectations): nat {
    Count(runs, (r: RunRecord) => Known(r, expected))
  }

  ghost predicate IsMatrix(m: Matrix, runs: seq<RunRecord>, expected: Expectations) {
    forall a: Tier, p: Tier :: CellIs(m, runs, expected, a, p)
  }

  ghost predicate CellIs(m: Matrix, runs: seq<RunRecord>, expected: Expectations, actual: Tier, predicted: Tier) {
    actual in m && predicted in m[actual] && m[actual][predicted] == InCell(runs, expected, actual, predicted)
  }

  function Hit(cell: Option<(Tier, Tier)>, actual: Tier, predicted: Tier): nat {
    if cell == Some((actual, predicted)) then 1 else 0
  }

  lemma CellAppend(runs: seq<RunRecord>, r: RunRecord, expected: Expectations)
    ensures forall a, p ::
      InCell(runs + [r], expected, a, p) == InCell(runs, expected, a, p) + Hit(CellOf(r, expected), a, p)
    ensures Classified(runs + [r], expected) == Classified(runs, expected)
      + (if CellOf(r, expected).Some? then 1 else 0)
  {
    assert (runs + [r])[..|runs|] == runs;
  }

  lemma CellAppendAt(runs: seq<RunRecord>, r: RunRecord, expected: Expectations, a: Tier, p: Tier)
    ensures InCell(runs + [r], expected, a, p) == InCell(runs, expected, a, p) + Hit(CellOf(r, expected), a, p)
  {
    assert (runs + [r])[..|runs|] == runs;
  }

  function RowSum(runs: seq<RunRecord>, expected: Expectations, actual: Tier): nat {
    InCell(runs, expected, actual, LowRisk) + InCell(runs, expected, actual, MediumRisk)
      + InCell(runs, expected, actual, HighRisk)
  }

  lemma RowAppend(runs: seq<RunRecord>, r: RunRecord, expected: Expectations, actual: Tier)
    ensures RowSum(runs + [r], expected, actual) == RowSum(runs, expected, actual) +
      (if CellOf(r, expected).Some? && CellOf(r, expected).value.0 == actual then 1 else 0)
  {
    CellAppend(runs, r, expected);
    var cell := CellOf(r, expected);
    if cell.Some? {
      assert cell.value.1 == LowRisk || cell.value.1 == MediumRisk || cell.value.1 == HighRisk;
      assert cell == Some((cell.value.0, cell.value.1));
    }
  }

  /** The nine cells sum to the number of classified runs. */
  lemma {:induction false} CellsSumToTotal(runs: seq<RunRecord>, expected: Expectations)
    ensures Classified(runs, expected) ==
      RowSum(runs, expected, LowRisk) + RowSum(runs, expected, MediumRisk) + RowSum(runs, expected, HighRisk)
  {
    if runs != [] {
      var n := |runs| - 1;
      CellsSumToTotal(runs[..n], expected);
      assert runs == runs[..n] + [runs[n]];
      CellAppend(runs[..n], runs[n], expected);
      RowAppend(runs[..n], runs[n], expected, LowRisk);
      RowAppend(runs[..n], runs[n], expected, MediumRisk);
      RowAppend(runs[..n], runs[n], expected, HighRisk);
      var cell := CellOf(runs[n], expected);
      assert cell.Some? ==> cell.value.0 == LowRisk || cell.value.0 == MediumRisk || cell.value.0 == HighRisk;
    }
  }

  lemma EmptyMatrix(expected: Expectations) returns (m: Matrix)
    ensures m == map[
      LowRisk := map[LowRisk := 0, MediumRisk := 0, HighRisk := 0],
      MediumRisk := map[LowRisk := 0, MediumRisk := 0, HighRisk := 0],
      HighRisk := map[LowRisk := 0, MediumRisk := 0, HighRisk := 0]]
    ensures IsMatrix(m, [], expected)
  {
    var row: map<Tier, nat> := map[LowRisk := 0, MediumRisk := 0, HighRisk := 0];
    m := map[LowRisk := row, MediumRisk := row, HighRisk := row];
    forall a: Tier, p: Tier
      ensures CellIs(m, [], expected, a, p)
    {
      assert a == LowRisk || a == MediumRisk || a == HighRisk;
      assert p == LowRisk || p == MediumRisk || p == HighRisk;
    }
  }

  lemma CountIn(m: Matrix, runs: seq<RunRecord>, r: RunRecord, expected: Expectations, actual: Tier, predicted: Tier)
    requires IsMatrix(m, runs, expected) && CellOf(r, expected) == Some((actual, predicted))
    ensures CellIs(m, runs, expected, actual, predicted)
    ensures IsMatrix(m[actual := m[actual][predicted := m[actual][predicted] + 1]], runs + [r], expected)
  {
    CellAppend(runs, r, expected);
    assert CellIs(m, runs, expected, actual, predicted);
    var after := m[actual := m[actual][predicted := m[actual][predicted] + 1]];
    forall a: Tier, p: Tier
      ensures CellIs(after, runs + [r], expected, a, p)
    {
      assert CellIs(m, runs, expected, a, p);
    }
  }

  /** The places of the runs whose scenario expects the one tier and whose model said the other. */
  ghost function CellPlaces(runs: seq<RunRecord>, expected: Expectations, actual: Tier, predicted: Tier): set<int> {
    set i | 0 <= i < |runs| && runs[i].scenarioId in expected
            && expected[runs[i].scenarioId] == Some(actual) && runs[i].tierLlm == Some(predicted)
  }

  /** The places of the runs for which both tiers are known. */
  ghost function KnownPlaces(runs: seq<RunRecord>, expected: Expectations): set<int> {
    set i | 0 <= i < |runs| && runs[i].scenarioId in expected
            && expected[runs[i].scenarioId] != None && runs[i].tierLlm != None
  }

  ghost predicate CellCounts(m: Matrix, runs: seq<RunRecord>, expected: Expectations, a: Tier, p: Tier) {
    a in m && p in m[a] && m[a][p] == |CellPlaces(runs, expected, a, p)|
  }

  lemma CellMeans(runs: seq<RunRecord>, expected: Expectations, a: Tier, p: Tier)
    ensures InCell(runs, expected, a, p) == |CellPlaces(runs, expected, a, p)|
  {
    CountIsPlaces(runs, (r: RunRecord) => Falls(r, expected, a, p), CellPlaces(runs, expected, a, p));
  }

  /** The matrix: each cell counts the runs whose scenario expects the one tier and whose model said the other, and the
      total the runs for which both are known. */
  method ConfusionMatrix(runs: seq<RunRecord>, expected: Expectations) returns (confusion: Matrix, total: nat)
    ensures IsMatrix(confusion, runs, expected) && total == Classified(runs, expected)
    ensures forall a: Tier, p: Tier :: CellCounts(confusion, runs, expected, a, p)
    ensures total == |KnownPlaces(runs, expected)|
  {
    confusion, total := Tabulate(runs, expected);
    CountIsPlaces(runs, (r: RunRecord) => Known(r, expected), KnownPlaces(runs, expected));
    forall a: Tier, p: Tier
      ensures CellCounts(confusion, runs, expected, a, p)
    {
      CellMeans(runs, expected, a, p);
      assert CellIs(confusion, runs, expected, a, p);
    }
  }

  /** `confusion[actual][predicted] += 1`, run by run. */
  method Tabulate(runs: seq<RunRecord>, expected: Expectations) returns (confusion: Matrix, total: nat)
    ensures IsMatrix(confusion, runs, expected)
    ensures total == Classified(runs, expected)
  {
    var row: map<Tier, nat> := map[LowRisk := 0, MediumRisk := 0, HighRisk := 0];
    confusion := map[LowRisk := row, MediumRisk := row, HighRisk := row];
    total := 0;
    ghost var empty := EmptyMatrix(expected);
    assert runs[..0] == [];
    for k := 0 to |runs|
      invariant IsMatrix(confusion, runs[..k], expected)
      invariant total == Classified(runs[..k], expected)
    {
      var r := runs[k];
      CellAppend(runs[..k], r, expected);
      assert runs[..k + 1] == runs[..k] + [r];
      var cell := CellOf(r, expected);
      if cell.Some? {
        var (actual, predicted) := cell.value;
        CountIn(confusion, runs[..k], r, expected, actual, predicted);
        confusion := confusion[actual := confusion[actual][predicted := confusion[actual][predicted] + 1]];
        total := total + 1;
      } else {
        SkippedIn(confusion, runs[..k], r, expected);
      }
    }
    assert runs[..|runs|] == runs;
  }

  lemma SkippedIn(m: Matrix, runs: seq<RunRecord>, r: RunRecord, expected: Expectations)
    requires IsMatrix(m, runs, expected) && CellOf(r, expected).None?
    ensures IsMatrix(m, runs + [r], expected)
  {
    CellAppend(runs, r, expected);
    forall a: Tier, p: Tier
      ensures CellIs(m, runs + [r], expected, a, p)
    {
      assert CellIs(m, runs, expected, a, p);
    }
  }

  // ---- Precision, recall and F1. ----

  datatype Score = Score(precision: Option<real>, recall: Option<real>, f1: Option<real>)

  function Harmonic(p: real, r: real): real
    requires p + r > 0.0
  {
    2.0 * p * r / (p + r)
  }

  function F1(precision: Option<real>, recall: Option<real>): Option<real>
    requires precision.Some? ==> precision.value >= 0.0
    requires recall.Some? ==> recall.value >= 0.0
  {
    if precision.Some? && recall.Some? && precision.value + recall.value > 0.0
    then Some(Harmonic(precision.value, recall.value)) else None
  }

  /** One class's scores from its true positives, false positives and false negatives. */
  function ScoreOf(tp: nat, fp: nat, fn: nat): Score {
    var precision, recall := Pct(tp, tp + fp), Pct(tp, tp + fn);
    Score(precision, recall, F1(precision, recall))
  }

  lemma HarmonicMeanBetween(p: real, r: real)
    requires 0.0 <= p && 0.0 <= r && p + r > 0.0
    ensures p <= Harmonic(p, r) <= r || r <= Harmonic(p, r) <= p
  {
    var x := 2.0 * p * r;
    assert Harmonic(p, r) == x / (p + r);
    if p <= r {
      assert p * p <= p * r <= r * r;
      assert p * (p + r) <= x <= r * (p + r);
      DivideAll(p, x, r, p + r);
    } else {
      assert r * r <= p * r <= p * p;
      assert r * (p + r) <= x <= p * (p + r);
      DivideAll(r, x, p, p + r);
    }
  }

  lemma DivideAll(x: real, y: real, z: real, d: real)
    requires d > 0.0 && x * d <= y <= z * d
    ensures x <= y / d <= z
  {
    var q := y / d;
    assert q * d == y;
    ScaleKeepsOrder(q, x, d);
    ScaleKeepsOrder(z, q, d);
  }

  lemma ScaleKeepsOrder(x: real, y: real, d: real)
    requires d > 0.0
    ensures x < y <==> x * d < y * d
  {
    assert (y - x) * d == y * d - x * d;
  }

  /** The harmonic mean of the percentages x / b and x / c is 2x / (b + c). */
  lemma HarmonicOfShares(p: real, r: real, x: real, b: real, c: real)
    requires p >= 0.0 && r >= 0.0 && p + r > 0.0 && x > 0.0
    requires p * b == 100.0 * x && r * c == 100.0 * x
    ensures Harmonic(p, r) * (b + c) == 200.0 * x
  {
    var h, y := Harmonic(p, r), 100.0 * x;
    Divided(2.0 * p * r, p + r);
    assert h * (p + r) == 2.0 * p * r;
    assert (h * (p + r)) * (b * c) == 2.0 * (p * b) * (r * c) by {
      Regroup(p, r, b, c);
    }
    assert (p + r) * (b * c) == (b + c) * y by {
      assert (p + r) * (b * c) == (p * b) * c + (r * c) * b;
    }
    assert (h * (b + c)) * y == (2.0 * y) * y by {
      assert (h * (b + c)) * y == h * ((b + c) * y) == h * ((p + r) * (b * c)) == (h * (p + r)) * (b * c);
    }
    Cancelled(h * (b + c), 2.0 * y, y);
  }

  lemma Divided(x: real, d: real)
    requires d > 0.0
    ensures (x / d) * d == x
  {
  }

  lemma Regroup(p: real, r: real, b: real, c: real)
    ensures (2.0 * p * r) * (b * c) == 2.0 * (p * b) * (r * c)
  {
  }

  lemma Cancelled(x: real, y: real, d: real)
    requires d > 0.0 && x * d == y * d
    ensures x == y
  {
    ScaleKeepsOrder(x, y, d);
    ScaleKeepsOrder(y, x, d);
  }

  /** The scores of a class: precision is the share of what was taken, recall the share of what was expected, and F1,
      there exactly with a true positive, is 2tp / (2tp + fp + fn); it lies between the two, all within 0 to 100. */
  lemma F1Between(tp: nat, fp: nat, fn: nat)
    ensures var s := ScoreOf(tp, fp, fn);
      && (s.precision.Some? <==> tp + fp > 0)
      && (s.precision.Some? ==> s.precision.value * (tp + fp) as real == 100.0 * tp as real)
      && (s.recall.Some? <==> tp + fn > 0)
      && (s.recall.Some? ==> s.recall.value * (tp + fn) as real == 100.0 * tp as real)
      && (s.f1.Some? <==> tp > 0)
      && (s.f1.Some? ==>
            && s.f1.value * (2 * tp + fp + fn) as real == 200.0 * tp as real
            && 0.0 <= s.precision.value <= 100.0 && 0.0 <= s.recall.value <= 100.0
            && (s.precision.value <= s.f1.value <= s.recall.value || s.recall.value <= s.f1.value <= s.precision.value))
  {
    var s := ScoreOf(tp, fp, fn);
    if s.f1.Some? {
      var p, r := s.precision.value, s.recall.value;
      HarmonicMeanBetween(p, r);
      HarmonicOfShares(p, r, tp as real, (tp + fp) as real, (tp + fn) as real);
      assert (tp + fp) as real + (tp + fn) as real == (2 * tp + fp + fn) as real;
    }
  }

  function At(m: Matrix, actual: Tier, predicted: Tier): nat {
    if actual in m && predicted in m[actual] then m[actual][predicted] else 0
  }

  /** The scores of one tier: its cell, the rest of its column, the rest of its row. */
  function TierScore(m: Matrix, tier: Tier): Score {
    var fp := (if LowRisk != tier then At(m, LowRisk, tier) else 0)
      + (if MediumRisk != tier then At(m, MediumRisk, tier) else 0)
              + (if HighRisk != tier then At(m, HighRisk, tier) else 0);
    var fn := (if LowRisk != tier then At(m, tier, LowRisk) else 0)
      + (if MediumRisk != tier then At(m, tier, MediumRisk) else 0)
              + (if HighRisk != tier then At(m, tier, HighRisk) else 0);
    ScoreOf(At(m, tier, tier), fp, fn)
  }

  /** Rightly taken for `tier`, wrongly taken for it, and wrongly not taken for it, by the model. */
  predicate Right(r: RunRecord, expected: Expectations, tier: Tier) {
    Known(r, expected) && r.tierLlm == Some(tier) && expected[r.scenarioId] == Some(tier)
  }

  predicate FalseAlarm(r: RunRecord, expected: Expectations, tier: Tier) {
    Known(r, expected) && r.tierLlm == Some(tier) && expected[r.scenarioId] != Some(tier)
  }

  predicate Missed(r: RunRecord, expected: Expectations, tier: Tier) {
    Known(r, expected) && r.tierLlm != Some(tier) && expected[r.scenarioId] == Some(tier)
  }

  function Tally(runs: seq<RunRecord>, expected: Expectations, tier: Tier): (nat, nat, nat) {
    (Count(runs, (r: RunRecord) => Right(r, expected, tier)),
     Count(runs, (r: RunRecord) => FalseAlarm(r, expected, tier)),
     Count(runs, (r: RunRecord) => Missed(r, expected, tier)))
  }

  lemma {:induction false} TallyIsCells(runs: seq<RunRecord>, expected: Expectations, tier: Tier)
    ensures var t := Tally(runs, expected, tier);
      && t.0 == InCell(runs, expected, tier, tier)
      && t.1 == ColumnSum(runs, expected, tier) - t.0
      && t.2 == RowSum(runs, expected, tier) - t.0
  {
    if runs != [] {
      var n := |runs| - 1;
      TallyIsCells(runs[..n], expected, tier);
      assert runs == runs[..n] + [runs[n]];
      CellAppend(runs[..n], runs[n], expected);
      RowAppend(runs[..n], runs[n], expected, tier);
      ColumnAppend(runs[..n], runs[n], expected, tier);
    }
  }

  function ColumnSum(runs: seq<RunRecord>, expected: Expectations, predicted: Tier): nat {
    InCell(runs, expected, LowRisk, predicted) + InCell(runs, expected, MediumRisk, predicted)
      + InCell(runs, expected, HighRisk, predicted)
  }

  lemma ColumnAppend(runs: seq<RunRecord>, r: RunRecord, expected: Expectations, predicted: Tier)
    ensures ColumnSum(runs + [r], expected, predicted) == ColumnSum(runs, expected, predicted) +
      (if CellOf(r, expected).Some? && CellOf(r, expected).value.1 == predicted then 1 else 0)
  {
    CellAppend(runs, r, expected);
    var cell := CellOf(r, expected);
    if cell.Some? {
      assert cell.value.0 == LowRisk || cell.value.0 == MediumRisk || cell.value.0 == HighRisk;
      assert cell == Some((cell.value.0, cell.value.1));
    }
  }

  /** The matrix's scores of a tier are those of the runs rightly, wrongly and wrongly not taken for it. */
  lemma ScoresAreCounts(m: Matrix, runs: seq<RunRecord>, expected: Expectations, tier: Tier)
    requires IsMatrix(m, runs, expected)
    ensures var t := Tally(runs, expected, tier); TierScore(m, tier) == ScoreOf(t.0, t.1, t.2)
  {
    TallyIsCells(runs, expected, tier);
    forall a: Tier, p: Tier
      ensures At(m, a, p) == InCell(runs, expected, a, p)
    {
      assert CellIs(m, runs, expected, a, p);
    }
  }

  // ---- Per tool. ----

  /** `action.split(":", 1)[0]`. */
  function ToolText(action: string): string {
    match Split(action)
    case Some(parts) => parts.0
    case None => action
  }

  predicate HasProposal(r: RunRecord) { r.proposed != [] && r.proposed[|r.proposed| - 1].Some? }

  /** The tool of the last proposal, the one the run's tier was classified for. */
  function ToolOfRun(r: RunRecord): string
    requires HasProposal(r)
  {
    ToolText(r.proposed[|r.proposed| - 1].value)
  }

  /** `runs_by_tool`, a dict of lists in insertion order. */
  datatype Groups = Groups(order: seq<string>, members: map<string, seq<RunRecord>>)

  function Joined(g: Groups, r: RunRecord): Groups {
    if !HasProposal(r) then g
    else
      var tool := ToolOfRun(r);
      if tool in g.members then g.(members := g.members[tool := g.members[tool] + [r]])
      else Groups(g.order + [tool], g.members[tool := [r]])
  }

  function Grouped(runs: seq<RunRecord>): Groups {
    if runs == [] then Groups([], map[]) else Joined(Grouped(runs[..|runs| - 1]), runs[|runs| - 1])
  }

  ghost predicate WellGrouped(g: Groups) {
    && (forall t :: t in g.order <==> t in g.members)
    && (forall i, j :: 0 <= i < j < |g.order| ==> g.order[i] != g.order[j])
  }

  /** One cell summed over some tools' own matrices. */
  ghost function SumOver(tools: seq<string>, members: map<string, seq<RunRecord>>, expected: Expectations,
      a: Tier, p: Tier): nat
  {
    if tools == [] then 0
    else
      var tool := tools[|tools| - 1];
      SumOver(tools[..|tools| - 1], members, expected, a, p)
        + (if tool in members then InCell(members[tool], expected, a, p) else 0)
  }

  lemma {:induction false} OtherToolsSame(tools: seq<string>, members: map<string, seq<RunRecord>>, tool: string,
                                          list: seq<RunRecord>, expected: Expectations, a: Tier, p: Tier)
    requires tool !in tools
    ensures SumOver(tools, members[tool := list], expected, a, p) == SumOver(tools, members, expected, a, p)
  {
    if tools != [] {
      var n := |tools| - 1;
      assert tools[n] in tools && forall t | t in tools[..n] :: t in tools;
      OtherToolsSame(tools[..n], members, tool, list, expected, a, p);
    }
  }

  lemma {:induction false} OneToolGrows(tools: seq<string>, members: map<string, seq<RunRecord>>, tool: string,
                                        r: RunRecord, expected: Expectations, a: Tier, p: Tier)
    requires tool in tools && tool in members
    requires forall i, j :: 0 <= i < j < |tools| ==> tools[i] != tools[j]
    ensures SumOver(tools, members[tool := members[tool] + [r]], expected, a, p)
         == SumOver(tools, members, expected, a, p) + Hit(CellOf(r, expected), a, p)
  {
    var n := |tools| - 1;
    if tools[n] == tool {
      assert tool !in tools[..n];
      OtherToolsSame(tools[..n], members, tool, members[tool] + [r], expected, a, p);
      CellAppendAt(members[tool], r, expected, a, p);
    } else {
      OneToolGrows(tools[..n], members, tool, r, expected, a, p);
    }
  }

  lemma SumSnoc(tools: seq<string>, tool: string, members: map<string, seq<RunRecord>>, expected: Expectations,
      a: Tier, p: Tier)
    requires tool in members
    ensures SumOver(tools + [tool], members, expected, a, p)
         == SumOver(tools, members, expected, a, p) + InCell(members[tool], expected, a, p)
  {
    assert (tools + [tool])[..|tools|] == tools;
  }

  lemma NewTool(g: Groups, tool: string, r: RunRecord, expected: Expectations, a: Tier, p: Tier)
    requires WellGrouped(g) && tool !in g.members
    ensures SumOver(g.order + [tool], g.members[tool := [r]], expected, a, p)
         == SumOver(g.order, g.members, expected, a, p) + Hit(CellOf(r, expected), a, p)
  {
    SumSnoc(g.order, tool, g.members[tool := [r]], expected, a, p);
    OtherToolsSame(g.order, g.members, tool, [r], expected, a, p);
    CellAppendAt([], r, expected, a, p);
    assert [] + [r] == [r];
  }

  lemma JoinKeepsGroups(g: Groups, r: RunRecord)
    requires WellGrouped(g)
    ensures WellGrouped(Joined(g, r))
  {
  }

  lemma JoinKeepsSums(g: Groups, r: RunRecord, expected: Expectations, a: Tier, p: Tier)
    requires WellGrouped(g)
    ensures var h := Joined(g, r);
      && WellGrouped(h)
      && SumOver(h.order, h.members, expected, a, p)
           == SumOver(g.order, g.members, expected, a, p)
             + (if HasProposal(r) then Hit(CellOf(r, expected), a, p) else 0)
  {
    JoinKeepsGroups(g, r);
    if HasProposal(r) {
      var tool := ToolOfRun(r);
      if tool in g.members {
        OneToolGrows(g.order, g.members, tool, r, expected, a, p);
      } else {
        NewTool(g, tool, r, expected, a, p);
      }
    }
  }

  function WithProposal(runs: seq<RunRecord>): seq<RunRecord> { Where(runs, (r: RunRecord) => HasProposal(r)) }

  lemma ProposalAppend(runs: seq<RunRecord>, r: RunRecord, expected: Expectations, a: Tier, p: Tier)
    ensures InCell(WithProposal(runs + [r]), expected, a, p)
         == InCell(WithProposal(runs), expected, a, p) + (if HasProposal(r) then Hit(CellOf(r, expected), a, p) else 0)
  {
    WhereSnoc(runs, r, (x: RunRecord) => HasProposal(x));
    if HasProposal(r) {
      CellAppendAt(WithProposal(runs), r, expected, a, p);
    } else {
      assert WithProposal(runs) + [] == WithProposal(runs);
    }
  }

  ghost predicate SumsUp(g: Groups, runs: seq<RunRecord>, expected: Expectations, a: Tier, p: Tier) {
    WellGrouped(g) && SumOver(g.order, g.members, expected, a, p) == InCell(WithProposal(runs), expected, a, p)
  }

  lemma JoinKeepsSumsUp(g: Groups, runs: seq<RunRecord>, r: RunRecord, expected: Expectations, a: Tier, p: Tier)
    requires SumsUp(g, runs, expected, a, p)
    ensures SumsUp(Joined(g, r), runs + [r], expected, a, p)
  {
    JoinKeepsSums(g, r, expected, a, p);
    ProposalAppend(runs, r, expected, a, p);
  }

  /** The per-tool matrices add up, cell by cell, to the matrix of all runs that proposed anything. */
  lemma {:induction false} PerToolAddsUp(runs: seq<RunRecord>, expected: Expectations, a: Tier, p: Tier)
    ensures SumsUp(Grouped(runs), runs, expected, a, p)
  {
    if runs != [] {
      var n := |runs| - 1;
      PerToolAddsUp(runs[..n], expected, a, p);
      JoinKeepsSumsUp(Grouped(runs[..n]), runs[..n], runs[n], expected, a, p);
      assert runs == runs[..n] + [runs[n]];
    }
  }

  // ---- Whose runs they are. ----

  /** The last proposal is `tool`, or starts with it and a colon. */
  predicate OfTool(r: RunRecord, tool: string) {
    && r.proposed != [] && r.proposed[|r.proposed| - 1].Some?
    && var action := r.proposed[|r.proposed| - 1].value;
    ':' !in tool && (action == tool || tool + ":" <= action)
  }

  function RunsOf(runs: seq<RunRecord>, tool: string): seq<RunRecord> { Where(runs, (r: RunRecord) => OfTool(r, tool)) }

  lemma TextExactly(action: string, tool: string)
    ensures ToolText(action) == tool <==> ':' !in tool && (action == tool || tool + ":" <= action)
  {
    SplitsExactly(action);
    if Split(action).Some? {
      SplitSound(action);
      assert Split(action).value.0 + ":" <= action;
    }
    if ':' !in tool && tool + ":" <= action {
      SplitJoin(tool, action[|tool| + 1..]);
      assert action == Join(tool, action[|tool| + 1..]);
    }
  }

  ghost predicate GroupIs(g: Groups, runs: seq<RunRecord>, tool: string) {
    && (tool in g.members <==> RunsOf(runs, tool) != [])
    && (tool in g.members ==> g.members[tool] == RunsOf(runs, tool))
  }

  /** Each tool's group is the runs whose last proposal was its, in their order; there is one for each such tool. */
  lemma {:induction false} GroupsAreRuns(runs: seq<RunRecord>, tool: string)
    ensures GroupIs(Grouped(runs), runs, tool)
  {
    if runs != [] {
      var n := |runs| - 1;
      GroupsAreRuns(runs[..n], tool);
      assert runs == runs[..n] + [runs[n]];
      WhereSnoc(runs[..n], runs[n], (r: RunRecord) => OfTool(r, tool));
      OneMoreRun(Grouped(runs[..n]), runs[..n], runs[n], tool);
    }
  }

  lemma OneMoreRun(g: Groups, runs: seq<RunRecord>, r: RunRecord, tool: string)
    requires GroupIs(g, runs, tool)
    requires RunsOf(runs + [r], tool) == RunsOf(runs, tool) + (if OfTool(r, tool) then [r] else [])
    ensures GroupIs(Joined(g, r), runs + [r], tool)
  {
    if HasProposal(r) {
      TextExactly(r.proposed[|r.proposed| - 1].value, tool);
    }
  }

  /** One matrix for each tool that some run proposed last, of those runs. */
  method ByTool(runs: seq<RunRecord>, expected: Expectations)
    returns (order: seq<string>, matrices: map<string, Matrix>)
    requires forall r, a | r in runs && a in r.proposed :: a.Some?
    ensures order == Grouped(runs).order && (forall t :: t in order <==> t in matrices)
    ensures forall t :: t in matrices <==> RunsOf(runs, t) != []
    ensures forall t | t in matrices :: IsMatrix(matrices[t], RunsOf(runs, t), expected)
  {
    order, matrices := GroupByTool(runs, expected);
    GroupedWell(runs);
    forall t: string
      ensures t in matrices <==> RunsOf(runs, t) != []
      ensures t in matrices ==> IsMatrix(matrices[t], RunsOf(runs, t), expected)
    {
      GroupsAreRuns(runs, t);
    }
  }

  method GroupByTool(runs: seq<RunRecord>, expected: Expectations)
    returns (order: seq<string>, matrices: map<string, Matrix>)
    requires forall r, a | r in runs && a in r.proposed :: a.Some?
    ensures order == Grouped(runs).order && matrices.Keys == Grouped(runs).members.Keys
    ensures forall t | t in matrices :: IsMatrix(matrices[t], Grouped(runs).members[t], expected)
  {
    var members: map<string, seq<RunRecord>> := map[];
    order := [];
    for k := 0 to |runs|
      invariant Groups(order, members) == Grouped(runs[..k])
    {
      assert runs[..k + 1][..k] == runs[..k];
      var r := runs[k];
      assert r in runs;
      if r.proposed != [] {
        assert r.proposed[|r.proposed| - 1] in r.proposed;
        var tool := ToolOfRun(r);
        if tool in members {
          members := members[tool := members[tool] + [r]];
        } else {
          order, members := order + [tool], members[tool := [r]];
        }
      }
    }
    assert runs[..|runs|] == runs;
    GroupedWell(runs);
    matrices := map[];
    for k := 0 to |order|
      invariant forall t :: t in matrices <==> t in order[..k]
      invariant forall t | t in matrices :: t in members && IsMatrix(matrices[t], members[t], expected)
    {
      var tool := order[k];
      assert tool in order;
      var matrix, total := ConfusionMatrix(members[tool], expected);
      matrices := matrices[tool := matrix];
      assert order[..k + 1] == order[..k] + [tool];
    }
    assert order[..|order|] == order;
  }

  lemma GroupedWell(runs: seq<RunRecord>)
    ensures WellGrouped(Grouped(runs))
  {
    PerToolAddsUp(runs, map[], LowRisk, LowRisk);
  }
}
