/** The local learner: what evidence it takes in, what it recommends, and how it is rebuilt. Numbers are reals; the
    square root is any function that is not negative. */
module Learner {

  datatype Option<+T> = None | Some(value: T)

  const MIN_SESSIONS := 3
  const BOUNDARY := 1.0
  const AA_MAX_OFFSET := 0.05
  const AA_MAX_SPREAD := 0.05
  const PRIOR_MEAN := 1.0
  const PRIOR_VARIANCE := 0.15 * 0.15
  const VARIANCE_FLOOR := 0.000000001

  type Root = real -> real

  ghost predicate IsRoot(sqrt: Root) {
    forall x :: sqrt(x) >= 0.0
  }

  /** An action on a workload class. */
  datatype Key = Key(action: string, workload: string)

  /** The machine, model and libraries that something was measured on, or runs on. */
  datatype Runtime = Runtime(hardware: string, gpu: string, identity: string, revision: string, mlx: string,
                             mlxLm: string)

  /** One independent session's result. */
  datatype Evidence = Evidence(
    id: string,
    key: Key,
    runtime: Runtime,
    ratio: real,
    se: Option<real>,
    aaMedian: Option<real>,
    aaHalfWidth: Option<real>,
    correct: bool,
    resourced: bool,
    valid: bool,
    measuredAt: string)

  function Abs(x: real): real {
    if x < 0.0 then -x else x
  }

  function Max(x: real, y: real): real {
    if x >= y then x else y
  }

  /** Its own control sat on 1.0 and was narrow. */
  predicate Readable(e: Evidence) {
    && e.aaMedian.Some? && e.aaHalfWidth.Some?
    && Abs(e.aaMedian.value - BOUNDARY) <= AA_MAX_OFFSET && e.aaHalfWidth.value <= AA_MAX_SPREAD
  }

  predicate Identified(r: Runtime) {
    r.hardware != "" && r.identity != "" && r.mlx != "" && r.mlxLm != "" && r.revision != ""
  }

  /** `intake_reason` is empty. */
  predicate Admissible(e: Evidence, context: Runtime) {
    && Identified(context)
    && e.runtime.(gpu := context.gpu) == context
    && (context.gpu == "" || e.runtime.gpu == context.gpu)
    && e.valid && e.correct && e.resourced
  }

  function Sum(f: Evidence -> real, rows: seq<Evidence>): real {
    if rows == [] then 0.0 else Sum(f, rows[..|rows| - 1]) + f(rows[|rows| - 1])
  }

  function ForGain(rows: seq<Evidence>): (readable: seq<Evidence>)
    ensures forall i :: 0 <= i < |readable| ==> Readable(readable[i]) && readable[i] in rows
  {
    if rows == [] then []
    else
      var n := |rows| - 1;
      ForGain(rows[..n]) + if Readable(rows[n]) then [rows[n]] else []
  }

  function Mean(f: Evidence -> real, rows: seq<Evidence>): real
    requires rows != []
  {
    Sum(f, rows) / (|rows| as real)
  }

  function Deviation(f: Evidence -> real, mean: real): Evidence -> real {
    (e: Evidence) => (f(e) - mean) * (f(e) - mean)
  }

  function Variance(f: Evidence -> real, rows: seq<Evidence>): real
    requires |rows| > 1
  {
    Sum(Deviation(f, Mean(f, rows)), rows) / ((|rows| - 1) as real)
  }

  function Ratio(e: Evidence): real {
    e.ratio
  }

  function AaMedian(e: Evidence): real {
    if e.aaMedian.Some? then e.aaMedian.value else 0.0
  }

  function HasError(e: Evidence): real {
    if e.se.Some? then 1.0 else 0.0
  }

  function SquaredError(e: Evidence): real {
    if e.se.Some? then e.se.value * e.se.value else 0.0
  }

  /** A centre and what is added and subtracted for its 95 per cent predictive interval. */
  datatype Estimate = Estimate(center: real, uncertainty: real)
  {
    const low: real := center - 1.96 * uncertainty
    const high: real := center + 1.96 * uncertainty
  }

  /** Estimator A. */
  function RunningMean(sqrt: Root, rows: seq<Evidence>): Estimate
    requires |rows| > 1
  {
    Estimate(Mean(Ratio, rows), sqrt(Variance(Ratio, rows)) * sqrt(1.0 + 1.0 / (|rows| as real)))
  }

  function Within(rows: seq<Evidence>): real {
    if Sum(HasError, rows) == 0.0 then 0.0 else Sum(SquaredError, rows) / Sum(HasError, rows)
  }

  function Between(rows: seq<Evidence>): real
    requires |rows| > 1
  {
    Max(0.0, Variance(Ratio, rows) - Within(rows))
  }

  /** A session's weight in the posterior. */
  function Weight(within: real, between: real): Evidence -> real {
    (e: Evidence) => 1.0 / Max((if e.se.Some? then e.se.value * e.se.value else within) + between, VARIANCE_FLOOR)
  }

  function WeightedRatio(within: real, between: real): Evidence -> real {
    (e: Evidence) => e.ratio * Weight(within, between)(e)
  }

  lemma {:induction false} WeightsNotNegative(within: real, between: real, rows: seq<Evidence>)
    ensures Sum(Weight(within, between), rows) >= 0.0
  {
    if rows != [] {
      WeightsNotNegative(within, between, rows[..|rows| - 1]);
    }
  }

  function Precision(within: real, between: real, rows: seq<Evidence>): (p: real)
    ensures p > 0.0
  {
    WeightsNotNegative(within, between, rows);
    1.0 / PRIOR_VARIANCE + Sum(Weight(within, between), rows)
  }

  function Center(within: real, between: real, rows: seq<Evidence>): real {
    (PRIOR_MEAN / PRIOR_VARIANCE + Sum(WeightedRatio(within, between), rows)) / Precision(within, between, rows)
  }

  /** Estimator B. */
  function Bayesian(sqrt: Root, rows: seq<Evidence>): Estimate
    requires |rows| > 1
  {
    var within, between := Within(rows), Between(rows);
    Estimate(Center(within, between, rows), sqrt(1.0 / Precision(within, between, rows) + between + within))
  }

  /** The posterior's centre lies between the smallest and the largest of the prior mean and the observed ratios. */
  lemma CenterBetween(within: real, between: real, rows: seq<Evidence>, lo: real, hi: real)
    requires lo <= PRIOR_MEAN <= hi && forall i :: 0 <= i < |rows| ==> lo <= rows[i].ratio <= hi
    ensures lo <= Center(within, between, rows) <= hi
  {
    WeightedBetween(within, between, rows, lo, hi);
    var p, w := Precision(within, between, rows),
      PRIOR_MEAN / PRIOR_VARIANCE + Sum(WeightedRatio(within, between), rows);
    assert lo * p <= w <= hi * p by {
      var prior, sum := 1.0 / PRIOR_VARIANCE, Sum(Weight(within, between), rows);
      Distribute(lo, prior, sum);
      Distribute(hi, prior, sum);
      Monotone(lo, PRIOR_MEAN, prior);
      Monotone(PRIOR_MEAN, hi, prior);
    }
    Quotient(lo, hi, w, p);
  }

  lemma Distribute(x: real, a: real, b: real)
    ensures x * (a + b) == x * a + x * b
  {
  }

  lemma Monotone(x: real, y: real, a: real)
    requires x <= y && a >= 0.0
    ensures x * a <= y * a
  {
  }

  lemma Strict(x: real, y: real, a: real)
    requires x < y && a > 0.0
    ensures x * a < y * a
  {
  }

  lemma Quotient(lo: real, hi: real, w: real, p: real)
    requires p > 0.0 && lo * p <= w <= hi * p
    ensures lo <= w / p <= hi
  {
    var q := w / p;
    assert q * p == w;
    if q < lo {
      Strict(q, lo, p);
      assert false;
    }
    if q > hi {
      Strict(hi, q, p);
      assert false;
    }
  }

  lemma {:induction false} WeightedBetween(within: real, between: real, rows: seq<Evidence>, lo: real, hi: real)
    requires forall i :: 0 <= i < |rows| ==> lo <= rows[i].ratio <= hi
    ensures lo * Sum(Weight(within, between), rows) <= Sum(WeightedRatio(within, between), rows)
         <= hi * Sum(Weight(within, between), rows)
  {
    hide Sum;
    hide Weight;
    hide WeightedRatio;
    SumNone(Weight(within, between));
    SumNone(WeightedRatio(within, between));
    if rows != [] {
      var n := |rows| - 1;
      WeightedBetween(within, between, rows[..n], lo, hi);
      var weight := Weight(within, between)(rows[n]);
      WeightPositive(within, between, rows[n]);
      SumStep(Weight(within, between), rows);
      SumStep(WeightedRatio(within, between), rows);
      WeightedStep(lo, rows[n].ratio, hi, weight, Sum(Weight(within, between), rows[..n]),
                   Sum(WeightedRatio(within, between), rows[..n]), Sum(Weight(within, between), rows),
                   Sum(WeightedRatio(within, between), rows));
    }
  }

  lemma WeightPositive(within: real, between: real, e: Evidence)
    ensures Weight(within, between)(e) > 0.0
    ensures WeightedRatio(within, between)(e) == e.ratio * Weight(within, between)(e)
  {
  }

  lemma SumStep(f: Evidence -> real, rows: seq<Evidence>)
    requires rows != []
    ensures Sum(f, rows) == Sum(f, rows[..|rows| - 1]) + f(rows[|rows| - 1])
  {
  }

  lemma SumNone(f: Evidence -> real)
    ensures Sum(f, []) == 0.0
  {
  }

  lemma WeightedStep(lo: real, r: real, hi: real, weight: real, s: real, t: real, s1: real, t1: real)
    requires lo <= r <= hi && weight >= 0.0 && lo * s <= t <= hi * s
    requires s1 == s + weight && t1 == t + r * weight
    ensures lo * s1 <= t1 <= hi * s1
  {
    Monotone(lo, r, weight);
    Monotone(r, hi, weight);
    Distribute(lo, s, weight);
    Distribute(hi, s, weight);
  }

  datatype State = Unknown | Collecting | CandidateQualified | ReferenceOnly

  datatype Confidence = NoConfidence | Insufficient | Unusable | Qualified | Uncertain

  datatype Recommendation = Recommendation(
    state: State,
    candidate: bool,
    estimate: Option<Estimate>,
    count: nat,
    confidence: Confidence)

  const NO_STATE := Recommendation(Unknown, false, None, 0, NoConfidence)

  /** `decide_state`: the whole policy, a function of the accepted evidence alone. */
  function Decide(sqrt: Root, accepted: seq<Evidence>): Recommendation {
    var gain := ForGain(accepted);
    var count := |accepted|;
    if accepted == [] then NO_STATE
    else if count < MIN_SESSIONS || |gain| < MIN_SESSIONS then
      Recommendation(Collecting, false, None, count, Insufficient)
    else if Abs(Mean(AaMedian, gain) - BOUNDARY) > AA_MAX_OFFSET || sqrt(Variance(AaMedian, gain)) > AA_MAX_SPREAD
    then Recommendation(ReferenceOnly, false, None, count, Unusable)
    else
      var mean, bayes := RunningMean(sqrt, gain), Bayesian(sqrt, gain);
      if mean.high < BOUNDARY && bayes.high < BOUNDARY
      then Recommendation(CandidateQualified, true, Some(bayes), count, Qualified)
      else if mean.low > BOUNDARY && bayes.low > BOUNDARY
      then Recommendation(ReferenceOnly, false, Some(bayes), count, Qualified)
      else Recommendation(Collecting, false, Some(bayes), count, Uncertain)
  }

  /** A qualification is earned: at least three readable sessions, a mean ratio below 1 and a posterior centre below 1.
      A candidate is recommended in no other state, and a reference that is said to be faster has a mean ratio above
      1. */
  lemma QualifiedIsEarned(sqrt: Root, accepted: seq<Evidence>)
    requires IsRoot(sqrt)
    ensures Decide(sqrt, accepted).candidate <==> Decide(sqrt, accepted).state == CandidateQualified
    ensures Decide(sqrt, accepted).candidate ==>
      && |ForGain(accepted)| >= MIN_SESSIONS && Mean(Ratio, ForGain(accepted)) < BOUNDARY
      && Decide(sqrt, accepted).estimate.Some?
      && Decide(sqrt, accepted).estimate.value.center <= Decide(sqrt, accepted).estimate.value.high < BOUNDARY
      && Abs(Mean(AaMedian, ForGain(accepted)) - BOUNDARY) <= AA_MAX_OFFSET
    ensures Decide(sqrt, accepted).state == ReferenceOnly && Decide(sqrt, accepted).confidence == Qualified ==>
      |ForGain(accepted)| >= MIN_SESSIONS && Mean(Ratio, ForGain(accepted)) > BOUNDARY
  {
    var gain := ForGain(accepted);
    if |gain| >= MIN_SESSIONS {
      Product(sqrt(Variance(Ratio, gain)), sqrt(1.0 + 1.0 / (|gain| as real)));
    }
  }

  /** A candidate is recommended exactly if at least three readable sessions have a control whose mean is near 1 and
      whose spread is small, and both intervals, that of the running mean and that of the posterior, lie below 1. */
  lemma QualifiedExactly(sqrt: Root, accepted: seq<Evidence>)
    ensures var gain := ForGain(accepted);
      Decide(sqrt, accepted).candidate <==>
        && |gain| >= 3
        && -AA_MAX_OFFSET <= Mean(AaMedian, gain) - 1.0 <= AA_MAX_OFFSET
          && sqrt(Variance(AaMedian, gain)) <= AA_MAX_SPREAD
        && Mean(Ratio, gain) + 1.96 * (sqrt(Variance(Ratio, gain)) * sqrt(1.0 + 1.0 / (|gain| as real))) < 1.0
        && Bayesian(sqrt, gain).center + 1.96 * Bayesian(sqrt, gain).uncertainty < 1.0
  {
    hide Bayesian;
    ForGainFits(accepted);
  }

  lemma {:induction false} ForGainFits(rows: seq<Evidence>)
    ensures |ForGain(rows)| <= |rows|
  {
    if rows != [] {
      ForGainFits(rows[..|rows| - 1]);
    }
  }

  /** The readable sessions, each as often as it was accepted, and no other. */
  lemma {:induction false} ForGainFilters(rows: seq<Evidence>, e: Evidence)
    ensures multiset(ForGain(rows))[e]
         == if && e.aaMedian.Some? && e.aaHalfWidth.Some? && e.aaHalfWidth.value <= AA_MAX_SPREAD
               && -AA_MAX_OFFSET <= e.aaMedian.value - 1.0 <= AA_MAX_OFFSET
            then multiset(rows)[e] else 0
  {
    if rows != [] {
      var n := |rows| - 1;
      ForGainFilters(rows[..n], e);
      assert rows == rows[..n] + [rows[n]];
    }
  }

  /** What the posterior is, session by session: precision and weighted ratio grow from the prior by each session's own
      weight, the inverse of its variance. */
  lemma PosteriorSums(sqrt: Root, rows: seq<Evidence>) returns (precision: seq<real>, weighted: seq<real>)
    requires |rows| > 1
    ensures |precision| == |weighted| == |rows| + 1
    ensures precision[0] == 1.0 / PRIOR_VARIANCE && weighted[0] == PRIOR_MEAN / PRIOR_VARIANCE
    ensures forall i :: 0 <= i < |rows| ==>
              var error := if rows[i].se.Some? then rows[i].se.value * rows[i].se.value else Within(rows);
              var own := error + Between(rows);
              var weight := 1.0 / if own >= VARIANCE_FLOOR then own else VARIANCE_FLOOR;
              precision[i + 1] == precision[i] + weight && weighted[i + 1] == weighted[i] + rows[i].ratio * weight
    ensures precision[|rows|] > 0.0 && Bayesian(sqrt, rows).center == weighted[|rows|] / precision[|rows|]
    ensures Bayesian(sqrt, rows).uncertainty == sqrt(1.0 / precision[|rows|] + Between(rows) + Within(rows))
  {
    hide Sum;
    var within, between := Within(rows), Between(rows);
    var sums := RunningSums(Weight(within, between), rows, 1.0 / PRIOR_VARIANCE);
    precision := sums;
    weighted := RunningSums(WeightedRatio(within, between), rows, PRIOR_MEAN / PRIOR_VARIANCE);
    assert precision[|rows|] == Precision(within, between, rows);
  }

  lemma RunningSums(f: Evidence -> real, rows: seq<Evidence>, start: real) returns (sums: seq<real>)
    ensures |sums| == |rows| + 1 && sums[0] == start && sums[|rows|] == start + Sum(f, rows)
    ensures forall i :: 0 <= i < |rows| ==> sums[i + 1] == sums[i] + f(rows[i])
  {
    sums := seq(|rows| + 1, i requires 0 <= i <= |rows| => start + Sum(f, rows[..i]));
    forall i | 0 <= i < |rows|
      ensures sums[i + 1] == sums[i] + f(rows[i])
    {
      assert rows[..i + 1][..i] == rows[..i];
    }
    assert rows[..|rows|] == rows;
  }

  lemma Product(x: real, y: real)
    requires x >= 0.0 && y >= 0.0
    ensures x * y >= 0.0
  {
  }

  lemma {:induction false} SumConcat(f: Evidence -> real, a: seq<Evidence>, b: seq<Evidence>)
    ensures Sum(f, a + b) == Sum(f, a) + Sum(f, b)
    decreases |b|
  {
    if b == [] {
      assert a + b == a;
    } else {
      SumConcat(f, a, b[..|b| - 1]);
      assert (a + b)[..|a + b| - 1] == a + b[..|b| - 1];
    }
  }

  lemma SumOne(f: Evidence -> real, e: Evidence)
    ensures Sum(f, [e]) == f(e)
  {
    assert [e][..0] == [];
  }

  lemma Cancel(x: multiset<Evidence>, y: multiset<Evidence>, c: Evidence)
    requires x + multiset{c} == y + multiset{c}
    ensures x == y
  {
    assert x == (x + multiset{c}) - multiset{c};
    assert y == (y + multiset{c}) - multiset{c};
  }

  /** Where a row of the one list stands in the other, and what remains of the two lists without it. */
  lemma Removed(a: seq<Evidence>, b: seq<Evidence>) returns (k: nat)
    requires a != [] && multiset(a) == multiset(b)
    ensures k < |b| && b[k] == a[|a| - 1] && |a| == |b|
    ensures b == b[..k] + [b[k]] + b[k + 1..]
    ensures multiset(a[..|a| - 1]) == multiset(b[..k] + b[k + 1..])
  {
    var n := |a| - 1;
    assert a == a[..n] + [a[n]];
    assert a[n] in multiset(b);
    k :| 0 <= k < |b| && b[k] == a[n];
    assert b == b[..k] + [b[k]] + b[k + 1..];
    assert multiset(b) == multiset(b[..k]) + multiset{b[k]} + multiset(b[k + 1..]);
    assert multiset(b[..k] + b[k + 1..]) == multiset(b[..k]) + multiset(b[k + 1..]);
    assert multiset(a) == multiset(a[..n]) + multiset{a[n]};
    Cancel(multiset(a[..n]), multiset(b[..k] + b[k + 1..]), a[n]);
    assert |multiset(a)| == |multiset(b)|;
  }

  /** A sum over evidence does not depend on its order. */
  lemma {:induction false} SumPermutes(f: Evidence -> real, a: seq<Evidence>, b: seq<Evidence>)
    requires multiset(a) == multiset(b)
    ensures Sum(f, a) == Sum(f, b) && |a| == |b|
    decreases |a|
  {
    if a == [] {
      assert |multiset(b)| == 0;
    } else {
      var k := Removed(a, b);
      SumPermutes(f, a[..|a| - 1], b[..k] + b[k + 1..]);
      SumConcat(f, b[..k] + [b[k]], b[k + 1..]);
      SumConcat(f, b[..k], [b[k]]);
      SumConcat(f, b[..k], b[k + 1..]);
      SumOne(f, b[k]);
    }
  }

  lemma {:induction false} ForGainConcat(a: seq<Evidence>, b: seq<Evidence>)
    ensures ForGain(a + b) == ForGain(a) + ForGain(b)
    decreases |b|
  {
    if b == [] {
      assert a + b == a;
    } else {
      ForGainConcat(a, b[..|b| - 1]);
      assert (a + b)[..|a + b| - 1] == a + b[..|b| - 1];
    }
  }

  lemma ForGainOne(e: Evidence)
    ensures ForGain([e]) == if Readable(e) then [e] else []
  {
    assert [e][..0] == [];
  }

  lemma {:induction false} ForGainPermutes(a: seq<Evidence>, b: seq<Evidence>)
    requires multiset(a) == multiset(b)
    ensures multiset(ForGain(a)) == multiset(ForGain(b))
    decreases |a|
  {
    if a == [] {
      assert |multiset(b)| == 0;
    } else {
      var k := Removed(a, b);
      ForGainPermutes(a[..|a| - 1], b[..k] + b[k + 1..]);
      ForGainConcat(b[..k] + [b[k]], b[k + 1..]);
      ForGainConcat(b[..k], [b[k]]);
      ForGainConcat(b[..k], b[k + 1..]);
      ForGainOne(b[k]);
    }
  }

  lemma MeanPermutes(f: Evidence -> real, a: seq<Evidence>, b: seq<Evidence>)
    requires multiset(a) == multiset(b) && |a| > 1
    ensures |b| == |a| && Mean(f, a) == Mean(f, b) && Variance(f, a) == Variance(f, b)
  {
    SumPermutes(f, a, b);
    SumPermutes(Deviation(f, Mean(f, a)), a, b);
  }

  lemma EstimatesPermute(sqrt: Root, a: seq<Evidence>, b: seq<Evidence>)
    requires multiset(a) == multiset(b) && |a| > 1
    ensures |b| == |a| && RunningMean(sqrt, a) == RunningMean(sqrt, b) && Bayesian(sqrt, a) == Bayesian(sqrt, b)
  {
    hide Sum;
    hide Variance;
    hide Mean;
    hide Weight;
    hide WeightedRatio;
    MeanPermutes(Ratio, a, b);
    SumPermutes(HasError, a, b);
    SumPermutes(SquaredError, a, b);
    assert Within(a) == Within(b);
    assert Between(a) == Between(b);
    SumPermutes(Weight(Within(a), Between(a)), a, b);
    SumPermutes(WeightedRatio(Within(a), Between(a)), a, b);
  }

  /** The verdict does not depend on the order in which the evidence came. */
  lemma OrderDoesNotMatter(sqrt: Root, a: seq<Evidence>, b: seq<Evidence>)
    requires multiset(a) == multiset(b)
    ensures Decide(sqrt, a) == Decide(sqrt, b)
  {
    hide RunningMean;
    hide Bayesian;
    hide Mean;
    hide Variance;
    SumPermutes(Ratio, a, b);
    ForGainPermutes(a, b);
    SumPermutes(Ratio, ForGain(a), ForGain(b));
    if |ForGain(a)| >= MIN_SESSIONS {
      MeanPermutes(AaMedian, ForGain(a), ForGain(b));
      EstimatesPermute(sqrt, ForGain(a), ForGain(b));
    }
  }

  type Accepted = map<Key, seq<Evidence>>

  function RowsOf(accepted: Accepted, k: Key): seq<Evidence> {
    if k in accepted then accepted[k] else []
  }

  predicate Known(rows: seq<Evidence>, id: string) {
    exists i :: 0 <= i < |rows| && rows[i].id == id
  }

  /** One offered row: taken in if it is admissible and new, otherwise nothing changes. */
  function Observed(context: Runtime, accepted: Accepted, e: Evidence): Accepted {
    if !Admissible(e, context) || Known(RowsOf(accepted, e.key), e.id) then accepted
    else accepted[e.key := RowsOf(accepted, e.key) + [e]]
  }

  function ObservedAll(context: Runtime, accepted: Accepted, rows: seq<Evidence>): Accepted {
    if rows == [] then accepted
    else Observed(context, ObservedAll(context, accepted, rows[..|rows| - 1]), rows[|rows| - 1])
  }

  predicate DistinctIds(rows: seq<Evidence>) {
    forall i, j :: 0 <= i < j < |rows| ==> rows[i].id != rows[j].id
  }

  /** Everything accepted was admissible, stands under its own key, and is counted once. */
  ghost predicate SoundlyAccepted(context: Runtime, accepted: Accepted) {
    forall k :: k in accepted ==>
      && accepted[k] != [] && DistinctIds(accepted[k])
      && forall i :: 0 <= i < |accepted[k]| ==> accepted[k][i].key == k && Admissible(accepted[k][i], context)
  }

  lemma ObservedIsSound(context: Runtime, accepted: Accepted, e: Evidence)
    requires SoundlyAccepted(context, accepted)
    ensures SoundlyAccepted(context, Observed(context, accepted, e))
  {
  }

  lemma {:induction false} ObservedAllConcat(context: Runtime, accepted: Accepted, a: seq<Evidence>, b: seq<Evidence>)
    ensures ObservedAll(context, accepted, a + b) == ObservedAll(context, ObservedAll(context, accepted, a), b)
    decreases |b|
  {
    if b == [] {
      assert a + b == a;
    } else {
      ObservedAllConcat(context, accepted, a, b[..|b| - 1]);
      assert (a + b)[..|a + b| - 1] == a + b[..|b| - 1];
    }
  }

  /** A saved file: per action its rows, in which an unreadable row is `None`. `intact` is the digest check. */
  datatype File = File(schema: bool, intact: bool, context: Runtime, actions: seq<seq<Option<Evidence>>>)

  function Flat(actions: seq<seq<Option<Evidence>>>): seq<Option<Evidence>> {
    if actions == [] then [] else Flat(actions[..|actions| - 1]) + actions[|actions| - 1]
  }

  predicate AllReadable(rows: seq<Option<Evidence>>) {
    forall i :: 0 <= i < |rows| ==> rows[i].Some?
  }

  function Values(rows: seq<Option<Evidence>>): (values: seq<Evidence>)
    requires AllReadable(rows)
    ensures |values| == |rows|
  {
    seq(|rows|, i requires 0 <= i < |rows| => rows[i].value)
  }

  /** What a restored learner has accepted: the file's rows offered again, or nothing of a file that is not intact, of
      another runtime or only partly readable. The summary beside the rows is not looked at. */
  function Restored(file: Option<File>, context: Runtime, evidence: seq<Evidence>): Accepted {
    var own := ObservedAll(context, map[], evidence);
    if file == None || !file.value.schema || !file.value.intact
      || file.value.context.(gpu := context.gpu) != context then own
    else if !AllReadable(Flat(file.value.actions)) then map[]
    else ObservedAll(context, own, Values(Flat(file.value.actions)))
  }

  /** A file that a learner wrote: one list per key, in some order. */
  ghost predicate IsFileOf(file: File, keys: seq<Key>, context: Runtime, accepted: Accepted) {
    && file.schema && file.intact && file.context == context
    && |file.actions| == |keys| && (forall i, j :: 0 <= i < j < |keys| ==> keys[i] != keys[j])
    && (forall k :: k in accepted <==> k in keys)
    && (forall i :: 0 <= i < |keys| ==>
          AllReadable(file.actions[i]) && Values(file.actions[i]) == RowsOf(accepted, keys[i]))
  }

  /** Offering a key's own rows again takes in all of them. */
  lemma {:induction false} OfferedAgain(context: Runtime, accepted: Accepted, rows: seq<Evidence>, k: Key)
    requires k !in accepted && DistinctIds(rows)
    requires forall i :: 0 <= i < |rows| ==> rows[i].key == k && Admissible(rows[i], context)
    ensures ObservedAll(context, accepted, rows) == if rows == [] then accepted else accepted[k := rows]
    decreases |rows|
  {
    if rows != [] {
      var n := |rows| - 1;
      OfferedAgain(context, accepted, rows[..n], k);
      assert rows == rows[..n] + [rows[n]];
      assert !Known(rows[..n], rows[n].id);
    }
  }

  /** The round trip: saving a learner and restoring it on the same runtime brings back exactly its evidence. */
  lemma SavedIsRestored(file: File, keys: seq<Key>, context: Runtime, accepted: Accepted)
    requires SoundlyAccepted(context, accepted) && IsFileOf(file, keys, context, accepted)
    ensures Restored(Some(file), context, []) == accepted
  {
    RestoredUpTo(file, keys, context, accepted, |keys|);
    assert file.actions[..|keys|] == file.actions && keys[..|keys|] == keys;
    assert Under(accepted, keys) == accepted;
  }

  function Under(accepted: Accepted, keys: seq<Key>): Accepted {
    map k | k in accepted && k in keys :: accepted[k]
  }

  lemma UnderOneMore(accepted: Accepted, keys: seq<Key>, k: Key)
    requires k in accepted && k !in keys
    ensures k !in Under(accepted, keys) && Under(accepted, keys + [k]) == Under(accepted, keys)[k := accepted[k]]
  {
  }

  lemma {:induction false} RestoredUpTo(file: File, keys: seq<Key>, context: Runtime, accepted: Accepted, n: nat)
    requires SoundlyAccepted(context, accepted) && IsFileOf(file, keys, context, accepted) && n <= |keys|
    ensures AllReadable(Flat(file.actions[..n]))
    ensures ObservedAll(context, map[], Values(Flat(file.actions[..n]))) == Under(accepted, keys[..n])
  {
    hide ObservedAll;
    hide SoundlyAccepted;
    hide Under;
    hide DistinctIds;
    if n > 0 {
      RestoredUpTo(file, keys, context, accepted, n - 1);
      var before, rows, k := Flat(file.actions[..n - 1]), file.actions[n - 1], keys[n - 1];
      var sofar := Under(accepted, keys[..n - 1]);
      assert file.actions[..n][..n - 1] == file.actions[..n - 1] && Flat(file.actions[..n]) == before + rows;
      assert Values(before + rows) == Values(before) + Values(rows);
      assert k in keys && k !in keys[..n - 1];
      UnderOneMore(accepted, keys[..n - 1], k);
      OwnRows(context, accepted, sofar, k);
      ObservedAllConcat(context, map[], Values(before), Values(rows));
      assert keys[..n] == keys[..n - 1] + [k];
    } else {
      NothingObserved(context, accepted);
      assert keys[..n] == [];
    }
  }

  lemma NothingObserved(context: Runtime, accepted: Accepted)
    ensures ObservedAll(context, map[], []) == map[] == Under(accepted, [])
  {
  }

  lemma OwnRows(context: Runtime, accepted: Accepted, sofar: Accepted, k: Key)
    requires SoundlyAccepted(context, accepted) && k in accepted && k !in sofar
    ensures ObservedAll(context, sofar, accepted[k]) == sofar[k := accepted[k]]
  {
    OfferedAgain(context, sofar, accepted[k], k);
  }

  /** `LocalLearner`. Its recommendations are the policy's verdicts on what it accepted, at every moment. */
  class LocalLearner {
    const sqrt: Root
    const context: Runtime
    var accepted: Accepted
    var recommendations: map<Key, Recommendation>
    var rejected: seq<Evidence>

    constructor (sqrt: Root, context: Runtime)
      ensures Valid() && accepted == map[] && this.sqrt == sqrt && this.context == context
    {
      this.sqrt, this.context := sqrt, context;
      accepted, recommendations, rejected := map[], map[], [];
    }

    ghost predicate Valid()
      reads this
    {
      && SoundlyAccepted(context, accepted)
      && recommendations.Keys == accepted.Keys
      && forall k :: k in accepted ==> recommendations[k] == Decide(sqrt, accepted[k])
    }

    /** `observe`: the row changes the state, or it is recorded as rejected. */
    method Observe(e: Evidence) returns (taken: bool)
      requires Valid()
      modifies this
      ensures Valid() && accepted == Observed(context, old(accepted), e)
      ensures var before := if e.key in old(accepted) then old(accepted)[e.key] else [];
        && (taken <==>
              && e.valid && e.correct && e.resourced
              && context.hardware != "" && context.identity != "" && context.revision != ""
              && context.mlx != "" && context.mlxLm != ""
              && e.runtime.hardware == context.hardware && e.runtime.identity == context.identity
              && e.runtime.revision == context.revision && e.runtime.mlx == context.mlx
              && e.runtime.mlxLm == context.mlxLm && (context.gpu != "" ==> e.runtime.gpu == context.gpu)
              && forall i :: 0 <= i < |before| ==> before[i].id != e.id)
        && accepted == if taken then old(accepted)[e.key := before + [e]] else old(accepted)
      ensures taken <==> Admissible(e, context) && !Known(RowsOf(old(accepted), e.key), e.id)
      ensures rejected == old(rejected) + if taken then [] else [e]
    {
      hide Decide;
      ObservedIsSound(context, accepted, e);
      if !Admissible(e, context) {
        rejected := rejected + [e];
        return false;
      }
      var known := RowsOf(accepted, e.key);
      for i := 0 to |known|
        invariant forall j :: 0 <= j < i ==> known[j].id != e.id
      {
        if known[i].id == e.id {
          rejected := rejected + [e];
          return false;
        }
      }
      accepted := accepted[e.key := known + [e]];
      var verdict := DecideState(sqrt, known + [e]);
      recommendations := recommendations[e.key := verdict];
      taken := true;
    }

    method ObserveAll(rows: seq<Evidence>)
      requires Valid()
      modifies this
      ensures Valid() && accepted == ObservedAll(context, old(accepted), rows)
    {
      for i := 0 to |rows|
        invariant Valid() && accepted == ObservedAll(context, old(accepted), rows[..i])
      {
        assert rows[..i + 1][..i] == rows[..i];
        var taken := Observe(rows[i]);
      }
      assert rows[..|rows|] == rows;
    }

    /** `recommendation`. */
    function For(k: Key): Recommendation
      reads this
    {
      if k in recommendations then recommendations[k] else NO_STATE
    }

    /** In every reachable learner, a recommended candidate has at least three distinct readable sessions of this very
        runtime behind it, with a mean ratio below 1. */
    lemma CandidateIsEarned(k: Key)
      requires Valid() && IsRoot(sqrt) && For(k).state == CandidateQualified
      ensures k in accepted && |ForGain(accepted[k])| >= MIN_SESSIONS && Mean(Ratio, ForGain(accepted[k])) < BOUNDARY
      ensures DistinctIds(ForGain(accepted[k]))
      ensures forall e :: e in ForGain(accepted[k]) ==> Readable(e) && Admissible(e, context) && e.key == k
    {
      QualifiedIsEarned(sqrt, accepted[k]);
      ForGainDistinct(accepted[k]);
    }
  }

  lemma {:induction false} ForGainDistinct(rows: seq<Evidence>)
    requires DistinctIds(rows)
    ensures DistinctIds(ForGain(rows))
    ensures forall e :: e in ForGain(rows) ==> e in rows
  {
    if rows != [] {
      var n := |rows| - 1;
      ForGainDistinct(rows[..n]);
      forall i | 0 <= i < |ForGain(rows[..n])|
        ensures ForGain(rows[..n])[i].id != rows[n].id
      {
        assert ForGain(rows[..n])[i] in rows[..n];
      }
    }
  }

  /** `restore`: a file's rows go through the intake again; one unreadable row and nothing of the learner is kept. */
  method Restore(sqrt: Root, file: Option<File>, context: Runtime, evidence: seq<Evidence>)
    returns (learner: LocalLearner)
    ensures learner.Valid() && fresh(learner) && learner.context == context && learner.sqrt == sqrt
    ensures learner.accepted == Restored(file, context, evidence)
  {
    hide Decide;
    hide SoundlyAccepted;
    hide Admissible;
    learner := new LocalLearner(sqrt, context);
    learner.ObserveAll(evidence);
    if file == None || !file.value.schema || !file.value.intact || file.value.context.(gpu := context.gpu) != context {
      return;
    }
    var rows := Flat(file.value.actions);
    ghost var own := learner.accepted;
    for i := 0 to |rows|
      invariant learner.Valid() && fresh(learner) && learner.context == context && learner.sqrt == sqrt
      invariant AllReadable(rows[..i]) && learner.accepted == ObservedAll(context, own, Values(rows[..i]))
    {
      if rows[i] == None {
        learner := new LocalLearner(sqrt, context);
        return;
      }
      assert Values(rows[..i + 1])[..i] == Values(rows[..i]);
      var taken := learner.Observe(rows[i].value);
    }
    assert rows[..|rows|] == rows;
  }

  /** `decide_state`, step by step, with the posterior's accumulating loop. */
  method DecideState(sqrt: Root, accepted: seq<Evidence>) returns (r: Recommendation)
    ensures r == Decide(sqrt, accepted)
  {
    hide RunningMean;
    hide Bayesian;
    if accepted == [] {
      return NO_STATE;
    }
    var gain := [];
    for i := 0 to |accepted|
      invariant gain == ForGain(accepted[..i])
    {
      assert accepted[..i + 1][..i] == accepted[..i];
      if Readable(accepted[i]) {
        gain := gain + [accepted[i]];
      }
    }
    assert accepted[..|accepted|] == accepted;
    if |accepted| < MIN_SESSIONS || |gain| < MIN_SESSIONS {
      return Recommendation(Collecting, false, None, |accepted|, Insufficient);
    }
    if Abs(Mean(AaMedian, gain) - BOUNDARY) > AA_MAX_OFFSET || sqrt(Variance(AaMedian, gain)) > AA_MAX_SPREAD {
      return Recommendation(ReferenceOnly, false, None, |accepted|, Unusable);
    }
    var mean := RunningMean(sqrt, gain);
    var bayes := Posterior(sqrt, gain);
    if mean.high < BOUNDARY && bayes.high < BOUNDARY {
      return Recommendation(CandidateQualified, true, Some(bayes), |accepted|, Qualified);
    }
    if mean.low > BOUNDARY && bayes.low > BOUNDARY {
      return Recommendation(ReferenceOnly, false, Some(bayes), |accepted|, Qualified);
    }
    return Recommendation(Collecting, false, Some(bayes), |accepted|, Uncertain);
  }

  /** `bayesian`: precision and weighted ratio accumulate over the sessions from the prior. */
  method Posterior(sqrt: Root, rows: seq<Evidence>) returns (estimate: Estimate)
    requires |rows| > 1
    ensures estimate == Bayesian(sqrt, rows)
  {
    hide Variance;
    var within, between := Within(rows), Between(rows);
    var precision, weighted := 1.0 / PRIOR_VARIANCE, PRIOR_MEAN / PRIOR_VARIANCE;
    for i := 0 to |rows|
      invariant precision == 1.0 / PRIOR_VARIANCE + Sum(Weight(within, between), rows[..i])
      invariant weighted == PRIOR_MEAN / PRIOR_VARIANCE + Sum(WeightedRatio(within, between), rows[..i])
    {
      assert rows[..i + 1][..i] == rows[..i];
      precision := precision + Weight(within, between)(rows[i]);
      weighted := weighted + WeightedRatio(within, between)(rows[i]);
    }
    assert rows[..|rows|] == rows;
    assert precision == Precision(within, between, rows);
    estimate := Estimate(weighted / precision, sqrt(1.0 / precision + between + within));
  }
}
