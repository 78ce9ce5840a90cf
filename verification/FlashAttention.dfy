/** The FA2 kernels over reals: attention in 64-key chunks, combined in index order with a running maximum.

    The exponential is any function that turns sums into products and is positive. Rounding is not modelled here. */
module FlashAttention {
  import opened Layout
  import opened Warp

  const CHUNK := 64
  const DIM := 128

  /** A score, or the negative infinity of a position at or beyond the row's length. */
  datatype Score = NegInf | Of(value: real)

  function Larger(a: Score, b: Score): Score {
    match (a, b)
    case (NegInf, _) => b
    case (_, NegInf) => a
    case (Of(x), Of(y)) => if x < y then b else a
  }

  predicate AtMost(a: Score, b: Score) {
    Larger(a, b) == b
  }

  ghost predicate IsExp(exp: real -> real) {
    && (forall x :: exp(x) > 0.0)
    && (forall x, y :: exp(x + y) == exp(x) * exp(y))
  }

  /** `expf(a - b)`, which is zero when `a` is negative infinity. */
  function ExpOf(exp: real -> real, a: Score, b: Score): real {
    if a.NegInf? || b.NegInf? then 0.0 else exp(a.value - b.value)
  }

  /** The one-pass sums: every value weighted by the exponential of its score, and the weights alone. */
  function Weighted(exp: real -> real, scores: seq<real>, values: seq<real>): real
    requires |scores| == |values|
  {
    if scores == [] then 0.0
    else
      var n := |scores| - 1;
      Weighted(exp, scores[..n], values[..n]) + exp(scores[n]) * values[n]
  }

  function Ones(n: nat): (ones: seq<real>)
    ensures |ones| == n
  {
    seq(n, _ => 1.0)
  }

  function Norm(exp: real -> real, scores: seq<real>): real {
    Weighted(exp, scores, Ones(|scores|))
  }

  lemma ExpPositive(exp: real -> real, x: real)
    requires IsExp(exp)
    ensures exp(x) > 0.0
  {
  }

  lemma {:induction false} NormPositive(exp: real -> real, scores: seq<real>)
    requires IsExp(exp) && scores != []
    ensures Norm(exp, scores) > 0.0
  {
    var n := |scores| - 1;
    assert Ones(|scores|)[..n] == Ones(n);
    ExpPositive(exp, scores[n]);
    if n > 0 {
      NormPositive(exp, scores[..n]);
    } else {
      assert Weighted(exp, scores[..n], Ones(n)) == 0.0;
    }
  }

  /** Exact attention of one coordinate: the softmax-weighted sum in one pass. */
  function Attention(exp: real -> real, scores: seq<real>, values: seq<real>): real
    requires IsExp(exp) && |scores| == |values| > 0
  {
    NormPositive(exp, scores);
    Weighted(exp, scores, values) / Norm(exp, scores)
  }

  /** What exact attention is, sum by sum: the weights are the exponentials of the scores, and each value counts with
      its own. */
  lemma AttentionSums(exp: real -> real, scores: seq<real>, values: seq<real>)
    returns (weighted: seq<real>, weights: seq<real>)
    requires IsExp(exp) && |scores| == |values| > 0
    ensures |weighted| == |weights| == |scores| + 1 && weighted[0] == weights[0] == 0.0
    ensures forall i :: 0 <= i < |scores| ==> weighted[i + 1] == weighted[i] + exp(scores[i]) * values[i]
    ensures forall i :: 0 <= i < |scores| ==> weights[i + 1] == weights[i] + exp(scores[i])
    ensures weights[|scores|] > 0.0 && Attention(exp, scores, values) == weighted[|scores|] / weights[|scores|]
  {
    weighted := WeightedSums(exp, scores, values);
    weights := WeightedSums(exp, scores, Ones(|scores|));
    NormPositive(exp, scores);
  }

  lemma WeightedSums(exp: real -> real, scores: seq<real>, values: seq<real>) returns (sums: seq<real>)
    requires |scores| == |values|
    ensures |sums| == |scores| + 1 && sums[0] == 0.0 && sums[|scores|] == Weighted(exp, scores, values)
    ensures forall i :: 0 <= i < |scores| ==> sums[i + 1] == sums[i] + exp(scores[i]) * values[i]
  {
    sums := seq(|scores| + 1, i requires 0 <= i <= |scores| => Weighted(exp, scores[..i], values[..i]));
    forall i | 0 <= i < |scores|
      ensures sums[i + 1] == sums[i] + exp(scores[i]) * values[i]
    {
      WeightedStep(exp, scores, values, i);
    }
    assert scores[..|scores|] == scores && values[..|scores|] == values;
  }

  lemma WeightedStep(exp: real -> real, scores: seq<real>, values: seq<real>, i: nat)
    requires |scores| == |values| && i < |scores|
    ensures Weighted(exp, scores[..i + 1], values[..i + 1])
         == Weighted(exp, scores[..i], values[..i]) + exp(scores[i]) * values[i]
  {
    var s, v := scores[..i + 1], values[..i + 1];
    assert s[..i] == scores[..i] && v[..i] == values[..i] && s[i] == scores[i] && v[i] == values[i];
  }

  lemma {:induction false} WeightedSplit(exp: real -> real, scores: seq<real>, values: seq<real>, k: nat)
    requires |scores| == |values| && k <= |scores|
    ensures Weighted(exp, scores, values)
            == Weighted(exp, scores[..k], values[..k]) + Weighted(exp, scores[k..], values[k..])
    decreases |scores|
  {
    if k == |scores| {
      assert scores[..k] == scores && values[..k] == values;
    } else {
      var n := |scores| - 1;
      WeightedSplit(exp, scores[..n], values[..n], k);
      assert scores[..n][..k] == scores[..k] && values[..n][..k] == values[..k];
      assert scores[k..][..n - k] == scores[..n][k..] && values[k..][..n - k] == values[..n][k..];
    }
  }

  function Sum(a: seq<real>): real {
    if a == [] then 0.0 else Sum(a[..|a| - 1]) + a[|a| - 1]
  }

  lemma {:induction false} SumSplit(a: seq<real>, k: nat)
    requires k <= |a|
    ensures Sum(a) == Sum(a[..k]) + Sum(a[k..])
    decreases |a|
  {
    if k == |a| {
      assert a[..k] == a;
    } else {
      SumSplit(a[..|a| - 1], k);
      assert a[..|a| - 1][..k] == a[..k] && a[k..][..|a| - 1 - k] == a[..|a| - 1][k..];
    }
  }

  function Plus(x: real, y: real): real {
    x + y
  }

  lemma {:induction false} SumOfPairs(a: seq<real>, b: seq<real>)
    requires |a| == |b|
    ensures Sum(seq(|a|, i requires 0 <= i < |a| => Plus(a[i], b[i]))) == Sum(a) + Sum(b)
  {
    var r := seq(|a|, i requires 0 <= i < |a| => Plus(a[i], b[i]));
    if a != [] {
      var n := |a| - 1;
      SumOfPairs(a[..n], b[..n]);
      assert r[..n] == seq(n, i requires 0 <= i < n => Plus(a[..n][i], b[..n][i]));
    }
  }

  predicate PowerOfTwo(n: nat) {
    n == 1 || (n > 0 && n % 2 == 0 && PowerOfTwo(n / 2))
  }

  /** Over reals the shape of a warp's sum does not matter. */
  lemma {:induction false} TreeIsSum(a: seq<real>)
    requires PowerOfTwo(|a|)
    ensures Tree(Plus, a) == Sum(a)
    decreases |a|
  {
    if |a| == 1 {
      assert a[..0] == [];
    } else {
      var o := |a| / 2;
      SumSplit(a, o);
      SumOfPairs(a[..o], a[o..]);
      assert Halved(Plus, a) == seq(o, i requires 0 <= i < o => Plus(a[..o][i], a[o..][i]));
      TreeIsSum(Halved(Plus, a));
    }
  }

  lemma {:induction false} TreeIsLargest(a: seq<Score>)
    requires PowerOfTwo(|a|)
    ensures Tree(Larger, a) in a
    ensures forall i :: 0 <= i < |a| ==> AtMost(a[i], Tree(Larger, a))
    decreases |a|
  {
    if |a| > 1 {
      var half, o := Halved(Larger, a), |a| / 2;
      TreeIsLargest(half);
      forall i | 0 <= i < |a|
        ensures AtMost(a[i], Tree(Larger, a))
      {
        var l := if i < o then i else i - o;
        assert half[l] == Larger(a[l], a[l + o]);
      }
    }
  }

  function Dot(a: seq<real>, b: seq<real>): real
    requires |a| == |b|
  {
    if a == [] then 0.0
    else
      var n := |a| - 1;
      a[n] * b[n] + Dot(a[..n], b[..n])
  }

  /** What a dot product is, term by term. */
  lemma DotSums(a: seq<real>, b: seq<real>) returns (sums: seq<real>)
    requires |a| == |b|
    ensures |sums| == |a| + 1 && sums[0] == 0.0 && sums[|a|] == Dot(a, b)
    ensures forall i :: 0 <= i < |a| ==> sums[i + 1] == a[i] * b[i] + sums[i]
  {
    sums := seq(|a| + 1, i requires 0 <= i <= |a| => Dot(a[..i], b[..i]));
    forall i | 0 <= i < |a|
      ensures sums[i + 1] == a[i] * b[i] + sums[i]
    {
      DotStep(a, b, i);
    }
    assert a[..|a|] == a && b[..|a|] == b;
  }

  lemma DotStep(a: seq<real>, b: seq<real>, i: nat)
    requires |a| == |b| && i < |a|
    ensures Dot(a[..i + 1], b[..i + 1]) == a[i] * b[i] + Dot(a[..i], b[..i])
  {
    var c, d := a[..i + 1], b[..i + 1];
    assert c[..i] == a[..i] && d[..i] == b[..i] && c[i] == a[i] && d[i] == b[i];
  }

  /** One launch: `batch` query rows of `kvHeads * group` heads, each with its own slot and length, over a pool of
      `poolSlots` slots of `capacity` positions. */
  datatype Launch = Launch(
    batch: nat,
    kvHeads: nat,
    group: nat,
    capacity: nat,
    poolSlots: nat,
    scale: real,
    lengths: seq<nat>,
    slots: seq<nat>,
    q: seq<seq<real>>,
    k: seq<seq<real>>,
    v: seq<seq<real>>)
  {
    const heads: nat := kvHeads * group
    const chunks: nat := (capacity + CHUNK - 1) / CHUNK

    ghost predicate Valid() {
      && kvHeads > 0 && group > 0
      && |lengths| == |slots| == batch
      && (forall b :: 0 <= b < batch ==> 1 <= lengths[b] <= capacity && slots[b] < poolSlots)
      && |q| == rows && |k| == |v| == poolSlots * kvHeads * capacity
      && (forall i :: 0 <= i < |q| ==> |q[i]| == DIM)
      && (forall i :: 0 <= i < |k| ==> |k[i]| == |v[i]| == DIM)
    }

    predicate IsRow(b: int, h: int) {
      0 <= b < batch && 0 <= h < heads
    }

    /** The pool row of position `t` of row `(b, h)`'s own slot and key/value head. */
    function OwnRow(b: nat, h: nat, t: nat): (row: nat)
      requires Valid() && IsRow(b, h) && t < lengths[b]
      ensures row < |k| && row == (slots[b] * kvHeads + h / group) * capacity + t
    {
      HeadInGroup(h);
      FlatRowInside(kvHeads, capacity, poolSlots, slots[b], h / group, t);
      FlatRow(kvHeads, capacity, slots[b], h / group, t)
    }

    lemma HeadInGroup(h: nat)
      requires group > 0 && h < heads
      ensures h / group < kvHeads
    {
      DivMod(h / group, h % group, group);
      if h / group >= kvHeads {
        Scale(kvHeads, h / group, group);
      }
    }

    const rows: nat := batch * heads

    /** The query and output row of a batch row's head. */
    function Row(b: nat, h: nat): (row: nat)
      requires IsRow(b, h)
      ensures row < rows && row == b * heads + h
    {
      RowInside(b, h);
      b * heads + h
    }

    lemma RowInside(b: nat, h: nat)
      requires IsRow(b, h)
      ensures 0 <= b * heads + h < rows
    {
      Scale(b + 1, batch, heads);
      Scale(0, b, heads);
      assert (b + 1) * heads == b * heads + heads;
    }

    lemma RowInverts(row: nat)
      requires row < rows
      ensures heads > 0 && IsRow(row / heads, row % heads)
      ensures forall b, h :: IsRow(b, h) && Row(b, h) == row ==> b == row / heads && h == row % heads
    {
      DivRange(row, batch, heads);
      forall b, h | IsRow(b, h) && Row(b, h) == row
        ensures b == row / heads && h == row % heads
      {
        DivMod(b, h, heads);
      }
    }

    function QueryOf(b: nat, h: nat): (query: seq<real>)
      requires Valid() && IsRow(b, h)
      ensures |query| == DIM
    {
      q[Row(b, h)]
    }

    /** The scores of a row over the first `lengths[b]` positions of its own slot: all the launch it depends on. */
    ghost function Scores(b: nat, h: nat): (scores: seq<real>)
      requires Valid() && IsRow(b, h)
      ensures |scores| == lengths[b]
    {
      seq(lengths[b], t requires 0 <= t < lengths[b] => Dot(QueryOf(b, h), k[OwnRow(b, h, t)]) * scale)
    }

    ghost function Values(b: nat, h: nat, d: nat): (values: seq<real>)
      requires Valid() && IsRow(b, h) && d < DIM
      ensures |values| == lengths[b]
    {
      seq(lengths[b], t requires 0 <= t < lengths[b] => v[OwnRow(b, h, t)][d])
    }
  }

  /** The scores of row `(b, h)`, told by the flat arrays: its own query against the keys of its own slot and key/value
      head, at every position below its own length. */
  ghost predicate AreScores(launch: Launch, b: nat, h: nat, scores: seq<real>)
    requires launch.Valid() && launch.IsRow(b, h)
  {
    var query := b * launch.heads + h;
    var first := (launch.slots[b] * launch.kvHeads + h / launch.group) * launch.capacity;
    && query < |launch.q| && 0 <= first && first + launch.lengths[b] <= |launch.k|
    && ScoresFrom(launch, launch.q[query], first, launch.lengths[b], scores)
  }

  /** One score for each of the `n` keys from `first` on. */
  ghost predicate ScoresFrom(launch: Launch, query: seq<real>, first: nat, n: nat, scores: seq<real>)
    requires launch.Valid() && |query| == DIM && first + n <= |launch.k|
  {
    && |scores| == n
    && forall t :: 0 <= t < n ==> scores[t] == Dot(query, launch.k[first + t]) * launch.scale
  }

  /** Coordinate `d` of its values. */
  ghost predicate AreValues(launch: Launch, b: nat, h: nat, d: nat, values: seq<real>)
    requires launch.Valid() && launch.IsRow(b, h) && d < DIM
  {
    var first := (launch.slots[b] * launch.kvHeads + h / launch.group) * launch.capacity;
    && |values| == launch.lengths[b] && 0 <= first && first + |values| <= |launch.v|
    && forall t :: 0 <= t < |values| ==> values[t] == launch.v[first + t][d]
  }

  /** A row's positions are consecutive in the pool. */
  lemma OwnRows(launch: Launch, b: nat, h: nat, first: int)
    requires launch.Valid() && launch.IsRow(b, h)
    requires first == (launch.slots[b] * launch.kvHeads + h / launch.group) * launch.capacity
    ensures 0 <= first && first + launch.lengths[b] <= |launch.k|
    ensures forall t :: 0 <= t < launch.lengths[b] ==> launch.OwnRow(b, h, t) == first + t
  {
    var last := launch.OwnRow(b, h, launch.lengths[b] - 1);
    assert launch.OwnRow(b, h, 0) == first;
  }

  lemma ScoresAreRaw(launch: Launch, b: nat, h: nat, scores: seq<real>)
    requires launch.Valid() && launch.IsRow(b, h)
    ensures AreScores(launch, b, h, scores) <==> scores == launch.Scores(b, h)
  {
    hide Dot;
    hide ScoresFrom;
    var first := (launch.slots[b] * launch.kvHeads + h / launch.group) * launch.capacity;
    OwnRows(launch, b, h, first);
    var row := launch.Row(b, h);
    assert row == b * launch.heads + h && launch.QueryOf(b, h) == launch.q[row];
    ScoresFromRows(launch, b, h, first, scores);
    hide Launch.Valid;
    hide Launch.heads;
    hide Launch.rows;
    hide Launch.Row;
  }

  lemma ScoresFromRows(launch: Launch, b: nat, h: nat, first: nat, scores: seq<real>)
    requires launch.Valid() && launch.IsRow(b, h) && first + launch.lengths[b] <= |launch.k|
    requires forall t :: 0 <= t < launch.lengths[b] ==> launch.OwnRow(b, h, t) == first + t
    ensures ScoresFrom(launch, launch.QueryOf(b, h), first, launch.lengths[b], scores) <==>
            scores == launch.Scores(b, h)
  {
    hide Dot;
    hide Launch.OwnRow;
    hide Launch.QueryOf;
    var own := launch.Scores(b, h);
    forall t | 0 <= t < |own|
      ensures own[t] == Dot(launch.QueryOf(b, h), launch.k[first + t]) * launch.scale
    {
      assert launch.OwnRow(b, h, t) == first + t;
    }
  }

  lemma ValuesAreRaw(launch: Launch, b: nat, h: nat, d: nat, values: seq<real>)
    requires launch.Valid() && launch.IsRow(b, h) && d < DIM
    ensures AreValues(launch, b, h, d, values) <==> values == launch.Values(b, h, d)
  {
    var own := launch.Values(b, h, d);
    var first := (launch.slots[b] * launch.kvHeads + h / launch.group) * launch.capacity;
    OwnRows(launch, b, h, first);
    forall t | 0 <= t < |own|
      ensures own[t] == launch.v[first + t][d]
    {
      assert launch.OwnRow(b, h, t) == first + t;
    }
  }

  /** A partial: the chunk's largest score and its weights' sum, both relative to that score. */
  datatype Part = Part(largest: Score, sum: real)

  ghost predicate IsLargest(m: real, scores: seq<real>) {
    (exists i :: 0 <= i < |scores| && scores[i] == m) && forall i :: 0 <= i < |scores| ==> scores[i] <= m
  }

  /** `sum` and `acc` are the one-pass sums over `scores`, scaled by the exponential of minus the largest score. */
  ghost predicate Reduced(exp: real -> real, largest: Score, sum: real, scores: seq<real>) {
    && largest.Of? && IsLargest(largest.value, scores)
    && sum == exp(-largest.value) * Norm(exp, scores)
  }

  ghost predicate Accumulated(exp: real -> real, largest: Score, acc: real, scores: seq<real>, values: seq<real>)
    requires |scores| == |values|
  {
    largest.Of? && acc == exp(-largest.value) * Weighted(exp, scores, values)
  }

  lemma ExpSplit(exp: real -> real, a: real, b: real)
    requires IsExp(exp)
    ensures exp(a - b) == exp(a) * exp(-b)
  {
    assert a - b == a + -b;
  }

  lemma Distribute(e: real, w: real, x: real, v: real)
    ensures e * (w + x * v) == e * w + x * e * v
  {
  }

  /** The lanes' scores of a chunk: two per lane, negative infinity beyond the row's length. */
  function Masked(scores: seq<real>): (masked: seq<Score>)
    requires |scores| <= CHUNK
    ensures |masked| == CHUNK
  {
    seq(CHUNK, i requires 0 <= i < CHUNK => if i < |scores| then Of(scores[i]) else NegInf)
  }

  /** The warp's butterfly finds the chunk's largest score. */
  lemma MaskedLargest(scores: seq<real>)
    requires 0 < |scores| <= CHUNK
    ensures Tree(Larger, Halved(Larger, Masked(scores))) == Tree(Larger, Masked(scores))
    ensures Tree(Larger, Masked(scores)).Of? && IsLargest(Tree(Larger, Masked(scores)).value, scores)
  {
    var masked := Masked(scores);
    TreeIsLargest(masked);
    var m := Tree(Larger, masked);
    assert AtMost(masked[0], m);
    var i :| 0 <= i < CHUNK && masked[i] == m;
    forall j | 0 <= j < |scores|
      ensures scores[j] <= m.value
    {
      assert AtMost(masked[j], m);
    }
  }

  function Weights(exp: real -> real, masked: seq<Score>, m: Score): (weights: seq<real>)
    ensures |weights| == |masked|
  {
    seq(|masked|, i requires 0 <= i < |masked| => ExpOf(exp, masked[i], m))
  }

  /** The warp's sum of the chunk's weights. */
  lemma WeightsSum(exp: real -> real, scores: seq<real>, m: real)
    requires IsExp(exp) && |scores| <= CHUNK
    ensures Tree(Plus, Halved(Plus, Weights(exp, Masked(scores), Of(m)))) == exp(-m) * Norm(exp, scores)
  {
    hide IsExp;
    var weights := Weights(exp, Masked(scores), Of(m));
    TreeIsSum(weights);
    SumSplit(weights, |scores|);
    SumOfZeros(weights[|scores|..]);
    SumOfWeights(exp, scores, weights[..|scores|], m);
  }

  lemma {:induction false} SumOfZeros(a: seq<real>)
    requires forall i :: 0 <= i < |a| ==> a[i] == 0.0
    ensures Sum(a) == 0.0
  {
    if a != [] {
      SumOfZeros(a[..|a| - 1]);
    }
  }

  lemma {:induction false} SumOfWeights(exp: real -> real, scores: seq<real>, weights: seq<real>, m: real)
    requires IsExp(exp) && |weights| == |scores|
    requires forall i :: 0 <= i < |scores| ==> weights[i] == exp(scores[i] - m)
    ensures Sum(weights) == exp(-m) * Norm(exp, scores)
  {
    hide IsExp;
    if scores != [] {
      var n := |scores| - 1;
      SumOfWeights(exp, scores[..n], weights[..n], m);
      assert Ones(|scores|)[..n] == Ones(n);
      ExpSplit(exp, scores[n], m);
      Distribute(exp(-m), Norm(exp, scores[..n]), exp(scores[n]), 1.0);
    }
  }

  /** A kernel thread's score of one key. */
  method ScoreOf(query: seq<real>, key: seq<real>, scale: real) returns (score: real)
    requires |query| == |key|
    ensures score == Dot(query, key) * scale
  {
    var d := 0.0;
    for i := 0 to |query|
      invariant d == Dot(query[..i], key[..i])
    {
      d := query[i] * key[i] + d;
      assert query[..i + 1][..i] == query[..i] && key[..i + 1][..i] == key[..i];
    }
    assert query[..|query|] == query && key[..|key|] == key;
    score := d * scale;
  }

  /** One coordinate of a chunk: the values weighted by the lanes' weights, in position order. */
  method Accumulate(exp: real -> real, ghost scores: seq<real>, ghost m: real, weights: seq<real>, values: seq<real>)
      returns (acc: real)
    requires IsExp(exp) && |scores| == |values| <= |weights|
    requires forall i :: 0 <= i < |scores| ==> weights[i] == exp(scores[i] - m)
    ensures Accumulated(exp, Of(m), acc, scores, values)
  {
    hide IsExp;
    acc := 0.0;
    for t := 0 to |values|
      invariant acc == exp(-m) * Weighted(exp, scores[..t], values[..t])
    {
      acc := weights[t] * values[t] + acc;
      assert scores[..t + 1][..t] == scores[..t] && values[..t + 1][..t] == values[..t];
      ExpSplit(exp, scores[t], m);
      Distribute(exp(-m), Weighted(exp, scores[..t], values[..t]), exp(scores[t]), values[t]);
    }
    assert scores[..|scores|] == scores && values[..|values|] == values;
  }

  lemma Zero(x: real)
    ensures 0.0 * x == x * 0.0 == 0.0
  {
  }

  lemma SumScaled(e: real, u: real, v: real, w: real, s: real, t: real)
    requires w == u + v && s == e * u && t == e * v
    ensures s + t == e * w
  {
  }

  /** One step of the combination: the sums so far and a chunk's, both rescaled to the larger of the two maxima. */
  lemma Rescaled(exp: real -> real, a: Score, b: real, m: Score, p: real, q: real, x: real, y: real, u: real, v: real,
                 w: real)
    requires IsExp(exp) && w == u + v
    requires m == Larger(a, Of(b)) && p == ExpOf(exp, a, m) && q == ExpOf(exp, Of(b), m)
    requires if a.NegInf? then x == 0.0 && u == 0.0 else x == exp(-a.value) * u
    requires y == exp(-b) * v
    ensures m.Of? && x * p + y * q == exp(-m.value) * w
  {
    hide IsExp;
    if a.Of? {
      ExpCancels(exp, a.value, m.value, p, x, u);
    } else {
      Zero(p);
      Zero(exp(-m.value));
    }
    ExpCancels(exp, b, m.value, q, y, v);
    SumScaled(exp(-m.value), u, v, w, x * p, y * q);
  }

  lemma ExpCancels(exp: real -> real, a: real, m: real, p: real, x: real, u: real)
    requires IsExp(exp) && x == exp(-a) * u && p == exp(a - m)
    ensures x * p == exp(-m) * u
  {
    assert exp(-a) * p == exp(-m) by { assert -a + (a - m) == -m; }
    assert x * p == exp(-a) * p * u;
  }

  /** The quotient does not depend on the maximum that the sums were scaled by. */
  lemma ScaleCancels(scale: real, u: real, v: real)
    requires scale > 0.0 && v > 0.0
    ensures scale * v > 0.0 && (scale * u) / (scale * v) == u / v
  {
    var r := u / v;
    assert u == r * v;
    assert scale * u == r * (scale * v);
  }

  /** The chunk of a row that starts at position `start`. */
  function Slice<T>(s: seq<T>, start: nat): (slice: seq<T>)
    requires start < |s|
    ensures 0 < |slice| <= CHUNK && |slice| == if |s| - start < CHUNK then |s| - start else CHUNK
    ensures forall i :: 0 <= i < |slice| ==> slice[i] == s[start + i]
  {
    s[start..if start + CHUNK < |s| then start + CHUNK else |s|]
  }

  /** The scratch the two kernels share: one part and one row of sums per (row, head, chunk). */
  class Scratch {
    const launch: Launch
    const exp: real -> real
    const acc: array2<real>
    const parts: array<Part>

    /** A fresh scratch holds anything. */
    constructor (exp: real -> real, launch: Launch)
      requires IsExp(exp) && launch.Valid()
      ensures Shaped() && fresh(acc) && fresh(parts) && this.launch == launch && this.exp == exp
    {
      this.launch, this.exp := launch, exp;
      acc := new real[launch.batch * launch.heads * launch.chunks, DIM];
      parts := new Part[launch.batch * launch.heads * launch.chunks](_ => Part(NegInf, 0.0));
    }

    ghost predicate Shaped() {
      && launch.Valid() && IsExp(exp)
      && acc.Length0 == parts.Length == launch.batch * launch.heads * launch.chunks && acc.Length1 == DIM
    }

    predicate IsCell(b: int, h: int, c: int) {
      launch.IsRow(b, h) && 0 <= c < launch.chunks
    }

    function Cell(b: nat, h: nat, c: nat): (cell: nat)
      requires Shaped() && IsCell(b, h, c)
      ensures cell < parts.Length
    {
      FlatRowInside(launch.heads, launch.chunks, launch.batch, b, h, c);
      FlatRow(launch.heads, launch.chunks, b, h, c)
    }

    /** The warp that computes a chunk: one per row, key/value head and chunk. */
    function WarpOf(b: nat, h: nat, c: nat): (warp: nat)
      requires Shaped() && IsCell(b, h, c)
      ensures warp < launch.batch * launch.kvHeads * launch.chunks
    {
      launch.HeadInGroup(h);
      FlatRowInside(launch.kvHeads, launch.chunks, launch.batch, b, h / launch.group, c);
      FlatRow(launch.kvHeads, launch.chunks, b, h / launch.group, c)
    }

    /** A chunk's partial is in the scratch, or the chunk is beyond the row's length. */
    ghost predicate Done(b: nat, h: nat, c: nat)
      requires Shaped() && IsCell(b, h, c)
      reads acc, parts
    {
      var cell, scores := Cell(b, h, c), launch.Scores(b, h);
      c * CHUNK < |scores| ==>
        var slice := Slice(scores, c * CHUNK);
        && Reduced(exp, parts[cell].largest, parts[cell].sum, slice)
        && forall d :: 0 <= d < DIM ==> IsSum(b, h, c, d, parts[cell].largest, acc[cell, d])
    }

    ghost predicate IsSum(b: nat, h: nat, c: nat, d: nat, largest: Score, sum: real)
      requires Shaped() && IsCell(b, h, c) && d < DIM && c * CHUNK < launch.lengths[b]
    {
      Accumulated(exp, largest, sum, Slice(launch.Scores(b, h), c * CHUNK), Slice(launch.Values(b, h, d), c * CHUNK))
    }

    /** A lane's score of one position, or negative infinity at or beyond the row's length. */
    method LaneScore(b: nat, h: nat, t: nat) returns (score: Score)
      requires Shaped() && launch.IsRow(b, h)
      ensures score == if t < launch.lengths[b] then Of(launch.Scores(b, h)[t]) else NegInf
    {
      hide IsExp;
      score := NegInf;
      if t < launch.lengths[b] {
        var value := ScoreOf(launch.QueryOf(b, h), launch.k[launch.OwnRow(b, h, t)], launch.scale);
        score := Of(value);
      }
    }

    /** The scores of a warp's lanes: lane `l` has positions `start + l` and `start + 32 + l`. */
    method LaneScores(b: nat, h: nat, start: nat) returns (scores: seq<Score>)
      requires Shaped() && launch.IsRow(b, h) && start < launch.lengths[b]
      ensures scores == Masked(Slice(launch.Scores(b, h), start))
    {
      hide IsExp;
      scores := [];
      for i := 0 to CHUNK
        invariant |scores| == i
        invariant forall j :: 0 <= j < i ==> scores[j] == Masked(Slice(launch.Scores(b, h), start))[j]
      {
        var score := LaneScore(b, h, start + i);
        scores := scores + [score];
      }
    }

    /** A warp's reductions: the largest score reaches every lane by a butterfly, the weights' sum lane 0 by a tree. */
    method Reductions(masked: seq<Score>, ghost slice: seq<real>) returns (part: Part, weights: seq<real>)
      requires Shaped() && 0 < |slice| <= CHUNK && masked == Masked(slice)
      ensures Reduced(exp, part.largest, part.sum, slice) && weights == Weights(exp, masked, part.largest)
    {
      hide IsExp;
      hide Norm;
      hide Tree;
      MaskedLargest(slice);
      var largest := ShuffleXor(Larger, Halved(Larger, masked));
      weights := seq(CHUNK, i requires 0 <= i < CHUNK => ExpOf(exp, masked[i], largest[i % LANES]));
      assert weights == Weights(exp, masked, largest[0]);
      WeightsSum(exp, slice, largest[0].value);
      var sum := ShuffleDown(Plus, Halved(Plus, weights));
      part := Part(largest[0], sum);
    }

    /** One coordinate of a lane. */
    method Coordinate(b: nat, h: nat, c: nat, d: nat, part: Part, weights: seq<real>) returns (sum: real)
      requires Shaped() && IsCell(b, h, c) && c * CHUNK < launch.lengths[b] && d < DIM && part.largest.Of?
      requires weights == Weights(exp, Masked(Slice(launch.Scores(b, h), c * CHUNK)), part.largest)
      ensures IsSum(b, h, c, d, part.largest, sum)
    {
      hide IsExp;
      hide Weighted;
      ghost var slice := Slice(launch.Scores(b, h), c * CHUNK);
      var values := SliceValues(b, h, c * CHUNK, d);
      sum := Accumulate(exp, slice, part.largest.value, weights, values);
    }

    /** One head of a warp's group, four coordinates per lane. */
    method PartialHead(b: nat, h: nat, c: nat)
      requires Shaped() && IsCell(b, h, c) && c * CHUNK < launch.lengths[b]
      modifies acc, parts
      ensures Done(b, h, c)
      ensures forall b1, h1, c1 :: IsCell(b1, h1, c1) && old(Done(b1, h1, c1)) ==> Done(b1, h1, c1)
    {
      hide Masked;
      hide Weights;
      hide Accumulated;
      hide Scratch.IsSum;
      var masked := LaneScores(b, h, c * CHUNK);
      var part, weights := Reductions(masked, Slice(launch.Scores(b, h), c * CHUNK));
      WriteLanes(b, h, c, part, weights);
      parts[Cell(b, h, c)] := part;
      CellsDiffer(b, h, c);
    }

    method WriteLanes(b: nat, h: nat, c: nat, part: Part, weights: seq<real>)
      requires Shaped() && IsCell(b, h, c) && c * CHUNK < launch.lengths[b] && part.largest.Of?
      requires weights == Weights(exp, Masked(Slice(launch.Scores(b, h), c * CHUNK)), part.largest)
      modifies acc
      ensures forall d :: 0 <= d < DIM ==> IsSum(b, h, c, d, part.largest, acc[Cell(b, h, c), d])
      ensures forall i, d :: 0 <= i < parts.Length && i != Cell(b, h, c) && 0 <= d < DIM ==> acc[i, d] == old(acc[i, d])
    {
      hide IsExp;
      hide Masked;
      hide Weights;
      hide Slice;
      hide Scratch.IsSum;
      var cell := Cell(b, h, c);
      for lane := 0 to LANES
        invariant forall i, d :: 0 <= i < parts.Length && i != cell && 0 <= d < DIM ==> acc[i, d] == old(acc[i, d])
        invariant forall d :: 0 <= d < lane * 4 ==> IsSum(b, h, c, d, part.largest, acc[cell, d])
      {
        for e := 0 to 4
          invariant forall i, d :: 0 <= i < parts.Length && i != cell && 0 <= d < DIM ==> acc[i, d] == old(acc[i, d])
          invariant forall d :: 0 <= d < lane * 4 + e ==> IsSum(b, h, c, d, part.largest, acc[cell, d])
        {
          var sum := Coordinate(b, h, c, lane * 4 + e, part, weights);
          acc[cell, lane * 4 + e] := sum;
        }
      }
    }

    method SliceValues(b: nat, h: nat, start: nat, d: nat) returns (values: seq<real>)
      requires Shaped() && launch.IsRow(b, h) && start < launch.lengths[b] && d < DIM
      ensures values == Slice(launch.Values(b, h, d), start)
    {
      var count := if launch.lengths[b] - start < CHUNK then launch.lengths[b] - start else CHUNK;
      values := seq(count, t requires 0 <= t < count => launch.v[launch.OwnRow(b, h, start + t)][d]);
    }

    lemma CellsDiffer(b: nat, h: nat, c: nat)
      requires Shaped() && IsCell(b, h, c)
      ensures forall b1, h1, c1 :: IsCell(b1, h1, c1) && Cell(b1, h1, c1) == Cell(b, h, c) ==>
              b1 == b && h1 == h && c1 == c
    {
      FlatRowInverts(launch.heads, launch.chunks, b, h, c);
      forall b1, h1, c1 | IsCell(b1, h1, c1) && Cell(b1, h1, c1) == Cell(b, h, c)
        ensures b1 == b && h1 == h && c1 == c
      {
        FlatRowInverts(launch.heads, launch.chunks, b1, h1, c1);
      }
    }

    /** The first kernel. */
    method Partials()
      requires Shaped()
      modifies acc, parts
      ensures forall b, h, c :: IsCell(b, h, c) ==> Done(b, h, c)
    {
      hide IsExp;
      hide Scratch.Done;
      hide Grid;
      hide FlatRow;
      var warps := Grid(launch.batch * launch.kvHeads * launch.chunks);
      for warp := 0 to warps
        invariant forall b, h, c :: IsCell(b, h, c) && WarpOf(b, h, c) < warp ==> Done(b, h, c)
      {
        PartialWarp(warp);
      }
    }

    /** A warp of the first kernel: it decodes its row, key/value head and chunk, and leaves at once when the grid was
        rounded up past the last warp or the chunk is beyond the row's length. */
    method PartialWarp(warp: nat)
      requires Shaped()
      modifies acc, parts
      ensures forall b, h, c :: IsCell(b, h, c) && WarpOf(b, h, c) == warp ==> Done(b, h, c)
      ensures forall b, h, c :: IsCell(b, h, c) && old(Done(b, h, c)) ==> Done(b, h, c)
    {
      hide IsExp;
      hide Scratch.Done;
      if warp >= launch.batch * launch.kvHeads * launch.chunks {
        return;
      }
      FlatRowOnto(launch.kvHeads, launch.chunks, launch.batch, warp);
      var c := warp % launch.chunks;
      var b := warp / launch.chunks / launch.kvHeads;
      var kh := warp / launch.chunks % launch.kvHeads;
      WarpInverts(warp, b, kh, c);
      if c * CHUNK >= launch.lengths[b] {
        Beyond(b, c);
        return;
      }
      PartialGroup(b, kh, c);
    }

    /** The heads that share a key/value head. */
    method PartialGroup(b: nat, kh: nat, c: nat)
      requires Shaped() && b < launch.batch && kh < launch.kvHeads && c < launch.chunks && c * CHUNK < launch.lengths[b]
      modifies acc, parts
      ensures forall h :: IsCell(b, h, c) && h / launch.group == kh ==> Done(b, h, c)
      ensures forall b1, h1, c1 :: IsCell(b1, h1, c1) && old(Done(b1, h1, c1)) ==> Done(b1, h1, c1)
    {
      hide IsExp;
      hide Scratch.Done;
      for g := 0 to launch.group
        invariant forall h :: IsCell(b, h, c) && kh * launch.group <= h < kh * launch.group + g ==> Done(b, h, c)
        invariant forall b1, h1, c1 :: IsCell(b1, h1, c1) && old(Done(b1, h1, c1)) ==> Done(b1, h1, c1)
      {
        HeadInside(kh, g);
        PartialHead(b, kh * launch.group + g, c);
      }
      forall h | IsCell(b, h, c) && h / launch.group == kh
        ensures kh * launch.group <= h < kh * launch.group + launch.group
      {
        assert h == kh * launch.group + h % launch.group;
      }
    }

    lemma WarpInverts(warp: nat, b: nat, kh: nat, c: nat)
      requires Shaped() && launch.chunks > 0
      requires c == warp % launch.chunks && b == warp / launch.chunks / launch.kvHeads
      requires kh == warp / launch.chunks % launch.kvHeads
      ensures forall b1, h1, c1 :: IsCell(b1, h1, c1) && WarpOf(b1, h1, c1) == warp ==>
                b1 == b && h1 / launch.group == kh && c1 == c
    {
      hide IsExp;
      forall b1, h1, c1 | IsCell(b1, h1, c1) && WarpOf(b1, h1, c1) == warp
        ensures b1 == b && h1 / launch.group == kh && c1 == c
      {
        launch.HeadInGroup(h1);
        FlatRowInverts(launch.kvHeads, launch.chunks, b1, h1 / launch.group, c1);
      }
    }

    lemma Beyond(b: nat, c: nat)
      requires Shaped() && b < launch.batch && c * CHUNK >= launch.lengths[b]
      ensures forall h :: IsCell(b, h, c) ==> Done(b, h, c)
    {
    }

    lemma HeadInside(kh: nat, g: nat)
      requires kh < launch.kvHeads && g < launch.group
      ensures 0 <= kh * launch.group + g < launch.heads
    {
      Scale(kh + 1, launch.kvHeads, launch.group);
      Scale(0, kh, launch.group);
      assert (kh + 1) * launch.group == kh * launch.group + launch.group;
    }

    /** The second kernel, one coordinate: chunks in index order, everything rescaled to the running maximum. */
    method Combine(b: nat, h: nat, d: nat) returns (r: real)
      requires Shaped() && launch.IsRow(b, h) && d < DIM
      requires forall c :: IsCell(b, h, c) ==> Done(b, h, c)
      ensures r == Attention(exp, launch.Scores(b, h), launch.Values(b, h, d))
    {
      hide IsExp;
      hide Running;
      hide Reduced;
      hide Accumulated;
      var largest, sum, a := NegInf, 0.0, 0.0;
      ghost var scores, values := launch.Scores(b, h), launch.Values(b, h, d);
      ghost var n := 0;
      NothingYet(exp);
      assert scores[..0] == values[..0] == [];
      for c := 0 to (launch.lengths[b] + CHUNK - 1) / CHUNK
        invariant n == (if c * CHUNK < launch.lengths[b] then c * CHUNK else launch.lengths[b])
        invariant Running(exp, scores[..n], values[..n], largest, sum, a)
      {
        assert IsCell(b, h, c) && Done(b, h, c);
        var part, x := parts[Cell(b, h, c)], acc[Cell(b, h, c), d];
        assert IsSum(b, h, c, d, part.largest, x);
        ghost var s, v := Slice(scores, n), Slice(values, n);
        var m := Larger(largest, part.largest);
        var before, scale := ExpOf(exp, largest, m), ExpOf(exp, part.largest, m);
        ChunkJoins(exp, scores[..n], values[..n], s, v, largest, sum, a, part, x, m, before, scale);
        assert scores[..n] + s == scores[..n + |s|] && values[..n] + v == values[..n + |s|];
        sum, a := sum * before + part.sum * scale, a * before + x * scale;
        largest, n := m, n + |s|;
      }
      assert scores[..n] == scores && values[..n] == values;
      Quotient(exp, scores, values, largest, sum, a);
      r := a / sum;
    }
  }

  /** The running sums over the positions so far, relative to the largest score so far. */
  ghost predicate Running(exp: real -> real, scores: seq<real>, values: seq<real>, largest: Score, sum: real, a: real)
    requires |scores| == |values|
  {
    if scores == [] then largest == NegInf && sum == 0.0 && a == 0.0
    else Reduced(exp, largest, sum, scores) && Accumulated(exp, largest, a, scores, values)
  }

  lemma NothingYet(exp: real -> real)
    ensures Running(exp, [], [], NegInf, 0.0, 0.0)
  {
  }

  lemma WeightedJoins(exp: real -> real, s: seq<real>, v: seq<real>, t: seq<real>, w: seq<real>)
    requires |s| == |v| && |t| == |w|
    ensures Weighted(exp, s + t, v + w) == Weighted(exp, s, v) + Weighted(exp, t, w)
  {
    WeightedSplit(exp, s + t, v + w, |s|);
    assert (s + t)[..|s|] == s && (s + t)[|s|..] == t && (v + w)[..|s|] == v && (v + w)[|s|..] == w;
  }

  /** A chunk's weighted sum joins the running one. */
  lemma SumsJoin(exp: real -> real, s: seq<real>, v: seq<real>, t: seq<real>, w: seq<real>, largest: Score, a: real,
                 chunk: Score, x: real, m: Score, p: real, q: real)
    requires IsExp(exp) && |s| == |v| && |t| == |w| && chunk.Of?
    requires if s == [] then largest == NegInf && a == 0.0 else Accumulated(exp, largest, a, s, v)
    requires Accumulated(exp, chunk, x, t, w)
    requires m == Larger(largest, chunk) && p == ExpOf(exp, largest, m) && q == ExpOf(exp, chunk, m)
    ensures Accumulated(exp, m, a * p + x * q, s + t, v + w)
  {
    hide IsExp;
    WeightedJoins(exp, s, v, t, w);
    Rescaled(exp, largest, chunk.value, m, p, q, a, x, Weighted(exp, s, v), Weighted(exp, t, w),
             Weighted(exp, s + t, v + w));
  }

  lemma ReducedIsAccumulated(exp: real -> real, largest: Score, sum: real, scores: seq<real>)
    ensures Reduced(exp, largest, sum, scores) <==>
      largest.Of? && IsLargest(largest.value, scores) && Accumulated(exp, largest, sum, scores, Ones(|scores|))
  {
  }

  /** A chunk's partial joins the running sums. */
  lemma ChunkJoins(exp: real -> real, s: seq<real>, v: seq<real>, t: seq<real>, w: seq<real>, largest: Score, sum: real,
                   a: real, part: Part, x: real, m: Score, p: real, q: real)
    requires IsExp(exp) && |s| == |v| && |t| == |w| > 0 && Running(exp, s, v, largest, sum, a)
    requires Reduced(exp, part.largest, part.sum, t) && Accumulated(exp, part.largest, x, t, w)
    requires m == Larger(largest, part.largest)
    requires p == ExpOf(exp, largest, m) && q == ExpOf(exp, part.largest, m)
    ensures Running(exp, s + t, v + w, m, sum * p + part.sum * q, a * p + x * q)
  {
    hide IsExp;
    hide ExpOf;
    hide Accumulated;
    ReducedIsAccumulated(exp, largest, sum, s);
    ReducedIsAccumulated(exp, part.largest, part.sum, t);
    ReducedIsAccumulated(exp, m, sum * p + part.sum * q, s + t);
    hide Reduced;
    assert part.largest == Of(part.largest.value) && s + t != [];
    LargestJoins(s, t, largest, part.largest.value);
    assert Ones(|s + t|) == Ones(|s|) + Ones(|t|);
    SumsJoin(exp, s, v, t, w, largest, a, part.largest, x, m, p, q);
    SumsJoin(exp, s, Ones(|s|), t, Ones(|t|), largest, sum, part.largest, part.sum, m, p, q);
  }

  lemma Quotient(exp: real -> real, scores: seq<real>, values: seq<real>, largest: Score, sum: real, a: real)
    requires IsExp(exp) && |scores| == |values| > 0 && Running(exp, scores, values, largest, sum, a)
    ensures sum != 0.0 && a / sum == Attention(exp, scores, values)
  {
    NormPositive(exp, scores);
    assert exp(-largest.value) > 0.0;
    hide IsExp;
    ScaleCancels(exp(-largest.value), Weighted(exp, scores, values), Norm(exp, scores));
  }

  lemma LargestJoins(a: seq<real>, b: seq<real>, m: Score, n: real)
    requires if a == [] then m == NegInf else m.Of? && IsLargest(m.value, a)
    requires IsLargest(n, b)
    ensures Larger(m, Of(n)).Of? && IsLargest(Larger(m, Of(n)).value, a + b)
  {
    var r := Larger(m, Of(n)).value;
    var all := a + b;
    if m.Of? && m.value >= n {
      var i :| 0 <= i < |a| && a[i] == m.value;
      assert all[i] == r;
    } else {
      var i :| 0 <= i < |b| && b[i] == n;
      assert all[|a| + i] == r;
    }
  }

  /** Both kernels: the grids are rounded up to whole blocks of eight warps. Every output row is the exact attention of
      its own query over its own slot's first `lengths[b]` positions; the pool's capacity, the number of chunks it
      makes and the other rows do not matter. */
  method Fa2(exp: real -> real, launch: Launch) returns (out: array2<real>)
    requires IsExp(exp) && launch.Valid()
    ensures fresh(out) && out.Length0 == launch.rows && out.Length1 == DIM
    ensures forall b, h, d :: launch.IsRow(b, h) && 0 <= d < DIM ==>
              out[launch.Row(b, h), d] == Attention(exp, launch.Scores(b, h), launch.Values(b, h, d))
    ensures forall b, h, d, scores, values ::
              launch.IsRow(b, h) && 0 <= d < DIM && AreScores(launch, b, h, scores)
              && AreValues(launch, b, h, d, values) ==>
              && |scores| == |values| > 0 && 0 <= b * launch.heads + h < out.Length0
              && out[b * launch.heads + h, d] == Attention(exp, scores, values)
  {
    hide IsExp;
    hide Scratch.Done;
    hide Attention;
    hide Grid;
    var scratch := new Scratch(exp, launch);
    scratch.Partials();
    out := new real[launch.rows, DIM];
    var warps := Grid(launch.rows);
    for warp := 0 to warps
      invariant forall b, h, c :: scratch.IsCell(b, h, c) ==> scratch.Done(b, h, c)
      invariant forall b, h, d :: launch.IsRow(b, h) && 0 <= d < DIM && launch.Row(b, h) < warp ==>
                  out[launch.Row(b, h), d] == Attention(exp, launch.Scores(b, h), launch.Values(b, h, d))
    {
      if warp < launch.rows {
        CombineWarp(scratch, warp, out);
      }
    }
    forall b, h, d, scores, values | launch.IsRow(b, h) && 0 <= d < DIM && AreScores(launch, b, h, scores)
                                     && AreValues(launch, b, h, d, values)
      ensures |scores| == |values| > 0 && 0 <= b * launch.heads + h < out.Length0
      ensures out[b * launch.heads + h, d] == Attention(exp, scores, values)
    {
      ScoresAreRaw(launch, b, h, scores);
      ValuesAreRaw(launch, b, h, d, values);
      assert launch.Row(b, h) == b * launch.heads + h;
    }
  }

  /** A warp of the second kernel writes one output row, and no other. */
  method CombineWarp(scratch: Scratch, warp: nat, out: array2<real>)
    requires scratch.Shaped() && warp < scratch.launch.rows == out.Length0 && out.Length1 == DIM
    requires out != scratch.acc
    requires forall b, h, c :: scratch.IsCell(b, h, c) ==> scratch.Done(b, h, c)
    modifies out
    ensures forall b, h, d :: scratch.launch.IsRow(b, h) && 0 <= d < DIM && scratch.launch.Row(b, h) == warp ==>
              out[warp, d] == Attention(scratch.exp, scratch.launch.Scores(b, h), scratch.launch.Values(b, h, d))
    ensures forall i, d :: 0 <= i < out.Length0 && i != warp && 0 <= d < DIM ==> out[i, d] == old(out[i, d])
  {
    hide IsExp;
    hide Scratch.Done;
    var launch := scratch.launch;
    launch.RowInverts(warp);
    var b, h := warp / launch.heads, warp % launch.heads;
    for d := 0 to DIM
      invariant forall e :: 0 <= e < d ==>
                  out[warp, e] == Attention(scratch.exp, launch.Scores(b, h), launch.Values(b, h, e))
      invariant forall i, e :: 0 <= i < out.Length0 && i != warp && 0 <= e < DIM ==> out[i, e] == old(out[i, e])
    {
      out[warp, d] := scratch.Combine(b, h, d);
    }
  }
}
