/** The reductions of a warp of 32 lanes: every round, each lane combines its value with another lane's. */
module Warp {

  import opened Layout

  const LANES := 32

  /** One round of halving: element `l` with element `l + n/2`. */
  function Halved<T>(op: (T, T) -> T, a: seq<T>): (r: seq<T>)
    ensures |r| == |a| / 2
  {
    seq(|a| / 2, l requires 0 <= l < |a| / 2 => op(a[l], a[l + |a| / 2]))
  }

  /** The fixed shape in which a warp combines its lanes. */
  function Tree<T>(op: (T, T) -> T, a: seq<T>): T
    requires a != []
    decreases |a|
  {
    if |a| == 1 then a[0] else Tree(op, Halved(op, a))
  }

  /** The tree of a warp, level by level: lanes 16 apart are combined first, neighbours last. */
  lemma TreeLevels<T>(op: (T, T) -> T, a: seq<T>) returns (v16: seq<T>, v8: seq<T>, v4: seq<T>, v2: seq<T>)
    requires |a| == LANES
    ensures |v16| == 16 && |v8| == 8 && |v4| == 4 && |v2| == 2
    ensures forall l :: 0 <= l < 16 ==> v16[l] == op(a[l], a[l + 16])
    ensures forall l :: 0 <= l < 8 ==> v8[l] == op(v16[l], v16[l + 8])
    ensures forall l :: 0 <= l < 4 ==> v4[l] == op(v8[l], v8[l + 4])
    ensures forall l :: 0 <= l < 2 ==> v2[l] == op(v4[l], v4[l + 2])
    ensures Tree(op, a) == op(v2[0], v2[1])
  {
    hide Tree;
    hide Halved;
    v16 := TreeHalves(op, a, 16);
    v8 := TreeHalves(op, v16, 8);
    v4 := TreeHalves(op, v8, 4);
    v2 := TreeHalves(op, v4, 2);
    var v1 := TreeHalves(op, v2, 1);
    TreeOfOne(op, v1);
  }

  lemma TreeHalves<T>(op: (T, T) -> T, a: seq<T>, n: nat) returns (half: seq<T>)
    requires |a| == 2 * n && n > 0
    ensures |half| == n && Tree(op, a) == Tree(op, half)
    ensures forall l :: 0 <= l < n ==> half[l] == op(a[l], a[l + n])
  {
    half := Halved(op, a);
  }

  lemma TreeOfOne<T>(op: (T, T) -> T, a: seq<T>)
    requires |a| == 1
    ensures Tree(op, a) == a[0]
  {
  }

  /** `__shfl_down_sync` over offsets 16 to 1: lane 0 ends with the tree of all lanes. A lane whose partner does not
      exist reads its own value. */
  method ShuffleDown<T>(op: (T, T) -> T, lanes: seq<T>) returns (first: T)
    requires |lanes| == LANES
    ensures first == Tree(op, lanes)
  {
    var a, o := lanes, LANES / 2;
    assert a[..2 * o] == lanes;
    while o > 0
      invariant o in {16, 8, 4, 2, 1, 0} && |a| == LANES
      invariant o > 0 ==> Tree(op, a[..2 * o]) == Tree(op, lanes)
      invariant o == 0 ==> a[0] == Tree(op, lanes)
    {
      var next := seq(LANES, l requires 0 <= l < LANES => op(a[l], if l + o < LANES then a[l + o] else a[l]));
      assert next[..o] == Halved(op, a[..2 * o]);
      if o == 1 {
        assert next[..1] == [next[0]];
      } else {
        assert 2 * (o / 2) == o;
      }
      a, o := next, o / 2;
    }
    first := a[0];
  }

  ghost predicate Commutes<T(!new)>(op: (T, T) -> T) {
    forall x, y :: op(x, y) == op(y, x)
  }

  /** The lane whose number differs in the bit of `o`. */
  function Partner(l: int, o: nat): int
    requires o > 0
  {
    if l / o % 2 == 0 then l + o else l - o
  }

  /** Partners are the two lanes of a block of `2 * o` that agree modulo `o`. */
  lemma PartnerInBlock(q: int, r: int, o: nat)
    requires 0 <= r < 2 * o
    ensures (q * (2 * o) + r) % (2 * o) == r
    ensures (q * (2 * o) + r) % o == if r < o then r else r - o
    ensures Partner(q * (2 * o) + r, o) == q * (2 * o) + if r < o then r + o else r - o
  {
    DivMod(q, r, 2 * o);
    assert q * (2 * o) == 2 * q * o;
    if r < o {
      DivMod(2 * q, r, o);
    } else {
      assert (2 * q + 1) * o == 2 * q * o + o;
      DivMod(2 * q + 1, r - o, o);
    }
  }

  lemma PartnerMod(l: int, o: nat)
    requires o > 0
    ensures 0 <= l % o < o
    ensures || (l % (2 * o) == l % o && Partner(l, o) % (2 * o) == l % o + o)
            || (l % (2 * o) == l % o + o && Partner(l, o) % (2 * o) == l % o)
  {
    hide Partner;
    var q, r := l / (2 * o), l % (2 * o);
    assert l == q * (2 * o) + r by {
      assert l == 2 * o * q + r;
      assert 2 * o * q == q * (2 * o);
    }
    PartnerInBlock(q, r, o);
    DivMod(q, if r < o then r + o else r - o, 2 * o);
  }

  lemma PartnerInWarp(l: nat, o: nat)
    requires l < LANES && o in {16, 8, 4, 2, 1}
    ensures 0 <= Partner(l, o) < LANES
  {
  }

  /** LANES that agree modulo `n` hold the same value. */
  ghost predicate Periodic<T>(a: seq<T>, n: nat)
    requires |a| == LANES && 0 < n <= LANES
  {
    forall l :: 0 <= l < LANES ==> a[l] == a[l % n]
  }

  function Exchanged<T>(op: (T, T) -> T, a: seq<T>, o: nat): (r: seq<T>)
    requires |a| == LANES && o in {16, 8, 4, 2, 1}
    ensures |r| == LANES
  {
    seq(LANES, l requires 0 <= l < LANES => PartnerInWarp(l, o); op(a[l], a[Partner(l, o)]))
  }

  lemma ExchangedAt<T(!new)>(op: (T, T) -> T, a: seq<T>, o: nat, l: nat)
    requires |a| == LANES && o in {16, 8, 4, 2, 1} && Periodic(a, 2 * o) && Commutes(op) && l < LANES
    ensures 0 <= l % o < o && l % o + o < LANES && Exchanged(op, a, o)[l] == op(a[l % o], a[l % o + o])
  {
    PartnerInWarp(l, o);
    PartnerMod(l, o);
    hide Partner;
    assert a[l] == a[l % (2 * o)] && a[Partner(l, o)] == a[Partner(l, o) % (2 * o)];
  }

  lemma ExchangeHalves<T(!new)>(op: (T, T) -> T, a: seq<T>, o: nat)
    requires |a| == LANES && o in {16, 8, 4, 2, 1} && Periodic(a, 2 * o) && Commutes(op)
    ensures Periodic(Exchanged(op, a, o), o)
    ensures Exchanged(op, a, o)[..o] == Halved(op, a[..2 * o])
  {
    hide Exchanged;
    var r := Exchanged(op, a, o);
    forall l | 0 <= l < LANES
      ensures r[l] == r[l % o]
    {
      ExchangedAt(op, a, o, l);
      DivMod(0, l % o, o);
      ExchangedAt(op, a, o, l % o);
    }
    forall l | 0 <= l < o
      ensures r[l] == Halved(op, a[..2 * o])[l]
    {
      DivMod(0, l, o);
      ExchangedAt(op, a, o, l);
    }
  }

  /** `__shfl_xor_sync` over offsets 16 to 1: every lane ends with the tree of all lanes. */
  method ShuffleXor<T(!new)>(op: (T, T) -> T, lanes: seq<T>) returns (all: seq<T>)
    requires |lanes| == LANES && Commutes(op)
    ensures |all| == LANES && forall l :: 0 <= l < LANES ==> all[l] == Tree(op, lanes)
  {
    var a, o := lanes, LANES / 2;
    assert a[..2 * o] == lanes;
    while o > 0
      invariant o in {16, 8, 4, 2, 1, 0} && |a| == LANES
      invariant o > 0 ==> Periodic(a, 2 * o) && Tree(op, a[..2 * o]) == Tree(op, lanes)
      invariant o == 0 ==> Periodic(a, 1) && a[0] == Tree(op, lanes)
    {
      ExchangeHalves(op, a, o);
      var next := Exchanged(op, a, o);
      if o == 1 {
        assert next[..1] == [next[0]];
      } else {
        assert 2 * (o / 2) == o;
      }
      a, o := next, o / 2;
    }
    all := a;
    forall l | 0 <= l < LANES
      ensures all[l] == all[0]
    {
      assert l % 1 == 0;
    }
  }
}
