/** The order in which a rotating queue serves its members. */
module Rotation {

  ghost predicate NoRepeats<T>(s: seq<T>) {
    forall i, j :: 0 <= i < j < |s| ==> s[i] != s[j]
  }

  /** What waited behind the group of `queue` is still waiting in `next`, at least a group further ahead, or has left
      the queue for good. */
  ghost predicate Carried<T>(queue: seq<T>, next: seq<T>, width: nat, gone: set<T>) {
    forall p :: width <= p < |queue| ==> queue[p] in gone || WaitsBy(next, p - width, queue[p])
  }

  ghost predicate WaitsBy<T>(queue: seq<T>, p: nat, s: T) {
    exists q :: 0 <= q <= p && q < |queue| && queue[q] == s
  }

  ghost predicate Rotates<T>(rounds: seq<seq<T>>, width: nat, gone: set<T>) {
    forall r :: 0 <= r < |rounds| - 1 ==> Carried(rounds[r], rounds[r + 1], width, gone)
  }

  /** A member of round `r` is served in round `k` when it is among the first `width` of that round's queue. */
  ghost predicate ServedIn<T>(rounds: seq<seq<T>>, width: nat, s: T, k: nat) {
    k < |rounds| && width > 0 && WaitsBy(rounds[k], width - 1, s)
  }

  /** No starvation: position `p` is served within `p / width + 1` rounds, whoever joins, finishes, is cancelled or
      falls back meanwhile, unless it leaves the queue or the rounds end. */
  lemma {:induction false} ServedWithin<T>(rounds: seq<seq<T>>, width: nat, gone: set<T>, r: nat, p: nat)
    returns (k: nat)
    requires width > 0 && Rotates(rounds, width, gone) && r < |rounds| && p < |rounds[r]|
    ensures r <= k <= r + p / width
    ensures rounds[r][p] in gone || k == |rounds| - 1 || ServedIn(rounds, width, rounds[r][p], k)
    ensures r + p / width < |rounds| ==> rounds[r][p] in gone || ServedIn(rounds, width, rounds[r][p], k)
    ensures k == |rounds| - 1 ==> rounds[r][p] in gone || rounds[r][p] in rounds[k]
    decreases p
  {
    k := r;
    if p < width {
      assert WaitsBy(rounds[r], width - 1, rounds[r][p]);
    } else if r < |rounds| - 1 && rounds[r][p] !in gone {
      assert Carried(rounds[r], rounds[r + 1], width, gone);
      var q :| 0 <= q <= p - width && q < |rounds[r + 1]| && rounds[r + 1][q] == rounds[r][p];
      k := ServedWithin(rounds, width, gone, r + 1, q);
      DivStep(q, p, width);
    }
  }

  lemma DivStep(a: nat, b: nat, d: nat)
    requires d > 0 && a + d <= b
    ensures a / d + 1 <= b / d
  {
    var x, y := a / d + 1, b / d + 1;
    assert x * d <= b < y * d;
    MulOrder(x, y, d);
  }

  lemma MulOrder(x: int, y: int, d: nat)
    requires x * d < y * d
    ensures x < y
  {
    assert (y - x) * d > 0;
  }

  /** When the queue is empty at the end, nobody is left out: served in time, or gone. */
  lemma NoStarvation<T>(rounds: seq<seq<T>>, width: nat, gone: set<T>, r: nat, p: nat)
    requires width > 0 && Rotates(rounds + [[]], width, gone) && r < |rounds| && p < |rounds[r]|
    ensures rounds[r][p] in gone || exists k :: r <= k <= r + p / width && ServedIn(rounds, width, rounds[r][p], k)
  {
    var all := rounds + [[]];
    assert all[r] == rounds[r];
    var k := ServedWithin(all, width, gone, r, p);
    if rounds[r][p] !in gone {
      assert k != |all| - 1;
      assert all[k] == rounds[k];
      assert ServedIn(rounds, width, rounds[r][p], k);
    }
  }

  lemma CarriedFurther<T>(queue: seq<T>, next: seq<T>, later: seq<T>, width: nat, gone: set<T>, more: set<T>)
    requires Carried(queue, next, width, gone) && gone <= more
    requires forall p :: 0 <= p < |next| ==> next[p] in more || WaitsBy(later, p, next[p])
    ensures Carried(queue, later, width, more)
  {
    forall p | width <= p < |queue| && queue[p] !in more
      ensures WaitsBy(later, p - width, queue[p])
    {
      var q :| 0 <= q <= p - width && q < |next| && next[q] == queue[p];
      assert WaitsBy(later, q, next[q]);
    }
  }
}
