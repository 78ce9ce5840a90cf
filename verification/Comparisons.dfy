/** What the caller's executor, the native core and the disk will answer, and what a comparison of three arms makes of
    it.

    A `World` fixes every answer in advance and is arbitrary, so a statement for all worlds is one for all behaviours.
    An arm is a block of consecutive executions: which arms finished, where they began, and what they returned is a
    function of the world and of nothing that the controller says about itself. */
module Comparisons {

  datatype Option<+T> = None | Some(value: T)

  /** What an executor reports for comparing outputs. Digests are injective, so a signature stands for its digest. */
  datatype Signature = Unsigned | Signed(text: int) | Inconsistent(runs: seq<Signature>)

  datatype Status = Ok | Error | Timeout | Cancelled | Interrupted

  /** The result of executing `action`; `answer` is what the caller gets. `valid` and `within` are the checks of its
      numbers. */
  datatype Outcome = Outcome(action: nat, answer: int, status: Status, signature: Signature, fallbacks: nat,
                             valid: bool, within: bool)

  /** How a call ends: with a result, with an exception, or with one that no handler here may swallow. */
  datatype Ran<+T> = Returned(value: T) | Failed | Killed

  /** What the native core decides when it is asked. */
  datatype Offer =
    | Refused
    | Decide(action: nat, explores: bool, ticketed: bool)
    | Compare(a: nat, aa: nat, b: nat, order: nat)

  /** The native core's status: whether the profile in question is the active one, and how often an arm should
      repeat. */
  datatype Answer = Raises | Answers(active: bool, repetitions: int)

  /** The answers to the n-th offer, execution, status query and save. */
  datatype World = World(
    busy: nat -> bool,
    offers: nat -> Offer,
    outcomes: nat -> Ran<Outcome>,
    statuses: nat -> Answer,
    saves: nat -> bool,
    workerSaves: nat -> bool)

  /** The n-th execution, when it is asked for `action`. */
  function RunAt(w: World, n: nat, action: nat): Ran<Outcome> {
    match w.outcomes(n)
    case Returned(o) => Returned(o.(action := action))
    case Failed => Failed
    case Killed => Killed
  }

  /** How many of the first `n` status queries raise, and how many of the first `n` saves. */
  function StatusRaises(w: World, n: nat): nat {
    if n == 0 then 0 else StatusRaises(w, n - 1) + if w.statuses(n - 1).Raises? then 1 else 0
  }

  function SaveRaises(w: World, n: nat): nat {
    if n == 0 then 0 else SaveRaises(w, n - 1) + if w.saves(n - 1) then 1 else 0
  }

  /** The `j`-th execution of a block that begins at execution `at`. */
  function At(w: World, at: nat, j: nat): Ran<Outcome> {
    w.outcomes(at + j)
  }

  /** Every repetition of an arm that begins at execution `at` returned. */
  predicate ArmDone(w: World, at: nat, n: nat) {
    forall j :: 0 <= j < n ==> At(w, at, j).Returned?
  }

  /** The executions an arm makes: all its repetitions, or up to the first that does not return. */
  function ArmLength(w: World, at: nat, n: nat): (length: nat)
    ensures length <= n && (n > 0 ==> length > 0)
    decreases n
  {
    if n == 0 then 0 else if !At(w, at, 0).Returned? then 1 else 1 + ArmLength(w, at + 1, n - 1)
  }

  lemma {:induction false} ArmStops(w: World, at: nat, n: nat, i: nat)
    requires i <= n && forall j :: 0 <= j < i ==> At(w, at, j).Returned?
    requires i < n ==> !At(w, at, i).Returned?
    ensures ArmLength(w, at, n) == if i < n then i + 1 else n
    ensures ArmDone(w, at, n) <==> i == n
    decreases n
  {
    assert i < n ==> !At(w, at, i).Returned?;
    if i > 0 {
      assert At(w, at, 0).Returned?;
      var next := at + 1;
      forall j | 0 <= j < i - 1
        ensures At(w, next, j).Returned?
      {
        assert At(w, at, j + 1).Returned?;
      }
      assert i < n ==> At(w, at + 1, i - 1) == At(w, at, i);
      ArmStops(w, at + 1, n - 1, i - 1);
    }
  }

  function SignaturesAt(w: World, at: nat, n: nat): (runs: seq<Signature>)
    requires ArmDone(w, at, n)
    ensures |runs| == n
  {
    seq(n, j requires 0 <= j < n => At(w, at, j).value.signature)
  }

  /** The signature of an arm that ran once or more. */
  function ArmSignature(runs: seq<Signature>): Signature
    requires runs != []
  {
    if forall i :: 0 <= i < |runs| ==> runs[i] == runs[0] then runs[0] else Inconsistent(runs)
  }

  function Fallbacks(w: World, at: nat, n: nat): nat
    requires ArmDone(w, at, n)
    decreases n
  {
    if n == 0 then 0 else Fallbacks(w, at, n - 1) + At(w, at, n - 1).value.fallbacks
  }

  /** `o` is what an arm of `n` repetitions of `action` reports that begins at execution `at`. The checks of summed
      numbers are not those of the single ones, so with several repetitions they are left open. */
  ghost predicate IsArm(w: World, at: nat, n: nat, action: nat, o: Outcome) {
    && n > 0 && ArmDone(w, at, n)
    && o.action == action && o.answer == At(w, at, 0).value.answer
    && o.signature == ArmSignature(SignaturesAt(w, at, n)) && o.fallbacks == Fallbacks(w, at, n)
    && o.status == (if forall j :: 0 <= j < n ==> At(w, at, j).value.status == At(w, at, 0).value.status
                    then At(w, at, 0).value.status else Error)
    && (n == 1 ==> Returned(o) == RunAt(w, at, action))
  }

  /** A comparison after some of its arms: the next execution, where the finished arms began, which arm failed last, and
      whether no further arm is tried. */
  datatype Progress = Progress(at: nat, starts: map<nat, nat>, failed: Option<nat>, over: bool, killed: bool)

  /** The arm in place `k` of the order: A is 0, AA is 1, B is 2. */
  function ArmAt(order: nat, k: nat): (index: nat)
    requires k < 3
    ensures index < 3
  {
    if order == 0 then k else 2 - k
  }

  /** One more arm. A failed A or AA ends the comparison, a failed B does not. */
  function NextArm(w: World, p: Progress, index: nat, n: nat): Progress
    requires n > 0
  {
    var at := p.at + ArmLength(w, p.at, n);
    if ArmDone(w, p.at, n) then p.(at := at, starts := p.starts[index := p.at])
    else if w.outcomes(at - 1).Killed? then p.(at := at, over := true, killed := true)
    else p.(at := at, failed := Some(index), over := index < 2)
  }

  function ArmsUpTo(w: World, at: nat, order: nat, n: nat, k: nat): Progress
    requires n > 0 && k <= 3
  {
    if k == 0 then Progress(at, map[], None, false, false)
    else
      var p := ArmsUpTo(w, at, order, n, k - 1);
      if p.over then p else NextArm(w, p, ArmAt(order, k - 1), n)
  }

  /** The whole comparison. */
  function Arms(w: World, at: nat, order: nat, n: nat): Progress
    requires n > 0
  {
    ArmsUpTo(w, at, order, n, 3)
  }

  /** The arms before place `k`. */
  ghost predicate Tried(order: nat, k: nat, index: nat)
    requires k <= 3
  {
    exists j :: 0 <= j < k && ArmAt(order, j) == index
  }

  /** Only arms that were tried finished, the one that failed last did not, and an interrupted comparison is over. */
  lemma {:induction false} ArmsAreArms(w: World, at: nat, order: nat, n: nat, k: nat)
    requires n > 0 && k <= 3
    ensures var p := ArmsUpTo(w, at, order, n, k);
      && (forall i :: i in p.starts ==> Tried(order, k, i) && ArmDone(w, p.starts[i], n))
      && (p.failed.Some? ==> Tried(order, k, p.failed.value) && p.failed.value !in p.starts)
      && (p.killed ==> p.over && exists i :: Tried(order, k, i) && i !in p.starts)
  {
    hide ArmLength;
    if k > 0 {
      ArmsAreArms(w, at, order, n, k - 1);
      var p, index := ArmsUpTo(w, at, order, n, k - 1), ArmAt(order, k - 1);
      TriedMore(order, k - 1);
      assert index !in p.starts;
    }
  }

  /** An interrupted comparison did not finish all its arms, and an arm that failed is one of the three. */
  lemma ArmsAreSound(w: World, at: nat, order: nat, n: nat)
    requires n > 0
    ensures var p := Arms(w, at, order, n);
      && (p.killed ==> !(0 in p.starts && 1 in p.starts && 2 in p.starts))
      && (p.failed.Some? ==> p.failed.value < 3)
  {
    ArmsAreArms(w, at, order, n, 3);
  }

  lemma TriedMore(order: nat, k: nat)
    requires k < 3
    ensures forall i :: Tried(order, k + 1, i) <==> Tried(order, k, i) || i == ArmAt(order, k)
    ensures !Tried(order, k, ArmAt(order, k))
  {
    assert ArmAt(order, k) == ArmAt(order, k);
  }

  /** All three arms finish exactly if none of their executions stops them; then they are three consecutive blocks. */
  lemma AllArmsDone(w: World, at: nat, order: nat, n: nat)
    requires n > 0 && ArmDone(w, at, 3 * n)
    ensures Arms(w, at, order, n)
         == Progress(at + 3 * n, map[ArmAt(order, 0) := at, ArmAt(order, 1) := at + n, ArmAt(order, 2) := at + 2 * n],
                     None, false, false)
    ensures Arms(w, at, order, n).starts
         == if order == 0 then map[0 := at, 1 := at + n, 2 := at + 2 * n]
           else map[2 := at, 1 := at + n, 0 := at + 2 * n]
  {
    BlockDone(w, at, n, 0, at);
    BlockDone(w, at, n, 1, at + n);
    BlockDone(w, at, n, 2, at + 2 * n);
    assert ArmsUpTo(w, at, order, n, 1) == Progress(at + n, map[ArmAt(order, 0) := at], None, false, false);
    assert ArmsUpTo(w, at, order, n, 2)
        == Progress(at + 2 * n, map[ArmAt(order, 0) := at, ArmAt(order, 1) := at + n], None, false, false);
  }

  /** A failed A or AA ends a comparison at once. */
  lemma FailedReferenceEnds(w: World, at: nat, n: nat)
    requires n > 0 && !ArmDone(w, at, n) && !w.outcomes(at + ArmLength(w, at, n) - 1).Killed?
    ensures Arms(w, at, 0, n) == Progress(at + ArmLength(w, at, n), map[], Some(0), true, false)
  {
    assert ArmsUpTo(w, at, 0, n, 1) == Progress(at + ArmLength(w, at, n), map[], Some(0), true, false);
    assert ArmsUpTo(w, at, 0, n, 2) == ArmsUpTo(w, at, 0, n, 1);
  }

  /** A failed B does not: AA and A still run after it. */
  lemma FailedAlternativeGoesOn(w: World, at: nat, order: nat, n: nat, next: nat)
    requires n > 0 && order != 0 && !ArmDone(w, at, n) && !w.outcomes(at + ArmLength(w, at, n) - 1).Killed?
    requires next == at + ArmLength(w, at, n) && ArmDone(w, next, n) && ArmDone(w, next + n, n)
    ensures Arms(w, at, order, n) == Progress(next + 2 * n, map[1 := next, 0 := next + n], Some(2), false, false)
  {
    ArmStops(w, next, n, n);
    ArmStops(w, next + n, n, n);
    assert ArmsUpTo(w, at, order, n, 1) == Progress(next, map[], Some(2), false, false);
    assert ArmsUpTo(w, at, order, n, 2) == Progress(next + n, map[1 := next], Some(2), false, false);
  }

  lemma BlockDone(w: World, at: nat, n: nat, k: nat, start: nat)
    requires k < 3 && start == at + k * n && ArmDone(w, at, 3 * n)
    ensures ArmDone(w, start, n) && ArmLength(w, start, n) == n
  {
    forall j | 0 <= j < n
      ensures At(w, start, j).Returned?
    {
      assert At(w, at, k * n + j).Returned?;
    }
    ArmStops(w, start, n, n);
  }

  /** The signature of a finished arm. */
  function SignatureOf(w: World, starts: map<nat, nat>, n: nat, index: nat): Signature {
    if n > 0 && index in starts && ArmDone(w, starts[index], n) then ArmSignature(SignaturesAt(w, starts[index], n))
    else Unsigned
  }

  predicate AllSigned(w: World, starts: map<nat, nat>, n: nat) {
    && 0 in starts && 1 in starts && 2 in starts
    && SignatureOf(w, starts, n, 0) != Unsigned && SignatureOf(w, starts, n, 1) != Unsigned
    && SignatureOf(w, starts, n, 2) != Unsigned
  }

  /** A disagreement that the comparison can see: every arm finished with a signature, and they are not all equal. */
  predicate Detected(w: World, starts: map<nat, nat>, n: nat) {
    && AllSigned(w, starts, n)
    && !(SignatureOf(w, starts, n, 0) == SignatureOf(w, starts, n, 1) == SignatureOf(w, starts, n, 2))
  }

  predicate Matched(w: World, starts: map<nat, nat>, n: nat) {
    && AllSigned(w, starts, n)
    && SignatureOf(w, starts, n, 0) == SignatureOf(w, starts, n, 1) == SignatureOf(w, starts, n, 2)
  }

  /** Two of the comparison's executions returned different signatures. */
  ghost predicate Disagree(w: World, at: nat, n: nat)
    requires n > 0 && ArmDone(w, at, 3 * n)
  {
    exists j :: 0 <= j < 3 * n && At(w, at, j).value.signature != At(w, at, 0).value.signature
  }

  /** The three arms returned the same signatures in the same order. */
  ghost predicate SamePattern(w: World, at: nat, n: nat)
    requires n > 0 && ArmDone(w, at, 3 * n)
  {
    BlockDone(w, at, n, 0, at);
    BlockDone(w, at, n, 1, at + n);
    BlockDone(w, at, n, 2, at + 2 * n);
    SignaturesAt(w, at, n) == SignaturesAt(w, at + n, n) == SignaturesAt(w, at + 2 * n, n)
  }

  /** A comparison whose executions all returned signed outcomes sees their disagreement if and only if the arms did not
      repeat one and the same pattern. With one repetition it sees every disagreement. */
  lemma DisagreementSeen(w: World, at: nat, order: nat, n: nat)
    requires n > 0 && ArmDone(w, at, 3 * n)
    requires forall j :: 0 <= j < 3 * n ==> At(w, at, j).value.signature.Signed?
    ensures Disagree(w, at, n) ==> (Detected(w, Arms(w, at, order, n).starts, n) <==> !SamePattern(w, at, n))
    ensures !Disagree(w, at, n) ==> Matched(w, Arms(w, at, order, n).starts, n)
    ensures n == 1 ==> (Detected(w, Arms(w, at, order, n).starts, n) <==> Disagree(w, at, n))
  {
    hide ArmSignature;
    hide Arms;
    hide SignatureOf;
    hide Disagree;
    hide SamePattern;
    SignedBlock(w, at, n, 0, at);
    SignedBlock(w, at, n, 1, at + n);
    SignedBlock(w, at, n, 2, at + 2 * n);
    var a, b, c := SignaturesAt(w, at, n), SignaturesAt(w, at + n, n), SignaturesAt(w, at + 2 * n, n);
    ArmSignaturesEqual(a, b);
    ArmSignaturesEqual(b, c);
    ArmSignaturesEqual(c, a);
    SignaturesOfArms(w, at, order, n);
    SamePatternBlocks(w, at, n);
    PatternOrDisagreement(w, at, n);
  }

  lemma SignaturesOfArms(w: World, at: nat, order: nat, n: nat)
    requires n > 0 && ArmDone(w, at, 3 * n)
    ensures ArmDone(w, at, n) && ArmDone(w, at + n, n) && ArmDone(w, at + 2 * n, n)
    ensures var starts := Arms(w, at, order, n).starts;
      && 0 in starts && 1 in starts && 2 in starts
      && SignatureOf(w, starts, n, ArmAt(order, 0)) == ArmSignature(SignaturesAt(w, at, n))
      && SignatureOf(w, starts, n, 1) == ArmSignature(SignaturesAt(w, at + n, n))
      && SignatureOf(w, starts, n, ArmAt(order, 2)) == ArmSignature(SignaturesAt(w, at + 2 * n, n))
  {
    AllArmsDone(w, at, order, n);
    hide Arms;
    hide ArmSignature;
    BlockDone(w, at, n, 0, at);
    BlockDone(w, at, n, 1, at + n);
    BlockDone(w, at, n, 2, at + 2 * n);
  }

  lemma SamePatternBlocks(w: World, at: nat, n: nat)
    requires n > 0 && ArmDone(w, at, 3 * n)
    ensures ArmDone(w, at, n) && ArmDone(w, at + n, n) && ArmDone(w, at + 2 * n, n)
    ensures SamePattern(w, at, n) <==>
            SignaturesAt(w, at, n) == SignaturesAt(w, at + n, n) == SignaturesAt(w, at + 2 * n, n)
  {
    BlockDone(w, at, n, 0, at);
    BlockDone(w, at, n, 1, at + n);
    BlockDone(w, at, n, 2, at + 2 * n);
  }

  lemma SignedBlock(w: World, at: nat, n: nat, k: nat, start: nat)
    requires n > 0 && ArmDone(w, at, 3 * n) && k < 3 && start == at + k * n
    requires forall j :: 0 <= j < 3 * n ==> At(w, at, j).value.signature.Signed?
    ensures ArmDone(w, start, n) && forall j :: 0 <= j < n ==> SignaturesAt(w, start, n)[j].Signed?
  {
    BlockDone(w, at, n, k, start);
    forall j | 0 <= j < n
      ensures SignaturesAt(w, start, n)[j].Signed?
    {
      assert At(w, at, k * n + j).value.signature.Signed?;
    }
  }

  /** Without a disagreement every block repeats the first signature. */
  lemma PatternOrDisagreement(w: World, at: nat, n: nat)
    requires n > 0 && ArmDone(w, at, 3 * n)
    ensures !Disagree(w, at, n) ==> SamePattern(w, at, n)
    ensures !Disagree(w, at, n) ==>
      ArmDone(w, at, n) && forall j :: 0 <= j < n ==> SignaturesAt(w, at, n)[j] == SignaturesAt(w, at, n)[0]
    ensures n == 1 && SamePattern(w, at, n) ==> !Disagree(w, at, n)
  {
    BlockDone(w, at, n, 0, at);
    BlockDone(w, at, n, 1, at + n);
    BlockDone(w, at, n, 2, at + 2 * n);
    var a, b, c := SignaturesAt(w, at, n), SignaturesAt(w, at + n, n), SignaturesAt(w, at + 2 * n, n);
    if !Disagree(w, at, n) {
      forall j | 0 <= j < n
        ensures a[j] == a[0] && b[j] == a[0] && c[j] == a[0]
      {
        assert At(w, at, j).value.signature == At(w, at, 0).value.signature;
        assert At(w, at, n + j).value.signature == At(w, at, 0).value.signature;
        assert At(w, at, 2 * n + j).value.signature == At(w, at, 0).value.signature;
      }
      assert a == b == c;
    }
    if n == 1 && SamePattern(w, at, n) {
      assert a[0] == At(w, at, 0).value.signature && b[0] == At(w, at, 1).value.signature
          && c[0] == At(w, at, 2).value.signature;
    }
  }

  lemma ArmSignaturesEqual(a: seq<Signature>, b: seq<Signature>)
    requires |a| == |b| > 0 && (forall i :: 0 <= i < |a| ==> a[i].Signed?) && forall i :: 0 <= i < |b| ==> b[i].Signed?
    ensures ArmSignature(a) == ArmSignature(b) <==> a == b
    ensures !ArmSignature(a).Unsigned?
  {
    if ArmSignature(a) == ArmSignature(b) && forall i :: 0 <= i < |a| ==> a[i] == a[0] {
      assert forall i :: 0 <= i < |b| ==> b[i] == b[0];
      assert a == b;
    }
  }
}
