/** The discovery tree and its replay: which tests may come next, and what a replay of a recorded tree may claim. A
    configuration is its own key. The planner's choice among the candidates is arbitrary. */
module Dream {

  type Value(!new, ==)

  type Config = map<string, Value>

  datatype Option<+T> = None | Some(value: T)

  /** One knob set to one value. */
  datatype Arm = Arm(knob: string, value: Value)

  /** A recorded test. A failed one has no ratio that counts. */
  datatype Node = Node(parent: Option<Config>, ok: bool, ratio: real, seconds: real)

  type Nodes = map<Config, Node>

  /** An unopened child: the parent it comes from, the knob that changed, and the whole configuration. */
  datatype Candidate = Candidate(parent: Config, arm: Arm, child: Config)

  const KEEP_IF_RATIO_BELOW := 0.995

  function Changed(config: Config, arm: Arm): (changed: Config)
    ensures changed.Keys == config.Keys + {arm.knob} && changed[arm.knob] == arm.value
    ensures forall knob :: knob in config && knob != arm.knob ==> changed[knob] == config[knob]
  {
    config[arm.knob := arm.value]
  }

  predicate IsOk(nodes: Nodes, k: Config) {
    k in nodes && nodes[k].ok
  }

  /** Every configuration names every knob. */
  ghost predicate Complete(nodes: Nodes, space: seq<Arm>) {
    forall k, i :: k in nodes && 0 <= i < |space| ==> space[i].knob in k
  }

  /** `child` is a one-knob change of a valid node. */
  ghost predicate FromParent(nodes: Nodes, parent: Config, arm: Arm, child: Config) {
    IsOk(nodes, parent) && arm.knob in parent && parent[arm.knob] != arm.value && child == Changed(parent, arm)
  }

  ghost predicate IsBest(nodes: Nodes, ratio: real) {
    && (exists k :: IsOk(nodes, k) && nodes[k].ratio == ratio)
    && forall k :: IsOk(nodes, k) ==> ratio <= nodes[k].ratio
  }

  lemma BestFalls(before: Nodes, after: Nodes, a: real, b: real)
    requires IsBest(before, a) && IsBest(after, b)
    requires forall k :: IsOk(before, k) ==> IsOk(after, k) && after[k].ratio == before[k].ratio
    ensures b <= a
  {
  }

  predicate Sorted(nodes: Nodes, order: seq<Config>) {
    && (forall i :: 0 <= i < |order| ==> order[i] in nodes)
    && forall i, j :: 0 <= i <= j < |order| ==> nodes[order[i]].ratio <= nodes[order[j]].ratio
  }

  /** The valid nodes by ratio, lowest first. */
  method ByRatio(nodes: Nodes) returns (order: seq<Config>)
    ensures Sorted(nodes, order)
    ensures forall k :: k in order <==> IsOk(nodes, k)
  {
    order := [];
    var rest := nodes.Keys;
    while rest != {}
      invariant rest <= nodes.Keys && Sorted(nodes, order)
      invariant forall k :: k in order <==> IsOk(nodes, k) && k !in rest
      decreases |rest|
    {
      var k :| k in rest;
      rest := rest - {k};
      if nodes[k].ok {
        order := Insert(nodes, order, k);
      }
    }
  }

  method Insert(nodes: Nodes, order: seq<Config>, k: Config) returns (longer: seq<Config>)
    requires Sorted(nodes, order) && k in nodes
    ensures Sorted(nodes, longer) && forall q :: q in longer <==> q in order || q == k
  {
    var at := 0;
    while at < |order| && nodes[order[at]].ratio <= nodes[k].ratio
      invariant at <= |order| && forall i :: 0 <= i < at ==> nodes[order[i]].ratio <= nodes[k].ratio
    {
      at := at + 1;
    }
    longer := order[..at] + [k] + order[at..];
    InsertedAt(nodes, order, k, at);
  }

  lemma InsertedAt(nodes: Nodes, order: seq<Config>, k: Config, at: nat)
    requires Sorted(nodes, order) && k in nodes && at <= |order|
    requires forall i :: 0 <= i < at ==> nodes[order[i]].ratio <= nodes[k].ratio
    requires at < |order| ==> nodes[k].ratio <= nodes[order[at]].ratio
    ensures Sorted(nodes, order[..at] + [k] + order[at..])
    ensures forall q :: q in order[..at] + [k] + order[at..] <==> q in order || q == k
  {
    Inserted(order, k, at);
  }

  lemma Inserted<T>(order: seq<T>, k: T, at: nat)
    requires at <= |order|
    ensures var longer := order[..at] + [k] + order[at..];
      && (forall q :: q in longer <==> q in order || q == k)
      && forall i :: 0 <= i < |longer| ==> longer[i] == if i < at then order[i] else if i == at then k else order[i - 1]
  {
    assert order == order[..at] + order[at..];
  }

  /** What `candidates` has listed after the parents before `order[i]` and the arms before `space[j]` of that parent. */
  ghost predicate Listed(nodes: Nodes, space: seq<Arm>, order: seq<Config>, out: seq<Candidate>, i: nat, j: nat)
    requires Sorted(nodes, order) && i <= |order|
  {
    && (forall c :: 0 <= c < |out| ==>
          out[c].arm in space && FromParent(nodes, out[c].parent, out[c].arm, out[c].child) && out[c].child !in nodes)
    && (forall c, d :: 0 <= c < d < |out| ==> out[c].child != out[d].child)
    && (forall c :: 0 <= c < |out| ==> out[c].parent in order[..if i < |order| then i + 1 else i])
    && (forall p, a :: 0 <= p < |order| && 0 <= a < |space| && (p < i || (p == i && a < j)) ==>
          Covered(nodes, out, order[p], space[a]))
  }

  /** The child of this parent by this arm, if there is one to open, is listed from a parent at least as good. */
  ghost predicate Covered(nodes: Nodes, out: seq<Candidate>, parent: Config, arm: Arm)
    requires parent in nodes
  {
    FromParent(nodes, parent, arm, Changed(parent, arm)) && Changed(parent, arm) !in nodes ==>
      exists c :: 0 <= c < |out| && out[c].child == Changed(parent, arm) && out[c].parent in nodes
               && nodes[out[c].parent].ratio <= nodes[parent].ratio
  }

  /** `candidates`: every unopened one-knob child of a valid node, each exactly once, from its best possible parent. */
  method Candidates(nodes: Nodes, space: seq<Arm>) returns (out: seq<Candidate>)
    requires Complete(nodes, space)
    ensures forall c :: 0 <= c < |out| ==>
              out[c].arm in space && FromParent(nodes, out[c].parent, out[c].arm, out[c].child)
                && out[c].child !in nodes
    ensures forall c, d :: 0 <= c < d < |out| ==> out[c].child != out[d].child
    ensures forall parent, a :: IsOk(nodes, parent) && 0 <= a < |space| ==> Covered(nodes, out, parent, space[a])
  {
    hide FromParent;
    var order := ByRatio(nodes);
    out := [];
    for i := 0 to |order|
      invariant Listed(nodes, space, order, out, i, 0)
      invariant forall c :: 0 <= c < |out| ==> out[c].parent in order[..i]
    {
      for j := 0 to |space|
        invariant Listed(nodes, space, order, out, i, j)
      {
        out := Consider(nodes, space, order, out, i, j);
      }
      assert order[..i + 1][i] == order[i];
    }
    forall parent, a | IsOk(nodes, parent) && 0 <= a < |space|
      ensures Covered(nodes, out, parent, space[a])
    {
      var p :| 0 <= p < |order| && order[p] == parent;
    }
  }

  /** One parent and one arm. */
  method Consider(nodes: Nodes, space: seq<Arm>, order: seq<Config>, out: seq<Candidate>, i: nat, j: nat)
      returns (next: seq<Candidate>)
    requires Complete(nodes, space) && Sorted(nodes, order) && i < |order| && j < |space| && IsOk(nodes, order[i])
    requires Listed(nodes, space, order, out, i, j)
    ensures Listed(nodes, space, order, next, i, j + 1)
  {
    hide Listed;
    var parent, arm := order[i], space[j];
    var child := Changed(parent, arm);
    next := out;
    if parent[arm.knob] == arm.value || child in nodes {
      Skip(nodes, space, order, out, i, j);
      return;
    }
    for c := 0 to |out|
      invariant forall d :: 0 <= d < c ==> out[d].child != child
    {
      if out[c].child == child {
        ListedParent(nodes, space, order, out, i, j, c);
        EarlierParent(nodes, order, out[c].parent, i);
        Skip(nodes, space, order, out, i, j);
        return;
      }
    }
    next := out + [Candidate(parent, arm, child)];
    Add(nodes, space, order, out, i, j);
    Skip(nodes, space, order, next, i, j);
  }

  lemma ListedParent(nodes: Nodes, space: seq<Arm>, order: seq<Config>, out: seq<Candidate>, i: nat, j: nat, c: nat)
    requires Sorted(nodes, order) && i < |order| && Listed(nodes, space, order, out, i, j) && c < |out|
    ensures out[c].parent in order[..i + 1]
  {
  }

  /** A child that is covered already, or is none, is passed over. */
  lemma Skip(nodes: Nodes, space: seq<Arm>, order: seq<Config>, out: seq<Candidate>, i: nat, j: nat)
    requires Sorted(nodes, order) && i < |order| && j < |space| && Listed(nodes, space, order, out, i, j)
    requires Covered(nodes, out, order[i], space[j])
    ensures Listed(nodes, space, order, out, i, j + 1)
  {
    hide Covered;
    hide FromParent;
  }

  lemma Add(nodes: Nodes, space: seq<Arm>, order: seq<Config>, out: seq<Candidate>, i: nat, j: nat)
    requires Sorted(nodes, order) && i < |order| && j < |space| && Listed(nodes, space, order, out, i, j)
    requires FromParent(nodes, order[i], space[j], Changed(order[i], space[j])) && Changed(order[i], space[j]) !in nodes
    requires forall c :: 0 <= c < |out| ==> out[c].child != Changed(order[i], space[j])
    ensures var next := out + [Candidate(order[i], space[j], Changed(order[i], space[j]))];
      Listed(nodes, space, order, next, i, j) && Covered(nodes, next, order[i], space[j])
  {
    var next := out + [Candidate(order[i], space[j], Changed(order[i], space[j]))];
    assert next[|out|].child == Changed(order[i], space[j]);
    assert Covered(nodes, next, order[i], space[j]);
    assert order[..i + 1][i] == order[i];
    hide Covered;
    hide FromParent;
    forall p, a | 0 <= p < |order| && 0 <= a < |space| && (p < i || (p == i && a < j))
      ensures Covered(nodes, next, order[p], space[a])
    {
      assert Covered(nodes, out, order[p], space[a]);
      StillCovered(nodes, out, next, order[p], space[a]);
    }
  }

  lemma StillCovered(nodes: Nodes, out: seq<Candidate>, next: seq<Candidate>, parent: Config, arm: Arm)
    requires parent in nodes && Covered(nodes, out, parent, arm) && out <= next
    ensures Covered(nodes, next, parent, arm)
  {
    if FromParent(nodes, parent, arm, Changed(parent, arm)) && Changed(parent, arm) !in nodes {
      var c :| 0 <= c < |out| && out[c].child == Changed(parent, arm) && out[c].parent in nodes
            && nodes[out[c].parent].ratio <= nodes[parent].ratio;
      assert next[c] == out[c];
    }
  }

  lemma EarlierParent(nodes: Nodes, order: seq<Config>, parent: Config, i: nat)
    requires Sorted(nodes, order) && i < |order| && parent in order[..i + 1]
    ensures parent in nodes && nodes[parent].ratio <= nodes[order[i]].ratio
  {
    var p :| 0 <= p < i + 1 && order[p] == parent;
  }

  /** `best_key`: a valid node with the lowest ratio. */
  method BestKey(nodes: Nodes) returns (best: Config)
    requires exists k :: IsOk(nodes, k)
    ensures IsOk(nodes, best) && IsBest(nodes, nodes[best].ratio)
  {
    best :| IsOk(nodes, best);
    var rest := nodes.Keys;
    while rest != {}
      invariant rest <= nodes.Keys && IsOk(nodes, best)
      invariant forall k :: IsOk(nodes, k) && k !in rest ==> nodes[best].ratio <= nodes[k].ratio
      decreases |rest|
    {
      var k :| k in rest;
      rest := rest - {k};
      if nodes[k].ok && nodes[k].ratio < nodes[best].ratio {
        best := k;
      }
    }
  }

  /** `pick`: one of the recorded candidates, or none. A random choice stops only when there is none; the planner may
      stop earlier. */
  method Pick(nodes: Nodes, space: seq<Arm>, allowed: set<Config>, planner: bool) returns (chosen: Option<Candidate>)
    requires Complete(nodes, space)
    ensures chosen.Some? ==>
      && chosen.value.child in allowed && chosen.value.child !in nodes
      && FromParent(nodes, chosen.value.parent, chosen.value.arm, chosen.value.child)
    ensures chosen.None? && !planner ==>
      forall parent, a ::
        IsOk(nodes, parent) && 0 <= a < |space| && FromParent(nodes, parent, space[a], Changed(parent, space[a])) ==>
        Changed(parent, space[a]) in nodes || Changed(parent, space[a]) !in allowed
  {
    hide FromParent;
    var all := Candidates(nodes, space);
    var pool := [];
    for i := 0 to |all|
      invariant forall c :: c in pool ==> c in all && c.child in allowed
      invariant forall j :: 0 <= j < i && all[j].child in allowed ==> all[j] in pool
    {
      if all[i].child in allowed {
        pool := pool + [all[i]];
      }
    }
    if pool == [] {
      forall parent, a | IsOk(nodes, parent) && 0 <= a < |space|
        && FromParent(nodes, parent, space[a], Changed(parent, space[a]))
        ensures Changed(parent, space[a]) in nodes || Changed(parent, space[a]) !in allowed
      {
        assert Covered(nodes, all, parent, space[a]);
      }
      return None;
    }
    var stop: bool := *;
    if planner && stop {
      return None;
    }
    var index: int :| 0 <= index < |pool|;
    chosen := Some(pool[index]);
    assert chosen.value in all;
  }

  function Cost(recorded: Nodes, tests: seq<Config>): real {
    if tests == [] then 0.0
    else
      var k := tests[|tests| - 1];
      Cost(recorded, tests[..|tests| - 1]) + if k in recorded then recorded[k].seconds else 0.0
  }

  /** A point of the curve: what was spent, and the best ratio known then. */
  datatype Point = Point(spent: real, ratio: real)

  datatype Outcome = Outcome(tests: nat, spent: real, best: real, near: Option<real>, utility: real)

  /** The nodes open after the first `n` tests. */
  ghost function OpenedUpTo(recorded: Nodes, root: Config, tests: seq<Config>, n: nat): Nodes
    requires n <= |tests|
  {
    map k | k in recorded && (k == root || k in tests[..n]) :: recorded[k]
  }

  /** Within one per cent of `best`. */
  predicate Near(point: Point, best: real) {
    point.ratio <= best * 1.01
  }

  /** `near` is the cost of the curve's first point within one per cent of `best`, or nothing if there is none. */
  ghost predicate FirstNear(curve: seq<Point>, best: real, near: Option<real>) {
    match near
    case None => forall i :: 0 <= i < |curve| ==> !Near(curve[i], best)
    case Some(spent) => exists i :: 0 <= i < |curve| && Near(curve[i], best) && curve[i].spent == spent
                                    && forall j :: 0 <= j < i ==> !Near(curve[j], best)
  }

  /** A point of the curve tells what the first `n` tests cost, and the best ratio among what they opened. */
  ghost predicate Honest(recorded: Nodes, root: Config, tests: seq<Config>, n: nat, point: Point)
    requires n <= |tests|
  {
    && point.spent == Cost(recorded, tests[..n])
    && IsBest(OpenedUpTo(recorded, root, tests, n), point.ratio)
  }

  lemma HonestStill(recorded: Nodes, root: Config, tests: seq<Config>, key: Config, n: nat, point: Point)
    requires n <= |tests| && Honest(recorded, root, tests, n, point)
    ensures Honest(recorded, root, tests + [key], n, point)
  {
    assert (tests + [key])[..n] == tests[..n];
  }

  lemma BestIsHonest(recorded: Nodes, root: Config, tests: seq<Config>, point: Point)
    requires point.spent == Cost(recorded, tests) && IsBest(OpenedUpTo(recorded, root, tests, |tests|), point.ratio)
    ensures Honest(recorded, root, tests, |tests|, point)
  {
    assert tests[..|tests|] == tests;
  }

  lemma OneMoreTest(recorded: Nodes, root: Config, tests: seq<Config>, key: Config)
    requires key in recorded
    ensures Cost(recorded, tests + [key]) == Cost(recorded, tests) + recorded[key].seconds
    ensures OpenedUpTo(recorded, root, tests + [key], |tests| + 1)
         == OpenedUpTo(recorded, root, tests, |tests|)[key := recorded[key]]
    ensures key in OpenedUpTo(recorded, root, tests, |tests|) <==> key == root || key in tests
    ensures root in recorded ==> root in OpenedUpTo(recorded, root, tests, |tests|)
    ensures forall k :: k in OpenedUpTo(recorded, root, tests + [key], |tests| + 1) ==>
              k in recorded && OpenedUpTo(recorded, root, tests + [key], |tests| + 1)[k] == recorded[k]
  {
    var more := tests + [key];
    assert more[..|tests|] == tests && more[..|tests| + 1] == more && tests[..|tests|] == tests;
  }

  /** A replay of a recorded tree: it may only open what was recorded. */
  class Replay {
    const recorded: Nodes
    const root: Config
    const space: seq<Arm>
    var nodes: Nodes
    var tests: seq<Config>
    var spent: real
    var curve: seq<Point>

    constructor (recorded: Nodes, root: Config, space: seq<Arm>)
      requires IsOk(recorded, root) && Complete(recorded, space)
      ensures Valid() && tests == [] && this.recorded == recorded && this.root == root && this.space == space
    {
      this.recorded, this.root, this.space := recorded, root, space;
      nodes, tests, spent, curve := map[root := recorded[root]], [], 0.0, [Point(0.0, 1.0)];
    }

    /** Only recorded nodes are open, each opened once; the curve tells what was spent and the best that was known. */
    ghost predicate Valid()
      reads this
    {
      && IsOk(recorded, root) && Complete(recorded, space)
      && nodes == OpenedUpTo(recorded, root, tests, |tests|)
      && (forall i :: 0 <= i < |tests| ==> tests[i] in recorded && tests[i] != root)
      && (forall i, j :: 0 <= i < j < |tests| ==> tests[i] != tests[j])
      && spent == Cost(recorded, tests)
      && |curve| == |tests| + 1 && curve[0] == Point(0.0, 1.0)
      && forall i :: 0 < i < |curve| ==> Honest(recorded, root, tests, i, curve[i])
    }

    /** `reveal`: one recorded outcome becomes known, at its recorded cost. */
    method Reveal(key: Config)
      requires Valid() && key in recorded && key !in nodes
      modifies this
      ensures Valid() && tests == old(tests) + [key] && nodes == old(nodes)[key := recorded[key]]
      ensures spent == old(spent) + recorded[key].seconds
    {
      hide Honest;
      hide OpenedUpTo;
      hide Cost;
      ghost var before, points := tests, curve;
      OneMoreTest(recorded, root, before, key);
      nodes := nodes[key := recorded[key]];
      spent := spent + recorded[key].seconds;
      tests := tests + [key];
      assert IsOk(nodes, root);
      var best := BestKey(nodes);
      BestIsHonest(recorded, root, tests, Point(spent, recorded[best].ratio));
      curve := curve + [Point(spent, recorded[best].ratio)];
      forall i | 0 < i < |curve|
        ensures Honest(recorded, root, tests, i, curve[i])
      {
        if i < |points| {
          HonestStill(recorded, root, before, key, i, points[i]);
        }
      }
    }

    /** The best known ratio never rises: not from one test to the next, and not from the root's to the first. */
    lemma CurveFalls(i: nat, j: nat)
      requires Valid() && 0 < i <= j < |curve|
      ensures curve[j].ratio <= curve[i].ratio <= recorded[root].ratio
      ensures recorded[root].ratio <= 1.0 ==> curve[i].ratio <= curve[0].ratio
    {
      assert Honest(recorded, root, tests, i, curve[i]) && Honest(recorded, root, tests, j, curve[j]);
      BestFalls(OpenedUpTo(recorded, root, tests, i), OpenedUpTo(recorded, root, tests, j), curve[i].ratio,
        curve[j].ratio);
      assert IsOk(OpenedUpTo(recorded, root, tests, i), root);
    }

    /** The planner's or a random exploration: until the budget is spent or nothing is picked. Every test opens a node,
        so it ends. */
    method Explore(planner: bool, budget: real) returns (stopped: bool)
      requires Valid()
      modifies this
      ensures Valid() && (stopped || spent >= budget)
      ensures stopped && !planner ==>
        forall parent, a ::
          IsOk(nodes, parent) && 0 <= a < |space| && FromParent(nodes, parent, space[a], Changed(parent, space[a])) ==>
          Changed(parent, space[a]) in nodes || Changed(parent, space[a]) !in recorded
    {
      stopped := false;
      while spent < budget
        invariant Valid() && !stopped
        decreases |recorded.Keys - nodes.Keys|
      {
        var chosen := Pick(nodes, space, recorded.Keys, planner);
        if chosen.None? {
          return true;
        }
        ghost var left := recorded.Keys - nodes.Keys;
        Reveal(chosen.value.child);
        assert recorded.Keys - nodes.Keys == left - {chosen.value.child};
      }
    }

    /** One step of the fixed order: a configuration that is new and recorded is opened, and kept exactly if it is valid
        and pays for itself. */
    ghost predicate OneStep(arm: Arm, best: Config, tried: seq<Config>, best': Config, tried': seq<Config>)
      requires best in recorded
    {
      var child := best[arm.knob := arm.value];
      if child == best || child !in recorded || child == root || child in tried then best' == best && tried' == tried
      else
        && tried' == tried + [child]
        && var better := recorded[child].ok && recorded[child].ratio < recorded[best].ratio * KEEP_IF_RATIO_BELOW;
           best' == if better then child else best
    }

    /** The fixed order: one knob after the other, keeping a value only where it pays for itself. `bests` and `tried`
        are where each step began. */
    method Coordinate(search: seq<Arm>) returns (best: Config, ghost bests: seq<Config>, ghost tried: seq<seq<Config>>)
      requires Valid()
      modifies this
      ensures Valid() && IsOk(nodes, best)
      ensures |bests| == |tried| == |search| + 1 && forall i :: 0 <= i < |bests| ==> bests[i] in recorded
      ensures bests[0] == root && tried[0] == old(tests) && bests[|search|] == best && tried[|search|] == tests
      ensures forall i :: 0 <= i < |search| ==> OneStep(search[i], bests[i], tried[i], bests[i + 1], tried[i + 1])
      ensures (forall k :: k in recorded ==> recorded[k].ratio > 0.0) ==> recorded[best].ratio <= recorded[root].ratio
    {
      hide Replay.Valid;
      hide Replay.OneStep;
      RootIsOk();
      best := root;
      bests, tried := [root], [tests];
      for i := 0 to |search|
        invariant Valid() && IsOk(nodes, best) && best in recorded
        invariant |bests| == |tried| == i + 1 && forall j :: 0 <= j <= i ==> bests[j] in recorded
        invariant bests[0] == root && tried[0] == old(tests) && bests[i] == best && tried[i] == tests
        invariant forall j :: 0 <= j < i ==> OneStep(search[j], bests[j], tried[j], bests[j + 1], tried[j + 1])
        invariant (forall k :: k in recorded ==> recorded[k].ratio > 0.0) ==>
                  recorded[best].ratio <= recorded[root].ratio
      {
        best := TryArm(search[i], best);
        bests, tried := bests + [best], tried + [tests];
      }
    }

    lemma RootIsOk()
      requires Valid()
      ensures IsOk(nodes, root) && root in recorded
    {
    }

    method TryArm(arm: Arm, best: Config) returns (next: Config)
      requires Valid() && IsOk(nodes, best) && best in recorded
      modifies this
      ensures Valid() && IsOk(nodes, next) && next in recorded && OneStep(arm, best, old(tests), next, tests)
      ensures recorded[best].ratio > 0.0 ==> recorded[next].ratio <= recorded[best].ratio
    {
      next := best;
      var child := Changed(best, arm);
      assert child == best[arm.knob := arm.value];
      OpenedAre(child);
      if child != best && child in recorded && child !in nodes {
        Reveal(child);
        if recorded[child].ok && recorded[child].ratio < recorded[best].ratio * KEEP_IF_RATIO_BELOW {
          next := child;
        }
      }
    }

    lemma OpenedAre(k: Config)
      requires Valid()
      ensures k in recorded ==> (k in nodes <==> k == root || k in tests)
    {
      assert tests[..|tests|] == tests;
    }

    /** What the replay reports. It never claims a better ratio than the tree holds where the root's recorded ratio is
        at most 1.0, which the recorder makes it. For any tree it does not exactly when the tree's best is at most
        1.0. */
    method Report() returns (r: Outcome)
      requires Valid()
      ensures r.tests == |tests| && r.spent == Cost(recorded, tests)
      ensures forall t :: IsBest(recorded, t) ==> (r.best >= t <==> t <= 1.0)
      ensures recorded[root].ratio <= 1.0 ==> forall t :: IsBest(recorded, t) ==> r.best >= t
      ensures forall b :: IsBest(nodes, b) ==> r.best == if b < KEEP_IF_RATIO_BELOW then b else 1.0
      ensures forall t :: IsBest(recorded, t) ==> FirstNear(curve, t, r.near)
      ensures r.utility == 100.0 * (1.0 - r.best) - r.spent / 60.0
    {
      assert IsOk(nodes, root);
      var best := BestKey(nodes);
      var found := if nodes[best].ratio < KEEP_IF_RATIO_BELOW then nodes[best].ratio else 1.0;
      var treeBest := BestKey(recorded);
      var near := FindNear(recorded[treeBest].ratio);
      BestIsOne(recorded, recorded[treeBest].ratio);
      r := Outcome(|tests|, spent, found, near, 100.0 * (1.0 - found) - spent / 60.0);
    }

    lemma BestIsOne(nodes: Nodes, best: real)
      requires IsBest(nodes, best)
      ensures forall t :: IsBest(nodes, t) ==> t == best
    {
    }

    method FindNear(best: real) returns (near: Option<real>)
      ensures FirstNear(curve, best, near)
    {
      near := None;
      for i := 0 to |curve|
        invariant near == None && forall j :: 0 <= j < i ==> !Near(curve[j], best)
      {
        if Near(curve[i], best) {
          return Some(curve[i].spent);
        }
      }
    }
  }
}
