/** The online controller: one run is one group of requests, which a profile (an action) executes. A run may instead
    compare three arms or check an alternative against the reference, and every ticket that the native core issued for
    it has to come back to the core's queue exactly once.

    Whatever the controller asks of the outside it asks of an `Environment`, whose answers are fixed in its world; the
    contracts below speak of those answers. The learning worker is interleaved anywhere. Times, costs and the audit
    record are not modelled; what depends on them is arbitrary. */
module Controller {
  import opened Comparisons

  /** The native core's decision; ticket 0 wants no completion. */
  datatype Decision = Decision(ticket: nat, action: nat, explores: bool)

  datatype Completion = Completion(ticket: nat, action: nat, status: nat, correct: bool, resourceOk: bool)

  datatype Choice = Single(decision: Decision) | Pair(a: Decision, aa: Decision, b: Decision, order: nat)

  const REFERENCE := Single(Decision(0, 0, false))

  /** What an offer of the native core is for a run, when the next new ticket is `next`. A frozen core issues none. */
  function Chosen(offer: Offer, frozen: bool, next: nat): Choice {
    match offer
    case Refused => REFERENCE
    case Decide(action, explores, ticketed) =>
      Single(Decision(if ticketed && !frozen then next else 0, action, explores))
    case Compare(a, aa, b, order) =>
      if frozen then REFERENCE
      else Pair(Decision(next, a, false), Decision(next + 1, aa, false), Decision(next + 2, b, false), order)
  }

  /** How many tickets a choice carries. */
  function Count(choice: Choice): nat {
    match choice
    case Single(d) => if d.ticket == 0 then 0 else 1
    case Pair(_, _, _, _) => 3
  }

  function Decisions(choice: Choice): (decisions: seq<Decision>) {
    match choice
    case Single(d) => [d]
    case Pair(a, aa, b, _) => [a, aa, b]
  }

  /** The tickets that completions carry; 0 is none. */
  function Tickets(completions: seq<Completion>): (tickets: multiset<nat>) {
    if completions == [] then multiset{}
    else Tickets(completions[..|completions| - 1]) + TicketOf(completions[|completions| - 1])
  }

  function TicketOf(c: Completion): multiset<nat> {
    if c.ticket == 0 then multiset{} else multiset{c.ticket}
  }

  function Flat(queue: seq<seq<Completion>>): seq<Completion> {
    if queue == [] then [] else queue[0] + Flat(queue[1..])
  }

  /** The completions that carry a ticket. */
  function Ticketed(completions: seq<Completion>): (r: seq<Completion>) {
    if completions == [] then []
    else
      var n := |completions| - 1;
      Ticketed(completions[..n]) + if completions[n].ticket == 0 then [] else [completions[n]]
  }

  lemma {:induction false} TicketsConcat(a: seq<Completion>, b: seq<Completion>)
    ensures Tickets(a + b) == Tickets(a) + Tickets(b)
    decreases |b|
  {
    if b == [] {
      assert a + b == a;
    } else {
      assert (a + b)[..|a + b| - 1] == a + b[..|b| - 1];
      TicketsConcat(a, b[..|b| - 1]);
    }
  }

  lemma {:induction false} FlatConcat(a: seq<seq<Completion>>, b: seq<Completion>)
    ensures Flat(a + [b]) == Flat(a) + b
  {
    if a == [] {
      assert a + [b] == [b];
      assert Flat([b]) == b + Flat([]);
    } else {
      assert (a + [b])[1..] == a[1..] + [b];
      FlatConcat(a[1..], b);
    }
  }

  lemma {:induction false} TicketedTickets(completions: seq<Completion>)
    ensures Tickets(Ticketed(completions)) == Tickets(completions)
    ensures forall i :: 0 <= i < |Ticketed(completions)| ==> Ticketed(completions)[i].ticket != 0
  {
    if completions != [] {
      var n := |completions| - 1;
      TicketedTickets(completions[..n]);
      TicketsConcat(Ticketed(completions[..n]), if completions[n].ticket == 0 then [] else [completions[n]]);
      TicketsOne(completions[n]);
      NoTickets();
    }
  }

  lemma {:induction false} TicketedMembers(completions: seq<Completion>)
    ensures forall c :: c in Ticketed(completions) ==> c in completions && c.ticket != 0
  {
    if completions != [] {
      TicketedMembers(completions[..|completions| - 1]);
    }
  }

  lemma TicketsOne(c: Completion)
    ensures Tickets([c]) == TicketOf(c)
  {
    assert [c][..0] == [];
  }

  lemma NoTickets()
    ensures Tickets([]) == multiset{}
  {
  }

  function LoseAll(lost: map<nat, Completion>, items: seq<Completion>): map<nat, Completion> {
    if items == [] then lost
    else
      var n := |items| - 1;
      LoseAll(lost, items[..n])[items[n].ticket := Lost(items[n])]
  }

  lemma TicketedOne(c: Completion)
    ensures Ticketed([c]) == if c.ticket == 0 then [] else [c]
  {
    assert [c][..0] == [] && Ticketed([]) == [];
  }

  lemma TicketedThree(a: Completion, b: Completion, c: Completion)
    requires a.ticket != 0 && b.ticket != 0 && c.ticket != 0
    ensures Ticketed([a, b, c]) == [a, b, c]
  {
    TicketedOne(a);
    assert [a, b, c][..2] == [a, b] && [a, b][..1] == [a];
    assert Ticketed([a, b]) == [a, b];
  }

  ghost predicate LostSound(lost: map<nat, Completion>) {
    forall t :: t in lost ==> t != 0 && lost[t].ticket == t && lost[t].status == 4 && !lost[t].correct
  }

  lemma AddKey(keys: set<nat>, t: nat)
    requires t !in keys
    ensures multiset(keys + {t}) == multiset(keys) + multiset{t}
  {
  }

  lemma {:induction false} LoseAllBooks(lost: map<nat, Completion>, items: seq<Completion>)
    requires LostSound(lost)
    requires forall i :: 0 <= i < |items| ==> items[i].ticket != 0
    requires forall t :: t in Tickets(items) ==> t !in lost && Tickets(items)[t] == 1
    ensures multiset(LoseAll(lost, items).Keys) == multiset(lost.Keys) + Tickets(items)
    ensures LostSound(LoseAll(lost, items))
  {
    if items != [] {
      var n := |items| - 1;
      var ticket, rest := items[n].ticket, Tickets(items[..n]);
      assert Tickets(items) == rest + multiset{ticket};
      assert ticket in Tickets(items) && rest[ticket] == 0;
      assert forall t :: t in rest ==> t in Tickets(items);
      LoseAllBooks(lost, items[..n]);
      assert ticket !in multiset(LoseAll(lost, items[..n]).Keys);
      AddKey(LoseAll(lost, items[..n]).Keys, ticket);
      assert LoseAll(lost, items).Keys == LoseAll(lost, items[..n]).Keys + {ticket};
    }
  }

  function Abandon(d: Decision): Completion {
    Completion(d.ticket, d.action, 4, false, false)
  }

  function AbandonAll(ds: seq<Decision>): (completions: seq<Completion>)
    ensures |completions| == |ds|
  {
    seq(|ds|, i requires 0 <= i < |ds| => Abandon(ds[i]))
  }

  /** The core's number of an execution's status. */
  function Code(status: Status): nat {
    match status
    case Ok => 0
    case Error => 1
    case Timeout => 2
    case Cancelled => 3
    case Interrupted => 4
  }

  /** What the core is told of a decision that returned `o`: its status, but 4 for a run that mixed profiles, was not
      valid or was found to disagree. */
  function LabelOf(d: Decision, o: Outcome, checked: bool, matched: bool): (told: Completion)
    ensures told.ticket == d.ticket && told.action == d.action
    ensures told.status == 0 <==> o.status == Ok && o.valid && o.fallbacks == 0 && (checked ==> matched)
    ensures told.status != 0 && told.status != 4 ==> told.status == Code(o.status)
  {
    Completion(d.ticket, d.action, if o.fallbacks > 0 || (checked && !matched) || !o.valid then 4 else Code(o.status),
               !checked || matched, o.within)
  }

  /** What it is told of a decision that raised, and so delivered nothing. */
  function Errored(d: Decision): Completion {
    Completion(d.ticket, d.action, 1, true, true)
  }

  /** The tickets issued for a run. */
  function Issued(ds: seq<Decision>): multiset<nat> {
    Tickets(AbandonAll(ds))
  }

  /** Whatever the labels say, completions of the decisions carry the decisions' tickets. */
  lemma {:induction false} SameTickets(a: seq<Completion>, b: seq<Completion>)
    requires |a| == |b| && forall i :: 0 <= i < |a| ==> a[i].ticket == b[i].ticket
    ensures Tickets(a) == Tickets(b)
  {
    if a != [] {
      SameTickets(a[..|a| - 1], b[..|b| - 1]);
    }
  }

  function Lost(c: Completion): Completion {
    Completion(c.ticket, c.action, 4, false, false)
  }

  /** A fault told to the native core: kind 1 withdraws a profile that failed, kind 2 quarantines one after a
      mismatch. */
  datatype Fault = Fault(kind: nat, action: nat)

  /** Faults that quarantine an action after a mismatch. */
  function Quarantines(faults: set<Fault>): set<Fault> {
    set f | f in faults && f.kind == 2
  }

  ghost predicate AllQuarantined(faults: set<Fault>, actions: nat) {
    forall a :: 0 < a < actions ==> Fault(2, a) in faults
  }

  /** How far a comparison got with what it delivers. */
  datatype Repaired = Raised | Stopped(killed: bool) | Ready(reference: Option<Outcome>)

  /** The decisions carry exactly the tickets from `next` to `bound`, each once. */
  ghost predicate NewTickets(ds: seq<Decision>, next: nat, bound: nat) {
    forall t: nat :: Issued(ds)[t] == if next <= t < bound then 1 else 0
  }

  lemma ChosenIsNew(choice: Choice, next: nat, offer: Offer, frozen: bool)
    requires next > 0 && (choice == REFERENCE || choice == Chosen(offer, frozen, next))
    ensures NewTickets(Decisions(choice), next, next + Count(choice))
  {
    match choice
    case Single(d) =>
      assert AbandonAll([d]) == [Abandon(d)];
      TicketsOne(Abandon(d));
    case Pair(a, aa, b, _) => ThreeNew(a, aa, b, next);
  }

  lemma ThreeNew(a: Decision, b: Decision, c: Decision, next: nat)
    requires 0 < next == a.ticket && b.ticket == next + 1 && c.ticket == next + 2
    ensures NewTickets([a, b, c], next, next + 3)
  {
    assert AbandonAll([a, b, c]) == [Abandon(a), Abandon(b)] + [Abandon(c)];
    TicketsConcat([Abandon(a), Abandon(b)], [Abandon(c)]);
    assert [Abandon(a), Abandon(b)] == [Abandon(a)] + [Abandon(b)];
    TicketsConcat([Abandon(a)], [Abandon(b)]);
    TicketsOne(Abandon(a));
    TicketsOne(Abandon(b));
    TicketsOne(Abandon(c));
    ThreeDistinct(next);
    hide Tickets;
  }

  lemma ThreeDistinct(n: nat)
    ensures var all := multiset{n} + multiset{n + 1} + multiset{n + 2};
      forall t: nat :: all[t] == if n <= t < n + 3 then 1 else 0
  {
  }

  function Range(next: nat, bound: nat): (tickets: set<nat>)
    ensures forall t :: t in tickets <==> next <= t < bound
    decreases bound
  {
    if next >= bound then {} else Range(next, bound - 1) + {bound - 1}
  }

  /** The caller's executor, the native core and the disk. Each call takes the next answer of the world. */
  class Environment {
    const world: World
    var offered: nat
    var executed: nat
    var asked: nat
    var saved: nat
    var workerSaved: nat
    var nextTicket: nat

    constructor (world: World)
      ensures this.world == world && offered == executed == asked == saved == workerSaved == 0 && nextTicket == 1
    {
      this.world := world;
      offered, executed, asked, saved, workerSaved, nextTicket := 0, 0, 0, 0, 0, 1;
    }

    /** How often a status query or a save of the runs has raised. */
    ghost function Failures(): nat
      reads this`asked, this`saved
    {
      StatusRaises(world, asked) + SaveRaises(world, saved)
    }

    method Execute(action: nat) returns (r: Ran<Outcome>)
      modifies this`executed
      ensures executed == old(executed) + 1 && r == RunAt(world, old(executed), action)
    {
      r := RunAt(world, executed, action);
      executed := executed + 1;
    }

    /** `_status_unlocked`. */
    method Status() returns (answer: Answer)
      modifies this`asked
      ensures asked == old(asked) + 1 && answer == world.statuses(old(asked))
      ensures Failures() == old(Failures()) + if answer.Raises? then 1 else 0
    {
      answer := world.statuses(asked);
      asked := asked + 1;
    }

    method Save() returns (raised: bool)
      modifies this`saved
      ensures saved == old(saved) + 1 && raised == world.saves(old(saved))
      ensures Failures() == old(Failures()) + if raised then 1 else 0
    {
      raised := world.saves(saved);
      saved := saved + 1;
    }

    method WorkerSave() returns (raised: bool)
      modifies this`workerSaved
      ensures workerSaved == old(workerSaved) + 1 && raised == world.workerSaves(old(workerSaved))
    {
      raised := world.workerSaves(workerSaved);
      workerSaved := workerSaved + 1;
    }

    /** The native core is asked to decide, and issues the tickets of what it offers. */
    method Offer(frozen: bool) returns (choice: Choice)
      modifies this`offered, this`nextTicket
      ensures offered == old(offered) + 1
      ensures choice == Chosen(world.offers(old(offered)), frozen, old(nextTicket))
      ensures nextTicket == old(nextTicket) + Count(choice)
    {
      choice := Chosen(world.offers(offered), frozen, nextTicket);
      offered, nextTicket := offered + 1, nextTicket + Count(choice);
    }
  }

  class OnlineController {
    const env: Environment
    const capacity: nat
    const actionCount: nat
    const frozen: bool
    const verifyExploration: bool
    const persistent: bool
    /** Whether arms repeat until they are long enough, for which their cost so far is asked of the core. */
    const repeats: bool
    var queue: seq<seq<Completion>>
    var lost: map<nat, Completion>
    var applied: seq<Completion>
    var faults: set<Fault>
    var closed: bool
    var latchedKill: bool
    var requests: nat
    var completed: nat
    var failed: nat
    var pending: nat
    var dropped: nat
    /** Every completion that was ever handed over, in order. */
    ghost var handed: seq<Completion>
    /** The tickets that were issued and will never be settled. */
    ghost var leaked: set<nat>

    constructor (env: Environment, capacity: nat, actionCount: nat, frozen: bool, verifyExploration: bool,
                 persistent: bool, repeats: bool)
      requires capacity > 0 && actionCount > 0 && env.nextTicket == 1
      ensures Sound() && requests == completed == failed == pending == 0 && !closed && !latchedKill
      ensures leaked == {} && faults == {} && handed == []
      ensures this.env == env && this.frozen == frozen && this.persistent == persistent && this.repeats == repeats
      ensures this.actionCount == actionCount && this.verifyExploration == verifyExploration
    {
      this.env, this.capacity, this.actionCount, this.frozen := env, capacity, actionCount, frozen;
      this.verifyExploration, this.persistent, this.repeats := verifyExploration, persistent, repeats;
      queue, lost, applied, faults := [], map[], [], {};
      closed, latchedKill := false, false;
      requests, completed, failed, pending, dropped, handed, leaked := 0, 0, 0, 0, 0, [], {};
    }

    /** Every ticket whose completion is somewhere: in the queue, in the lost map, or applied by the core. */
    ghost function Booked(): multiset<nat>
      reads this`queue, this`lost, this`applied
    {
      Tickets(Flat(queue)) + multiset(lost.Keys) + Tickets(applied)
    }

    /** Every ticket ever issued is booked exactly once, or leaked; nothing else is booked. */
    ghost predicate Sound()
      reads this`queue, this`lost, this`applied, this`leaked, env`nextTicket
    {
      && env.nextTicket > 0 && LostSound(lost) && (forall t :: t in leaked ==> t < env.nextTicket)
      && forall t: nat :: Booked()[t] == if 0 < t < env.nextTicket && t !in leaked then 1 else 0
    }

    /** A checkpoint path is needed to save at all, and a frozen controller does not. */
    predicate Saves() {
      persistent && !frozen
    }

    ghost predicate WorkerReliable() {
      forall i :: !env.world.workerSaves(i)
    }

    /** `_enqueue`: the completions go to the learning worker, or, when its queue is full, to the lost map as
        abandoned. */
    method Enqueue(completions: seq<Completion>)
      requires Unbooked(completions) && LostSound(lost)
      modifies this`queue, this`lost, this`dropped, this`handed
      ensures Booked() == old(Booked()) + Tickets(completions) && LostSound(lost)
      ensures handed == old(handed) + Ticketed(completions)
      ensures |old(queue)| < capacity ==> lost == old(lost) && dropped == old(dropped)
      ensures |old(queue)| < capacity && Ticketed(completions) != [] ==> queue == old(queue) + [Ticketed(completions)]
      ensures |old(queue)| >= capacity || Ticketed(completions) == [] ==> queue == old(queue)
      ensures |old(queue)| >= capacity ==>
                lost == LoseAll(old(lost), Ticketed(completions)) && dropped == old(dropped) + |Ticketed(completions)|
    {
      hide Tickets;
      hide Ticketed;
      var items := Ticketed(completions);
      handed := handed + items;
      TicketedTickets(completions);
      NoTickets();
      if items == [] {
        return;
      }
      if |queue| < capacity {
        FlatConcat(queue, items);
        TicketsConcat(Flat(queue), items);
        queue := queue + [items];
        return;
      }
      Lose(items);
    }

    method Lose(items: seq<Completion>)
      requires Unbooked(items) && LostSound(lost) && forall i :: 0 <= i < |items| ==> items[i].ticket != 0
      modifies this`lost, this`dropped
      ensures Booked() == old(Booked()) + Tickets(items) && LostSound(lost)
      ensures lost == LoseAll(old(lost), items) && dropped == old(dropped) + |items|
    {
      hide Tickets;
      dropped := dropped + |items|;
      ghost var before := lost;
      forall t | t in Tickets(items)
        ensures t !in before
      {
        assert t in before ==> t in Booked();
      }
      LoseAllBooks(before, items);
      assert items[..0] == [];
      for i := 0 to |items|
        invariant lost == LoseAll(before, items[..i]) && dropped == old(dropped) + |items|
      {
        assert items[..i + 1][..i] == items[..i];
        lost := lost[items[i].ticket := Lost(items[i])];
      }
      assert items[..|items|] == items;
      assert lost == LoseAll(before, items);
    }

    /** None of the tickets is booked yet, and none is there twice. */
    ghost predicate Unbooked(completions: seq<Completion>)
      reads this`queue, this`lost, this`applied
    {
      forall t :: t in Tickets(completions) ==> t !in Booked() && Tickets(completions)[t] == 1
    }

    /** One turn of `_learn`: what was lost and the oldest batch go to the native core, each once. Checkpointing after
        it may fail, which latches the kill switch and loses nothing. */
    method LearnStep() returns (batch: seq<Completion>)
      requires LostSound(lost)
      modifies this`queue, this`lost, this`applied, this`latchedKill, env`workerSaved
      ensures Booked() == old(Booked()) && lost == map[]
      ensures queue == if old(queue) == [] then [] else old(queue)[1..]
      ensures WorkerReliable() ==> latchedKill == old(latchedKill)
      ensures applied == old(applied) + batch + if old(queue) == [] then [] else old(queue)[0]
      ensures forall i :: 0 <= i < |batch| ==> batch[i].ticket in old(lost) && old(lost)[batch[i].ticket] == batch[i]
    {
      hide Tickets;
      var items := [];
      NoTickets();
      if queue != [] {
        items := queue[0];
        TicketsConcat(items, Flat(queue[1..]));
        queue := queue[1..];
      }
      batch := Drain(lost);
      lost := map[];
      TicketsConcat(applied, batch);
      TicketsConcat(applied + batch, items);
      applied := applied + batch + items;
      Checkpoint();
    }

    method Checkpoint()
      modifies this`latchedKill, env`workerSaved
      ensures WorkerReliable() ==> latchedKill == old(latchedKill)
    {
      if Saves() {
        var raised := env.WorkerSave();
        if raised {
          latchedKill := true;
        }
      }
    }

    /** The lost completions, in any order. */
    method Drain(lost: map<nat, Completion>) returns (batch: seq<Completion>)
      requires LostSound(lost)
      ensures Tickets(batch) == multiset(lost.Keys)
      ensures forall i :: 0 <= i < |batch| ==> batch[i].ticket in lost && lost[batch[i].ticket] == batch[i]
    {
      hide Tickets;
      NoTickets();
      batch := [];
      var rest := lost;
      while rest.Keys != {}
        invariant forall t :: t in rest ==> t in lost && rest[t] == lost[t]
        invariant Tickets(batch) + multiset(rest.Keys) == multiset(lost.Keys)
        invariant forall i :: 0 <= i < |batch| ==> batch[i].ticket in lost && lost[batch[i].ticket] == batch[i]
        decreases |rest.Keys|
      {
        var t :| t in rest.Keys;
        TicketsConcat(batch, [rest[t]]);
        TicketsOne(rest[t]);
        batch := batch + [rest[t]];
        assert rest.Keys == (rest - {t}).Keys + {t};
        AddKey((rest - {t}).Keys, t);
        assert |rest.Keys| == |(rest - {t}).Keys| + 1;
        rest := rest - {t};
      }
    }

    /** `save`. */
    method Save() returns (raised: bool)
      modifies env`saved
      ensures raised <==> Saves() && env.world.saves(old(env.saved))
      ensures env.Failures() == old(env.Failures()) + if raised then 1 else 0
    {
      raised := false;
      if Saves() {
        raised := env.Save();
      }
    }

    /** Any number of turns of the learning worker. */
    method Worker()
      requires LostSound(lost)
      modifies this`queue, this`lost, this`applied, this`latchedKill, env`workerSaved
      ensures Booked() == old(Booked()) && LostSound(lost)
      ensures WorkerReliable() ==> latchedKill == old(latchedKill)
    {
      var turns: int :| turns >= 0;
      for i := 0 to turns
        invariant Booked() == old(Booked()) && LostSound(lost)
        invariant WorkerReliable() ==> latchedKill == old(latchedKill)
      {
        var batch := LearnStep();
      }
    }

    /** The completion of one of these decisions, which has a ticket. */
    ghost predicate OneOf(c: Completion, ds: seq<Decision>, completions: seq<Completion>)
      requires |completions| == |ds|
    {
      exists j :: 0 <= j < |ds| && c == completions[j] && ds[j].ticket != 0
    }

    /** Completions of a run's decisions are handed over while the worker runs. */
    method Settle(ds: seq<Decision>, completions: seq<Completion>)
      requires |completions| == |ds| && forall i :: 0 <= i < |ds| ==> completions[i].ticket == ds[i].ticket
      requires Unbooked(AbandonAll(ds)) && LostSound(lost)
      modifies this`queue, this`lost, this`applied, this`dropped, this`handed, this`latchedKill, env`workerSaved
      ensures Accounts(old(Booked()), ds, false) && (WorkerReliable() ==> latchedKill == old(latchedKill))
      ensures handed == old(handed) + Ticketed(completions)
      ensures forall i :: |old(handed)| <= i < |handed| ==> OneOf(handed[i], ds, completions)
    {
      hide OnlineController.Booked;
      hide Ticketed;
      hide Tickets;
      TicketedMembers(completions);
      SameTickets(completions, AbandonAll(ds));
      Worker();
      Enqueue(completions);
      Worker();
      forall i | |old(handed)| <= i < |handed|
        ensures OneOf(handed[i], ds, completions)
      {
        assert handed[i] == Ticketed(completions)[i - |old(handed)|];
        assert handed[i] in Ticketed(completions);
        var j :| 0 <= j < |completions| && completions[j] == handed[i];
      }
    }

    /** `_execute_repeated`: an arm is a block of executions. It finishes only if all of them return, and its signature
        tells whether they agreed. */
    method ExecuteRepeated(action: nat, n: nat) returns (r: Ran<Outcome>)
      requires n > 0
      modifies env`executed
      ensures env.executed == old(env.executed) + ArmLength(env.world, old(env.executed), n)
      ensures r.Returned? <==> ArmDone(env.world, old(env.executed), n)
      ensures r.Returned? ==> IsArm(env.world, old(env.executed), n, action, r.value)
      ensures r.Killed? ==> env.world.outcomes(env.executed - 1).Killed?
      ensures r.Failed? ==> env.world.outcomes(env.executed - 1).Failed?
    {
      ghost var w, at := env.world, env.executed;
      var runs: seq<Outcome> := [];
      for i := 0 to n
        invariant env.executed == at + i && |runs| == i
        invariant forall j :: 0 <= j < i ==> At(w, at, j).Returned? && RunAt(w, at + j, action) == Returned(runs[j])
      {
        r := env.Execute(action);
        assert At(w, at, i) == w.outcomes(at + i);
        if !r.Returned? {
          ArmStops(w, at, n, i);
          return;
        }
        runs := runs + [r.value];
      }
      ArmStops(w, at, n, n);
      var combined := Combine(at, action, runs);
      r := Returned(combined);
    }

    /** The repetitions of an arm as one outcome. */
    method Combine(ghost at: nat, action: nat, runs: seq<Outcome>) returns (o: Outcome)
      requires runs != [] && ArmDone(env.world, at, |runs|)
      requires forall j :: 0 <= j < |runs| ==> RunAt(env.world, at + j, action) == Returned(runs[j])
      ensures IsArm(env.world, at, |runs|, action, o)
    {
      ghost var w := env.world;
      var signatures, fallbacks, sameStatus, sameSignature := [], 0, true, true;
      for i := 0 to |runs|
        invariant |signatures| == i && forall j :: 0 <= j < i ==> signatures[j] == runs[j].signature
        invariant ArmDone(w, at, i) && fallbacks == Fallbacks(w, at, i)
        invariant sameStatus <==> forall j :: 0 <= j < i ==> runs[j].status == runs[0].status
        invariant sameSignature <==> forall j :: 0 <= j < i ==> runs[j].signature == runs[0].signature
      {
        assert At(w, at, i) == w.outcomes(at + i);
        signatures := signatures + [runs[i].signature];
        fallbacks := fallbacks + runs[i].fallbacks;
        sameStatus := sameStatus && runs[i].status == runs[0].status;
        sameSignature := sameSignature && runs[i].signature == runs[0].signature;
      }
      forall j | 0 <= j < |runs|
        ensures SignaturesAt(w, at, |runs|)[j] == runs[j].signature && At(w, at, j).value.status == runs[j].status
      {
        assert At(w, at, j) == w.outcomes(at + j);
      }
      assert signatures == SignaturesAt(w, at, |runs|);
      var valid: bool, within: bool := *, *;
      o := runs[0];
      if |runs| > 1 {
        o := Outcome(action, runs[0].answer, if sameStatus then runs[0].status else Error,
                     if sameSignature then runs[0].signature else Inconsistent(signatures), fallbacks, valid, within);
      }
      assert At(w, at, 0).value.answer == runs[0].answer;
    }

    /** `_withdraw_failed_profile`: a profile that the core still has active is withdrawn, and that is saved. */
    method Withdraw(d: Decision) returns (raised: bool)
      modifies this`faults, env`asked, env`saved
      ensures Quarantines(faults) == old(Quarantines(faults)) && old(faults) <= faults
      ensures env.Failures() == old(env.Failures()) + if raised then 1 else 0
      ensures raised <==>
        d.action != 0
        && match env.world.statuses(old(env.asked))
           case Raises => true
           case Answers(active, _) => active && Saves() && env.world.saves(old(env.saved))
    {
      if d.action == 0 {
        return false;
      }
      var answer := env.Status();
      if answer.Raises? {
        return true;
      }
      if !answer.active {
        return false;
      }
      faults := faults + {Fault(1, d.action)};
      raised := Save();
    }

    /** `fault` of a profile that failed. */
    method FaultProfile(action: nat) returns (raised: bool)
      modifies this`faults, env`saved
      ensures Quarantines(faults) == old(Quarantines(faults)) && old(faults) <= faults
      ensures env.Failures() == old(env.Failures()) + if raised then 1 else 0
      ensures raised <==> Saves() && env.world.saves(old(env.saved))
    {
      faults := faults + {Fault(1, action)};
      raised := Save();
    }

    /** `_quarantine_alternatives`: every action but the reference is faulted, and that is saved. */
    method Quarantine() returns (raised: bool)
      modifies this`faults, env`saved
      ensures AllQuarantined(faults, actionCount) && old(faults) <= faults
      ensures env.Failures() == old(env.Failures()) + if raised then 1 else 0
      ensures raised <==> Saves() && env.world.saves(old(env.saved))
    {
      var a := 1;
      while a < actionCount
        invariant old(faults) <= faults && env.saved == old(env.saved)
        invariant forall b :: 0 < b < a ==> Fault(2, b) in faults
      {
        faults := faults + {Fault(2, a)};
        a := a + 1;
      }
      raised := Save();
    }

    /** A run that may be labelled a success. */
    predicate Clean(o: Outcome) {
      o.status == Ok && o.valid && o.fallbacks == 0
    }

    /** `_completion`: what the core learns of a decision. Only a valid, unmixed and, where it was checked, matched run
        is labelled a success. Withdrawing a profile that fell back may raise, and then there is no completion. */
    method CompletionOf(d: Decision, outcome: Option<Outcome>, checked: bool, matched: bool)
      returns (raised: bool, completion: Completion)
      modifies this`faults, env`asked, env`saved
      ensures Quarantines(faults) == old(Quarantines(faults)) && old(faults) <= faults
      ensures env.Failures() == old(env.Failures()) + if raised then 1 else 0
      ensures raised ==> outcome.Some? && outcome.value.fallbacks > 0
      ensures completion.ticket == d.ticket
      ensures !raised && d.ticket != 0 ==>
                completion == if outcome.None? then Errored(d) else LabelOf(d, outcome.value, checked, matched)
    {
      raised := false;
      completion := Completion(d.ticket, d.action, 0, false, false);
      if d.ticket == 0 {
        return;
      }
      if outcome.None? {
        completion := Completion(d.ticket, d.action, 1, true, true);
        return;
      }
      var o := outcome.value;
      var status := match o.status
                    case Ok => 0 case Error => 1 case Timeout => 2 case Cancelled => 3 case Interrupted => 4;
      if o.fallbacks > 0 {
        raised := Withdraw(d);
        status := 4;
        if raised {
          return;
        }
      }
      if (checked && !matched) || !o.valid {
        status := 4;
      }
      completion := Completion(d.ticket, d.action, status, !checked || matched, o.within);
    }

    /** `_choose`: nothing is asked of the core while it is killed, closed or busy. Otherwise its status is, and then
        its decision. */
    method Choose() returns (raised: bool, choice: Choice)
      modifies env`asked, env`offered, env`nextTicket
      ensures env.Failures() == old(env.Failures()) + if raised then 1 else 0
      ensures env.nextTicket == old(env.nextTicket) + Count(choice)
      ensures choice == REFERENCE || choice == Chosen(env.world.offers(old(env.offered)), frozen, old(env.nextTicket))
      ensures raised ==> choice == REFERENCE
      ensures choice != REFERENCE && !frozen ==> env.asked == old(env.asked) + 1
      ensures choice.Pair? ==> !frozen
      ensures raised ==> !frozen && env.world.statuses(old(env.asked)).Raises?
      ensures env.asked == old(env.asked) || env.asked == old(env.asked) + 1
      ensures !Asking(old(env.offered)) ==>
                !raised && choice == REFERENCE && env.asked == old(env.asked) && env.offered == old(env.offered)
      ensures Asking(old(env.offered)) ==>
        && (raised <==> !frozen && env.world.statuses(old(env.asked)).Raises?)
        && (!raised ==> choice == Chosen(env.world.offers(old(env.offered)), frozen, old(env.nextTicket)))
        && env.asked == old(env.asked) + if frozen then 0 else 1
    {
      raised, choice := false, REFERENCE;
      if latchedKill || closed || env.world.busy(env.offered) {
        return;
      }
      if !frozen {
        var answer := env.Status();
        if answer.Raises? {
          return true, choice;
        }
      }
      choice := env.Offer(frozen);
    }

    /** The core is asked for a decision. */
    ghost predicate Asking(offered: nat)
      reads this`latchedKill, this`closed
    {
      !latchedKill && !closed && !env.world.busy(offered)
    }

    lemma NewIsUnbooked(ds: seq<Decision>, next: nat, bound: nat)
      requires NewTickets(ds, next, bound) && forall t: nat :: t >= next ==> Booked()[t] == 0
      ensures Unbooked(AbandonAll(ds))
    {
      forall t | t in Tickets(AbandonAll(ds))
        ensures t !in Booked() && Tickets(AbandonAll(ds))[t] == 1
      {
        assert t in Issued(ds) && Issued(ds)[t] == 1;
      }
    }

    /** How a run's tickets ended: all of them booked once more, or, if something raised before they were handed over,
        none. */
    ghost predicate Accounts(before: multiset<nat>, ds: seq<Decision>, raised: bool)
      reads this`queue, this`lost, this`applied
    {
      Booked() == before + (if raised then multiset{} else Issued(ds)) && LostSound(lost)
    }

    lemma NothingIssued(d: Decision)
      requires d.ticket == 0 && LostSound(lost)
      ensures Accounts(Booked(), [d], false) && Issued([d]) == multiset{}
    {
      NoTicketIssued(d);
    }

    lemma NothingHandedOver(ds: seq<Decision>)
      requires LostSound(lost)
      ensures Accounts(Booked(), ds, true)
    {
    }

    lemma NoTicketIssued(d: Decision)
      ensures d.ticket == 0 ==> Issued([d]) == multiset{}
    {
      assert AbandonAll([d]) == [Abandon(d)];
      TicketsOne(Abandon(d));
    }

    /** A decision that is neither compared nor checked. A failed alternative is withdrawn, abandoned and replaced by
        the reference; a failed reference raises. */
    method Plain(d: Decision) returns (exit: Ran<Outcome>)
      requires Unbooked(AbandonAll([d])) && LostSound(lost) && (frozen ==> d.ticket == 0)
      modifies this`queue, this`lost, this`applied, this`dropped, this`handed, this`latchedKill, this`faults
      modifies env`executed, env`asked, env`saved, env`workerSaved
      ensures Accounts(old(Booked()), [d], env.Failures() > old(env.Failures()))
              && old(env.Failures()) <= env.Failures()
      ensures PlainExit(exit, d, old(env.executed), env.Failures() > old(env.Failures()))
      ensures handed == old(handed) + PlainLabels(d, exit, old(env.executed), env.Failures() > old(env.Failures()))
      ensures Quarantines(faults) == old(Quarantines(faults))
      ensures LosesToSave(d, old(env.executed), old(env.asked), old(env.saved)) ==> env.Failures() > old(env.Failures())
    {
      hide OnlineController.Unbooked;
      hide OnlineController.Booked;
      hide Issued;
      hide Quarantines;
      hide OnlineController.Accounts;
      hide Environment.Failures;
      hide Ticketed;
      hide LabelOf;
      NothingHandedOver([d]);
      if frozen {
        NothingIssued(d);
      }
      exit := env.Execute(d.action);
      var completion := Abandon(d);
      var raised := false;
      if exit.Failed? {
        if d.action == 0 {
          if !frozen {
            raised, completion := CompletionOf(d, None, false, true);
            TicketedOne(completion);
            Settle([d], [completion]);
          }
          return;
        }
        raised := Withdraw(d);
        if raised {
          return;
        }
        if !frozen {
          TicketedOne(completion);
          Settle([d], [completion]);
        }
        exit := env.Execute(0);
        return;
      }
      if exit.Killed? {
        if !frozen {
          TicketedOne(completion);
          Settle([d], [completion]);
        }
        return;
      }
      var timely: bool := *;
      var outcome := exit.value.(within := exit.value.within && timely);
      exit := Returned(outcome);
      if !frozen {
        raised, completion := CompletionOf(d, Some(outcome), false, true);
        if raised {
          exit := Failed;
          return;
        }
        TicketedOne(completion);
        Settle([d], [completion]);
      }
    }

    /** What a plain run tells the core: the label of its execution if that returned, an error if the reference raised,
        and nothing but the ticket for an interruption or an alternative that raised and was replaced. */
    ghost function PlainLabels(d: Decision, exit: Ran<Outcome>, at: nat, raised: bool): (labels: seq<Completion>) {
      if raised || d.ticket == 0 then []
      else match RunAt(env.world, at, d.action)
        case Returned(o) => [LabelOf(d, o.(within := exit.Returned? && exit.value.within), false, true)]
        case Failed => if d.action == 0 then [Errored(d)] else [Abandon(d)]
        case Killed => [Abandon(d)]
    }

    /** An alternative fails that the core still has active, and saving its withdrawal raises. */
    ghost predicate LosesToSave(d: Decision, at: nat, asked: nat, saved: nat) {
      && d.action != 0 && RunAt(env.world, at, d.action).Failed?
      && env.world.statuses(asked).Answers? && env.world.statuses(asked).active && Saves() && env.world.saves(saved)
    }

    /** A plain run delivers the chosen action's outcome, or the reference's after that failed. */
    ghost predicate PlainExit(exit: Ran<Outcome>, d: Decision, at: nat, raised: bool) {
      match RunAt(env.world, at, d.action)
      case Killed => exit.Killed?
      case Failed => if raised || d.action == 0 then exit.Failed? else exit == RunAt(env.world, at + 1, 0)
      case Returned(o) =>
        if raised then exit.Failed? else exit.Returned? && exit.value == o.(within := exit.value.within)
    }

    /** A checked exploration's two executions both returned clean, signed outcomes. */
    ghost predicate Comparable(d: Decision, at: nat) {
      var r, c := RunAt(env.world, at, 0), RunAt(env.world, at + 1, d.action);
      && r.Returned? && c.Returned? && !r.value.signature.Unsigned? && !c.value.signature.Unsigned?
      && Clean(r.value) && Clean(c.value)
    }

    /** They disagree. */
    ghost predicate Mismatch(d: Decision, at: nat) {
      Comparable(d, at) && RunAt(env.world, at, 0).value.signature != RunAt(env.world, at + 1, d.action).value.signature
    }

    /** The core is told of a success exactly if both runs were clean, agreed and were within the limits, and otherwise
        gets its ticket back unlabelled. */
    ghost predicate CheckedTold(told: seq<Completion>, d: Decision, at: nat, raised: bool) {
      if raised || d.ticket == 0 then told == []
      else if Comparable(d, at) && !Mismatch(d, at)
              && RunAt(env.world, at, 0).value.within && RunAt(env.world, at + 1, d.action).value.within
      then |told| == 1 && told[0] == Completion(d.ticket, d.action, 0, true, told[0].resourceOk)
      else told == [Abandon(d)]
    }

    /** `_checked_exploration`: the alternative is measured, the reference is delivered. */
    method Checked(d: Decision) returns (exit: Ran<Outcome>)
      requires Unbooked(AbandonAll([d])) && LostSound(lost)
      modifies this`queue, this`lost, this`applied, this`dropped, this`handed, this`latchedKill, this`faults
      modifies env`executed, env`asked, env`saved, env`workerSaved
      ensures Accounts(old(Booked()), [d], env.Failures() > old(env.Failures()))
              && old(env.Failures()) <= env.Failures()
      ensures CheckedExit(exit, d, old(env.executed), env.Failures() > old(env.Failures()))
      ensures old(handed) <= handed
      ensures CheckedTold(handed[|old(handed)|..], d, old(env.executed), env.Failures() > old(env.Failures()))
      ensures Mismatch(d, old(env.executed)) && Saves() && env.world.saves(old(env.saved)) ==>
                env.Failures() > old(env.Failures())
      ensures forall i :: |old(handed)| <= i < |handed| && handed[i].status == 0 ==>
                Comparable(d, old(env.executed)) && !Mismatch(d, old(env.executed))
      ensures if Mismatch(d, old(env.executed)) then AllQuarantined(faults, actionCount)
              else Quarantines(faults) == old(Quarantines(faults))
    {
      hide OnlineController.Unbooked;
      hide OnlineController.Booked;
      hide Issued;
      hide Quarantines;
      hide OnlineController.Accounts;
      hide Environment.Failures;
      hide Ticketed;
      NothingHandedOver([d]);
      exit := env.Execute(0);
      var completion := Abandon(d);
      if !exit.Returned? {
        TicketedOne(completion);
        Settle([d], [completion]);
        return;
      }
      var reference := exit.value;
      var tried := env.Execute(d.action);
      if tried.Killed? {
        TicketedOne(completion);
        Settle([d], [completion]);
        exit := Killed;
        return;
      }
      var raised := false;
      if tried.Returned? {
        var candidate := tried.value;
        var checked := && !reference.signature.Unsigned? && !candidate.signature.Unsigned?
                       && reference.status == candidate.status == Ok
                       && reference.fallbacks == candidate.fallbacks == 0 && reference.valid && candidate.valid;
        var matched := checked && reference.signature == candidate.signature;
        if checked && !matched {
          raised := Quarantine();
          if raised {
            exit := Failed;
            return;
          }
        }
        if matched && reference.within && candidate.within {
          var timely: bool := *;
          raised, completion := CompletionOf(d, Some(candidate.(within := timely)), true, true);
        }
      }
      TicketedOne(completion);
      Settle([d], [completion]);
    }

    /** A checked exploration delivers its run of the reference and nothing else. */
    ghost predicate CheckedExit(exit: Ran<Outcome>, d: Decision, at: nat, raised: bool) {
      var r := RunAt(env.world, at, 0);
      if !r.Returned? then exit == r
      else if RunAt(env.world, at + 1, d.action).Killed? then exit.Killed?
      else if raised then exit.Failed?
      else exit == r
    }

    /** What the core's status makes of an arm's repetitions. */
    function RepetitionsOf(answer: Answer): (n: nat)
      ensures 1 <= n <= 8
    {
      if !repeats || answer.Raises? || answer.repetitions < 1 then 1
      else if answer.repetitions > 8 then 8 else answer.repetitions
    }

    /** `_repetitions`: it asks the core, and may raise, only if arms repeat at all. */
    method Repetitions() returns (raised: bool, n: nat)
      modifies env`asked
      ensures env.Failures() == old(env.Failures()) + if raised then 1 else 0
      ensures raised <==> repeats && env.world.statuses(old(env.asked)).Raises?
      ensures !repeats ==> n == 1
      ensures repeats && !raised ==>
        var wanted := env.world.statuses(old(env.asked)).repetitions;
        n == if wanted < 1 then 1 else if wanted > 8 then 8 else wanted
      ensures n == RepetitionsOf(env.world.statuses(old(env.asked)))
              && env.asked == old(env.asked) + if repeats then 1 else 0
    {
      raised, n := false, 1;
      if repeats {
        var answer := env.Status();
        raised, n := answer.Raises?, RepetitionsOf(answer);
      }
    }

    /** The outcomes of the arms that finished. */
    ghost predicate AreArms(outcomes: map<nat, Outcome>, starts: map<nat, nat>, n: nat, ds: seq<Decision>)
      requires |ds| == 3
    {
      && outcomes.Keys == starts.Keys
      && forall i :: i in starts ==> i < 3 && IsArm(env.world, starts[i], n, ds[i].action, outcomes[i])
    }

    /** The arms in their order. A failed A or AA ends the comparison; a failed B does not. */
    method RunArms(ds: seq<Decision>, order: nat, n: nat)
      returns (outcomes: map<nat, Outcome>, failedAction: Option<nat>, killed: bool)
      requires |ds| == 3 && n > 0
      modifies env`executed
      ensures var p := Arms(env.world, old(env.executed), order, n);
        && env.executed == p.at && killed == p.killed && AreArms(outcomes, p.starts, n, ds)
        && failedAction == (if p.failed.Some? && p.failed.value < 3 then Some(ds[p.failed.value].action) else None)
    {
      hide NextArm;
      hide OnlineController.AreArms;
      ghost var w, at := env.world, env.executed;
      outcomes, failedAction, killed := map[], None, false;
      NoArms(n, ds);
      var over := false;
      for k := 0 to 3
        invariant ArmsStand(ArmsUpTo(w, at, order, n, k), outcomes, failedAction, over, killed, n, ds)
                  && (killed ==> over)
      {
        if !over {
          outcomes, failedAction, over, killed :=
            OneArm(ArmsUpTo(w, at, order, n, k), ds, ArmAt(order, k), n, outcomes, failedAction);
        }
      }
    }

    /** The variables of the loop say what the world says of the arms so far. */
    ghost predicate ArmsStand(p: Progress, outcomes: map<nat, Outcome>, failedAction: Option<nat>, over: bool,
                              killed: bool, n: nat, ds: seq<Decision>)
      requires |ds| == 3
      reads env`executed
    {
      && env.executed == p.at && killed == p.killed && over == p.over && AreArms(outcomes, p.starts, n, ds)
      && failedAction == (if p.failed.Some? && p.failed.value < 3 then Some(ds[p.failed.value].action) else None)
    }

    lemma NoArms(n: nat, ds: seq<Decision>)
      requires |ds| == 3
      ensures AreArms(map[], map[], n, ds)
    {
    }

    method OneArm(ghost p: Progress, ds: seq<Decision>, index: nat, n: nat, outcomes: map<nat, Outcome>,
                  failedAction: Option<nat>)
      returns (outcomes': map<nat, Outcome>, failedAction': Option<nat>, over: bool, killed: bool)
      requires |ds| == 3 && n > 0 && index < 3 && ArmsStand(p, outcomes, failedAction, false, false, n, ds)
      modifies env`executed
      ensures ArmsStand(NextArm(env.world, p, index, n), outcomes', failedAction', over, killed, n, ds)
              && (killed ==> over)
    {
      hide IsArm;
      outcomes', failedAction', over, killed := outcomes, failedAction, false, false;
      var r := ExecuteRepeated(ds[index].action, n);
      match r
      case Returned(o) => outcomes' := outcomes[index := o];
      case Killed => killed, over := true, true;
      case Failed => failedAction', over := Some(ds[index].action), index < 2;
    }

    predicate Agreeing(outcomes: map<nat, Outcome>) {
      && 0 in outcomes && 1 in outcomes && 2 in outcomes && !outcomes[0].signature.Unsigned?
      && outcomes[0].signature == outcomes[1].signature == outcomes[2].signature
    }

    predicate Disagreeing(outcomes: map<nat, Outcome>) {
      && 0 in outcomes && 1 in outcomes && 2 in outcomes
      && !outcomes[0].signature.Unsigned? && !outcomes[1].signature.Unsigned? && !outcomes[2].signature.Unsigned?
      && !(outcomes[0].signature == outcomes[1].signature == outcomes[2].signature)
    }

    lemma SeenByOutcomes(outcomes: map<nat, Outcome>, starts: map<nat, nat>, n: nat, ds: seq<Decision>)
      requires |ds| == 3 && AreArms(outcomes, starts, n, ds)
      ensures Disagreeing(outcomes) <==> Detected(env.world, starts, n)
      ensures Agreeing(outcomes) <==> Matched(env.world, starts, n)
    {
    }

    predicate AllClean(outcomes: map<nat, Outcome>) {
      forall i :: 0 <= i < 3 ==> i in outcomes && Clean(outcomes[i])
    }

    /** Three arms of one execution each, and each of these was clean. */
    ghost predicate CleanRuns(starts: map<nat, nat>, n: nat, ds: seq<Decision>)
      requires |ds| == 3
    {
      n == 1 && forall i :: 0 <= i < 3 ==>
                  i in starts && var r := RunAt(env.world, starts[i], ds[i].action); r.Returned? && Clean(r.value)
    }

    lemma CleanOutcomes(outcomes: map<nat, Outcome>, starts: map<nat, nat>, n: nat, ds: seq<Decision>)
      requires |ds| == 3 && AreArms(outcomes, starts, n, ds) && CleanRuns(starts, n, ds)
      ensures AllClean(outcomes)
    {
    }

    /** What a comparison delivers: A, else AA, else a run of the reference after them. Once a disagreement was seen
        only a run of the reference will do, one of the arms' or another. */
    ghost predicate Deliverable(o: Outcome, p: Progress, n: nat, ds: seq<Decision>)
      requires |ds| == 3
    {
      if Detected(env.world, p.starts, n)
      then o.action == 0 && ((exists i :: i in p.starts && i < 3 && IsArm(env.world, p.starts[i], n, ds[i].action, o))
                             || RunAt(env.world, p.at, 0) == Returned(o))
      else if 0 in p.starts then IsArm(env.world, p.starts[0], n, ds[0].action, o)
      else if 1 in p.starts then IsArm(env.world, p.starts[1], n, ds[1].action, o)
      else RunAt(env.world, p.at, 0) == Returned(o)
    }

    /** How a comparison ends whose arms went as `p`. */
    ghost predicate ComparedExit(exit: Ran<Outcome>, p: Progress, n: nat, ds: seq<Decision>, raised: bool)
      requires |ds| == 3
    {
      && (exit.Returned? ==> Deliverable(exit.value, p, n, ds))
      && (raised || p.killed ==> !exit.Returned?)
      && (!raised && !p.killed && !Detected(env.world, p.starts, n) && (0 in p.starts || 1 in p.starts) ==>
        exit.Returned?)
    }

    /** `_compare`: the three arms in either order, the delivered outcome, and what the core learns. Whether anything
        was executed at all depends on the repetitions, which have to be known first. */
    method CompareArms(ds: seq<Decision>, order: nat) returns (exit: Ran<Outcome>)
      requires |ds| == 3 && Unbooked(AbandonAll(ds)) && LostSound(lost)
      modifies this`queue, this`lost, this`applied, this`dropped, this`handed, this`latchedKill, this`faults
      modifies env`executed, env`asked, env`saved, env`workerSaved
      ensures Accounts(old(Booked()), ds, env.Failures() > old(env.Failures())) && old(env.Failures()) <= env.Failures()
      ensures old(handed) <= handed
      ensures repeats && env.world.statuses(old(env.asked)).Raises? ==>
        && env.Failures() > old(env.Failures()) && exit.Failed? && env.executed == old(env.executed)
        && handed == old(handed) && faults == old(faults)
      ensures !(repeats && env.world.statuses(old(env.asked)).Raises?) ==>
        var n := RepetitionsOf(env.world.statuses(old(env.asked)));
        var p := Arms(env.world, old(env.executed), order, n);
        && ComparedExit(exit, p, n, ds, env.Failures() > old(env.Failures()))
        && (if Detected(env.world, p.starts, n) then AllQuarantined(faults, actionCount)
            else Quarantines(faults) == old(Quarantines(faults)))
        && (forall i :: |old(handed)| <= i < |handed| && handed[i].status == 0 ==> Matched(env.world, p.starts, n))
        && ComparedTold(handed[|old(handed)|..], exit, p, n, ds, env.Failures() > old(env.Failures()))
        && (Detected(env.world, p.starts, n) && Saves() && env.world.saves(old(env.saved)) ==>
              env.Failures() > old(env.Failures()))
        && (exit.Returned? && Matched(env.world, p.starts, n) && CleanRuns(p.starts, n, ds) ==>
              forall i :: |old(handed)| <= i < |handed| ==> handed[i].status == 0)
    {
      hide OnlineController.Unbooked;
      hide OnlineController.Booked;
      hide OnlineController.Accounts;
      hide OnlineController.AreArms;
      hide OnlineController.Deliverable;
      hide OnlineController.ComparedTold;
      hide Issued;
      hide Quarantines;
      hide Arms;
      var raised, n := Repetitions();
      NothingHandedOver(ds);
      if raised {
        return Failed;
      }
      ghost var p := Arms(env.world, env.executed, order, n);
      var outcomes, failedAction, killed := RunArms(ds, order, n);
      ArmsAreSound(env.world, old(env.executed), order, n);
      exit := Conclude(ds, order, n, p, outcomes, failedAction, killed);
    }

    /** What follows the arms. */
    method Conclude(ds: seq<Decision>, order: nat, n: nat, ghost p: Progress, outcomes: map<nat, Outcome>,
                    failedAction: Option<nat>, killed: bool) returns (exit: Ran<Outcome>)
      requires |ds| == 3 && Unbooked(AbandonAll(ds)) && LostSound(lost)
      requires env.executed == p.at && killed == p.killed && AreArms(outcomes, p.starts, n, ds)
      requires p.killed ==> !(0 in p.starts && 1 in p.starts && 2 in p.starts)
      modifies this`queue, this`lost, this`applied, this`dropped, this`handed, this`latchedKill, this`faults
      modifies env`executed, env`asked, env`saved, env`workerSaved
      ensures Accounts(old(Booked()), ds, env.Failures() > old(env.Failures())) && old(env.Failures()) <= env.Failures()
      ensures ComparedExit(exit, p, n, ds, env.Failures() > old(env.Failures()))
      ensures if Detected(env.world, p.starts, n) then AllQuarantined(faults, actionCount)
              else Quarantines(faults) == old(Quarantines(faults))
      ensures old(handed) <= handed
      ensures ComparedTold(handed[|old(handed)|..], exit, p, n, ds, env.Failures() > old(env.Failures()))
      ensures Detected(env.world, p.starts, n) && Saves() && env.world.saves(old(env.saved)) ==>
                env.Failures() > old(env.Failures())
      ensures forall i :: |old(handed)| <= i < |handed| && handed[i].status == 0 ==> Matched(env.world, p.starts, n)
      ensures exit.Returned? && Matched(env.world, p.starts, n) && CleanRuns(p.starts, n, ds) ==>
                forall i :: |old(handed)| <= i < |handed| ==> handed[i].status == 0
    {
      hide OnlineController.AllClean;
      hide OnlineController.CleanRuns;
      hide OnlineController.Agreeing;
      hide OnlineController.Disagreeing;
      hide OnlineController.Unbooked;
      hide OnlineController.Booked;
      hide OnlineController.Accounts;
      hide OnlineController.Deliverable;
      hide Issued;
      hide Quarantines;
      hide OnlineController.AreArms;
      hide Detected;
      hide Matched;
      hide OnlineController.ComparedExit;
      hide Environment.Failures;
      hide OnlineController.Clean;
      hide AllQuarantined;
      hide AbandonAll;
      hide ArmDone;
      hide SignatureOf;
      hide IsArm;
      hide OnlineController.ToldArms;
      hide OnlineController.ToldCompared;
      NothingHandedOver(ds);
      SeenByOutcomes(outcomes, p.starts, n, ds);
      if CleanRuns(p.starts, n, ds) {
        CleanOutcomes(outcomes, p.starts, n, ds);
      }
      if killed {
        NotSeen(p.starts, n);
        AbandonRun(ds);
        NotDelivered(Killed, p, n, ds, false);
        return Killed;
      }
      var repair := Repair(ds, n, p, outcomes, failedAction, order);
      if repair.Raised? {
        NotDelivered(Failed, p, n, ds, true);
        return Failed;
      }
      if repair.Stopped? {
        AbandonRun(ds);
        NotDelivered(if repair.killed then Killed else Failed, p, n, ds, false);
        return if repair.killed then Killed else Failed;
      }
      ghost var before := handed;
      var raised := HandOver(ds, outcomes);
      if AllTicketed(ds) && !raised {
        ArmsAreTold(handed[|before|..], outcomes, p, n, ds);
      }
      if raised || repair.reference.None? {
        NotDelivered(Failed, p, n, ds, raised);
        return Failed;
      }
      IsDelivered(repair.reference.value, p, n, ds);
      exit := Returned(repair.reference.value);
    }

    lemma NotSeen(starts: map<nat, nat>, n: nat)
      requires !(0 in starts && 1 in starts && 2 in starts)
      ensures !Detected(env.world, starts, n)
    {
    }

    lemma NotDelivered(exit: Ran<Outcome>, p: Progress, n: nat, ds: seq<Decision>, raised: bool)
      requires |ds| == 3 && !exit.Returned?
      requires raised || p.killed || Detected(env.world, p.starts, n) || (0 !in p.starts && 1 !in p.starts)
      ensures ComparedExit(exit, p, n, ds, raised)
    {
    }

    lemma IsDelivered(o: Outcome, p: Progress, n: nat, ds: seq<Decision>)
      requires |ds| == 3 && Deliverable(o, p, n, ds) && !p.killed
      ensures ComparedExit(Returned(o), p, n, ds, false)
    {
    }

    predicate AllTicketed(ds: seq<Decision>) {
      forall i :: 0 <= i < |ds| ==> ds[i].ticket != 0
    }

    /** One label per arm that finished and an error for each of the others. The limits may have taken `resourceOk`
        away. */
    ghost predicate ToldArms(told: seq<Completion>, outcomes: map<nat, Outcome>, ds: seq<Decision>)
      requires |ds| == 3
    {
      && |told| == 3
      && forall i :: 0 <= i < 3 ==>
           told[i] == if i in outcomes
             then LabelOf(ds[i], outcomes[i].(within := told[i].resourceOk), true, Agreeing(outcomes))
                      else Errored(ds[i])
    }

    /** The same in terms of what was executed. */
    ghost predicate ToldCompared(told: seq<Completion>, p: Progress, n: nat, ds: seq<Decision>)
      requires |ds| == 3
    {
      && |told| == 3
      && forall i :: 0 <= i < 3 ==> ToldArm(told[i], p, n, ds[i], i)
    }

    ghost predicate ToldArm(told: Completion, p: Progress, n: nat, d: Decision, i: nat) {
      if i in p.starts
      then exists o :: IsArm(env.world, p.starts[i], n, d.action, o)
                       && told == LabelOf(d, o.(within := told.resourceOk), true, Matched(env.world, p.starts, n))
      else told == Errored(d)
    }

    lemma ArmsAreTold(told: seq<Completion>, outcomes: map<nat, Outcome>, p: Progress, n: nat, ds: seq<Decision>)
      requires |ds| == 3 && AreArms(outcomes, p.starts, n, ds) && ToldArms(told, outcomes, ds)
      requires Agreeing(outcomes) <==> Matched(env.world, p.starts, n)
      ensures ToldCompared(told, p, n, ds)
    {
      hide IsArm;
      hide LabelOf;
      hide Matched;
      hide OnlineController.Agreeing;
      forall i | 0 <= i < 3
        ensures ToldArm(told[i], p, n, ds[i], i)
      {
        if i in p.starts {
          assert IsArm(env.world, p.starts[i], n, ds[i].action, outcomes[i]);
        }
      }
    }

    /** What a comparison tells the core: nothing if something raised first, and else a label for each of the arms;
        where nothing is delivered, it may be just the tickets. */
    ghost predicate ComparedTold(told: seq<Completion>, exit: Ran<Outcome>, p: Progress, n: nat, ds: seq<Decision>,
                                 raised: bool)
      requires |ds| == 3
    {
      AllTicketed(ds) ==>
        if raised then told == []
        else ToldCompared(told, p, n, ds) || (!exit.Returned? && told == AbandonAll(ds))
    }

    /** `abandon`: the tickets come back without a label. */
    method AbandonRun(ds: seq<Decision>)
      requires Unbooked(AbandonAll(ds)) && LostSound(lost)
      modifies this`queue, this`lost, this`applied, this`dropped, this`handed, this`latchedKill, env`workerSaved
      ensures Accounts(old(Booked()), ds, false)
      ensures |ds| == 3 && AllTicketed(ds) ==> handed == old(handed) + AbandonAll(ds)
      ensures old(handed) <= handed && forall i :: |old(handed)| <= i < |handed| ==> handed[i].status == 4
    {
      hide OnlineController.Accounts;
      hide OnlineController.Unbooked;
      hide OnlineController.Booked;
      if |ds| == 3 && AllTicketed(ds) {
        var all := AbandonAll(ds);
        TicketedThree(all[0], all[1], all[2]);
        assert all == [all[0], all[1], all[2]];
      }
      Settle(ds, AbandonAll(ds));
    }

    /** The arms' labels go out, unless making them raised. */
    method HandOver(ds: seq<Decision>, outcomes: map<nat, Outcome>) returns (raised: bool)
      requires Unbooked(AbandonAll(ds)) && LostSound(lost)
      modifies this`queue, this`lost, this`applied, this`dropped, this`handed, this`latchedKill, this`faults
      modifies env`asked, env`saved, env`workerSaved
      ensures Accounts(old(Booked()), ds, raised)
      ensures env.Failures() == old(env.Failures()) + if raised then 1 else 0
      ensures Quarantines(faults) == old(Quarantines(faults))
      ensures old(AllQuarantined(faults, actionCount)) ==> AllQuarantined(faults, actionCount)
      ensures old(handed) <= handed && (raised ==> handed == old(handed))
      ensures |ds| == 3 && AllTicketed(ds) && !raised ==> ToldArms(handed[|old(handed)|..], outcomes, ds)
      ensures forall i :: |old(handed)| <= i < |handed| && handed[i].status == 0 ==> Agreeing(outcomes)
      ensures |ds| == 3 && Agreeing(outcomes) && AllClean(outcomes) ==>
                forall i :: |old(handed)| <= i < |handed| ==> handed[i].status == 0
    {
      hide Ticketed;
      hide OnlineController.Accounts;
      hide OnlineController.Unbooked;
      hide OnlineController.Booked;
      hide OnlineController.Agreeing;
      hide Quarantines;
      hide AllQuarantined;
      NothingHandedOver(ds);
      var gated := Gate(outcomes);
      var completions;
      raised, completions := Label(ds, gated, Agreeing(outcomes));
      if !raised {
        if |ds| == 3 && AllTicketed(ds) {
          TicketedThree(completions[0], completions[1], completions[2]);
          assert completions == [completions[0], completions[1], completions[2]];
          LabelsAreTold(completions, outcomes, gated, ds);
        }
        Settle(ds, completions);
      }
    }

    lemma LabelsAreTold(told: seq<Completion>, outcomes: map<nat, Outcome>, gated: map<nat, Outcome>, ds: seq<Decision>)
      requires |ds| == |told| == 3 && gated.Keys == outcomes.Keys
      requires forall i :: i in outcomes ==> gated[i] == outcomes[i].(within := gated[i].within)
      requires forall i :: 0 <= i < 3 ==>
                 told[i] == if i in gated then LabelOf(ds[i], gated[i], true, Agreeing(outcomes)) else Errored(ds[i])
      ensures ToldArms(told, outcomes, ds)
    {
      hide OnlineController.Agreeing;
    }

    /** What a comparison delivers. */
    method Repair(ds: seq<Decision>, ghost n: nat, ghost p: Progress, outcomes: map<nat, Outcome>,
                  failedAction: Option<nat>, order: nat) returns (repair: Repaired)
      requires |ds| == 3 && env.executed == p.at && AreArms(outcomes, p.starts, n, ds)
      modifies this`faults, env`executed, env`saved
      ensures env.Failures() == old(env.Failures()) + if repair.Raised? then 1 else 0
      ensures Detected(env.world, p.starts, n) ==> (repair.Raised? <==> Saves() && env.world.saves(old(env.saved)))
      ensures repair.Ready? && repair.reference.Some? ==> Deliverable(repair.reference.value, p, n, ds)
      ensures if Detected(env.world, p.starts, n)
              then AllQuarantined(faults, actionCount) && (repair.Ready? ==> repair.reference.Some?)
              else Quarantines(faults) == old(Quarantines(faults))
      ensures !Detected(env.world, p.starts, n) && (0 in p.starts || 1 in p.starts) ==>
              repair.Ready? && repair.reference.Some?
    {
      hide OnlineController.AreArms;
      hide OnlineController.Deliverable;
      hide AllQuarantined;
      hide Quarantines;
      hide Detected;
      SeenByOutcomes(outcomes, p.starts, n, ds);
      if Disagreeing(outcomes) {
        repair := AfterDisagreement(ds, n, p, outcomes, order);
      } else {
        repair := FirstReference(ds, n, p, outcomes, failedAction);
      }
    }

    /** A disagreement does not say which arm was at fault: every alternative is quarantined, and only a run of the
        reference will do. */
    method AfterDisagreement(ds: seq<Decision>, ghost n: nat, ghost p: Progress, outcomes: map<nat, Outcome>,
                             order: nat)
      returns (repair: Repaired)
      requires |ds| == 3 && env.executed == p.at && AreArms(outcomes, p.starts, n, ds) && Disagreeing(outcomes)
      requires Detected(env.world, p.starts, n)
      modifies this`faults, env`executed, env`saved
      ensures env.Failures() == old(env.Failures()) + if repair.Raised? then 1 else 0
      ensures repair.Raised? <==> Saves() && env.world.saves(old(env.saved))
      ensures repair.Ready? ==> repair.reference.Some? && Deliverable(repair.reference.value, p, n, ds)
      ensures AllQuarantined(faults, actionCount)
    {
      hide Detected;
      hide IsArm;
      var raised := Quarantine();
      if raised {
        return Raised;
      }
      var reference := ReferenceArm(outcomes, order);
      if reference == None {
        var rerun := env.Execute(0);
        if !rerun.Returned? {
          return Stopped(rerun.Killed?);
        }
        reference := Some(rerun.value);
      }
      return Ready(reference);
    }

    /** Without a seen disagreement: A, else AA, else a run of the reference after the profile that failed was
        faulted. */
    method FirstReference(ds: seq<Decision>, ghost n: nat, ghost p: Progress, outcomes: map<nat, Outcome>,
                          failedAction: Option<nat>) returns (repair: Repaired)
      requires |ds| == 3 && env.executed == p.at && AreArms(outcomes, p.starts, n, ds)
      requires !Detected(env.world, p.starts, n)
      modifies this`faults, env`executed, env`saved
      ensures env.Failures() == old(env.Failures()) + if repair.Raised? then 1 else 0
      ensures repair.Ready? && repair.reference.Some? ==> Deliverable(repair.reference.value, p, n, ds)
      ensures Quarantines(faults) == old(Quarantines(faults))
      ensures 0 in p.starts || 1 in p.starts ==> repair.Ready? && repair.reference.Some?
    {
      hide Detected;
      hide IsArm;
      hide Quarantines;
      if 0 in outcomes {
        return Ready(Some(outcomes[0]));
      }
      if 1 in outcomes {
        return Ready(Some(outcomes[1]));
      }
      if failedAction.None? || failedAction.value == 0 {
        return Ready(None);
      }
      var raised := FaultProfile(failedAction.value);
      if raised {
        return Raised;
      }
      var rerun := env.Execute(0);
      repair := if rerun.Returned? then Ready(Some(rerun.value)) else Stopped(rerun.Killed?);
    }

    /** After a disagreement: the first arm, in the order they ran, that executed the reference. */
    method ReferenceArm(outcomes: map<nat, Outcome>, order: nat) returns (reference: Option<Outcome>)
      requires 0 in outcomes && 1 in outcomes && 2 in outcomes
      ensures reference.Some? ==>
              reference.value.action == 0 && exists i :: i in outcomes && outcomes[i] == reference.value
      ensures reference == None ==> outcomes[0].action != 0 && outcomes[1].action != 0 && outcomes[2].action != 0
    {
      var first, last := if order == 0 then 0 else 2, if order == 0 then 2 else 0;
      reference := if outcomes[first].action == 0 then Some(outcomes[first])
                   else if outcomes[1].action == 0 then Some(outcomes[1])
                   else if outcomes[last].action == 0 then Some(outcomes[last])
                   else None;
    }

    /** The relative and the caller's time limits may only take `within` away. */
    method Gate(outcomes: map<nat, Outcome>) returns (gated: map<nat, Outcome>)
      ensures gated.Keys == outcomes.Keys
      ensures forall i :: i in outcomes ==>
                gated[i] == outcomes[i].(within := gated[i].within) && (gated[i].within ==> outcomes[i].within)
    {
      var relative: bool, timely: bool := *, *;
      gated := map i | i in outcomes :: outcomes[i].(within := outcomes[i].within && timely && (i != 2 || relative));
    }

    /** One label per decision. A success is a clean arm of a match. */
    method Label(ds: seq<Decision>, outcomes: map<nat, Outcome>, matched: bool)
      returns (raised: bool, completions: seq<Completion>)
      modifies this`faults, env`asked, env`saved
      ensures Quarantines(faults) == old(Quarantines(faults)) && old(faults) <= faults
      ensures old(AllQuarantined(faults, actionCount)) ==> AllQuarantined(faults, actionCount)
      ensures env.Failures() == old(env.Failures()) + if raised then 1 else 0
      ensures !raised ==> |completions| == |ds|
      ensures !raised ==> forall i :: 0 <= i < |ds| ==> completions[i].ticket == ds[i].ticket
      ensures !raised ==> forall i :: 0 <= i < |ds| && ds[i].ticket != 0 ==>
                completions[i] == if i in outcomes then LabelOf(ds[i], outcomes[i], true, matched) else Errored(ds[i])
    {
      raised, completions := false, [];
      for k := 0 to |ds|
        invariant |completions| == k && env.Failures() == old(env.Failures())
        invariant Quarantines(faults) == old(Quarantines(faults)) && old(faults) <= faults
        invariant forall i :: 0 <= i < k ==> completions[i].ticket == ds[i].ticket
        invariant forall i :: 0 <= i < k && ds[i].ticket != 0 ==>
                    completions[i] == if i in outcomes then LabelOf(ds[i], outcomes[i], true, matched)
                      else Errored(ds[i])
      {
        var completion;
        raised, completion := CompletionOf(ds[k], if k in outcomes then Some(outcomes[k]) else None, true, matched);
        if raised {
          return;
        }
        completions := completions + [completion];
      }
    }

    /** What a run hands to its caller, in terms of what was executed from `at` on and of the core's status `asked`. */
    ghost predicate Delivered(exit: Ran<Outcome>, choice: Choice, at: nat, asked: nat, raised: bool) {
      match choice
      case Single(d) =>
        if verifyExploration && d.explores then CheckedExit(exit, d, at, raised) else PlainExit(exit, d, at, raised)
      case Pair(a, aa, b, order) =>
        if repeats && env.world.statuses(asked).Raises? then exit.Failed?
        else
          var n := RepetitionsOf(env.world.statuses(asked));
          ComparedExit(exit, Arms(env.world, at, order, n), n, [a, aa, b], raised)
    }

    /** What a run tells the core. */
    ghost predicate Taught(told: seq<Completion>, exit: Ran<Outcome>, choice: Choice, at: nat, asked: nat,
                           raised: bool) {
      match choice
      case Single(d) =>
        if verifyExploration && d.explores then CheckedTold(told, d, at, raised)
        else told == PlainLabels(d, exit, at, raised)
      case Pair(a, aa, b, order) =>
        if repeats && env.world.statuses(asked).Raises? then told == []
        else
          var n := RepetitionsOf(env.world.statuses(asked));
          ComparedTold(told, exit, Arms(env.world, at, order, n), n, [a, aa, b], raised)
    }

    /** The run's executions disagree and the run sees it. */
    ghost predicate SeesDisagreement(choice: Choice, at: nat, asked: nat) {
      match choice
      case Single(d) => verifyExploration && d.explores && Mismatch(d, at)
      case Pair(_, _, _, order) =>
        !(repeats && env.world.statuses(asked).Raises?)
        && var n := RepetitionsOf(env.world.statuses(asked));
           Detected(env.world, Arms(env.world, at, order, n).starts, n)
    }

    /** A choice is carried out: compared, checked, or plainly executed. */
    method Carry(choice: Choice) returns (exit: Ran<Outcome>)
      requires Unbooked(AbandonAll(Decisions(choice))) && LostSound(lost)
      requires frozen ==> choice.Single? && choice.decision.ticket == 0
      modifies this`queue, this`lost, this`applied, this`dropped, this`handed, this`latchedKill, this`faults
      modifies env`executed, env`asked, env`saved, env`workerSaved
      ensures Accounts(old(Booked()), Decisions(choice), env.Failures() > old(env.Failures()))
      ensures old(env.Failures()) <= env.Failures() && old(handed) <= handed
      ensures Delivered(exit, choice, old(env.executed), old(env.asked), env.Failures() > old(env.Failures()))
      ensures Taught(handed[|old(handed)|..], exit, choice, old(env.executed), old(env.asked),
                     env.Failures() > old(env.Failures()))
      ensures if SeesDisagreement(choice, old(env.executed), old(env.asked)) then AllQuarantined(faults, actionCount)
              else Quarantines(faults) == old(Quarantines(faults))
      ensures MustLose(choice, old(env.executed), old(env.asked), old(env.saved)) ==>
              env.Failures() > old(env.Failures())
    {
      hide OnlineController.Accounts;
      hide OnlineController.Unbooked;
      hide OnlineController.Booked;
      hide Environment.Failures;
      hide OnlineController.PlainExit;
      hide OnlineController.CheckedExit;
      hide OnlineController.ComparedExit;
      hide Detected;
      hide Arms;
      hide OnlineController.PlainLabels;
      hide OnlineController.CheckedTold;
      hide OnlineController.ComparedTold;
      hide Quarantines;
      hide AllQuarantined;
      if choice.Pair? {
        exit := CompareArms([choice.a, choice.aa, choice.b], choice.order);
      } else if verifyExploration && choice.decision.explores {
        exit := Checked(choice.decision);
      } else {
        exit := Plain(choice.decision);
      }
    }

    /** How a run ends that began at execution `at` and status query `asked`: the core's status already raised, or the
        choice was carried out. */
    ghost predicate Conducted(exit: Ran<Outcome>, choice: Choice, at: nat, asked: nat, raised: bool)
      reads env`executed
    {
      || (exit.Failed? && choice == REFERENCE && !frozen && env.world.statuses(asked).Raises? && env.executed == at)
      || Delivered(exit, choice, at, asked + 1, raised)
    }

    /** The worker turns, and then the run gets its choice, with tickets that are not booked yet. */
    method Decide() returns (raised: bool, choice: Choice)
      requires Sound()
      modifies this`queue, this`lost, this`applied, this`latchedKill
      modifies env`asked, env`offered, env`nextTicket, env`workerSaved
      ensures Booked() == old(Booked()) && LostSound(lost)
      ensures NewTickets(Decisions(choice), old(env.nextTicket), env.nextTicket)
              && Unbooked(AbandonAll(Decisions(choice)))
      ensures env.Failures() == old(env.Failures()) + if raised then 1 else 0
      ensures env.nextTicket == old(env.nextTicket) + Count(choice)
      ensures choice == REFERENCE || choice == Chosen(env.world.offers(old(env.offered)), frozen, old(env.nextTicket))
      ensures raised ==> choice == REFERENCE && !frozen && env.world.statuses(old(env.asked)).Raises?
      ensures choice != REFERENCE && !frozen ==> env.asked == old(env.asked) + 1
      ensures frozen ==> choice.Single? && choice.decision.ticket == 0
      ensures old(Asking(env.offered)) && WorkerReliable()
              && (frozen || env.world.statuses(old(env.asked)).Answers?) ==>
                choice == Chosen(env.world.offers(old(env.offered)), frozen, old(env.nextTicket))
    {
      hide OnlineController.Booked;
      hide OnlineController.Unbooked;
      hide NewTickets;
      hide Issued;
      hide Environment.Failures;
      ghost var next := env.nextTicket;
      Worker();
      raised, choice := Choose();
      ChosenIsNew(choice, next, env.world.offers(old(env.offered)), frozen);
      BookedBefore(next);
      NewIsUnbooked(Decisions(choice), next, env.nextTicket);
    }

    /** What a run does between counting its requests in and counting them out. */
    method Group() returns (exit: Ran<Outcome>, ghost choice: Choice)
      requires Sound()
      modifies this`queue, this`lost, this`applied, this`dropped, this`handed, this`latchedKill, this`faults,
               this`leaked, env
      ensures Sound() && old(env.Failures()) <= env.Failures() && old(handed) <= handed
      ensures leaked == old(leaked) + if env.Failures() == old(env.Failures()) then {}
                                      else Range(old(env.nextTicket), env.nextTicket)
      ensures env.nextTicket == old(env.nextTicket) + Count(choice)
      ensures choice == REFERENCE || choice == Chosen(env.world.offers(old(env.offered)), frozen, old(env.nextTicket))
      ensures Conducted(exit, choice, old(env.executed), old(env.asked), env.Failures() > old(env.Failures()))
      ensures if SeesDisagreement(choice, old(env.executed), old(env.asked) + 1)
              then AllQuarantined(faults, actionCount)
              else Quarantines(faults) == old(Quarantines(faults))
      ensures Taught(handed[|old(handed)|..], exit, choice, old(env.executed), old(env.asked) + 1,
                     env.Failures() > old(env.Failures()))
      ensures old(Asking(env.offered)) && WorkerReliable()
              && (frozen || env.world.statuses(old(env.asked)).Answers?) ==>
                choice == Chosen(env.world.offers(old(env.offered)), frozen, old(env.nextTicket))
      ensures MustLose(choice, old(env.executed), old(env.asked) + 1, old(env.saved)) ==>
              env.Failures() > old(env.Failures())
    {
      hide OnlineController.Booked;
      hide OnlineController.Unbooked;
      hide OnlineController.Delivered;
      hide OnlineController.Taught;
      hide OnlineController.SeesDisagreement;
      hide OnlineController.Asking;
      hide OnlineController.Accounts;
      hide OnlineController.Sound;
      hide Chosen;
      hide NewTickets;
      hide Quarantines;
      hide AllQuarantined;
      hide Environment.Failures;
      ghost var books, next, before := Booked(), env.nextTicket, env.Failures();
      SoundBooks();
      var raised, chosen := Decide();
      choice := chosen;
      if raised {
        NoDisagreement(old(env.executed), old(env.asked) + 1);
        assert handed[|old(handed)|..] == [];
        NothingHandedOver(Decisions(choice));
        StaysSound(books, old(leaked), Decisions(choice), next, true);
        exit := Failed;
        return;
      }
      ghost var at, asked, saved := env.executed, env.asked, env.saved;
      exit := Carry(chosen);
      OnlyPairsAsk(exit, choice, at, old(env.asked), asked, saved, env.Failures() > before);
      leaked := leaked + if env.Failures() > before then Range(next, env.nextTicket) else {};
      StaysSound(books, old(leaked), Decisions(choice), next, env.Failures() > before);
    }

    lemma SoundBooks()
      requires Sound()
      ensures env.nextTicket > 0 && LostSound(lost) && forall t :: t in leaked ==> t < env.nextTicket
      ensures forall t: nat :: Booked()[t] == if 0 < t < env.nextTicket && t !in leaked then 1 else 0
    {
    }

    /** Which status query comes next matters to a comparison, and to an alternative that is chosen, only. */
    lemma OnlyPairsAsk(exit: Ran<Outcome>, choice: Choice, at: nat, before: nat, asked: nat, saved: nat, raised: bool)
      requires Delivered(exit, choice, at, asked, raised)
      requires choice != REFERENCE && !frozen ==> asked == before + 1
      requires choice.Pair? ==> !frozen
      ensures Conducted(exit, choice, at, before, raised)
      ensures forall told :: Taught(told, exit, choice, at, asked, raised) ==>
              Taught(told, exit, choice, at, before + 1, raised)
      ensures SeesDisagreement(choice, at, asked) <==> SeesDisagreement(choice, at, before + 1)
      ensures MustLose(choice, at, asked, saved) <==> MustLose(choice, at, before + 1, saved)
    {
    }

    /** Something will raise before the tickets of this choice are handed over: saving the withdrawal of an alternative
        that failed, saving the quarantine after a disagreement, or asking how often the arms repeat. */
    ghost predicate MustLose(choice: Choice, at: nat, asked: nat, saved: nat) {
      || (SeesDisagreement(choice, at, asked) && Saves() && env.world.saves(saved))
      || (choice.Pair? && repeats && env.world.statuses(asked).Raises?)
      || (choice.Single? && !(verifyExploration && choice.decision.explores)
        && LosesToSave(choice.decision, at, asked, saved))
    }

    /** `run`: one group of requests. Its tickets, all the numbers issued meanwhile, are booked once each, or, exactly
        if a status query or a save raised, leaked. */
    method Run(requestCount: nat) returns (exit: Ran<Outcome>, ghost choice: Choice)
      requires Sound()
      modifies this, env
      ensures Sound() && pending == old(pending) && old(env.Failures()) <= env.Failures() && old(handed) <= handed
      ensures leaked == old(leaked) + if env.Failures() == old(env.Failures()) then {}
                                      else Range(old(env.nextTicket), env.nextTicket)
      ensures env.nextTicket == old(env.nextTicket) + Count(choice)
      ensures choice == REFERENCE || choice == Chosen(env.world.offers(old(env.offered)), frozen, old(env.nextTicket))
      ensures requests - completed - failed == old(requests - completed - failed)
      ensures requests == old(requests) + if old(closed) then 0 else requestCount
      ensures !old(closed) ==>
                completed == old(completed) + if exit.Returned? && exit.value.status == Ok then requestCount else 0
      ensures old(closed) ==> exit.Failed? && env.executed == old(env.executed) && faults == old(faults)
      ensures !old(closed) ==>
        && Conducted(exit, choice, old(env.executed), old(env.asked), env.Failures() > old(env.Failures()))
        && (if SeesDisagreement(choice, old(env.executed), old(env.asked) + 1) then AllQuarantined(faults, actionCount)
            else Quarantines(faults) == old(Quarantines(faults)))
      ensures !old(closed) ==> Taught(handed[|old(handed)|..], exit, choice, old(env.executed), old(env.asked) + 1,
                     env.Failures() > old(env.Failures()))
      ensures old(Asking(env.offered)) && WorkerReliable()
              && (frozen || env.world.statuses(old(env.asked)).Answers?) ==>
                choice == Chosen(env.world.offers(old(env.offered)), frozen, old(env.nextTicket))
      ensures !old(closed) && MustLose(choice, old(env.executed), old(env.asked) + 1, old(env.saved)) ==>
                env.Failures() > old(env.Failures())
    {
      hide OnlineController.Sound;
      hide OnlineController.Conducted;
      hide OnlineController.SeesDisagreement;
      hide OnlineController.MustLose;
      hide OnlineController.Taught;
      hide Quarantines;
      hide AllQuarantined;
      hide Environment.Failures;
      if closed {
        exit, choice := Failed, REFERENCE;
        return;
      }
      requests, pending := requests + requestCount, pending + 1;
      exit, choice := Group();
      if exit.Returned? && exit.value.status == Ok {
        completed := completed + requestCount;
      } else {
        failed := failed + requestCount;
      }
      pending := pending - 1;
    }

    lemma BookedBefore(next: nat)
      requires forall t: nat :: Booked()[t] == if 0 < t < next && t !in leaked then 1 else 0
      ensures forall t: nat :: t >= next ==> Booked()[t] == 0
    {
    }

    lemma NoDisagreement(at: nat, asked: nat)
      ensures !SeesDisagreement(REFERENCE, at, asked)
      ensures forall exit :: Taught([], exit, REFERENCE, at, asked, true)
    {
    }

    /** Booking the new tickets, or leaking them, keeps the books. */
    lemma StaysSound(before: multiset<nat>, gone: set<nat>, ds: seq<Decision>, next: nat, raised: bool)
      requires 0 < next <= env.nextTicket && NewTickets(ds, next, env.nextTicket)
      requires forall t: nat :: before[t] == if 0 < t < next && t !in gone then 1 else 0
      requires Accounts(before, ds, raised)
      requires leaked == gone + if raised then Range(next, env.nextTicket) else {}
      requires forall t :: t in gone ==> t < next
      ensures Sound()
    {
      hide Issued;
      hide OnlineController.Booked;
      forall t: nat
        ensures Booked()[t] == if 0 < t < env.nextTicket && t !in leaked then 1 else 0
      {
      }
    }

    /** Group after group, with the worker anywhere: every ticket ever issued is booked exactly once, except those that
        leaked, and none leaks unless a status query or a save raised. Every request is counted as completed or
        failed. */
    method Serve(groups: seq<nat>)
      requires Sound() && pending == 0 && requests == completed + failed
      modifies this, env
      ensures Sound() && pending == 0 && requests == completed + failed
      ensures old(env.Failures()) <= env.Failures() && old(env.nextTicket) <= env.nextTicket
      ensures env.Failures() == old(env.Failures()) ==> leaked == old(leaked)
    {
      hide OnlineController.Sound;
      hide Environment.Failures;
      for i := 0 to |groups|
        invariant Sound() && pending == 0 && requests == completed + failed
        invariant old(env.Failures()) <= env.Failures() && old(env.nextTicket) <= env.nextTicket
        invariant env.Failures() == old(env.Failures()) ==> leaked == old(leaked)
      {
        var exit;
        ghost var choice;
        exit, choice := Run(groups[i]);
      }
    }
  }

  /** Where nothing raises, nothing has failed. */
  lemma {:induction false} NothingRaises(w: World, n: nat)
    requires (forall i :: !w.statuses(i).Raises?) && forall i :: !w.saves(i)
    ensures StatusRaises(w, n) == SaveRaises(w, n) == 0
  {
    if n > 0 {
      NothingRaises(w, n - 1);
    }
  }

  const QUIET: nat -> bool := _ => false
  const UP: nat -> Answer := _ => Answers(true, 1)

  function Result(answer: int, text: int): Ran<Outcome> {
    Returned(Outcome(0, answer, Ok, Signed(text), 0, true, true))
  }

  /** Tickets are lost without any save: a comparison has its three tickets when the core's status raises. */
  method LostToStatus() returns (c: OnlineController)
    ensures c.Sound() && c.env.nextTicket == 4 && c.leaked == {1, 2, 3}
  {
    hide OnlineController.Sound;
    hide OnlineController.Conducted;
    hide OnlineController.SeesDisagreement;
    hide Quarantines;
    hide AllQuarantined;
    hide Environment.Failures;
    var world := World(QUIET, _ => Compare(0, 0, 1, 0), _ => Result(0, 0),
                       i => if i == 1 then Raises else Answers(true, 1), QUIET, QUIET);
    var env := new Environment(world);
    c := new OnlineController(env, 1, 2, false, true, false, true);
    var exit;
    ghost var choice;
    exit, choice := c.Run(1);
  }

  /** A ticket is lost to a save: an alternative fails that is active, and the checkpoint of its withdrawal raises. */
  method LostToSave() returns (c: OnlineController)
    ensures c.Sound() && c.env.nextTicket == 2 && c.leaked == {1}
  {
    hide OnlineController.Sound;
    hide OnlineController.Conducted;
    hide OnlineController.SeesDisagreement;
    hide Quarantines;
    hide AllQuarantined;
    hide Environment.Failures;
    var world := World(QUIET, _ => Decide(1, false, true), _ => Failed, UP, _ => true, QUIET);
    var env := new Environment(world);
    c := new OnlineController(env, 1, 2, false, true, true, true);
    var exit;
    ghost var choice;
    exit, choice := c.Run(1);
  }

  /** A world in which repetitions disagree, in the same way in every arm. */
  function SamePatternWorld(): World {
    World(QUIET, _ => Compare(0, 0, 1, 0), i => Result(i, i % 2), _ => Answers(true, 2), QUIET, QUIET)
  }

  lemma SamePatternMatches(w: World)
    requires w == SamePatternWorld()
    ensures ArmDone(w, 0, 6) && Disagree(w, 0, 2) && SamePattern(w, 0, 2)
    ensures Arms(w, 0, 0, 2).starts == map[0 := 0, 1 := 2, 2 := 4] && !Arms(w, 0, 0, 2).killed
    ensures !Detected(w, Arms(w, 0, 0, 2).starts, 2)
  {
    assert At(w, 0, 1).value.signature != At(w, 0, 0).value.signature;
    AllArmsDone(w, 0, 0, 2);
    hide Arms;
    hide Detected;
    BlockDone(w, 0, 2, 0, 0);
    BlockDone(w, 0, 2, 1, 2);
    BlockDone(w, 0, 2, 2, 4);
    forall j | 0 <= j < 2
      ensures SignaturesAt(w, 0, 2)[j] == SignaturesAt(w, 2, 2)[j] == SignaturesAt(w, 4, 2)[j]
    {
    }
    SamePatternBlocks(w, 0, 2);
    DisagreementSeen(w, 0, 0, 2);
  }

  /** Repetitions that disagree in the same way in every arm pass for a match: arm A is delivered, and nothing is
      quarantined. */
  method SamePatternUnseen() returns (c: OnlineController, exit: Ran<Outcome>)
    ensures c.env.world == SamePatternWorld() && ArmDone(c.env.world, 0, 6) && Disagree(c.env.world, 0, 2)
    ensures exit.Returned? && exit.value.action == 0 && exit.value.answer == 0 && Quarantines(c.faults) == {}
            && c.leaked == {}
  {
    hide OnlineController.Sound;
    hide OnlineController.MustLose;
    hide Environment.Failures;
    hide Arms;
    hide Disagree;
    hide Detected;
    hide AllQuarantined;
    var world := SamePatternWorld();
    var env := new Environment(world);
    c := new OnlineController(env, 1, 2, false, true, false, true);
    ghost var choice;
    exit, choice := c.Run(1);
    NothingFailed(env);
    SamePatternMatches(world);
  }

  /** A world whose second arm disagrees with the first, and whose third fails. */
  function UnfinishedWorld(): World {
    World(QUIET, _ => Compare(0, 0, 1, 0),
          i => if i == 0 then Result(0, 1) else if i == 1 then Result(1, 2) else Failed, UP, QUIET, QUIET)
  }

  lemma UnfinishedArms(w: World)
    requires w == UnfinishedWorld()
    ensures Arms(w, 0, 0, 1) == Progress(3, map[0 := 0, 1 := 1], Some(2), false, false)
  {
    assert At(w, 0, 0) == Result(0, 1) && At(w, 1, 0) == Result(1, 2) && At(w, 2, 0) == Failed;
    ArmStops(w, 0, 1, 1);
    ArmStops(w, 1, 1, 1);
    ArmStops(w, 2, 1, 0);
    hide ArmLength;
    hide ArmDone;
    assert ArmsUpTo(w, 0, 0, 1, 1) == Progress(1, map[0 := 0], None, false, false);
    assert ArmsUpTo(w, 0, 0, 1, 2) == Progress(2, map[0 := 0, 1 := 1], None, false, false);
  }

  /** Where an arm failed, the disagreement of the others is not looked at: arm A is delivered, and nothing is
      quarantined. */
  method UnfinishedUnseen() returns (c: OnlineController, exit: Ran<Outcome>)
    ensures c.env.world.outcomes(0) == Result(0, 1) && c.env.world.outcomes(1) == Result(1, 2)
            && c.env.world.outcomes(2).Failed?
    ensures exit.Returned? && exit.value.action == 0 && exit.value.answer == 0 && Quarantines(c.faults) == {}
            && c.leaked == {}
  {
    hide OnlineController.Sound;
    hide OnlineController.MustLose;
    hide Environment.Failures;
    hide Arms;
    hide AllQuarantined;
    var world := UnfinishedWorld();
    var env := new Environment(world);
    c := new OnlineController(env, 1, 2, false, true, false, false);
    ghost var choice;
    exit, choice := c.Run(1);
    NothingFailed(env);
    UnfinishedArms(world);
  }

  lemma NothingFailed(env: Environment)
    requires (forall i :: !env.world.statuses(i).Raises?) && forall i :: !env.world.saves(i)
    ensures env.Failures() == 0
  {
    NothingRaises(env.world, env.asked);
    NothingRaises(env.world, env.saved);
  }
}
