/** `AsyncGroupedB1Executor.run` and the slot bookkeeping `DenseStackedExecutor` adds to it. */
module Grouped {
  import opened Decoding
  import opened CacheContract
  import opened Serving
  import opened Executor
  import opened Grouping
  import opened Admission
  import opened Rotation

  /** `[s for s in ss if not s.done]`. */
  function Undone(ss: seq<Session>): seq<Session>
    reads ss
  {
    if ss == [] then []
    else (if ss[0].done then [] else [ss[0]]) + Undone(ss[1..])
  }

  lemma {:induction false} UndoneMembers(ss: seq<Session>)
    ensures forall i :: 0 <= i < |Undone(ss)| ==> Undone(ss)[i] in ss && !Undone(ss)[i].done
    ensures forall i :: 0 <= i < |ss| && !ss[i].done ==> ss[i] in Undone(ss)
    ensures NoRepeats(ss) ==> NoRepeats(Undone(ss))
  {
    if ss != [] {
      UndoneMembers(ss[1..]);
      assert forall i :: 1 <= i < |ss| ==> ss[i] == ss[1..][i - 1];
      if NoRepeats(ss) {
        PrependDistinct(ss[0], Undone(ss[1..]));
      }
    }
  }

  lemma PrependDistinct(s: Session, ss: seq<Session>)
    requires s !in ss && NoRepeats(ss)
    ensures NoRepeats([s] + ss)
  {
    var all := [s] + ss;
    forall i, j | 0 <= i < j < |all|
      ensures all[i] != all[j]
    {
      assert all[j] == ss[j - 1];
      if i > 0 {
        assert all[i] == ss[i - 1];
      }
    }
  }

  lemma {:induction false} UndoneConcat(a: seq<Session>, b: seq<Session>)
    ensures Undone(a + b) == Undone(a) + Undone(b)
  {
    if a == [] {
      assert a + b == b;
    } else {
      UndoneConcat(a[1..], b);
      assert (a + b)[1..] == a[1..] + b && (a + b)[0] == a[0];
    }
  }

  lemma {:induction false} UndoneNone(ss: seq<Session>)
    requires forall s :: s in ss ==> s.done
    ensures Undone(ss) == []
  {
    if ss != [] {
      UndoneNone(ss[1..]);
    }
  }

  /** What a session may still cost: nothing once it is done, otherwise its missing tokens and its end. */
  function Left(s: Session): nat
    reads s
  {
    if s.done then 0 else if s.job.limit > |s.tokens| then 1 + s.job.limit - |s.tokens| else 1
  }

  function Work(ss: seq<Session>): nat
    reads ss
  {
    if ss == [] then 0 else Left(ss[0]) + Work(ss[1..])
  }

  lemma {:induction false} WorkConcat(a: seq<Session>, b: seq<Session>)
    ensures Work(a + b) == Work(a) + Work(b)
  {
    if a == [] {
      assert a + b == b;
    } else {
      WorkConcat(a[1..], b);
      assert (a + b)[1..] == a[1..] + b && (a + b)[0] == a[0];
    }
  }

  lemma {:induction false} WorkOfUndone(ss: seq<Session>)
    ensures Work(Undone(ss)) == Work(ss)
  {
    if ss != [] {
      WorkOfUndone(ss[1..]);
      WorkConcat(if ss[0].done then [] else [ss[0]], Undone(ss[1..]));
    }
  }

  twostate lemma {:induction false} WorkFalls(ss: seq<Session>)
    requires forall s :: s in ss ==> old(allocated(s)) && Left(s) <= old(Left(s))
    ensures Work(ss) <= old(Work(ss))
    ensures (exists s :: s in ss && Left(s) < old(Left(s))) ==> Work(ss) < old(Work(ss))
  {
    if ss != [] {
      WorkFalls(ss[1..]);
      assert forall s :: s in ss <==> s == ss[0] || s in ss[1..];
    }
  }

  /** No two sessions of one run share an object. Their slots may have been reused. */
  ghost predicate Separate(ss: seq<Session>) {
    forall i, j :: 0 <= i < |ss| && 0 <= j < |ss| && i != j ==>
      ss[i] != ss[j] && (ss[i].stream != null ==> ss[i].stream != ss[j].stream)
  }

  datatype Turn = Over | Idle | Served | Raised

  /** A round as it begins: the queue, who waits for their arrival, everybody who is unfinished, and the time. */
  datatype Moment = Moment(queue: seq<Session>, waiting: seq<Session>, unfinished: set<Session>, clock: int) {
    /** Nobody unfinished is missing from the queue but those whose arrival is still to come. */
    ghost predicate Whole() {
      && unfinished == (set s | s in queue) + (set s | s in waiting)
      && forall i :: 0 <= i < |waiting| ==> clock < waiting[i].arrival
    }
  }

  /** What successive calls of `admit` hand over. */
  class Arrivals {
    const batches: seq<seq<Request>>
    var handed: nat

    constructor (batches: seq<seq<Request>>)
      ensures this.batches == batches && handed == 0
    {
      this.batches, handed := batches, 0;
    }

    ghost function Rest(): seq<seq<Request>>
      reads this`handed
    {
      if handed <= |batches| then batches[handed..] else []
    }

    method Next() returns (batch: seq<Request>)
      modifies this`handed
      ensures old(Rest()) == [] ==> batch == [] && Rest() == [] && handed == old(handed)
      ensures old(Rest()) != [] ==> batch == old(Rest())[0] && Rest() == old(Rest())[1..] && handed == old(handed) + 1
    {
      batch := [];
      if handed < |batches| {
        batch, handed := batches[handed], handed + 1;
      }
    }
  }

  class GroupedExecutor {
    const grouper: Grouper
    const backend: Backend := grouper.runner.backend
    const stacked: bool := grouper.stacked
    /** The sessions whose slots the dense plan's executor has not given back yet. */
    var owned: seq<Session>
    /** Every session of the dispatch, the admitted ones included. */
    var roster: seq<Session>
    /** Those of them whose slot nobody has released. */
    ghost var kept: seq<Session>
    /** Slots that are held for somebody else. */
    ghost var outside: set<int>
    /** The rounds of the run. */
    ghost var trace: seq<Moment>
    /** Sessions that were unfinished when they joined the run. */
    ghost var starters: set<Session>
    /** The batch whose building raised, if one did. */
    ghost var wreck: Option<Wreck>

    constructor (grouper: Grouper)
      ensures this.grouper == grouper && owned == []
    {
      this.grouper := grouper;
      owned, roster, kept, outside := [], [], [], {};
      trace, starters, wreck := [], {}, None;
    }

    /** The slots that a failed batch left held for nobody. */
    ghost function Leaked(): set<int>
      reads this`wreck
    {
      if wreck.None? then {} else wreck.value.Leaked()
    }

    /** How often something raised, aside from the failures that made a group fall back. */
    ghost function Uncaught(): int
      reads backend`raised, grouper.runner`fallbacks
    {
      backend.raised - grouper.runner.fallbacks
    }

    /** The run was handed a request that the backend has no capacity for. */
    ghost predicate Refusal()
      reads this`wreck
    {
      wreck.Some? && wreck.value.Refusal(backend.model)
    }

    /** What survives a failure: everybody is consistent, and whoever is unfinished still has an untouched prefill in a
        slot of its own. */
    ghost predicate Salvageable()
      reads this`roster, this`kept, backend`caches, roster, Streams(roster)
    {
      && Separate(roster) && (forall s :: s in roster ==> s.Consistent(backend.model))
      && Apart(kept) && (forall s :: s in kept ==> s in roster && Sound(backend.model, backend.caches, s))
      && (forall s :: s in roster && !s.done ==> s in kept)
    }

    /** Free slots, slots of this run and slots of others: nobody's slot is somebody else's. */
    ghost predicate SlotsAccounted()
      reads this`outside, this`kept, this`owned, backend`held
    {
      && backend.held == outside + Slots(kept) && outside !! Slots(kept)
      && (stacked ==> owned == kept)
    }

    /** The queue is exactly who is unfinished, each able to step. */
    ghost predicate Queued(queue: seq<Session>)
      reads this`roster, this`kept, backend`caches, roster, Streams(roster)
    {
      && NoRepeats(queue)
      && (forall s :: s in queue ==> s in roster && s in kept && !s.done && Steppable(backend.model, backend.caches, s))
      && (forall s :: s in roster && !s.done ==> s in queue)
    }

    ghost predicate Fleet(queue: seq<Session>)
      reads this`roster, this`kept, this`outside, this`owned, backend`caches, backend`held, roster, Streams(roster)
    {
      Salvageable() && SlotsAccounted() && Queued(queue)
    }

    /** `_sweep`: done sessions give their slots back, each exactly once. */
    method Sweep(ghost queue: seq<Session>)
      requires Fleet(queue)
      modifies this`owned, this`kept, backend`held, backend`idleReleases
      ensures Fleet(queue) && backend.idleReleases == old(backend.idleReleases)
      ensures stacked ==> owned == Undone(old(owned))
      ensures kept == old(kept) || kept == Undone(old(kept))
    {
      hide Sound;
      hide Apart;
      hide Separate;
      hide Steppable;
      hide Slots;
      hide Undone;
      hide NoRepeats;
      hide Session.Consistent;
      if !stacked {
        return;
      }
      ghost var all := owned;
      ReleaseDone();
      KeepUndone(all);
      UndoneMembers(all);
      owned := Undone(owned);
      kept := owned;
    }

    /** The releases of a sweep: one for every done session, none of a slot that is free or somebody else's. */
    method ReleaseDone()
      requires Salvageable() && SlotsAccounted() && stacked
      modifies backend`held, backend`idleReleases
      ensures backend.held == outside + Slots(Undone(owned)) && backend.idleReleases == old(backend.idleReleases)
    {
      hide Sound;
      hide Apart;
      hide Separate;
      hide Slots;
      hide Session.Consistent;
      NoSlots();
      assert owned[0..] == owned && owned[..0] == [];
      for i := 0 to |owned|
        invariant backend.held == outside + Slots(Undone(owned[..i])) + Slots(owned[i..])
        invariant backend.idleReleases == old(backend.idleReleases)
      {
        var session := owned[i];
        SplitAt(owned, i);
        SlotOfPlace(session);
        if session.done {
          SlotIsOnlyOnce(owned, i);
          backend.Release(session.state);
        }
      }
      assert owned[..|owned|] == owned && owned[|owned|..] == [];
    }

    lemma NoSlots()
      ensures Slots([]) == {} && Undone([]) == []
    {
    }

    lemma SlotOfPlace(s: Session)
      requires Sound(backend.model, backend.caches, s)
      ensures s.state.Some? <==> s.seat >= 0
      ensures s.state.Some? ==> s.state.value.slot == s.seat
      ensures Slots([s]) == if s.seat >= 0 then {s.seat} else {}
    {
      assert [s][0] == s;
    }

    lemma SplitAt(all: seq<Session>, i: nat)
      requires i < |all|
      ensures Slots(all[i..]) == Slots([all[i]]) + Slots(all[i + 1..])
      ensures Slots(Undone(all[..i + 1])) == Slots(Undone(all[..i])) + if all[i].done then {} else Slots([all[i]])
    {
      assert all[..i + 1] == all[..i] + [all[i]] && all[i..] == [all[i]] + all[i + 1..];
      UndoneConcat(all[..i], [all[i]]);
      assert Undone([all[i]]) == if all[i].done then [] else [all[i]];
    }

    /** Nobody else in the list has the slot that is about to be released. */
    lemma SlotIsOnlyOnce(all: seq<Session>, i: nat)
      requires Apart(all) && i < |all| && outside !! Slots(all)
      ensures all[i].seat >= 0 ==>
                all[i].seat !in outside && all[i].seat !in Slots(all[i + 1..])
                  && all[i].seat !in Slots(Undone(all[..i]))
    {
      UndoneMembers(all[..i]);
      if all[i].seat >= 0 {
        assert all[i] in all;
        forall s | s in all[i + 1..] || s in all[..i]
          ensures s.seat != all[i].seat
        {
          var j :| 0 <= j < |all| && j != i && all[j] == s;
          assert Untouched(all[i], all[j]);
        }
      }
    }

    lemma KeepUndone(all: seq<Session>)
      requires Apart(all)
      ensures Apart(Undone(all)) && Slots(Undone(all)) <= Slots(all)
    {
      UndoneMembers(all);
      var rest := Undone(all);
      assert NoRepeats(all) by {
        forall x, y | 0 <= x < y < |all|
          ensures all[x] != all[y]
        {
          assert Untouched(all[x], all[y]);
        }
      }
      forall i, j | 0 <= i < |rest| && 0 <= j < |rest| && i != j
        ensures Untouched(rest[i], rest[j])
      {
        assert rest[i] in rest && rest[j] in rest;
        var x :| 0 <= x < |all| && all[x] == rest[i];
        var y :| 0 <= y < |all| && all[y] == rest[j];
        assert rest[i] != rest[j];
        assert Untouched(all[x], all[y]);
      }
    }

    /** What admitting a batch must not disturb, and what it brings. */
    method BuildBatch(batch: seq<Request>, ghost queue: seq<Session>)
      returns (ok: bool, newcomers: seq<Session>, ghost own: set<int>)
      requires Fleet(queue) && Askable(backend.model, batch) && StreamsOf(batch) !! Streams(roster)
      modifies backend`caches, backend`held, backend`raised, StreamsOf(batch)
      ensures Askable(backend.model, batch) && Salvageable() && Queued(queue)
      ensures if ok then |newcomers| == |batch| && own == {} else Wreck(batch, newcomers, own).Valid()
      ensures backend.raised == old(backend.raised)
                                + if ok || Wreck(batch, newcomers, own).Refusal(backend.model) then 0 else 1
      ensures fresh(newcomers) && Apart(newcomers)
      ensures ok ==> forall i :: 0 <= i < |newcomers| ==>
              newcomers[i].stream == batch[i].stream && IsFor(newcomers[i], batch[i])
      ensures ok ==> forall s :: s in newcomers ==> BornDone(s)
      ensures ok ==> forall i :: 0 <= i < |newcomers| ==> Sound(backend.model, backend.caches, newcomers[i])
      ensures ok ==> forall i :: 0 <= i < |newcomers| ==>
                newcomers[i].Consistent(backend.model)
                && (!newcomers[i].done ==> Steppable(backend.model, backend.caches, newcomers[i]))
      ensures ok ==> forall s :: s in newcomers ==> s !in kept && (s.stream != null ==> s.stream !in Streams(kept))
      ensures Slots(newcomers) + own !! old(backend.held)
      ensures backend.held == old(backend.held) + Slots(newcomers) + own
    {
      hide Sound;
      hide Apart;
      hide Refused;
      hide Wreck.Valid;
      hide Separate;
      hide Steppable;
      hide Started;
      hide HeldUntouched;
      hide TokenStream.Honest;
      hide Session.Consistent;
      var m := backend.model;
      ghost var c0, h0 := backend.caches, backend.held;
      ok, newcomers, own := BuildSessions(backend, batch);
      forall s | s in kept
        ensures Sound(m, backend.caches, s)
        ensures old(Steppable(m, c0, s)) ==> Steppable(m, backend.caches, s)
      {
        assert s.seat >= 0 ==> s.seat in Slots(kept);
        Survives(m, c0, backend.caches, h0, s);
      }
      if !ok {
        return;
      }
      forall i | 0 <= i < |newcomers|
        ensures BornDone(newcomers[i])
        ensures newcomers[i].stream == batch[i].stream && IsFor(newcomers[i], batch[i])
        ensures Sound(m, backend.caches, newcomers[i])
        ensures newcomers[i].Consistent(m) && (!newcomers[i].done ==> Steppable(m, backend.caches, newcomers[i]))
      {
        StartedFacts(m, backend.caches, newcomers[i], batch[i]);
      }
      forall s | s in newcomers && s.stream != null
        ensures s.stream !in Streams(kept)
      {
        assert s.stream in StreamsOf(batch);
      }
    }

    /** A session just built is done only when it was cancelled before its prefill or its first token ended it. */
    ghost predicate BornDone(s: Session)
      reads s`done
    {
      s.done <==> s.seat < 0 || |Reference(backend.model, s.job)| <= 1
    }

    /** Those who joined with anything to generate are among these. */
    ghost predicate Starting(joined: seq<Session>, among: set<Session>) {
      forall i :: 0 <= i < |joined| && joined[i].seat >= 0 && |Reference(backend.model, joined[i].job)| > 1 ==>
        joined[i] in among
    }

    /** Everybody from place `first` of the roster on was admitted, and was unfinished then if there was anything to
        generate. */
    ghost predicate Admitted(first: nat)
      reads this`roster, this`starters
    {
      first <= |roster| && Starting(roster[first..], starters)
    }

    /** Sessions that arrived while the run was going join the queue. When building them raises, the slots its batch had
        already filled stay held for nobody. */
    method Admit(batch: seq<Request>, ghost queue: seq<Session>) returns (ok: bool, newcomers: seq<Session>)
      requires Fleet(queue) && Askable(backend.model, batch) && StreamsOf(batch) !! Streams(roster) && wreck.None?
      modifies this`owned, this`roster, this`kept, this`outside, this`starters, this`wreck
      modifies backend`caches, backend`held, backend`raised, StreamsOf(batch)
      ensures backend.raised == old(backend.raised) + if ok || Refusal() then 0 else 1
      ensures Askable(backend.model, batch)
      ensures ok ==> Fleet(queue + Undone(newcomers)) && roster == old(roster) + newcomers
      ensures fresh(newcomers)
      ensures ok ==> |newcomers| == |batch|
      ensures ok ==> forall i :: 0 <= i < |newcomers| ==>
              newcomers[i].stream == batch[i].stream && IsFor(newcomers[i], batch[i])
      ensures !ok ==> Fleet(queue) && roster == old(roster)
      ensures kept == if ok then old(kept) + newcomers else old(kept)
      ensures if ok then wreck.None?
              else wreck.Some? && wreck.value.Valid() && wreck.value.batch == batch && wreck.value.built == newcomers
      ensures outside == old(outside) + Leaked() && Leaked() !! old(outside)
      ensures starters == old(starters) + if ok then set s | s in newcomers && !s.done else {}
      ensures ok ==> Starting(newcomers, starters)
    {
      hide Sound;
      hide Wreck.Valid;
      hide GroupedExecutor.Starting;
      hide GroupedExecutor.BornDone;
      hide GroupedExecutor.Salvageable;
      hide GroupedExecutor.Queued;
      hide Apart;
      hide Separate;
      hide Steppable;
      hide Session.Consistent;
      hide NoRepeats;
      hide Slots;
      hide Undone;
      hide StreamsOf;
      hide Streams;
      hide Askable;
      ghost var own;
      ok, newcomers, own := BuildBatch(batch, queue);
      if !ok {
        wreck, outside := Some(Wreck(batch, newcomers, own)), outside + Slots(newcomers) + own;
        return;
      }
      starters := starters + set s | s in newcomers && !s.done;
      NewStarters(newcomers);
      Enroll(batch, newcomers, queue);
    }

    lemma NewStarters(newcomers: seq<Session>)
      requires forall s :: s in newcomers ==> BornDone(s) && (!s.done ==> s in starters)
      ensures Starting(newcomers, starters)
    {
      assert forall i :: 0 <= i < |newcomers| ==> newcomers[i] in newcomers;
    }

    /** The newcomers join the roster and the sessions whose slots this run has to give back. */
    method Enroll(batch: seq<Request>, newcomers: seq<Session>, ghost queue: seq<Session>)
      requires Salvageable() && Queued(queue) && Apart(newcomers) && Askable(backend.model, batch)
      requires forall i :: 0 <= i < |newcomers| ==>
                 newcomers[i] !in roster && Sound(backend.model, backend.caches, newcomers[i])
      requires forall i :: 0 <= i < |newcomers| ==>
                 newcomers[i].Consistent(backend.model)
                 && (!newcomers[i].done ==> Steppable(backend.model, backend.caches, newcomers[i]))
      requires forall s :: s in newcomers ==> s !in kept && (s.stream != null ==> s.stream !in Streams(kept))
      requires |newcomers| == |batch| && StreamsOf(batch) !! Streams(roster)
      requires forall i :: 0 <= i < |newcomers| ==> newcomers[i].stream == batch[i].stream
      requires Slots(newcomers) !! outside + Slots(kept) && backend.held == outside + Slots(kept) + Slots(newcomers)
      requires outside !! Slots(kept) && (stacked ==> owned == kept)
      modifies this`owned, this`roster, this`kept
      ensures Fleet(queue + Undone(newcomers)) && Askable(backend.model, batch)
      ensures roster == old(roster) + newcomers && kept == old(kept) + newcomers
    {
      hide Sound;
      hide Apart;
      hide Separate;
      hide Steppable;
      hide Session.Consistent;
      hide NoRepeats;
      hide Slots;
      hide Streams;
      hide Undone;
      UndoneMembers(newcomers);
      NewQueue(queue, newcomers);
      JoinKept(kept, newcomers);
      JoinRoster(roster, newcomers, batch);
      roster, kept := roster + newcomers, kept + newcomers;
      if stacked {
        owned := owned + newcomers;
      }
      assert Salvageable();
      assert SlotsAccounted();
    }

    lemma NewQueue(queue: seq<Session>, newcomers: seq<Session>)
      requires NoRepeats(queue) && Apart(newcomers) && forall s :: s in newcomers ==> s !in queue
      ensures NoRepeats(queue + Undone(newcomers))
    {
      forall i, j | 0 <= i < j < |newcomers|
        ensures newcomers[i] != newcomers[j]
      {
        assert Untouched(newcomers[i], newcomers[j]);
      }
      UndoneMembers(newcomers);
      var all := queue + Undone(newcomers);
      forall i, j | 0 <= i < j < |all|
        ensures all[i] != all[j]
      {
        assert i < |queue| ==> all[i] in queue;
        assert j >= |queue| ==> all[j] == Undone(newcomers)[j - |queue|] && all[j] in newcomers;
        assert i >= |queue| ==> all[i] == Undone(newcomers)[i - |queue|];
      }
    }

    lemma Survives(m: Model, before: Caches, after: Caches, held: set<int>, s: Session)
      requires Sound(m, before, s) && HeldUntouched(before, after, held) && (s.seat >= 0 ==> s.seat in held)
      ensures Sound(m, after, s)
      ensures Steppable(m, before, s) ==> Steppable(m, after, s)
    {
      if s.seat >= 0 {
        s.SeatedElsewhere(m, before, after);
      }
    }

    lemma StartedFacts(m: Model, caches: Caches, s: Session, request: Request)
      requires Started(m, caches, s, request)
      ensures s.stream == request.stream && IsFor(s, request) && Sound(m, caches, s) && s.Consistent(m)
      ensures !s.done ==> Steppable(m, caches, s)
      ensures s.done <==> s.seat < 0 || |Reference(m, s.job)| <= 1
    {
    }

    lemma JoinKept(a: seq<Session>, b: seq<Session>)
      requires Apart(a) && Apart(b) && Slots(a) !! Slots(b)
      requires forall s :: s in b ==> s !in a && (s.stream != null ==> s.stream !in Streams(a))
      ensures Apart(a + b) && Slots(a + b) == Slots(a) + Slots(b)
    {
      var all := a + b;
      forall i, j | 0 <= i < |all| && 0 <= j < |all| && i != j
        ensures Untouched(all[i], all[j])
      {
        assert i < |a| ==> all[i] == a[i] && all[i] in a;
        assert j < |a| ==> all[j] == a[j] && all[j] in a;
        assert i >= |a| ==> all[i] == b[i - |a|] && all[i] in b;
        assert j >= |a| ==> all[j] == b[j - |a|] && all[j] in b;
        assert all[i].seat >= 0 ==> all[i].seat in Slots(if i < |a| then a else b);
        assert all[j].seat >= 0 ==> all[j].seat in Slots(if j < |a| then a else b);
        assert all[i].stream != null && i < |a| ==> all[i].stream in Streams(a);
        assert all[j].stream != null && j < |a| ==> all[j].stream in Streams(a);
      }
    }

    lemma JoinRoster(a: seq<Session>, b: seq<Session>, requests: seq<Request>)
      requires Separate(a) && Apart(b) && |b| == |requests| && StreamsOf(requests) !! Streams(a)
      requires forall i :: 0 <= i < |b| ==> b[i] !in a && b[i].stream == requests[i].stream
      ensures Separate(a + b)
    {
      var all := a + b;
      forall i, j | 0 <= i < |all| && 0 <= j < |all| && i != j
        ensures all[i] != all[j] && (all[i].stream != null ==> all[i].stream != all[j].stream)
      {
        if i >= |a| && j >= |a| {
          assert Untouched(b[i - |a|], b[j - |a|]);
        }
        assert i < |a| ==> all[i] in a;
        assert j < |a| ==> all[j] in a;
        assert i >= |a| && all[i].stream != null ==>
               requests[i - |a|] in requests && all[i].stream in StreamsOf(requests);
        assert j >= |a| && all[j].stream != null ==>
               requests[j - |a|] in requests && all[j].stream in StreamsOf(requests);
        assert i < |a| && all[i].stream != null ==> all[i].stream in Streams(a);
        assert j < |a| && all[j].stream != null ==> all[j].stream in Streams(a);
      }
    }

    /** A queue in three parts: who was polled, who is still to be polled, and who has not arrived. */
    ghost function Line(rest: seq<Session>, later: seq<Session>, pending: seq<Session>): seq<Session> {
      rest + later + pending
    }

    method PollNext(ghost rest: seq<Session>, session: Session, ghost later: seq<Session>, ghost pending: seq<Session>)
      returns (stopped: bool)
      requires Fleet(Line(rest, [session] + later, pending))
      modifies session`done, session`stop
      ensures !stopped ==> Fleet(Line(rest + [session], later, pending))
      ensures stopped ==> Fleet(Line(rest, later, pending))
      ensures !old(session.done) && session.done == stopped
      ensures stopped ==> session in roster && session.done && session.stop == Cancelled
    {
      hide GroupedExecutor.Fleet;
      SplitQueue(rest, session, later, pending);
      stopped := Poll(rest, session, later + pending);
    }

    /** One poll of a session that could step: it stays in the queue, or is cancelled and leaves it. */
    method Poll(ghost before: seq<Session>, session: Session, ghost after: seq<Session>) returns (stopped: bool)
      requires Fleet(before + [session] + after)
      modifies session`done, session`stop
      ensures !stopped ==> Fleet(before + [session] + after)
      ensures !old(session.done) && session.done == stopped
      ensures stopped ==> Fleet(before + after) && session in roster && session.done && session.stop == Cancelled
    {
      hide Apart;
      hide Separate;
      hide Slots;
      hide Steppable;
      hide Sound;
      hide Session.Consistent;
      hide Session.Settled;
      ghost var all, less := before + [session] + after, before + after;
      assert all[|before|] == session;
      forall i | 0 <= i < |less|
        ensures less[i] != session && less[i] in all
      {
        assert less[i] == all[if i < |before| then i else i + 1];
      }
      assert NoRepeats(less) by {
        forall i, j | 0 <= i < j < |less|
          ensures less[i] != less[j]
        {
          assert less[i] == all[if i < |before| then i else i + 1] && less[j] == all[if j < |before| then j else j + 1];
        }
      }
      assert forall s :: s in all <==> s == session || s in less;
      stopped := PollSteppable(session);
    }

    method PollSteppable(session: Session) returns (stopped: bool)
      requires Steppable(backend.model, backend.caches, session) && Sound(backend.model, backend.caches, session)
      modifies session`done, session`stop
      ensures session.Consistent(backend.model) && Sound(backend.model, backend.caches, session)
      ensures stopped ==> session.done && session.stop == Cancelled
      ensures !stopped ==> !session.done && Steppable(backend.model, backend.caches, session)
    {
      stopped := session.StopIfCancelled(backend.model);
    }

    /** `[s for s in active if not _stop_if_cancelled(s)]`; `gone` are the ones it leaves out. */
    method DropCancelled(active: seq<Session>, ghost pending: seq<Session>)
      returns (rest: seq<Session>, ghost gone: set<Session>)
      requires Fleet(active + pending)
      modifies active`done, active`stop
      ensures Fleet(rest + pending) && |rest| <= |active|
      ensures forall p :: 0 <= p < |active| ==> active[p] in gone || WaitsBy(rest, p, active[p])
      ensures forall s :: s in gone ==> s in active && s in roster && s.done && s.stop == Cancelled
      ensures forall i :: 0 <= i < |rest| ==> rest[i] in active
      ensures forall s :: s in active && s.done ==> s in gone
      ensures Work(rest) <= old(Work(active))
    {
      hide GroupedExecutor.Fleet;
      hide GroupedExecutor.Line;
      hide Undone;
      rest, gone := [], {};
      LineEnds(active, pending);
      UndoneNone([]);
      DistinctActive(active, pending);
      for i := 0 to |active|
        invariant Fleet(Line(rest, active[i..], pending)) && rest == Undone(active[..i])
        invariant forall s :: s in active[..i] && s.done ==> s in gone
        invariant forall s :: s in gone ==> s in active[..i] && s in roster && s.done && s.stop == Cancelled
        invariant forall s :: s in active && old(s.done) ==> s.done
      {
        var session := active[i];
        assert session !in active[..i] && active[i..] == [session] + active[i + 1..];
        var stopped := PollNext(rest, session, active[i + 1..], pending);
        assert Undone(active[..i]) == rest;
        UndoneNext(active, i);
        if stopped {
          gone := gone + {session};
        } else {
          rest := rest + [session];
        }
      }
      assert active[|active|..] == [] && active[..|active|] == active;
      LineEnds(rest, pending);
      UndoneWaits(active);
      UndoneMembers(active);
      WorkOfUndone(active);
      WorkFalls(active);
    }

    lemma UndoneNext(active: seq<Session>, i: nat)
      requires i < |active|
      ensures Undone(active[..i + 1]) == Undone(active[..i]) + if active[i].done then [] else [active[i]]
    {
      assert active[..i + 1] == active[..i] + [active[i]];
      UndoneConcat(active[..i], [active[i]]);
      assert Undone([active[i]]) == if active[i].done then [] else [active[i]];
    }

    /** Whoever stays moves forward, never back. */
    lemma {:induction false} UndoneWaits(active: seq<Session>)
      ensures forall p :: 0 <= p < |active| && !active[p].done ==> WaitsBy(Undone(active), p, active[p])
      ensures |Undone(active)| <= |active|
    {
      if active != [] {
        UndoneWaits(active[1..]);
        var head, tail := if active[0].done then [] else [active[0]], Undone(active[1..]);
        forall p | 0 <= p < |active| && !active[p].done
          ensures WaitsBy(head + tail, p, active[p])
        {
          if p == 0 {
            assert (head + tail)[0] == active[0];
          } else {
            assert WaitsBy(tail, p - 1, active[1..][p - 1]);
            var q :| 0 <= q <= p - 1 && q < |tail| && tail[q] == active[p];
            assert (head + tail)[|head| + q] == active[p];
          }
        }
      }
    }

    lemma LineEnds(queue: seq<Session>, pending: seq<Session>)
      ensures Line([], queue[0..], pending) == queue + pending
      ensures Line(queue, [], pending) == queue + pending
    {
      assert queue[0..] == queue && [] + queue == queue && queue + [] == queue;
    }

    lemma SplitQueue(rest: seq<Session>, session: Session, later: seq<Session>, pending: seq<Session>)
      ensures rest + ([session] + later) + pending == rest + [session] + (later + pending)
      ensures rest + later + pending == rest + (later + pending)
      ensures (rest + [session]) + later + pending == rest + [session] + (later + pending)
    {
    }

    lemma DistinctActive(active: seq<Session>, pending: seq<Session>)
      requires Fleet(active + pending)
      ensures NoRepeats(active)
    {
      var queue := active + pending;
      assert forall i :: 0 <= i < |active| ==> active[i] == queue[i];
    }

    lemma GroupApart(group: seq<Session>, rest: seq<Session>)
      requires Fleet(group + rest)
      ensures Apart(group)
      ensures forall j :: 0 <= j < |group| ==> group[j] in kept && Steppable(backend.model, backend.caches, group[j])
    {
      hide Steppable;
      hide Sound;
      hide Untouched;
      var queue := group + rest;
      assert forall j :: 0 <= j < |group| ==> group[j] == queue[j] && queue[j] in queue;
      forall i, j | 0 <= i < |group| && 0 <= j < |group| && i != j
        ensures Untouched(group[i], group[j])
      {
        var x :| 0 <= x < |kept| && kept[x] == group[i];
        var y :| 0 <= y < |kept| && kept[y] == group[j];
        assert queue[i] != queue[j];
        assert Untouched(kept[x], kept[y]);
      }
    }

    /** A session outside the group shares neither object nor slot with it. */
    lemma OutsideGroup(group: seq<Session>, s: Session)
      requires Salvageable() && s in roster && s !in group && forall g :: g in group ==> g in kept
      ensures s.stream != null ==> s.stream !in Streams(group)
      ensures s in kept && s.seat >= 0 ==> s.seat !in Seats(group)
    {
      hide Sound;
      forall g | g in group
        ensures s.stream != null ==> s.stream != g.stream
        ensures s in kept && s.seat >= 0 ==> s.seat != g.seat
      {
        var x :| 0 <= x < |roster| && roster[x] == s;
        var y :| 0 <= y < |roster| && roster[y] == g;
        assert x != y;
        if s in kept {
          var a :| 0 <= a < |kept| && kept[a] == s;
          var b :| 0 <= b < |kept| && kept[b] == g;
          assert Untouched(kept[a], kept[b]);
        }
      }
    }

    /** The group of a round: what is left of it can step, and there is less left to do. */
    method ServeSome(group: seq<Session>, capacity: nat) returns (ok: bool)
      requires Apart(group) && group != []
      requires forall j :: 0 <= j < |group| ==> !group[j].done && Steppable(backend.model, backend.caches, group[j])
      modifies grouper`widths, grouper`served, grouper.runner`fallbacks, group, Streams(group)
      modifies backend`caches, backend`raised, backend`overruns
      ensures Uncaught() == old(Uncaught()) + if ok then 0 else 1
      ensures grouper.runner.fallbacks >= old(grouper.runner.fallbacks) + if ok then 0 else 1
      ensures backend.overruns == old(backend.overruns)
      ensures grouper.served == old(grouper.served) + [group]
      ensures KeptOutside(old(backend.caches), backend.caches, Seats(group))
      ensures forall s :: s in group ==> Sound(backend.model, backend.caches, s)
      ensures ok ==> forall s :: s in group && !s.done ==> Steppable(backend.model, backend.caches, s)
      ensures ok ==> Work(group) < old(Work(group))
    {
      hide Apart;
      hide Sound;
      hide Steppable;
      hide Seats;
      hide Streams;
      hide Session.Consistent;
      WorkIsPositive(group);
      var fellBack;
      ok, fellBack := grouper.ServeGroup(group, capacity);
      if ok && fellBack {
        AllDoneIsNoWork(group);
      } else if ok {
        MovedFalls(group);
      }
    }

    /** A round of the group at the head of the queue, seen by everybody else. */
    method ServeFirst(group: seq<Session>, ghost rest: seq<Session>, capacity: nat) returns (ok: bool)
      requires Fleet(group + rest) && group != []
      modifies grouper`widths, grouper`served, grouper.runner`fallbacks, group, Streams(group)
      modifies backend`caches, backend`raised, backend`overruns
      ensures Uncaught() == old(Uncaught()) + if ok then 0 else 1
      ensures grouper.runner.fallbacks >= old(grouper.runner.fallbacks) + if ok then 0 else 1
      ensures backend.overruns == old(backend.overruns)
      ensures Salvageable() && SlotsAccounted() && grouper.served == old(grouper.served) + [group]
      ensures forall s :: s in rest ==> s in kept && !s.done && Steppable(backend.model, backend.caches, s)
      ensures forall s :: s in group ==> s in kept
      ensures forall s :: s in roster && !s.done ==> s in group || s in rest
      ensures ok ==> forall s :: s in group && !s.done ==> Steppable(backend.model, backend.caches, s)
      ensures ok ==> Work(group) < old(Work(group))
    {
      hide Sound;
      hide Apart;
      hide Separate;
      hide Steppable;
      hide Work;
      hide Slots;
      hide Seats;
      hide Streams;
      hide Session.Consistent;
      var m := backend.model;
      ghost var c0 := backend.caches;
      GroupApart(group, rest);
      ghost var queue := group + rest;
      assert forall s :: s in queue <==> s in group || s in rest;
      forall s | s in roster && s !in group
        ensures s.stream != null ==> s.stream !in Streams(group)
        ensures s in kept && s.seat >= 0 ==> s.seat !in Seats(group)
      {
        OutsideGroup(group, s);
      }
      RestApart(group, rest);
      QueueIsUndone(group, rest);
      ok := ServeSome(group, capacity);
      forall s | s in kept
        ensures Sound(m, backend.caches, s)
      {
        if s !in group {
          assert Sound(m, c0, s);
          SoundElsewhere(m, c0, backend.caches, Seats(group), s);
        }
      }
      forall s | s in roster
        ensures s.Consistent(m)
      {
        if s in group {
          SoundIsConsistent(m, backend.caches, s);
        }
      }
      forall s | s in rest
        ensures s in kept && !s.done && Steppable(m, backend.caches, s)
      {
        assert Steppable(m, c0, s);
        SteppableElsewhere(m, c0, backend.caches, Seats(group), s);
      }
    }

    lemma RestApart(group: seq<Session>, rest: seq<Session>)
      requires Fleet(group + rest)
      ensures forall s :: s in rest ==> s !in group && s.seat >= 0
    {
      var queue := group + rest;
      forall s | s in rest
        ensures s !in group && s.seat >= 0
      {
        var i :| 0 <= i < |rest| && rest[i] == s;
        assert queue[|group| + i] == s && s in queue;
        SteppableIsSound(backend.model, backend.caches, s);
        assert forall j :: 0 <= j < |group| ==> queue[j] == group[j];
      }
    }

    /** Whoever waited behind the group is now at the front of the queue, and the group's unfinished sessions are at the
        back. */
    lemma Requeued(group: seq<Session>, waiting: seq<Session>, pending: seq<Session>)
      requires NoRepeats(group + waiting + pending)
      ensures NoRepeats(waiting + Undone(group) + pending) && NoRepeats(waiting + pending)
    {
      var queue, back := group + waiting + pending, Undone(group);
      assert forall i :: 0 <= i < |group| ==> queue[i] == group[i];
      assert forall i :: 0 <= i < |waiting| ==> queue[|group| + i] == waiting[i];
      assert forall i :: 0 <= i < |pending| ==> queue[|group| + |waiting| + i] == pending[i];
      UndoneMembers(group);
      var next := waiting + back + pending;
      forall i, j | 0 <= i < j < |next|
        ensures next[i] != next[j]
      {
        assert |waiting| <= i < |waiting| + |back| ==> next[i] == back[i - |waiting|] && next[i] in group;
        assert |waiting| <= j < |waiting| + |back| ==> next[j] == back[j - |waiting|] && next[j] in group;
      }
    }

    lemma {:induction false} WorkIsPositive(ss: seq<Session>)
      requires ss != [] && !ss[0].done
      ensures Work(ss) > 0
    {
    }

    lemma Assemble(group: seq<Session>, waiting: seq<Session>, pending: seq<Session>)
      requires Salvageable() && SlotsAccounted() && NoRepeats(waiting + Undone(group) + pending)
      requires forall s :: s in waiting || s in pending ==>
                 s in kept && !s.done && Steppable(backend.model, backend.caches, s)
      requires forall s :: s in group ==> s in kept && (!s.done ==> Steppable(backend.model, backend.caches, s))
      requires forall s :: s in roster && !s.done ==> s in group || s in waiting || s in pending
      ensures Fleet(waiting + Undone(group) + pending)
    {
      hide Steppable;
      KeptInRoster();
      hide GroupedExecutor.Salvageable;
      hide GroupedExecutor.SlotsAccounted;
      hide NoRepeats;
      UndoneMembers(group);
      var back, next := Undone(group), waiting + Undone(group) + pending;
      hide Undone;
      assert forall s :: s in next <==> s in waiting || s in back || s in pending;
    }

    lemma KeptInRoster()
      requires Salvageable()
      ensures forall s :: s in kept ==> s in roster
    {
    }

    /** The work of a round on a queue whose group, waiting members and pending sessions are told apart. */
    method ServeHead(group: seq<Session>, ghost waiting: seq<Session>, ghost pending: seq<Session>, capacity: nat)
      returns (ok: bool)
      requires group != [] && Fleet(group + (waiting + pending))
      modifies grouper`widths, grouper`served, grouper.runner`fallbacks, group, Streams(group)
      modifies backend`caches, backend`raised, backend`overruns
      ensures Uncaught() == old(Uncaught()) + if ok then 0 else 1
      ensures grouper.runner.fallbacks >= old(grouper.runner.fallbacks) + if ok then 0 else 1
      ensures backend.overruns == old(backend.overruns)
      ensures Salvageable() && SlotsAccounted() && grouper.served == old(grouper.served) + [group]
      ensures ok ==> Fleet(waiting + Undone(group) + pending)
      ensures ok ==> Work(waiting) + Work(group) < old(Work(waiting)) + old(Work(group))
    {
      hide Steppable;
      hide GroupedExecutor.Salvageable;
      hide GroupedExecutor.SlotsAccounted;
      hide Undone;
      ghost var rest := waiting + pending;
      QueueRepeats(group, waiting, pending);
      QueueIsUndone(group, rest);
      assert forall s :: s in waiting ==> s in rest && s !in group;
      ok := ServeFirst(group, rest, capacity);
      WorkFalls(waiting);
      if ok {
        assert forall s :: s in rest <==> s in waiting || s in pending;
        Requeued(group, waiting, pending);
        Assemble(group, waiting, pending);
      }
    }

    lemma QueueRepeats(group: seq<Session>, waiting: seq<Session>, pending: seq<Session>)
      requires Fleet(group + (waiting + pending))
      ensures NoRepeats(group + waiting + pending)
    {
      assert group + waiting + pending == group + (waiting + pending);
    }

    lemma {:induction false} AllDoneIsNoWork(group: seq<Session>)
      requires forall j :: 0 <= j < |group| ==> group[j].done
      ensures Work(group) == 0
    {
      if group != [] {
        AllDoneIsNoWork(group[1..]);
      }
    }

    /** The group of a round is the first `maxWidth` of its queue. */
    function Head(queue: seq<Session>): (group: seq<Session>)
      ensures group <= queue && (|group| == grouper.maxWidth || (|group| < grouper.maxWidth && group == queue))
    {
      queue[..if grouper.maxWidth < |queue| then grouper.maxWidth else |queue|]
    }

    /** One round: the group at the head of the queue is served and rotates to the back. A group that fell back is done,
        so nothing of it does. */
    method Round(active: seq<Session>, ghost pending: seq<Session>, capacity: nat)
      returns (ok: bool, next: seq<Session>)
      requires active != [] && Fleet(active + pending) && grouper.maxWidth > 0
      modifies grouper`widths, grouper`served, grouper.runner`fallbacks, active, Streams(active)
      modifies backend`caches, backend`raised, backend`overruns
      ensures Uncaught() == old(Uncaught()) + if ok then 0 else 1
      ensures grouper.runner.fallbacks >= old(grouper.runner.fallbacks) + if ok then 0 else 1
      ensures backend.overruns == old(backend.overruns)
      ensures Salvageable() && SlotsAccounted() && grouper.served == old(grouper.served) + [Head(active)]
      ensures ok ==> Fleet(next + pending) && Work(next) < old(Work(active))
      ensures ok ==> forall s :: s in next ==> s in active
      ensures ok ==> forall p :: grouper.maxWidth <= p < |active| ==> WaitsBy(next, p - grouper.maxWidth, active[p])
    {
      hide GroupedExecutor.Fleet;
      hide GroupedExecutor.Salvageable;
      hide GroupedExecutor.SlotsAccounted;
      hide Undone;
      hide Work;
      hide WaitsBy;
      var width := if grouper.maxWidth < |active| then grouper.maxWidth else |active|;
      var group := active[..width];
      assert group == Head(active);
      ghost var waiting := active[width..];
      SplitActive(active, width, pending);
      WorkConcat(group, waiting);
      StreamsWithin(group, active);
      ok := ServeHead(group, waiting, pending, capacity);
      UndoneMembers(group);
      WorkOfUndone(group);
      next := active[width..] + Undone(group);
      WorkConcat(active[width..], Undone(group));
      FrontWaits(active, width, Undone(group));
    }

    lemma SplitActive(active: seq<Session>, width: nat, pending: seq<Session>)
      requires width <= |active|
      ensures active == active[..width] + active[width..]
      ensures active + pending == active[..width] + (active[width..] + pending)
    {
    }

    lemma FrontWaits(active: seq<Session>, width: nat, back: seq<Session>)
      requires width <= |active|
      ensures forall p :: width <= p < |active| ==> WaitsBy(active[width..] + back, p - width, active[p])
    {
      forall p | width <= p < |active|
        ensures WaitsBy(active[width..] + back, p - width, active[p])
      {
        assert (active[width..] + back)[p - width] == active[p];
      }
    }

    lemma StreamsWithin(part: seq<Session>, whole: seq<Session>)
      requires forall s :: s in part ==> s in whole
      ensures Streams(part) <= Streams(whole)
    {
    }

    lemma QueueIsUndone(group: seq<Session>, rest: seq<Session>)
      requires Fleet(group + rest)
      ensures forall s :: s in group || s in rest ==> !s.done
      ensures forall s :: s in rest ==> s !in group
    {
      hide Steppable;
      hide Sound;
      var queue := group + rest;
      assert forall s :: s in group || s in rest ==> s in queue;
      assert forall i :: 0 <= i < |rest| ==> queue[|group| + i] == rest[i];
      assert forall i :: 0 <= i < |group| ==> queue[i] == group[i];
    }

    twostate lemma MovedFalls(group: seq<Session>)
      requires group != [] && forall j :: 0 <= j < |group| ==> old(allocated(group[j])) && !old(group[j].done)
      requires forall j :: 0 <= j < |group| ==> Moved(backend.model, backend.caches, group[j], old(|group[j].tokens|))
      ensures Work(group) < old(Work(group))
    {
      forall s | s in group
        ensures Left(s) < old(Left(s))
      {
        var j :| 0 <= j < |group| && group[j] == s;
        assert Moved(backend.model, backend.caches, group[j], old(|group[j].tokens|));
        if !s.done {
          UnfinishedIsShort(s);
        }
      }
      assert group[0] in group;
      WorkFalls(group);
    }

    lemma UnfinishedIsShort(s: Session)
      requires Steppable(backend.model, backend.caches, s)
      ensures |s.tokens| < s.job.limit
    {
    }

    /** Sessions whose arrival has come leave the pending list; one that is already done is only dropped. */
    method Due(active: seq<Session>, pending: seq<Session>, clock: int)
      returns (active': seq<Session>, pending': seq<Session>, clock': int)
      requires Fleet(active + Undone(pending)) && Elsewhere(active, pending)
      ensures Fleet(active' + Undone(pending')) && Elsewhere(active', pending')
      ensures |pending'| <= |pending| && clock <= clock'
      ensures active <= active' && (|pending'| == |pending| ==> active' == active && pending' == pending)
      ensures forall i :: 0 <= i < |pending'| ==> pending'[i] in pending
      ensures pending' != [] ==> clock' < pending'[0].arrival
      ensures pending != [] && clock >= pending[0].arrival ==> |pending'| < |pending|
    {
      hide GroupedExecutor.Fleet;
      active', pending', clock' := active, pending, clock;
      while pending' != [] && clock' >= pending'[0].arrival
        invariant Fleet(active' + Undone(pending')) && Elsewhere(active', pending')
        invariant |pending'| <= |pending| && clock <= clock'
        invariant active <= active'
        invariant |pending'| == |pending| ==> active' == active && pending' == pending && clock' == clock
        invariant forall i :: 0 <= i < |pending'| ==> pending'[i] in pending
        decreases |pending'|
      {
        var session := pending'[0];
        if !session.done {
          assert Undone(pending') == [session] + Undone(pending'[1..]);
          assert active' + Undone(pending') == (active' + [session]) + Undone(pending'[1..]);
          active' := active' + [session];
        } else {
          assert Undone(pending') == Undone(pending'[1..]);
        }
        pending' := pending'[1..];
        var later: int :| later >= 0;
        clock' := clock' + later;
      }
    }

    /** The pending list is in the order of arrival, and none of it is in the active queue. */
    ghost predicate Elsewhere(active: seq<Session>, pending: seq<Session>) {
      ByArrival(pending) && NoRepeats(pending) && forall i :: 0 <= i < |pending| ==> pending[i] !in active
    }

    twostate lemma {:induction false} UndoneSame(ss: seq<Session>)
      requires forall i :: 0 <= i < |ss| ==> old(allocated(ss[i])) && ss[i].done == old(ss[i].done)
      ensures Undone(ss) == old(Undone(ss))
    {
      if ss != [] {
        UndoneSame(ss[1..]);
      }
    }

    lemma WaitsBehind(active: seq<Session>, more: seq<Session>)
      ensures forall p :: 0 <= p < |active| ==> WaitsBy(active + more, p, active[p])
    {
      forall p | 0 <= p < |active|
        ensures WaitsBy(active + more, p, active[p])
      {
        assert (active + more)[p] == active[p];
      }
    }

    lemma NewcomersInFront(active: seq<Session>, newcomers: seq<Session>, pending: seq<Session>)
      requires Fleet(active + pending + newcomers)
      ensures Fleet(active + newcomers + pending)
    {
      hide Steppable;
      hide GroupedExecutor.Salvageable;
      hide GroupedExecutor.SlotsAccounted;
      var a, b := active + pending + newcomers, active + newcomers + pending;
      forall i, j | 0 <= i < j < |b|
        ensures b[i] != b[j]
      {
        assert b[i] == a[CameFrom(|active|, |newcomers|, |pending|, i)];
        assert b[j] == a[CameFrom(|active|, |newcomers|, |pending|, j)];
      }
      assert forall s :: s in a <==> s in active || s in pending || s in newcomers;
      assert forall s :: s in b <==> s in active || s in pending || s in newcomers;
    }

    function CameFrom(a: nat, n: nat, p: nat, i: nat): nat {
      if i < a then i else if i < a + n then i + p else i - n
    }

    ghost function Queues(rounds: seq<Moment>): (queues: seq<seq<Session>>)
      ensures |queues| == |rounds|
    {
      seq(|rounds|, r requires 0 <= r < |rounds| => rounds[r].queue)
    }

    ghost function Groups(rounds: seq<Moment>): (groups: seq<seq<Session>>)
      ensures |groups| == |rounds|
    {
      seq(|rounds|, r requires 0 <= r < |rounds| => Head(rounds[r].queue))
    }

    /** Since `served`, the groups that were served are the heads of the queues in the trace, in which nobody was
        missing. */
    ghost predicate Traced(served: seq<seq<Session>>)
      reads this`trace, grouper`served
    {
      && grouper.served == served + Groups(trace)
      && forall r :: 0 <= r < |trace| ==> trace[r].Whole()
    }

    ghost predicate InQueue(rounds: seq<Moment>, s: Session) {
      exists r :: 0 <= r < |rounds| && s in rounds[r].queue
    }

    /** Whoever is done by now was in a queue, or left it cancelled, or was done when it joined. */
    ghost predicate Seen(gone: set<Session>)
      reads this`trace, this`starters, starters
    {
      SeenAmong(starters, gone)
    }

    ghost predicate SeenAmong(ss: set<Session>, gone: set<Session>)
      reads this`trace, ss
    {
      forall s :: s in ss && s.done ==> s in gone || InQueue(trace, s)
    }

    /** Newcomers do not change that. */
    lemma NewcomersJoin(before: set<Session>, known: seq<Session>, newcomers: seq<Session>, gone: set<Session>,
                        first: nat)
      requires SeenAmong(before, gone) && starters == before + set s | s in newcomers && !s.done
      requires roster == known + newcomers && first <= |known|
      requires Starting(known[first..], before) && Starting(newcomers, starters)
      ensures Seen(gone) && Admitted(first)
    {
      assert roster[first..] == known[first..] + newcomers;
    }

    lemma NobodyDone()
      requires starters == Unfinished()
      ensures Seen({})
    {
    }

    ghost function Unfinished(): set<Session>
      reads this`roster, roster
    {
      set s | s in roster && !s.done
    }

    lemma MoreRounds(rounds: seq<Moment>, t: Moment)
      ensures Queues(rounds + [t]) == Queues(rounds) + [t.queue]
      ensures Groups(rounds + [t]) == Groups(rounds) + [Head(t.queue)]
      ensures forall s :: s in t.queue ==> InQueue(rounds + [t], s)
    {
      assert (rounds + [t])[|rounds|] == t;
    }

    lemma StillInQueue(rounds: seq<Moment>, t: Moment, s: Session)
      requires InQueue(rounds, s)
      ensures InQueue(rounds + [t], s)
    {
      var r :| 0 <= r < |rounds| && s in rounds[r].queue;
      assert (rounds + [t])[r] == rounds[r];
    }

    /** Everybody who is unfinished is in the queue, or waits for an arrival that has not come. */
    lemma NobodyMissing(active: seq<Session>, pending: seq<Session>, clock: int)
      requires Fleet(active + Undone(pending)) && Elsewhere(active, pending)
      requires pending != [] ==> clock < pending[0].arrival
      ensures Moment(active, Undone(pending), Unfinished(), clock).Whole()
    {
      hide Steppable;
      hide GroupedExecutor.Salvageable;
      hide GroupedExecutor.SlotsAccounted;
      hide Undone;
      UndoneMembers(pending);
      var queue := active + Undone(pending);
      assert forall s :: s in queue <==> s in active || s in Undone(pending);
      forall i | 0 <= i < |Undone(pending)|
        ensures clock < Undone(pending)[i].arrival
      {
        var j :| 0 <= j < |pending| && pending[j] == Undone(pending)[i];
        assert j > 0 ==> NoLater(pending[0], pending[j]);
      }
    }

    /** The round trace, and that nobody loses a place in it. */
    ghost predicate Fair(rounds: seq<seq<Session>>, active: seq<Session>, gone: set<Session>)
    {
      && Rotates(rounds, grouper.maxWidth, gone)
      && (rounds != [] ==> Carried(rounds[|rounds| - 1], active, grouper.maxWidth, gone))
    }

    /** Whoever left the queue for good left it cancelled. */
    ghost predicate Orderly(rounds: seq<seq<Session>>, gone: set<Session>)
      reads this`roster, gone
    {
      && Rotates(rounds, grouper.maxWidth, gone)
      && forall s :: s in gone ==> s in roster && s.done && s.stop == Cancelled
    }

    lemma FairIsOrderly(rounds: seq<seq<Session>>, active: seq<Session>, gone: set<Session>)
      requires Fair(rounds, active, gone) && forall s :: s in gone ==> s in roster && s.done && s.stop == Cancelled
      ensures Orderly(rounds, gone)
    {
    }

    lemma StaysFair(rounds: seq<seq<Session>>, active: seq<Session>, later: seq<Session>, gone: set<Session>,
                    more: set<Session>)
      requires Fair(rounds, active, gone) && gone <= more
      requires forall p :: 0 <= p < |active| ==> active[p] in more || WaitsBy(later, p, active[p])
      ensures Fair(rounds, later, more)
    {
      forall r | 0 <= r < |rounds| - 1
        ensures Carried(rounds[r], rounds[r + 1], grouper.maxWidth, more)
      {
        assert Carried(rounds[r], rounds[r + 1], grouper.maxWidth, gone);
      }
      if rounds != [] {
        CarriedFurther(rounds[|rounds| - 1], active, later, grouper.maxWidth, gone, more);
      }
    }

    ghost function AllStreams(batches: seq<seq<Request>>): set<TokenStream> {
      set i, x | 0 <= i < |batches| && x in StreamsOf(batches[i]) :: x
    }

    /** Batches still to arrive: no stream is asked for twice. */
    ghost predicate Upcoming(batches: seq<seq<Request>>, used: set<TokenStream>)
      reads AllStreams(batches)
    {
      && (forall i :: 0 <= i < |batches| ==> Askable(backend.model, batches[i]) && StreamsOf(batches[i]) !! used)
      && (forall i, j :: 0 <= i < j < |batches| ==> StreamsOf(batches[i]) !! StreamsOf(batches[j]))
    }

    /** Everybody in this run came with it or was admitted by it. */
    ghost predicate Accounted(everybody: seq<Session>, sessions: seq<Session>, streams: set<TokenStream>,
                              newer: set<Session>)
    {
      && (forall i :: 0 <= i < |everybody| ==> everybody[i] in sessions || everybody[i] in newer)
      && Streams(everybody) <= streams && sessions <= everybody
    }

    /** A batch that raised is on record, and its slots are the only ones held for nobody that were not before. */
    ghost predicate Aftermath(ok: bool, batch: seq<Request>, before: set<int>)
      reads this`wreck, this`outside
    {
      && (if ok then wreck.None? else wreck.Some? && wreck.value.Valid() && wreck.value.batch == batch)
      && outside == before + Leaked() && Leaked() !! before
    }

    /** What the run takes in before a round: the sweep, then the next batch that arrived. */
    method Take(batch: seq<Request>, active: seq<Session>, ghost pending: seq<Session>)
      returns (ok: bool, active': seq<Session>, ghost newcomers: seq<Session>)
      requires Fleet(active + pending) && Askable(backend.model, batch) && StreamsOf(batch) !! Streams(roster)
               && wreck.None?
      modifies this`owned, this`roster, this`kept, this`outside, this`starters, this`wreck, backend, StreamsOf(batch)
      ensures backend.raised == old(backend.raised) + if ok || Refusal() then 0 else 1
      ensures backend.overruns == old(backend.overruns)
      ensures backend.idleReleases == old(backend.idleReleases)
      ensures ok ==> Fleet(active' + pending) && active' == active + Undone(newcomers)
      ensures ok ==> roster == old(roster) + newcomers && |newcomers| == |batch|
      ensures ok ==> forall i :: 0 <= i < |newcomers| ==> newcomers[i].stream == batch[i].stream
      ensures Joined(old(roster), roster, if ok then batch else [])
      ensures fresh(newcomers)
      ensures !ok ==> Salvageable() && SlotsAccounted() && roster == old(roster)
      ensures Aftermath(ok, batch, old(outside))
      ensures starters == old(starters) + if ok then set s | s in newcomers && !s.done else {}
      ensures ok ==> Starting(newcomers, starters)
    {
      hide Steppable;
      hide GroupedExecutor.Salvageable;
      hide GroupedExecutor.SlotsAccounted;
      hide GroupedExecutor.Queued;
      hide GroupedExecutor.Starting;
      hide GroupedExecutor.Leaked;
      hide Wreck.Valid;
      hide GroupedExecutor.Joined;
      JoinedNone(roster);
      Sweep(active + pending);
      var fresh';
      ok, fresh' := Admit(batch, active + pending);
      newcomers := fresh';
      active' := active + Undone(fresh');
      if ok {
        JoinedBatch(old(roster), newcomers, batch);
        NewcomersInFront(active, Undone(newcomers), pending);
      }
    }

    lemma UpcomingTail(batches: seq<seq<Request>>, used: set<TokenStream>, more: set<TokenStream>)
      requires batches != [] && Upcoming(batches, used) && more <= used + StreamsOf(batches[0])
      ensures Upcoming(batches[1..], more) && AllStreams(batches[1..]) <= AllStreams(batches) - StreamsOf(batches[0])
      ensures StreamsOf(batches[0]) <= AllStreams(batches)
    {
      var tail := batches[1..];
      forall i | 0 <= i < |tail|
        ensures Askable(backend.model, tail[i]) && StreamsOf(tail[i]) !! more
      {
        assert tail[i] == batches[i + 1];
        assert StreamsOf(batches[0]) !! StreamsOf(batches[i + 1]);
      }
    }

    lemma NewStreams(batch: seq<Request>, newcomers: seq<Session>, before: seq<Session>)
      requires |newcomers| == |batch|
      requires forall i :: 0 <= i < |newcomers| ==> newcomers[i].stream == batch[i].stream
      ensures Streams(before + newcomers) <= Streams(before) + StreamsOf(batch)
    {
      forall x | x in Streams(before + newcomers)
        ensures x in Streams(before) + StreamsOf(batch)
      {
        var s :| s in before + newcomers && s.stream == x;
        if s !in before {
          var i :| 0 <= i < |newcomers| && newcomers[i] == s;
          assert batch[i] in batch && batch[i].stream == x;
        }
      }
    }

    /** Who is in the run, who still comes to it, and who left its queue cancelled. */
    ghost predicate Company(pending: seq<Session>, gone: set<Session>, remaining: seq<seq<Request>>,
                            sessions: seq<Session>, streams: set<TokenStream>, newer: set<Session>)
      reads this`roster, gone, AllStreams(remaining)
    {
      && Accounted(roster, sessions, streams, newer)
      && (forall i :: 0 <= i < |pending| ==> pending[i] in sessions)
      && (forall s :: s in gone ==> s in roster && s.done && s.stop == Cancelled)
      && Upcoming(remaining, Streams(roster)) && AllStreams(remaining) <= streams
    }

    /** What holds between any two moments of `run`. */
    ghost predicate Going(active: seq<Session>, pending: seq<Session>, rounds: seq<seq<Session>>, gone: set<Session>,
                          remaining: seq<seq<Request>>, sessions: seq<Session>, streams: set<TokenStream>,
                          newer: set<Session>)
      reads this`roster, this`kept, this`outside, this`owned, backend`caches, backend`held
      reads roster, Streams(roster), pending, gone, AllStreams(remaining)
    {
      && Fleet(active + Undone(pending)) && Elsewhere(active, pending) && Fair(rounds, active, gone)
      && Company(pending, gone, remaining, sessions, streams, newer)
    }

    /** The roster grew by one session for each of these requests, in their order. */
    ghost predicate Joined(before: seq<Session>, after: seq<Session>, requests: seq<Request>) {
      && |after| == |before| + |requests| && after[..|before|] == before
      && forall i :: 0 <= i < |requests| ==> IsFor(after[|before| + i], requests[i])
    }

    lemma JoinedNone(before: seq<Session>)
      ensures Joined(before, before, [])
    {
    }

    lemma JoinedBatch(before: seq<Session>, newcomers: seq<Session>, batch: seq<Request>)
      requires |newcomers| == |batch| && forall i :: 0 <= i < |batch| ==> IsFor(newcomers[i], batch[i])
      ensures Joined(before, before + newcomers, batch)
    {
    }

    lemma JoinedTwice(a: seq<Session>, b: seq<Session>, c: seq<Session>, first: seq<Request>, second: seq<Request>)
      requires Joined(a, b, first) && Joined(b, c, second)
      ensures Joined(a, c, first + second)
    {
      assert c[..|a|] == c[..|b|][..|a|];
      forall i | 0 <= i < |first + second|
        ensures IsFor(c[|a| + i], (first + second)[i])
      {
        if i < |first| {
          assert c[|a| + i] == c[..|b|][|a| + i];
        }
      }
    }

    /** The requests of the first batches. */
    function AllOf(batches: seq<seq<Request>>): seq<Request> {
      if batches == [] then [] else AllOf(batches[..|batches| - 1]) + batches[|batches| - 1]
    }

    /** The next batch, if there is one, joins the run. */
    method TakeBatch(source: Arrivals, ghost remaining: seq<seq<Request>>, active: seq<Session>,
                     ghost pending: seq<Session>, ghost batch: seq<Request>, ghost gone: set<Session>, ghost first: nat)
      returns (ok: bool, active': seq<Session>, ghost newcomers: seq<Session>)
      requires Fleet(active + pending) && Askable(backend.model, batch) && StreamsOf(batch) !! Streams(roster)
      requires remaining == source.Rest() && batch == (if remaining == [] then [] else remaining[0]) && wreck.None?
      requires Seen(gone) && Admitted(first)
      modifies this`owned, this`roster, this`kept, this`outside, this`starters, this`wreck
      modifies source`handed, backend, StreamsOf(batch)
      ensures backend.raised == old(backend.raised) + if ok || Refusal() then 0 else 1
      ensures backend.overruns == old(backend.overruns)
      ensures backend.idleReleases == old(backend.idleReleases)
      ensures ok ==> Fleet(active' + pending) && active' == active + Undone(newcomers)
      ensures ok ==> roster == old(roster) + newcomers && |newcomers| == |batch|
      ensures ok ==> forall i :: 0 <= i < |newcomers| ==> newcomers[i].stream == batch[i].stream
      ensures Joined(old(roster), roster, if ok then batch else []) && fresh(newcomers)
      ensures !ok ==> Salvageable() && SlotsAccounted() && roster == old(roster) && batch != []
      ensures source.Rest() == if remaining == [] then [] else remaining[1..]
      ensures source.handed == old(source.handed) + if remaining == [] then 0 else 1
      ensures Aftermath(ok, batch, old(outside)) && (ok <==> wreck.None?)
      ensures Seen(gone) && Admitted(first) && old(starters) <= starters
    {
      hide GroupedExecutor.Fleet;
      hide GroupedExecutor.Joined;
      hide GroupedExecutor.SeenAmong;
      hide GroupedExecutor.Starting;
      hide GroupedExecutor.Salvageable;
      hide GroupedExecutor.SlotsAccounted;
      hide Wreck.Valid;
      hide Undone;
      var given := source.Next();
      ghost var known, had := roster, starters;
      ok, active', newcomers := Take(given, active, pending);
      if ok {
        NewcomersJoin(had, known, newcomers, gone, first);
      } else {
        NothingWrecked();
        assert starters == had && roster == known;
      }
    }

    method TakeTurn(source: Arrivals, ghost remaining: seq<seq<Request>>, active: seq<Session>,
                    ghost pending: seq<Session>, ghost rounds: seq<seq<Session>>, ghost gone: set<Session>,
                    ghost sessions: seq<Session>, ghost streams: set<TokenStream>, ghost newer: set<Session>)
      returns (ok: bool, ghost remaining': seq<seq<Request>>, active': seq<Session>, ghost newer': set<Session>,
               ghost took: seq<Request>)
      requires Going(active, pending, rounds, gone, remaining, sessions, streams, newer) && wreck.None?
      requires remaining == source.Rest() && Seen(gone) && Admitted(|sessions|)
      modifies this`owned, this`roster, this`kept, this`outside, this`starters, this`wreck
      modifies source`handed, backend, AllStreams(remaining)
      ensures backend.raised == old(backend.raised) + if ok || Refusal() then 0 else 1
      ensures backend.overruns == old(backend.overruns)
      ensures backend.idleReleases == old(backend.idleReleases)
      ensures ok ==> Going(active', pending, rounds, gone, remaining', sessions, streams, newer')
      ensures newer <= newer' && fresh(newer' - newer)
      ensures AllStreams(remaining') <= AllStreams(remaining)
      ensures |remaining'| < |remaining| || (remaining' == remaining && (ok ==> Work(active') <= old(Work(active))))
      ensures !ok ==> Orderly(rounds, gone)
      ensures !ok ==> Salvageable() && SlotsAccounted()
      ensures !ok ==> Accounted(roster, sessions, streams, newer')
      ensures Joined(old(roster), roster, took)
      ensures took == if ok && remaining != [] then remaining[0] else []
      ensures remaining' == if remaining == [] then [] else remaining[1..]
      ensures remaining' == source.Rest() && source.handed == old(source.handed) + if remaining == [] then 0 else 1
      ensures (ok <==> wreck.None?) && (!ok ==> remaining != [])
      ensures Aftermath(ok, if remaining == [] then [] else remaining[0], old(outside))
      ensures Seen(gone) && Admitted(|sessions|) && old(starters) <= starters
    {
      hide GroupedExecutor.Fleet;
      hide GroupedExecutor.Fair;
      hide GroupedExecutor.Upcoming;
      hide Undone;
      hide GroupedExecutor.Joined;
      hide GroupedExecutor.Aftermath;
      hide GroupedExecutor.Seen;
      hide Work;
      hide GroupedExecutor.Orderly;
      hide GroupedExecutor.Refusal;
      hide GroupedExecutor.Admitted;
      FairIsOrderly(rounds, active, gone);
      ghost var batch := if remaining == [] then [] else remaining[0];
      remaining' := if remaining == [] then [] else remaining[1..];
      ghost var known, newcomers, taken := roster, [], Streams(roster) + StreamsOf(batch);
      UpcomingRest(remaining, Streams(roster), taken, batch);
      ok, active', newcomers := TakeBatch(source, remaining, active, Undone(pending), batch, gone, |sessions|);
      newer' := newer + set s | s in newcomers;
      took := if ok then batch else [];
      if !ok {
        return;
      }
      UndoneSame(pending);
      WorkFalls(active);
      assert batch == [] ==> newcomers == [] && active + [] == active;
      NewStreams(batch, newcomers, known);
      UpcomingLess(remaining', taken, Streams(roster));
      AfterTake(known, sessions, streams, newer, rounds, active, pending, newcomers, gone, batch);
      UndoneNone([]);
    }

    /** Building an empty batch cannot raise. */
    lemma NothingWrecked()
      requires wreck.Some? && wreck.value.Valid()
      ensures wreck.value.batch != []
    {
    }

    /** Between the batch and the round: arrivals that are due, then the polls. */
    method PollTurn(active: seq<Session>, pending: seq<Session>, clock: int, ghost rounds: seq<seq<Session>>,
                    ghost gone: set<Session>, ghost remaining: seq<seq<Request>>, ghost sessions: seq<Session>,
                    ghost streams: set<TokenStream>, ghost newer: set<Session>)
      returns (active': seq<Session>, pending': seq<Session>, clock': int, ghost gone': set<Session>)
      requires Going(active, pending, rounds, gone, remaining, sessions, streams, newer) && Seen(gone)
      modifies sessions, newer
      ensures Seen(gone') && (pending' != [] ==> clock' < pending'[0].arrival)
      ensures Going(active', pending', rounds, gone', remaining, sessions, streams, newer)
      ensures |pending'| <= |pending| && clock <= clock'
      ensures |pending'| == |pending| ==> pending' == pending && Work(active') <= old(Work(active))
      ensures pending != [] && clock >= pending[0].arrival ==> |pending'| < |pending|
    {
      hide GroupedExecutor.Fleet;
      hide GroupedExecutor.Fair;
      hide GroupedExecutor.Upcoming;
      hide Undone;
      hide Work;
      var joined;
      ghost var dropped;
      joined, pending', clock' := Due(active, pending, clock);
      AfterDue(rounds, active, joined, gone);
      ActiveWithin(joined, Undone(pending'), sessions, streams, newer);
      active', dropped := DropCancelled(joined, Undone(pending'));
      UndoneSame(pending');
      AfterDrop(rounds, joined, active', pending', gone, dropped);
      gone' := gone + dropped;
    }

    method RoundTurn(active: seq<Session>, ghost pending: seq<Session>, ghost clock: int, capacity: nat,
                     ghost rounds: seq<seq<Session>>, ghost served: seq<seq<Session>>, ghost gone: set<Session>,
                     ghost remaining: seq<seq<Request>>, ghost sessions: seq<Session>,
                     ghost streams: set<TokenStream>, ghost newer: set<Session>)
      returns (ok: bool, active': seq<Session>)
      requires Going(active, pending, rounds, gone, remaining, sessions, streams, newer)
      requires active != [] && grouper.maxWidth > 0 && (pending != [] ==> clock < pending[0].arrival)
      requires Traced(served) && rounds == Queues(trace) && Seen(gone)
      modifies this`trace, grouper`widths, grouper`served, grouper.runner`fallbacks, sessions, newer, streams
      modifies backend`caches, backend`raised, backend`overruns
      ensures Uncaught() == old(Uncaught()) + if ok then 0 else 1
      ensures grouper.runner.fallbacks >= old(grouper.runner.fallbacks) + if ok then 0 else 1
      ensures backend.overruns == old(backend.overruns)
      ensures ok ==> Going(active', pending, rounds + [active], gone, remaining, sessions, streams, newer)
      ensures ok ==> Work(active') < old(Work(active)) && Seen(gone)
      ensures Traced(served) && Queues(trace) == rounds + [active]
      ensures trace == old(trace) + [Moment(active, old(Undone(pending)), old(Unfinished()), clock)]
      ensures !ok ==> Orderly(rounds + [active], gone)
      ensures !ok ==> Salvageable() && SlotsAccounted() && Accounted(roster, sessions, streams, newer)
    {
      hide GroupedExecutor.Fleet;
      hide GroupedExecutor.Fair;
      hide GroupedExecutor.Salvageable;
      hide GroupedExecutor.SlotsAccounted;
      hide GroupedExecutor.Upcoming;
      hide Undone;
      hide Work;
      ghost var before := trace;
      NobodyMissing(active, pending, clock);
      ghost var now := Moment(active, Undone(pending), Unfinished(), clock);
      MoreRounds(before, now);
      trace := trace + [now];
      ActiveWithin(active, Undone(pending), sessions, streams, newer);
      UpcomingApart(remaining, Streams(roster));
      StartRound(rounds, active, gone);
      ghost var c := active;
      ok, active' := Round(active, Undone(pending), capacity);
      forall s | s in starters && s.done
        ensures s in gone || InQueue(trace, s)
      {
        if s !in c && s !in gone {
          StillInQueue(before, now, s);
        }
      }
      if ok {
        UndoneSame(pending);
        AfterRound(rounds + [active], active, active', pending, gone);
      }
    }

    /** A wait for the next arrival is still to come. */
    ghost function Early(pending: seq<Session>, clock: int): nat {
      if pending != [] && clock < pending[0].arrival then 1 else 0
    }

    /** What follows the batch in one turn of the loop: the polls, and a round if anybody is left to serve. */
    method ServeTurn(active: seq<Session>, pending: seq<Session>, clock: int, capacity: nat,
                     ghost rounds: seq<seq<Session>>, ghost served: seq<seq<Session>>, ghost gone: set<Session>,
                     ghost remaining: seq<seq<Request>>,
                     ghost sessions: seq<Session>, ghost streams: set<TokenStream>, ghost newer: set<Session>)
      returns (turn: Turn, active': seq<Session>, pending': seq<Session>, clock': int,
               ghost rounds': seq<seq<Session>>, ghost gone': set<Session>)
      requires Going(active, pending, rounds, gone, remaining, sessions, streams, newer) && grouper.maxWidth > 0
      requires Traced(served) && rounds == Queues(trace) && Seen(gone)
      modifies this`trace, grouper`widths, grouper`served, grouper.runner`fallbacks, sessions, newer, streams
      modifies backend`caches, backend`raised, backend`overruns
      ensures Uncaught() == old(Uncaught()) + if turn == Raised then 1 else 0
      ensures grouper.runner.fallbacks >= old(grouper.runner.fallbacks) + if turn == Raised then 1 else 0
      ensures backend.overruns == old(backend.overruns)
      ensures turn != Raised ==> Going(active', pending', rounds', gone', remaining, sessions, streams, newer)
      ensures Traced(served) && rounds' == Queues(trace) && (turn != Raised ==> Seen(gone'))
      ensures turn == Raised ==> Orderly(rounds', gone')
      ensures turn == Raised ==> Salvageable() && SlotsAccounted() && Accounted(roster, sessions, streams, newer)
      ensures turn == Over <==> turn != Raised && turn != Served && active' == [] && pending' == []
      ensures turn == Idle || turn == Served ==>
                || |pending'| < |pending|
                || (pending' == pending && Work(active') < old(Work(active)))
                || (pending' == pending && Work(active') == old(Work(active))
                  && Early(pending', clock') < Early(pending, clock))
    {
      hide GroupedExecutor.Going;
      hide GroupedExecutor.Salvageable;
      hide GroupedExecutor.SlotsAccounted;
      hide Work;
      active', pending', clock', gone' :=
        PollTurn(active, pending, clock, rounds, gone, remaining, sessions, streams, newer);
      rounds' := rounds;
      if active' == [] {
        if pending' == [] {
          turn := Over;
          return;
        }
        if clock' < pending'[0].arrival {
          clock' := pending'[0].arrival;
        }
        turn := Idle;
        return;
      }
      rounds' := rounds + [active'];
      var ok;
      ok, active' := RoundTurn(active', pending', clock', capacity, rounds, served, gone', remaining, sessions,
        streams, newer);
      turn := if ok then Served else Raised;
    }

    /** One turn of the loop. */
    method OneTurn(source: Arrivals, ghost remaining: seq<seq<Request>>, active: seq<Session>, pending: seq<Session>,
                   clock: int, capacity: nat, ghost rounds: seq<seq<Session>>, ghost served: seq<seq<Session>>,
                   ghost gone: set<Session>, ghost sessions: seq<Session>, ghost streams: set<TokenStream>,
                   ghost newer: set<Session>)
      returns (turn: Turn, ghost remaining': seq<seq<Request>>, active': seq<Session>, pending': seq<Session>,
               clock': int, ghost rounds': seq<seq<Session>>, ghost gone': set<Session>, ghost newer': set<Session>,
               ghost took: seq<Request>)
      requires Going(active, pending, rounds, gone, remaining, sessions, streams, newer) && grouper.maxWidth > 0
      requires remaining == source.Rest() && wreck.None? && Admitted(|sessions|)
      requires Traced(served) && rounds == Queues(trace) && Seen(gone)
      modifies this`owned, this`roster, this`kept, this`outside, this`trace, this`starters, this`wreck, source`handed
      modifies grouper`widths, grouper`served, grouper.runner`fallbacks, backend, sessions, newer, streams
      ensures Uncaught() == old(Uncaught()) + if turn != Raised || Refusal() then 0 else 1
      ensures grouper.runner.fallbacks >= old(grouper.runner.fallbacks) + if turn != Raised || wreck.Some? then 0 else 1
      ensures backend.overruns == old(backend.overruns)
      ensures backend.idleReleases == old(backend.idleReleases)
      ensures turn != Raised ==> Going(active', pending', rounds', gone', remaining', sessions, streams, newer')
      ensures turn == Raised ==> Orderly(rounds', gone')
      ensures turn == Raised ==> Salvageable() && SlotsAccounted()
      ensures turn == Raised ==> Accounted(roster, sessions, streams, newer')
      ensures newer <= newer' && fresh(newer' - newer)
      ensures turn == Over ==> active' == [] && pending' == []
      ensures Joined(old(roster), roster, took)
      ensures took == if wreck.None? && remaining != [] then remaining[0] else []
      ensures remaining' == if remaining == [] then [] else remaining[1..]
      ensures remaining' == source.Rest() && source.handed == old(source.handed) + if remaining == [] then 0 else 1
      ensures wreck.Some? ==> turn == Raised && remaining != []
      ensures Aftermath(wreck.None?, if remaining == [] then [] else remaining[0], old(outside))
      ensures Traced(served) && rounds' == Queues(trace) && (turn != Raised ==> Seen(gone'))
      ensures Admitted(|sessions|) && old(starters) <= starters
      ensures turn == Idle || turn == Served ==>
                || |remaining'| < |remaining|
                || (remaining' == remaining && |pending'| < |pending|)
                || (remaining' == remaining && pending' == pending && Work(active') < old(Work(active)))
                || (remaining' == remaining && pending' == pending && Work(active') == old(Work(active))
                    && Early(pending', clock') < Early(pending, clock))
    {
      hide GroupedExecutor.Salvageable;
      hide GroupedExecutor.Orderly;
      hide GroupedExecutor.Joined;
      hide Streams;
      hide GroupedExecutor.SlotsAccounted;
      hide GroupedExecutor.Traced;
      hide GroupedExecutor.Seen;
      hide GroupedExecutor.Queues;
      hide GroupedExecutor.Admitted;
      hide GroupedExecutor.Aftermath;
      hide Work;
      pending', clock', rounds', gone' := pending, clock, rounds, gone;
      GoingStreams(active, pending, rounds, gone, remaining, sessions, streams, newer);
      hide GroupedExecutor.Going;
      var ok;
      ok, remaining', active', newer', took :=
        TakeTurn(source, remaining, active, pending, rounds, gone, sessions, streams, newer);
      if !ok {
        turn := Raised;
        return;
      }
      if pending == [] && active' == [] {
        turn := Over;
        return;
      }
      turn, active', pending', clock', rounds', gone' :=
        ServeTurn(active', pending, clock, capacity, rounds, served, gone, remaining', sessions, streams, newer');
    }

    lemma GoingStreams(active: seq<Session>, pending: seq<Session>, rounds: seq<seq<Session>>, gone: set<Session>,
                       remaining: seq<seq<Request>>, sessions: seq<Session>, streams: set<TokenStream>,
                       newer: set<Session>)
      requires Going(active, pending, rounds, gone, remaining, sessions, streams, newer)
      ensures AllStreams(remaining) <= streams
    {
    }

    /** The rounds of `run`. `source` is what `admit` hands over; after its batches it hands over nothing. */
    method RunRounds(sessions: seq<Session>, source: Arrivals, capacity: nat, ghost streams: set<TokenStream>)
      returns (ok: bool, ghost gone: set<Session>, ghost newer: set<Session>, ghost taken: nat)
      requires roster == sessions && NoRepeats(sessions) && ByArrival(sessions) && Fleet(Undone(sessions))
      requires Upcoming(source.Rest(), Streams(sessions)) && grouper.maxWidth > 0
      requires streams == Streams(sessions) + AllStreams(source.Rest())
      requires trace == [] && wreck.None? && Seen({})
      modifies this`owned, this`roster, this`kept, this`outside, this`trace, this`starters, this`wreck, source`handed
      modifies grouper`widths, grouper`served, grouper.runner`fallbacks, backend, sessions, streams
      ensures Uncaught() == old(Uncaught()) + if ok || Refusal() then 0 else 1
      ensures grouper.runner.fallbacks >= old(grouper.runner.fallbacks) + if ok || wreck.Some? then 0 else 1
      ensures backend.overruns == old(backend.overruns)
      ensures Salvageable() && SlotsAccounted() && backend.idleReleases == old(backend.idleReleases)
      ensures Accounted(roster, sessions, streams, newer) && fresh(newer)
      ensures Traced(old(grouper.served)) && (ok ==> Seen(gone) && forall s :: s in roster ==> s.done)
      ensures ok ==> Rotates(Queues(trace) + [[]], grouper.maxWidth, gone)
      ensures Orderly(Queues(trace), gone)
      ensures TakenBatches(sessions, roster, old(source.Rest()), taken)
      ensures Handed(old(source.Rest()), taken, old(outside))
      ensures source.handed == old(source.handed) + taken + if wreck.None? then 0 else 1
      ensures ok ==> wreck.None?
      ensures Admitted(|sessions|) && old(starters) <= starters
    {
      hide GroupedExecutor.Fleet;
      hide GroupedExecutor.Upcoming;
      hide GroupedExecutor.TakenBatches;
      hide GroupedExecutor.Aftermath;
      hide GroupedExecutor.Handed;
      hide GroupedExecutor.AllStreams;
      hide GroupedExecutor.Joined;
      hide GroupedExecutor.Going;
      hide GroupedExecutor.Salvageable;
      hide GroupedExecutor.SlotsAccounted;
      hide GroupedExecutor.Accounted;
      hide GroupedExecutor.Seen;
      hide GroupedExecutor.Traced;
      hide GroupedExecutor.Admitted;
      hide GroupedExecutor.Queues;
      hide Undone;
      hide Streams;
      hide Rotates;
      hide Work;
      hide NoRepeats;
      hide ByArrival;
      ghost var arrivals, served, rounds := source.Rest(), grouper.served, [];
      var active, pending, clock, turn := [], sessions, 0, Idle;
      ghost var remaining := arrivals;
      gone, newer, taken := {}, {}, 0;
      Starts(sessions, arrivals, streams);
      while true
        invariant Going(active, pending, rounds, gone, remaining, sessions, streams, newer) && fresh(newer)
        invariant Handed(arrivals, taken, old(outside)) && outside == old(outside)
        invariant Uncaught() == old(Uncaught()) && backend.overruns == old(backend.overruns)
        invariant grouper.runner.fallbacks >= old(grouper.runner.fallbacks)
        invariant backend.idleReleases == old(backend.idleReleases)
        invariant taken <= |arrivals| && remaining == arrivals[taken..] == source.Rest()
        invariant TakenBatches(sessions, roster, arrivals, taken)
        invariant source.handed == old(source.handed) + taken && wreck.None?
        invariant Traced(served) && rounds == Queues(trace) && Seen(gone)
        invariant Admitted(|sessions|) && old(starters) <= starters
        decreases |remaining|, |pending|, Work(active), Early(pending, clock)
      {
        ghost var before, took := roster, [];
        turn, remaining, active, pending, clock, rounds, gone, newer, took :=
          OneTurn(source, remaining, active, pending, clock, capacity, rounds, served, gone, sessions, streams, newer);
        WholeBatches(arrivals, taken, old(outside));
        taken := OneMoreBatch(sessions, before, roster, arrivals, taken, took, wreck.None?);
        if turn == Raised {
          return false, gone, newer, taken;
        }
        if turn == Over {
          break;
        }
      }
      LastRound(rounds, gone, remaining, sessions, streams, newer);
      ok := true;
    }

    /** How many batches were taken, after one more was, or none. */
    lemma OneMoreBatch(sessions: seq<Session>, before: seq<Session>, after: seq<Session>, arrivals: seq<seq<Request>>,
                       taken: nat, took: seq<Request>, whole: bool)
      returns (now: nat)
      requires TakenBatches(sessions, before, arrivals, taken) && Joined(before, after, took)
      requires took == if whole && taken < |arrivals| then arrivals[taken] else []
      ensures now == if whole && taken < |arrivals| then taken + 1 else taken
      ensures TakenBatches(sessions, after, arrivals, now) && now <= |arrivals|
    {
      now := if whole && taken < |arrivals| then taken + 1 else taken;
      JoinedTwice(sessions, before, after, AllOf(arrivals[..taken]), took);
      if now > taken {
        assert arrivals[..now][..taken] == arrivals[..taken];
      }
    }

    /** Everybody in the run came with it, or for a request of its first `taken` batches. */
    ghost predicate TakenBatches(sessions: seq<Session>, everybody: seq<Session>, arrivals: seq<seq<Request>>,
                                 taken: nat) {
      taken <= |arrivals| && Joined(sessions, everybody, AllOf(arrivals[..taken]))
    }

    /** Every batch that was handed over was taken, but for one whose building raised. */
    ghost predicate Handed(arrivals: seq<seq<Request>>, taken: nat, before: set<int>)
      reads this`wreck, this`outside
    {
      && (wreck.Some? ==> taken < |arrivals|)
      && Aftermath(wreck.None?, if wreck.Some? then arrivals[taken] else [], before)
    }

    /** A run or a turn that took every batch it was handed. */
    lemma WholeBatches(arrivals: seq<seq<Request>>, taken: nat, before: set<int>)
      requires taken <= |arrivals| && (wreck.Some? ==> arrivals[taken..] != [])
      requires Aftermath(wreck.None?, if arrivals[taken..] == [] then [] else arrivals[taken..][0], before)
      ensures Handed(arrivals, taken, before)
      ensures wreck.None? ==> outside == before && Handed(arrivals, taken + 1, before)
    {
    }

    lemma NoneTaken(sessions: seq<Session>, arrivals: seq<seq<Request>>)
      ensures TakenBatches(sessions, sessions, arrivals, 0)
    {
      assert arrivals[..0] == [];
    }

    lemma UpcomingApart(batches: seq<seq<Request>>, used: set<TokenStream>)
      requires Upcoming(batches, used)
      ensures AllStreams(batches) !! used
    {
    }

    lemma Starts(sessions: seq<Session>, arrivals: seq<seq<Request>>, streams: set<TokenStream>)
      requires roster == sessions && NoRepeats(sessions) && ByArrival(sessions) && Fleet(Undone(sessions))
      requires Upcoming(arrivals, Streams(sessions)) && streams == Streams(sessions) + AllStreams(arrivals)
      requires trace == [] && wreck.None?
      ensures Going([], sessions, [], {}, arrivals, sessions, streams, {})
      ensures Traced(grouper.served) && Queues(trace) == [] && Admitted(|sessions|)
      ensures TakenBatches(sessions, roster, arrivals, 0) && Handed(arrivals, 0, outside) && arrivals[0..] == arrivals
    {
      NoneTaken(sessions, arrivals);
      assert grouper.served == grouper.served + Groups(trace) && roster[|sessions|..] == [];
      assert [] + Undone(sessions) == Undone(sessions);
    }

    lemma UpcomingRest(batches: seq<seq<Request>>, used: set<TokenStream>, taken: set<TokenStream>, batch: seq<Request>)
      requires Upcoming(batches, used) && batch == if batches == [] then [] else batches[0]
      requires taken == used + StreamsOf(batch)
      ensures Askable(backend.model, batch) && StreamsOf(batch) !! used && StreamsOf(batch) <= AllStreams(batches)
      ensures Upcoming(if batches == [] then [] else batches[1..], taken)
      ensures AllStreams(if batches == [] then [] else batches[1..]) <= AllStreams(batches) - StreamsOf(batch)
    {
      if batches != [] {
        UpcomingTail(batches, used, taken);
      }
    }

    lemma UpcomingLess(batches: seq<seq<Request>>, used: set<TokenStream>, less: set<TokenStream>)
      requires Upcoming(batches, used) && less <= used
      ensures Upcoming(batches, less)
    {
    }

    lemma ActiveWithin(active: seq<Session>, pending: seq<Session>, sessions: seq<Session>, streams: set<TokenStream>,
                       newer: set<Session>)
      requires Fleet(active + pending) && Accounted(roster, sessions, streams, newer)
      ensures forall i :: 0 <= i < |active| ==> (active[i] in sessions || active[i] in newer) && !active[i].done
      ensures Streams(active) <= streams && Streams(active) <= Streams(roster)
    {
      hide Steppable;
      hide Sound;
      var queue := active + pending;
      forall i | 0 <= i < |active|
        ensures active[i] in roster && !active[i].done
      {
        assert active[i] == queue[i] && queue[i] in queue;
      }
    }

    lemma AfterTake(known: seq<Session>, sessions: seq<Session>, streams: set<TokenStream>, newer: set<Session>,
                    rounds: seq<seq<Session>>, before: seq<Session>, pending: seq<Session>, newcomers: seq<Session>,
                    gone: set<Session>, batch: seq<Request>)
      requires Accounted(known, sessions, streams, newer) && StreamsOf(batch) <= streams
      requires Streams(known + newcomers) <= Streams(known) + StreamsOf(batch)
      requires Elsewhere(before, pending) && Fair(rounds, before, gone)
      requires forall i :: 0 <= i < |newcomers| ==> newcomers[i] !in pending
      ensures Accounted(known + newcomers, sessions, streams, newer + set s | s in newcomers)
      ensures Elsewhere(before + Undone(newcomers), pending) && Fair(rounds, before + Undone(newcomers), gone)
    {
      UndoneMembers(newcomers);
      WaitsBehind(before, Undone(newcomers));
      StaysFair(rounds, before, before + Undone(newcomers), gone, gone);
      var everybody := known + newcomers;
      forall i | 0 <= i < |everybody|
        ensures everybody[i] in sessions || everybody[i] in newer + set s | s in newcomers
      {
        assert i >= |known| ==> everybody[i] in newcomers;
      }
      forall i | 0 <= i < |pending|
        ensures pending[i] !in before + Undone(newcomers)
      {
        forall j | 0 <= j < |Undone(newcomers)|
          ensures Undone(newcomers)[j] != pending[i]
        {
          assert Undone(newcomers)[j] in newcomers;
        }
      }
    }

    lemma AfterDue(rounds: seq<seq<Session>>, joined: seq<Session>, active: seq<Session>, gone: set<Session>)
      requires joined <= active && Fair(rounds, joined, gone)
      ensures Fair(rounds, active, gone)
    {
      WaitsBehind(joined, active[|joined|..]);
      assert active == joined + active[|joined|..];
      StaysFair(rounds, joined, active, gone, gone);
    }

    lemma AfterDrop(rounds: seq<seq<Session>>, queue: seq<Session>, active: seq<Session>, pending: seq<Session>,
                    gone: set<Session>, dropped: set<Session>)
      requires Fair(rounds, queue, gone) && Elsewhere(queue, pending)
      requires forall p :: 0 <= p < |queue| ==> queue[p] in dropped || WaitsBy(active, p, queue[p])
      requires forall i :: 0 <= i < |active| ==> active[i] in queue
      ensures Fair(rounds, active, gone + dropped) && Elsewhere(active, pending)
    {
      StaysFair(rounds, queue, active, gone, gone + dropped);
    }

    lemma AfterRound(rounds: seq<seq<Session>>, queue: seq<Session>, active: seq<Session>, pending: seq<Session>,
                     gone: set<Session>)
      requires rounds != [] && rounds[|rounds| - 1] == queue && Elsewhere(queue, pending)
      requires Rotates(rounds, grouper.maxWidth, gone)
      requires forall p :: grouper.maxWidth <= p < |queue| ==> WaitsBy(active, p - grouper.maxWidth, queue[p])
      requires forall s :: s in active ==> s in queue
      ensures Fair(rounds, active, gone) && Elsewhere(active, pending)
    {
    }

    lemma StartRound(rounds: seq<seq<Session>>, active: seq<Session>, gone: set<Session>)
      requires Fair(rounds, active, gone)
      ensures Rotates(rounds + [active], grouper.maxWidth, gone)
    {
      var longer := rounds + [active];
      forall r | 0 <= r < |longer| - 1
        ensures Carried(longer[r], longer[r + 1], grouper.maxWidth, gone)
      {
        assert longer[r] == rounds[r];
        if r < |rounds| - 1 {
          assert Carried(rounds[r], rounds[r + 1], grouper.maxWidth, gone);
        }
      }
    }

    lemma LastRound(rounds: seq<seq<Session>>, gone: set<Session>, remaining: seq<seq<Request>>,
                    sessions: seq<Session>, streams: set<TokenStream>, newer: set<Session>)
      requires Going([], [], rounds, gone, remaining, sessions, streams, newer)
      ensures Rotates(rounds + [[]], grouper.maxWidth, gone)
      ensures Orderly(rounds, gone)
      ensures Salvageable() && SlotsAccounted() && Accounted(roster, sessions, streams, newer)
      ensures forall s :: s in roster ==> s.done
    {
      StartRound(rounds, [], gone);
      assert [] + Undone([]) == [];
    }

    /** The `finally` of the dense plan's run: whatever is still owned goes back, in whatever state the run ended. */
    method ReleaseOwned()
      requires Salvageable() && SlotsAccounted() && stacked
      modifies this`owned, backend`held, backend`idleReleases
      ensures backend.held == outside && backend.idleReleases == old(backend.idleReleases) && owned == []
      ensures Salvageable()
    {
      hide Sound;
      hide Apart;
      hide Separate;
      hide Slots;
      hide Session.Consistent;
      NoSlots();
      assert owned[0..] == owned;
      for i := 0 to |owned|
        invariant owned == old(owned) && backend.held == outside + Slots(owned[i..])
        invariant backend.idleReleases == old(backend.idleReleases)
      {
        var session := owned[i];
        SplitAt(owned, i);
        SlotOfPlace(session);
        SlotIsOnlyOnce(owned, i);
        backend.Release(session.state);
      }
      assert owned[|owned|..] == [];
      owned := [];
    }

    /** A run begins: everybody it was given, in the order of arrival. */
    method Enlist(sessions: seq<Session>, ghost arrivals: seq<seq<Request>>, ghost streams: set<TokenStream>)
      returns (pending: seq<Session>)
      requires Apart(sessions) && Slots(sessions) <= backend.held && owned == []
      requires forall s :: s in sessions ==>
                 Sound(backend.model, backend.caches, s) && Runnable(backend.model, backend.caches, s)
      requires Upcoming(arrivals, Streams(sessions)) && streams == Streams(sessions) + AllStreams(arrivals)
      modifies this
      ensures roster == pending && |pending| == |sessions| && NoRepeats(pending) && Fleet(Undone(pending))
      ensures Upcoming(arrivals, Streams(pending)) && streams == Streams(pending) + AllStreams(arrivals)
      ensures pending == SortByArrival(sessions) && ByArrival(pending)
      ensures trace == [] && wreck.None? && Seen({})
      ensures starters == set s | s in sessions && !s.done
      ensures outside == backend.held - Slots(sessions)
      ensures forall i :: 0 <= i < |pending| ==> pending[i] in sessions
      ensures forall i :: 0 <= i < |sessions| ==> sessions[i] in pending
    {
      hide Sound;
      hide Apart;
      hide Separate;
      hide Slots;
      hide GroupedExecutor.Fleet;
      hide GroupedExecutor.Upcoming;
      hide Runnable;
      hide Undone;
      hide Streams;
      hide NoRepeats;
      hide ByArrival;
      hide SortByArrival;
      hide GroupedExecutor.Seen;
      pending := SortByArrival(sessions);
      SortSorts(sessions);
      trace, wreck := [], None;
      roster, kept, outside := pending, sessions, backend.held - Slots(sessions);
      if stacked {
        owned := sessions;
      }
      starters := Unfinished();
      NobodyDone();
      StartFleet(sessions, pending);
      SameUnfinished(sessions);
    }

    lemma SameUnfinished(sessions: seq<Session>)
      requires |roster| == |sessions| && (forall i :: 0 <= i < |roster| ==> roster[i] in sessions)
      requires forall i :: 0 <= i < |sessions| ==> sessions[i] in roster
      ensures Unfinished() == set s | s in sessions && !s.done
    {
    }

    /** Those whose caller made them stop. */
    ghost function Leavers(): set<Session>
      reads this`roster, roster
    {
      set s | s in roster && s.stop == Cancelled
    }

    /** `s` was served in one of the rounds `from` to `to`. */
    ghost predicate ServedBetween(s: Session, from: nat, to: nat)
      reads this`trace
    {
      exists k :: from <= k <= to && k < |trace| && s in Groups(trace)[k]
    }

    /** Whoever stands at place `p` of a round's queue is served within `p / maxWidth` rounds, unless its caller makes
        it stop, or an exception ended the run before there were as many. */
    ghost predicate NobodyStarves(ended: bool)
      requires grouper.maxWidth > 0
      reads this`trace, this`roster, roster
    {
      forall r, p :: 0 <= r < |trace| && 0 <= p < |trace[r].queue| ==>
        || trace[r].queue[p] in Leavers() || ServedBetween(trace[r].queue[p], r, r + p / grouper.maxWidth)
        || (!ended && r + p / grouper.maxWidth >= |trace|)
    }

    /** Whoever was unfinished when it came, or was admitted with something to generate, was served, unless its caller
        made it stop. */
    ghost predicate EverybodyServed(came: set<Session>, first: nat)
      requires first <= |roster|
      reads this`trace, this`roster, roster
    {
      && (forall s :: s in came ==> s in Leavers() || ServedBetween(s, 0, |trace|))
      && (forall i :: first <= i < |roster| && roster[i].seat >= 0 && |Reference(backend.model, roster[i].job)| > 1 ==>
            roster[i] in Leavers() || ServedBetween(roster[i], 0, |trace|))
    }

    /** `run`, of either executor. Whatever happens in it, every session's answer is a prefix of its own lone decode.
        When it returns without raising everybody is done, every uncancelled answer is the whole lone decode, and nobody
        starved in its rounds. The dense plan's executor has then given back every slot its sessions held, each exactly
        once, however it ended; only a batch that failed while it was being admitted leaves slots held. */
    method Run(sessions: seq<Session>, source: Arrivals, capacity: nat, ghost streams: set<TokenStream>)
      returns (ok: bool, ghost taken: nat)
      requires Apart(sessions) && Slots(sessions) <= backend.held && owned == []
      requires forall s :: s in sessions ==>
                 Sound(backend.model, backend.caches, s) && Runnable(backend.model, backend.caches, s)
      requires Upcoming(source.Rest(), Streams(sessions)) && streams == Streams(sessions) + AllStreams(source.Rest())
      requires grouper.maxWidth > 0
      modifies this, source`handed
      modifies grouper`widths, grouper`served, grouper.runner`fallbacks, backend, sessions, streams
      ensures Uncaught() == old(Uncaught()) + if ok || Refusal() then 0 else 1
      ensures grouper.runner.fallbacks >= old(grouper.runner.fallbacks) + if ok || wreck.Some? then 0 else 1
      ensures backend.overruns == old(backend.overruns)
      ensures |sessions| <= |roster| && roster[..|sessions|] == SortByArrival(sessions)
              && ByArrival(roster[..|sessions|])
      ensures Salvageable() && forall s :: s in roster ==> Answered(backend.model, s)
      ensures forall i :: 0 <= i < |roster| ==> roster[i] in sessions || fresh(roster[i])
      ensures forall i :: 0 <= i < |roster| && roster[i].stream != null ==> roster[i].stream in streams
      ensures ok ==> wreck.None? && forall s :: s in roster ==> s.done
      ensures stacked ==> backend.held == old(backend.held) - Slots(sessions) + Leaked() && owned == []
      ensures backend.idleReleases == old(backend.idleReleases)
      ensures Traced(old(grouper.served))
      ensures NobodyStarves(ok) && (ok ==> EverybodyServed(old(set s | s in sessions && !s.done), |sessions|))
      ensures TakenBatches(roster[..|sessions|], roster, old(source.Rest()), taken)
      ensures Handed(old(source.Rest()), taken, old(backend.held) - Slots(sessions))
      ensures source.handed == old(source.handed) + taken + if wreck.None? then 0 else 1
    {
      hide GroupedExecutor.Fleet;
      hide GroupedExecutor.Salvageable;
      hide GroupedExecutor.SlotsAccounted;
      hide GroupedExecutor.Upcoming;
      hide GroupedExecutor.AllStreams;
      hide GroupedExecutor.Traced;
      hide GroupedExecutor.Seen;
      hide GroupedExecutor.NobodyStarves;
      hide GroupedExecutor.EverybodyServed;
      hide GroupedExecutor.TakenBatches;
      hide GroupedExecutor.Handed;
      hide GroupedExecutor.Admitted;
      hide GroupedExecutor.Leavers;
      hide GroupedExecutor.Leaked;
      hide GroupedExecutor.Accounted;
      hide GroupedExecutor.Queues;
      hide ByArrival;
      hide SortByArrival;
      hide NoRepeats;
      hide Undone;
      hide Runnable;
      hide Sound;
      hide Apart;
      hide Separate;
      hide Streams;
      hide Slots;
      hide Rotates;
      hide Answered;
      ghost var came := set s | s in sessions && !s.done;
      var pending := Enlist(sessions, source.Rest(), streams);
      assert came == starters;
      ghost var gone, newer := {}, {};
      ok, gone, newer, taken := RunRounds(pending, source, capacity, streams);
      FirstTaken(pending, old(source.Rest()), taken, old(backend.held) - Slots(sessions));
      ServedInTime(gone, ok);
      if ok {
        ServedAtAll(gone, came, |pending|);
      }
      if stacked {
        ReleaseOwned();
      }
      forall s | s in roster
        ensures Answered(backend.model, s)
      {
        RosterIsConsistent(s);
        ConsistentIsAnswered(backend.model, s);
      }
      StreamsAllowed(roster, pending, streams, newer);
    }

    lemma FirstTaken(sessions: seq<Session>, arrivals: seq<seq<Request>>, taken: nat, before: set<int>)
      requires TakenBatches(sessions, roster, arrivals, taken) && Handed(arrivals, taken, before)
      ensures |sessions| <= |roster| && roster[..|sessions|] == sessions && outside == before + Leaked()
    {
    }

    lemma ServedInTime(gone: set<Session>, ended: bool)
      requires grouper.maxWidth > 0 && Orderly(Queues(trace), gone)
      requires ended ==> Rotates(Queues(trace) + [[]], grouper.maxWidth, gone)
      ensures NobodyStarves(ended)
    {
      hide Rotates;
      hide ServedIn;
      var width, queues := grouper.maxWidth, Queues(trace);
      forall r, p | 0 <= r < |trace| && 0 <= p < |trace[r].queue|
        ensures || trace[r].queue[p] in Leavers() || ServedBetween(trace[r].queue[p], r, r + p / width)
                || (!ended && r + p / width >= |trace|)
      {
        var s, latest := trace[r].queue[p], r + p / width;
        assert queues[r] == trace[r].queue;
        if ended {
          NoStarvation(queues, width, gone, r, p);
        } else {
          var k := ServedWithin(queues, width, gone, r, p);
        }
        if s !in gone && (ended || latest < |trace|) {
          var k :| r <= k <= latest && ServedIn(queues, width, s, k);
          ServedInGroup(s, k);
        }
      }
    }

    lemma ServedInGroup(s: Session, k: nat)
      requires ServedIn(Queues(trace), grouper.maxWidth, s, k)
      ensures k < |trace| && s in Groups(trace)[k]
    {
      var queue := trace[k].queue;
      var q :| 0 <= q <= grouper.maxWidth - 1 && q < |queue| && queue[q] == s;
      assert Head(queue)[q] == s;
    }

    lemma ServedAtAll(gone: set<Session>, came: set<Session>, first: nat)
      requires Seen(gone) && came <= starters && Admitted(first) && grouper.maxWidth > 0 && NobodyStarves(true)
      requires forall s :: s in gone ==> s in roster && s.stop == Cancelled
      requires (forall s :: s in came ==> s in roster) && forall s :: s in roster ==> s.done
      ensures EverybodyServed(came, first)
    {
      hide GroupedExecutor.NobodyStarves;
      forall i | first <= i < |roster| && roster[i].seat >= 0 && |Reference(backend.model, roster[i].job)| > 1
        ensures roster[i] in starters
      {
        assert roster[first..][i - first] == roster[i];
      }
      forall s | s in starters && s in roster
        ensures s in Leavers() || ServedBetween(s, 0, |trace|)
      {
        if s !in gone {
          QueuedIsServed(s);
        }
      }
    }

    lemma QueuedIsServed(s: Session)
      requires grouper.maxWidth > 0 && NobodyStarves(true) && InQueue(trace, s)
      ensures s in Leavers() || ServedBetween(s, 0, |trace|)
    {
      var r :| 0 <= r < |trace| && s in trace[r].queue;
      var p :| 0 <= p < |trace[r].queue| && trace[r].queue[p] == s;
      var latest := r + p / grouper.maxWidth;
      assert s in Leavers() || ServedBetween(s, r, latest);
    }

    lemma StreamsAllowed(everybody: seq<Session>, sessions: seq<Session>, streams: set<TokenStream>,
                         newer: set<Session>)
      requires Accounted(everybody, sessions, streams, newer)
      ensures forall i :: 0 <= i < |everybody| ==> everybody[i] in sessions || everybody[i] in newer
      ensures forall i :: 0 <= i < |everybody| && everybody[i].stream != null ==> everybody[i].stream in streams
      ensures forall i :: 0 <= i < |sessions| ==> sessions[i] in everybody
    {
      assert forall i :: 0 <= i < |everybody| && everybody[i].stream != null ==>
          everybody[i].stream in Streams(everybody);
    }

    lemma RosterIsConsistent(s: Session)
      requires Salvageable() && s in roster
      ensures s.Consistent(backend.model)
    {
    }

    lemma StartFleet(sessions: seq<Session>, pending: seq<Session>)
      requires Apart(sessions) && Slots(sessions) <= backend.held
      requires forall s :: s in sessions ==>
                 Sound(backend.model, backend.caches, s) && Runnable(backend.model, backend.caches, s)
      requires multiset(pending) == multiset(sessions) && roster == pending && kept == sessions
      requires outside == backend.held - Slots(sessions) && (stacked ==> owned == sessions)
      ensures |pending| == |sessions| && NoRepeats(pending) && Fleet(Undone(pending))
              && Streams(pending) == Streams(sessions)
      ensures forall i :: 0 <= i < |pending| ==> pending[i] in sessions
      ensures forall i :: 0 <= i < |sessions| ==> sessions[i] in pending
    {
      hide Sound;
      hide Runnable;
      hide Apart;
      hide Separate;
      hide Slots;
      hide Session.Consistent;
      assert |multiset(pending)| == |multiset(sessions)|;
      ApartIsSeparate(sessions);
      SameMembers(sessions, pending);
      SameObjects(sessions, pending);
      SameStreams(sessions, pending);
      forall i | 0 <= i < |pending|
        ensures pending[i].Consistent(backend.model)
      {
        SoundIsConsistent(backend.model, backend.caches, pending[i]);
      }
      assert Salvageable();
      StartQueue(pending);
    }

    lemma StartQueue(pending: seq<Session>)
      requires NoRepeats(pending) && roster == pending
      requires forall i :: 0 <= i < |pending| ==>
                 pending[i] in kept && Runnable(backend.model, backend.caches, pending[i])
      ensures Queued(Undone(pending))
    {
      hide Steppable;
      hide Runnable;
      UndoneMembers(pending);
      forall i | 0 <= i < |pending|
        ensures !pending[i].done ==> Steppable(backend.model, backend.caches, pending[i])
      {
        RunnableSteps(backend.model, backend.caches, pending[i]);
      }
    }

    lemma RunnableSteps(m: Model, caches: Caches, s: Session)
      requires Runnable(m, caches, s)
      ensures !s.done ==> Steppable(m, caches, s)
    {
    }
  }

  lemma ApartIsSeparate(ss: seq<Session>)
    requires Apart(ss)
    ensures Separate(ss)
  {
    forall i, j | 0 <= i < |ss| && 0 <= j < |ss| && i != j
      ensures ss[i] != ss[j] && (ss[i].stream != null ==> ss[i].stream != ss[j].stream)
    {
      assert Untouched(ss[i], ss[j]);
    }
  }

  lemma SameMembers(a: seq<Session>, b: seq<Session>)
    requires multiset(a) == multiset(b)
    ensures forall i :: 0 <= i < |a| ==> a[i] in b
    ensures forall i :: 0 <= i < |b| ==> b[i] in a
  {
    forall i | 0 <= i < |a|
      ensures a[i] in b
    {
      assert a[i] in multiset(a);
    }
    forall i | 0 <= i < |b|
      ensures b[i] in a
    {
      assert b[i] in multiset(b);
    }
  }

  lemma SameStreams(a: seq<Session>, b: seq<Session>)
    requires forall i :: 0 <= i < |a| ==> a[i] in b
    requires forall i :: 0 <= i < |b| ==> b[i] in a
    ensures Streams(a) == Streams(b)
  {
  }

  lemma SameObjects(a: seq<Session>, b: seq<Session>)
    requires Separate(a) && multiset(a) == multiset(b)
    ensures Separate(b) && NoRepeats(b)
  {
    forall i, j | 0 <= i < |b| && 0 <= j < |b| && i != j
      ensures b[i] != b[j] && (b[i].stream != null ==> b[i].stream != b[j].stream)
    {
      if b[i] == b[j] {
        TwiceInBoth(a, b, i, j);
        assert false;
      }
      assert b[i] in multiset(b) && b[j] in multiset(b);
      var x :| 0 <= x < |a| && a[x] == b[i];
      var y :| 0 <= y < |a| && a[y] == b[j];
    }
  }

  lemma TwiceInBoth(a: seq<Session>, b: seq<Session>, i: nat, j: nat)
    requires multiset(a) == multiset(b) && i < |b| && j < |b| && i != j && b[i] == b[j]
    ensures exists x, y :: 0 <= x < y < |a| && a[x] == a[y]
  {
    var lo, hi := if i < j then i else j, if i < j then j else i;
    assert b == b[..lo] + [b[lo]] + b[lo + 1..hi] + [b[hi]] + b[hi + 1..];
    assert multiset(a)[b[i]] >= 2;
    FindTwice(a, b[i]);
  }

  lemma {:induction false} FindTwice(a: seq<Session>, s: Session)
    requires multiset(a)[s] >= 2
    ensures exists x, y :: 0 <= x < y < |a| && a[x] == a[y]
  {
    assert a == [a[0]] + a[1..];
    if a[0] == s {
      assert s in multiset(a[1..]);
      var y :| 0 <= y < |a[1..]| && a[1..][y] == s;
      assert a[0] == a[y + 1];
    } else {
      FindTwice(a[1..], s);
      var x, y :| 0 <= x < y < |a[1..]| && a[1..][x] == a[1..][y];
      assert a[x + 1] == a[y + 1];
    }
  }

  lemma SoundIsConsistent(m: Model, caches: Caches, s: Session)
    requires Sound(m, caches, s)
    ensures s.Consistent(m)
  {
  }

  /** What a caller may rely on for one request, finished or not. */
  ghost predicate Answered(m: Model, s: Session)
    reads s, s.stream
  {
    && s.tokens <= Reference(m, s.job)
    && (s.stream != null ==> s.tokens <= s.stream.emitted <= Reference(m, s.job))
    && (s.done && s.stop != Cancelled ==> s.tokens == Reference(m, s.job))
    && (s.stop == Cancelled ==> s.stream != null && s.stream.Quits())
  }

  lemma ConsistentIsAnswered(m: Model, s: Session)
    requires s.Consistent(m)
    ensures Answered(m, s)
  {
    if s.tokens != [] {
      OnTrackIsPrefix(m, s.job, s.tokens);
    }
  }

  predicate NoLater(a: Session, b: Session) {
    a.arrival < b.arrival || (a.arrival == b.arrival && a.rid <= b.rid)
  }

  predicate ByArrival(ss: seq<Session>) {
    forall i, j :: 0 <= i < j < |ss| ==> NoLater(ss[i], ss[j])
  }

  function Insert(s: Session, sorted: seq<Session>): (r: seq<Session>)
    ensures multiset(r) == multiset(sorted) + multiset{s}
  {
    if sorted == [] || NoLater(s, sorted[0]) then [s] + sorted
    else
      assert sorted == [sorted[0]] + sorted[1..];
      [sorted[0]] + Insert(s, sorted[1..])
  }

  /** `sorted(sessions, key=lambda s: (s.arrival_ms, s.rid))`. */
  function SortByArrival(ss: seq<Session>): (r: seq<Session>)
    ensures multiset(r) == multiset(ss)
  {
    if ss == [] then []
    else
      assert ss == ss[..|ss| - 1] + [ss[|ss| - 1]];
      Insert(ss[|ss| - 1], SortByArrival(ss[..|ss| - 1]))
  }

  lemma {:induction false} InsertSorts(s: Session, sorted: seq<Session>)
    requires ByArrival(sorted)
    ensures ByArrival(Insert(s, sorted))
  {
    if sorted != [] && !NoLater(s, sorted[0]) {
      var rest := Insert(s, sorted[1..]);
      InsertSorts(s, sorted[1..]);
      forall j | 0 <= j < |rest|
        ensures NoLater(sorted[0], rest[j])
      {
        assert rest[j] in multiset(rest);
        assert rest[j] == s || rest[j] in sorted[1..];
      }
    }
  }

  /** The pending list is in the order of arrival, with the request id as a tie-break. */
  lemma {:induction false} SortSorts(ss: seq<Session>)
    ensures ByArrival(SortByArrival(ss))
    ensures var sorted := SortByArrival(ss);
      forall i, j :: 0 <= i < j < |sorted| ==>
        sorted[i].arrival < sorted[j].arrival
        || (sorted[i].arrival == sorted[j].arrival && sorted[i].rid <= sorted[j].rid)
  {
    if ss != [] {
      SortSorts(ss[..|ss| - 1]);
      InsertSorts(ss[|ss| - 1], SortByArrival(ss[..|ss| - 1]));
    }
  }
}
