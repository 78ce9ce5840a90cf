/** One dispatch of `Runtime`: build, run grouped, and the last-resort sequential replay. */
module Dispatch {
  import opened Decoding
  import opened CacheContract
  import opened Serving
  import opened Executor
  import opened Grouping
  import opened Admission
  import opened Grouped

  /** Sessions a sequential replay can finish: the unfinished ones able to step, each in a slot of its own. */
  ghost predicate Replayable(m: Model, caches: Caches, ss: seq<Session>)
    reads ss, Streams(ss)
  {
    && Separate(ss)
    && (forall i :: 0 <= i < |ss| ==> ss[i].Consistent(m))
    && (forall i :: 0 <= i < |ss| && !ss[i].done ==> Sound(m, caches, ss[i]) && Runnable(m, caches, ss[i]))
    && (forall i, j :: 0 <= i < |ss| && 0 <= j < |ss| && i != j && !ss[i].done && !ss[j].done ==>
          ss[i].seat != ss[j].seat)
  }

  /** `SequentialExecutor`: one request at a time, in the order of arrival. */
  class SequentialExecutor {
    const runner: Runner
    const backend: Backend := runner.backend
    var widths: seq<nat>
    /** Everybody who was brought to an end, in order. */
    ghost var served: seq<Session>

    constructor (runner: Runner)
      ensures this.runner == runner && widths == [] && served == []
    {
      this.runner, widths, served := runner, [], [];
    }

    /** Exactly the unfinished sessions are served, one after the other in the order of arrival, up to the first that
        raises. */
    method Run(sessions: seq<Session>, capacity: nat) returns (ok: bool)
      requires Replayable(backend.model, backend.caches, sessions)
      modifies this`widths, this`served, sessions, Streams(sessions)
      modifies backend`caches, backend`raised, backend`overruns
      ensures backend.raised == old(backend.raised) + if ok then 0 else 1
      ensures backend.overruns == old(backend.overruns)
      ensures forall i :: 0 <= i < |sessions| ==> sessions[i].Consistent(backend.model)
      ensures ok ==> forall i :: 0 <= i < |sessions| ==> sessions[i].done
      ensures ByArrival(SortByArrival(sessions))
      ensures old(served) <= served <= old(served) + old(Undone(SortByArrival(sessions)))
      ensures ok ==> served == old(served) + old(Undone(SortByArrival(sessions)))
    {
      var order := SortByArrival(sessions);
      SortSorts(sessions);
      SortedIsReplayable(sessions, order);
      ok := RunInOrder(order, capacity);
    }

    lemma SortedIsReplayable(sessions: seq<Session>, order: seq<Session>)
      requires Replayable(backend.model, backend.caches, sessions) && multiset(order) == multiset(sessions)
      ensures Replayable(backend.model, backend.caches, order)
      ensures forall i :: 0 <= i < |order| ==> order[i] in sessions
      ensures forall i :: 0 <= i < |sessions| ==> sessions[i] in order
    {
      hide Sound;
      hide Runnable;
      hide Session.Consistent;
      SameMembers(sessions, order);
      SameObjects(sessions, order);
      forall i, j | 0 <= i < |order| && 0 <= j < |order| && i != j && !order[i].done && !order[j].done
        ensures order[i].seat != order[j].seat
      {
        var x :| 0 <= x < |sessions| && sessions[x] == order[i];
        var y :| 0 <= y < |sessions| && sessions[y] == order[j];
        assert order[i] != order[j];
      }
    }

    method RunInOrder(order: seq<Session>, capacity: nat) returns (ok: bool)
      requires Replayable(backend.model, backend.caches, order)
      modifies this`widths, this`served, order, Streams(order)
      modifies backend`caches, backend`raised, backend`overruns
      ensures backend.raised == old(backend.raised) + if ok then 0 else 1
      ensures backend.overruns == old(backend.overruns)
      ensures forall i :: 0 <= i < |order| ==> order[i].Consistent(backend.model)
      ensures ok ==> forall i :: 0 <= i < |order| ==> order[i].done
      ensures old(served) <= served <= old(served) + old(Undone(order))
      ensures ok ==> served == old(served) + old(Undone(order))
    {
      hide Session.Consistent;
      hide Sound;
      hide Runnable;
      hide Separate;
      hide Undone;
      hide Streams;
      ok := true;
      ghost var wanted := old(served) + Undone(order);
      assert order[0..] == order;
      for i := 0 to |order|
        invariant ok && backend.raised == old(backend.raised) && backend.overruns == old(backend.overruns)
        invariant Replayable(backend.model, backend.caches, order)
        invariant old(served) <= served && served + Undone(order[i..]) == wanted
        invariant forall j :: 0 <= j < i ==> order[j].done
      {
        UndoneFrom(order, i);
        OwnStream(order, i);
        if !order[i].done {
          ghost var rest := Undone(order[i + 1..]);
          assert served + [order[i]] + rest == wanted;
          ok := Replay(order, i, capacity);
          if !ok {
            return;
          }
          widths := widths + [1];
        }
      }
      UndoneNone(order[|order|..]);
    }

    lemma OwnStream(order: seq<Session>, i: nat)
      requires i < |order|
      ensures order[i].stream != null ==> order[i].stream in Streams(order)
    {
    }

    lemma UndoneFrom(order: seq<Session>, i: nat)
      requires i < |order|
      ensures Undone(order[i..]) == (if order[i].done then [] else [order[i]]) + Undone(order[i + 1..])
    {
      assert order[i..][1..] == order[i + 1..];
    }

    method Replay(order: seq<Session>, i: nat, capacity: nat) returns (ok: bool)
      requires Replayable(backend.model, backend.caches, order) && i < |order| && !order[i].done
      modifies this`served, order[i], order[i].stream
      modifies backend`caches, backend`raised, backend`overruns
      ensures backend.raised == old(backend.raised) + if ok then 0 else 1
      ensures backend.overruns == old(backend.overruns)
      ensures served == (if ok then old(served) + [order[i]] else old(served))
      ensures Undone(order[i + 1..]) == old(Undone(order[i + 1..]))
      ensures forall j :: 0 <= j < |order| ==> order[j].Consistent(backend.model)
      ensures ok ==> Replayable(backend.model, backend.caches, order) && order[i].done
    {
      hide Sound;
      hide Runnable;
      hide Session.Consistent;
      var session := order[i];
      ghost var c0 := backend.caches;
      SeatOf(session);
      ok := runner.FinishOne(session, capacity);
      if ok {
        served := served + [session];
      }
      SoundIsConsistent(backend.model, backend.caches, session);
      forall j | 0 <= j < |order| && j != i
        ensures order[j].Consistent(backend.model)
        ensures !order[j].done ==> Sound(backend.model, backend.caches, order[j])
        ensures !order[j].done ==> Runnable(backend.model, backend.caches, order[j])
      {
        if !order[j].done {
          SoundElsewhere(backend.model, c0, backend.caches, {session.seat}, order[j]);
        }
      }
    }

    lemma SeatOf(s: Session)
      requires Sound(backend.model, backend.caches, s) && !s.done
      ensures s.seat >= 0
    {
    }
  }

  /** After a run that raised, whoever is unfinished restarts from the prefill in the slot it still names. Nothing is
      prefilled in between, so a slot the run has already given back still shows it. */
  method RestartUnfinished(executor: GroupedExecutor)
    requires executor.Salvageable()
    modifies executor.roster
    ensures executor.roster == old(executor.roster)
    ensures Replayable(executor.backend.model, executor.backend.caches, executor.roster)
    ensures forall s :: s in executor.roster && old(s.done) ==>
            s.done && s.tokens == old(s.tokens) && s.stop == old(s.stop)
  {
    hide Sound;
    hide Separate;
    hide Runnable;
    hide Apart;
    hide Session.Consistent;
    var m, roster := executor.backend.model, executor.roster;
    LiveSeats(executor);
    for i := 0 to |roster|
      invariant executor.roster == roster && Separate(roster)
      invariant forall j :: 0 <= j < |roster| ==> roster[j].Consistent(m) && roster[j].done == old(roster[j].done)
      invariant forall j :: 0 <= j < |roster| && !roster[j].done ==> Sound(m, executor.backend.caches, roster[j])
      invariant forall j :: 0 <= j < i && !roster[j].done ==> Runnable(m, executor.backend.caches, roster[j])
      invariant forall j :: 0 <= j < |roster| && roster[j].done ==>
                  roster[j].tokens == old(roster[j].tokens) && roster[j].stop == old(roster[j].stop)
    {
      var session := roster[i];
      if !session.done {
        RestartOne(m, executor.backend.caches, session);
      }
    }
  }

  method RestartOne(m: Model, caches: Caches, session: Session)
    requires Sound(m, caches, session) && !session.done
    modifies session
    ensures Sound(m, caches, session) && Runnable(m, caches, session) && session.Consistent(m) && !session.done
  {
    session.Restart(m, caches);
  }

  lemma LiveSeats(executor: GroupedExecutor)
    requires executor.Salvageable()
    ensures var roster := executor.roster;
      forall i, j :: 0 <= i < |roster| && 0 <= j < |roster| && i != j && !roster[i].done && !roster[j].done ==>
        roster[i].seat != roster[j].seat
  {
    hide Runnable;
    var roster, kept := executor.roster, executor.kept;
    forall i, j | 0 <= i < |roster| && 0 <= j < |roster| && i != j && !roster[i].done && !roster[j].done
      ensures roster[i].seat != roster[j].seat
    {
      assert roster[i] in roster && roster[j] in roster;
      var x :| 0 <= x < |kept| && kept[x] == roster[i];
      var y :| 0 <= y < |kept| && kept[y] == roster[j];
      assert Untouched(kept[x], kept[y]);
      assert Sound(executor.backend.model, executor.backend.caches, roster[i]);
    }
  }

  /** The safety net: restart whoever is unfinished, then one request at a time. */
  method ReplayAll(executor: GroupedExecutor, capacity: nat) returns (ok: bool)
    requires executor.Salvageable()
    modifies executor.backend`caches, executor.backend`raised, executor.backend`overruns
    modifies executor.grouper.runner`fallbacks, executor.roster, Streams(executor.roster)
    ensures executor.backend.raised == old(executor.backend.raised) + if ok then 0 else 1
    ensures executor.backend.overruns == old(executor.backend.overruns)
    ensures executor.roster == old(executor.roster)
    ensures forall i :: 0 <= i < |executor.roster| ==>
              Answered(executor.backend.model, executor.roster[i]) && (ok ==> executor.roster[i].done)
  {
    hide Sound;
    hide Undone;
    hide SortByArrival;
    hide Runnable;
    hide Apart;
    hide Answered;
    hide Replayable;
    hide Session.Consistent;
    RestartUnfinished(executor);
    var sequential := new SequentialExecutor(executor.grouper.runner);
    ok := sequential.Run(executor.roster, capacity);
    executor.grouper.runner.fallbacks := executor.grouper.runner.fallbacks + 1;
    forall i | 0 <= i < |executor.roster|
      ensures Answered(executor.backend.model, executor.roster[i])
    {
      ConsistentIsAnswered(executor.backend.model, executor.roster[i]);
    }
  }

  /** `_serve_group`: whatever failed, in a round, in a fallback or between rounds, a dispatch that returns has answered
      every request, its own and those of the batches it took, with that request's lone decode or, if its caller gave
      up, with a prefix of it. It took every batch it was handed but for one whose building raised: the requests of that
      one are in nobody's roster. */
  method Serve(executor: GroupedExecutor, sessions: seq<Session>, source: Arrivals, capacity: nat,
               ghost streams: set<TokenStream>)
    returns (ok: bool, ghost taken: nat)
    requires Apart(sessions) && Slots(sessions) <= executor.backend.held && executor.owned == []
    requires forall s :: s in sessions ==>
               Sound(executor.backend.model, executor.backend.caches, s)
               && Runnable(executor.backend.model, executor.backend.caches, s)
    requires executor.Upcoming(source.Rest(), Streams(sessions)) && executor.grouper.maxWidth > 0
    requires streams == Streams(sessions) + executor.AllStreams(source.Rest())
    modifies executor, executor.grouper`widths, executor.grouper`served, executor.grouper.runner`fallbacks
    modifies executor.backend, source`handed, sessions, streams
    ensures !ok ==> executor.backend.raised >= old(executor.backend.raised) + if executor.wreck.Some? then 1 else 3
    ensures executor.backend.overruns == old(executor.backend.overruns)
    ensures forall i :: 0 <= i < |sessions| ==> sessions[i] in executor.roster
    ensures forall i :: 0 <= i < |executor.roster| ==>
              Answered(executor.backend.model, executor.roster[i]) && (ok ==> executor.roster[i].done)
    ensures |sessions| <= |executor.roster|
    ensures executor.TakenBatches(executor.roster[..|sessions|], executor.roster, old(source.Rest()), taken)
    ensures executor.Handed(old(source.Rest()), taken, old(executor.backend.held) - Slots(sessions))
    ensures source.handed == old(source.handed) + taken + if executor.wreck.None? then 0 else 1
  {
    hide Sound;
    hide Runnable;
    hide Apart;
    hide Slots;
    hide GroupedExecutor.Upcoming;
    hide GroupedExecutor.AllStreams;
    hide GroupedExecutor.Salvageable;
    hide GroupedExecutor.TakenBatches;
    hide GroupedExecutor.Handed;
    hide Answered;
    ok, taken := executor.Run(sessions, source, capacity, streams);
    SortedMembers(sessions, executor.roster);
    if !ok {
      ok := ReplayAll(executor, capacity);
    }
  }

  lemma SortedMembers(sessions: seq<Session>, roster: seq<Session>)
    requires |sessions| <= |roster| && roster[..|sessions|] == SortByArrival(sessions)
    ensures forall i :: 0 <= i < |sessions| ==> sessions[i] in roster
  {
    SameMembers(sessions, roster[..|sessions|]);
  }
}
