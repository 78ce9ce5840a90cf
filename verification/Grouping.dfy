/** One round of grouped execution: submit a group, accept what came back, and on any failure start the group over. */
module Grouping {
  import opened Decoding
  import opened CacheContract
  import opened Serving
  import opened Executor

  /** A session that can take part in a group. */
  ghost predicate Steppable(m: Model, caches: Caches, s: Session)
    reads s, s.stream
  {
    !s.done && s.Settled(m) && s.Ready(m, caches)
  }

  ghost predicate Submitted(m: Model, caches: Caches, group: seq<Session>, picks: seq<seq<Token>>)
    reads group
  {
    && |picks| == |group|
    && forall j :: 0 <= j < |group| ==> picks[j] != [] && group[j].Ahead(m, caches, picks[j])
  }

  lemma SteppableElsewhere(m: Model, before: Caches, after: Caches, seats: set<int>, s: Session)
    requires Steppable(m, before, s) && KeptOutside(before, after, seats) && s.seat !in seats
    ensures Steppable(m, after, s) && s.seat in after && after[s.seat] == before[s.seat]
  {
    s.SeatedElsewhere(m, before, after);
  }

  lemma ApartSeats(m: Model, caches: Caches, s: Session, other: Session)
    requires Steppable(m, caches, s) && Untouched(s, other)
    ensures s.seat >= 0 && s.seat != other.seat
  {
  }

  lemma OnlyAheadKeepsOutside(before: Caches, after: Caches, places: seq<Place>, seats: set<int>)
    requires OnlyAhead(before, after, places) && forall i :: 0 <= i < |places| ==> places[i].slot in seats
    ensures KeptOutside(before, after, seats)
  {
  }

  class Grouper {
    const runner: Runner
    const backend: Backend := runner.backend
    const maxWidth: nat
    /** The dense plan's executor submits a group as one stacked step; the batch-1 executor one submission a session. */
    const stacked: bool
    /** `realised_widths`: one entry for every round that did not fall back. */
    var widths: seq<nat>
    /** Every group that was ever served, in order. */
    ghost var served: seq<seq<Session>>

    constructor (runner: Runner, maxWidth: nat, stacked: bool)
      requires 1 <= maxWidth <= if stacked then 8 else 4
      ensures this.runner == runner && this.maxWidth == maxWidth && this.stacked == stacked
      ensures widths == [] && served == []
    {
      this.runner, this.maxWidth, this.stacked, widths, served := runner, maxWidth, stacked, [], [];
    }

    method Gather(group: seq<Session>) returns (places: seq<Place>, tokens: seq<Token>)
      requires forall j :: 0 <= j < |group| ==> group[j].state.Some? && group[j].tokens != []
      ensures |places| == |tokens| == |group|
      ensures forall j :: 0 <= j < |group| ==>
                places[j] == group[j].state.value && tokens[j] == group[j].tokens[|group[j].tokens| - 1]
    {
      places, tokens := [], [];
      for i := 0 to |group|
        invariant |places| == |tokens| == i
        invariant forall j :: 0 <= j < i ==>
                    places[j] == group[j].state.value && tokens[j] == group[j].tokens[|group[j].tokens| - 1]
      {
        places := places + [group[i].state.value];
        tokens := tokens + [group[i].tokens[|group[i].tokens| - 1]];
      }
    }

    /** `steps_group`: the whole group as one stacked chain of `count` steps. */
    method SubmitStacked(group: seq<Session>, count: nat) returns (ok: bool, picks: seq<seq<Token>>)
      requires Apart(group) && count > 0
      requires forall j :: 0 <= j < |group| ==> Steppable(backend.model, backend.caches, group[j])
      requires forall j :: 0 <= j < |group| ==> |group[j].tokens| + count <= group[j].job.limit
      modifies backend`caches, backend`raised, backend`overruns
      ensures backend.raised == old(backend.raised) + if ok then 0 else 1
      ensures backend.overruns == old(backend.overruns)
      ensures KeptOutside(old(backend.caches), backend.caches, Seats(group))
      ensures forall j :: 0 <= j < |group| ==> Steppable(backend.model, backend.caches, group[j])
      ensures ok ==> Submitted(backend.model, backend.caches, group, picks)
      ensures ok ==> forall j :: 0 <= j < |group| ==> |picks[j]| == count
    {
      hide Steppable;
      hide Advanced;
      hide OnlyAhead;
      hide Session.Ahead;
      var m := backend.model;
      ghost var c0 := backend.caches;
      forall j | 0 <= j < |group|
        ensures HasRoom(group[j], c0, count) && group[j].seat in Seats(group)
        ensures group[j].state.value.offset + count <= |group[j].job.prompt| + group[j].job.limit
      {
        SteppableHasRoom(m, c0, group[j], count);
      }
      var places, tokens := Gather(group);
      forall i, j | 0 <= i < j < |places|
        ensures places[i].slot != places[j].slot
      {
        assert Untouched(group[i], group[j]);
      }
      ok, picks := backend.StepsGroup(places, tokens, count, group);
      if ok {
        AdvancedOnlyAhead(m, c0, backend.caches, places, tokens, picks);
      }
      forall j | 0 <= j < |group|
        ensures Steppable(m, backend.caches, group[j])
        ensures ok ==> group[j].Ahead(m, backend.caches, picks[j])
      {
        SteppableAhead(m, c0, backend.caches, places, j, group[j]);
        if ok {
          AdvancedAhead(m, c0, backend.caches, places, tokens, picks, j, group[j]);
        }
      }
      OnlyAheadKeepsOutside(c0, backend.caches, places, Seats(group));
    }

    ghost predicate HasRoom(s: Session, caches: Caches, count: nat)
      reads s
    {
      && s.tokens != [] && s.seat >= 0 && s.state.Some? && s.state.value.slot == s.seat && s.seat in caches
      && s.state.value.offset + count <= |caches[s.seat]|
    }

    /** A chain cut to what the request still needs stays below its prompt plus its output limit. */
    lemma SteppableHasRoom(m: Model, caches: Caches, s: Session, count: nat)
      requires Steppable(m, caches, s) && |s.tokens| + count <= s.job.limit
      ensures HasRoom(s, caches, count)
      ensures s.state.value.offset + count < |s.job.prompt| + s.job.limit
    {
    }

    lemma SteppableAhead(m: Model, before: Caches, after: Caches, places: seq<Place>, i: nat, s: Session)
      requires Steppable(m, before, s) && s.state.Some?
      requires OnlyAhead(before, after, places) && i < |places| && places[i] == s.state.value
      ensures Steppable(m, after, s)
    {
      s.SeatedAhead(m, before, after, places, i);
    }

    lemma AdvancedAhead(m: Model, before: Caches, after: Caches, places: seq<Place>, feed: seq<Token>,
                        picks: seq<seq<Token>>, i: nat, s: Session)
      requires |feed| == |places| == |picks| && Fits(before, places, Lengths(picks)) && i < |places|
      requires Advanced(m, before, after, places, feed, picks)
      requires Steppable(m, before, s) && s.state.Some? && s.tokens != []
      requires places[i] == s.state.value && feed[i] == s.tokens[|s.tokens| - 1]
      ensures s.Ahead(m, after, picks[i])
    {
      s.AdvancedIsAhead(m, before, after, places, feed, picks, i);
    }

    /** One session of a batch-1 group: a chain when `count` is above one, which the backend may decline, or else one
        step. */
    method SubmitOne(session: Session, capacity: nat, count: nat, chained: bool)
      returns (ok: bool, picks: Option<seq<Token>>)
      requires Steppable(backend.model, backend.caches, session)
      requires 0 < count && |session.tokens| + count <= session.job.limit && (!chained ==> count == 1)
      modifies backend`caches, backend`raised, backend`overruns
      ensures backend.raised == old(backend.raised) + if ok then 0 else 1
      ensures backend.overruns == old(backend.overruns)
      ensures KeptOutside(old(backend.caches), backend.caches, {session.seat})
      ensures Steppable(backend.model, backend.caches, session)
      ensures ok && picks.Some? ==> session.Ahead(backend.model, backend.caches, picks.value) && picks.value != []
      ensures !chained && ok ==> picks.Some? && |picks.value| == 1
    {
      var m := backend.model;
      ghost var c0, place := backend.caches, session.state.value;
      var own := runner.OwnCapacity(session, capacity);
      var last := session.tokens[|session.tokens| - 1];
      if chained {
        ok, picks := backend.Steps(session.state.value, last, own, count, session);
      } else {
        var pick;
        ok, pick := backend.Step(session.state.value, last, own, session);
        picks := Some([pick]);
      }
      session.SeatedAhead(m, c0, backend.caches, [place], 0);
      if ok && picks.Some? {
        session.AdvancedIsAhead(m, c0, backend.caches, [place], [last], [picks.value], 0);
      }
    }

    /** Every session of a batch-1 group in turn. A chain somebody declines gives up the whole round of chains. */
    method SubmitEach(group: seq<Session>, capacity: nat, chained: bool)
      returns (ok: bool, picks: Option<seq<seq<Token>>>)
      requires Apart(group)
      requires forall j :: 0 <= j < |group| ==> Steppable(backend.model, backend.caches, group[j])
      modifies backend`caches, backend`raised, backend`overruns
      ensures backend.raised == old(backend.raised) + if ok then 0 else 1
      ensures backend.overruns == old(backend.overruns)
      ensures KeptOutside(old(backend.caches), backend.caches, Seats(group))
      ensures forall j :: 0 <= j < |group| ==> Steppable(backend.model, backend.caches, group[j])
      ensures ok && picks.Some? ==> Submitted(backend.model, backend.caches, group, picks.value)
      ensures ok && !chained ==> picks.Some? && forall j :: 0 <= j < |group| ==> |picks.value[j]| == 1
    {
      hide Steppable;
      hide Session.Ahead;
      var m := backend.model;
      var chains := [];
      for i := 0 to |group|
        invariant backend.raised == old(backend.raised) && backend.overruns == old(backend.overruns)
        invariant KeptOutside(old(backend.caches), backend.caches, Seats(group))
        invariant forall j :: 0 <= j < |group| ==> Steppable(m, backend.caches, group[j])
        invariant |chains| == i
        invariant forall j :: 0 <= j < i ==> chains[j] != [] && group[j].Ahead(m, backend.caches, chains[j])
        invariant !chained ==> forall j :: 0 <= j < i ==> |chains[j]| == 1
      {
        var session := group[i];
        assert session.seat in Seats(group);
        ghost var c1 := backend.caches;
        var remaining := Remaining(session);
        var count := if !chained then 1 else if backend.readback < remaining then backend.readback else remaining;
        if chained && count <= 1 {
          return true, None;
        }
        var chain;
        ok, chain := SubmitOne(session, capacity, count, chained);
        forall j | 0 <= j < |group| && j != i
          ensures Steppable(m, backend.caches, group[j])
          ensures j < i ==> group[j].Ahead(m, backend.caches, chains[j])
        {
          ApartSeats(m, c1, group[j], session);
          SteppableElsewhere(m, c1, backend.caches, {session.seat}, group[j]);
          if j < i {
            group[j].AheadElsewhere(m, c1, backend.caches, chains[j]);
          }
        }
        if !ok || chain.None? {
          return ok, None;
        }
        chains := chains + [chain.value];
      }
      return true, Some(chains);
    }

    method Remaining(session: Session) returns (remaining: nat)
      requires Steppable(backend.model, backend.caches, session)
      ensures remaining > 0 && |session.tokens| + remaining == session.job.limit
    {
      remaining := session.job.limit - |session.tokens|;
    }

    /** The stacked chain's length: as many steps as every member still needs, at most the backend's readback. */
    method SharedCount(group: seq<Session>) returns (count: nat)
      requires forall j :: 0 <= j < |group| ==> Steppable(backend.model, backend.caches, group[j])
      ensures count <= backend.readback
      ensures forall j :: 0 <= j < |group| ==> |group[j].tokens| + count <= group[j].job.limit
    {
      count := backend.readback;
      for i := 0 to |group|
        invariant count <= backend.readback
        invariant forall j :: 0 <= j < i ==> |group[j].tokens| + count <= group[j].job.limit
      {
        var remaining := Remaining(group[i]);
        if remaining < count {
          count := remaining;
        }
      }
    }

    /** `_chain_group`: chained readback of the round, when every session can chain. */
    method ChainGroup(group: seq<Session>, capacity: nat) returns (ok: bool, chains: Option<seq<seq<Token>>>)
      requires Apart(group)
      requires forall j :: 0 <= j < |group| ==> Steppable(backend.model, backend.caches, group[j])
      modifies backend`caches, backend`raised, backend`overruns
      ensures backend.raised == old(backend.raised) + if ok then 0 else 1
      ensures backend.overruns == old(backend.overruns)
      ensures KeptOutside(old(backend.caches), backend.caches, Seats(group))
      ensures forall j :: 0 <= j < |group| ==> Steppable(backend.model, backend.caches, group[j])
      ensures ok && chains.Some? ==> Submitted(backend.model, backend.caches, group, chains.value)
    {
      if stacked {
        var count := SharedCount(group);
        if count < 2 {
          return true, None;
        }
        var picks;
        ok, picks := SubmitStacked(group, count);
        chains := Some(picks);
      } else {
        if !backend.canChain || backend.readback <= 1 {
          return true, None;
        }
        ok, chains := SubmitEach(group, capacity, true);
      }
    }

    /** `_step_group`: one step for every session of the round. */
    method StepGroup(group: seq<Session>, capacity: nat) returns (ok: bool, picks: seq<seq<Token>>)
      requires Apart(group)
      requires forall j :: 0 <= j < |group| ==> Steppable(backend.model, backend.caches, group[j])
      modifies backend`caches, backend`raised, backend`overruns
      ensures backend.raised == old(backend.raised) + if ok then 0 else 1
      ensures backend.overruns == old(backend.overruns)
      ensures KeptOutside(old(backend.caches), backend.caches, Seats(group))
      ensures forall j :: 0 <= j < |group| ==> Steppable(backend.model, backend.caches, group[j])
      ensures ok ==> Submitted(backend.model, backend.caches, group, picks)
      ensures ok ==> forall j :: 0 <= j < |group| ==> |picks[j]| == 1
    {
      if stacked {
        ok, picks := SubmitStacked(group, 1);
      } else {
        var each;
        ok, each := SubmitEach(group, capacity, false);
        picks := if ok then each.value else [];
      }
    }

    /** Accept what the round's submissions picked, session by session. */
    method AcceptGroup(group: seq<Session>, picks: seq<seq<Token>>, chained: bool) returns (ok: bool)
      requires Apart(group) && Submitted(backend.model, backend.caches, group, picks)
      requires forall j :: 0 <= j < |group| ==> Steppable(backend.model, backend.caches, group[j])
      requires !chained ==> forall j :: 0 <= j < |group| ==> |picks[j]| == 1
      modifies group, Streams(group), backend`raised
      ensures backend.raised == old(backend.raised) + if ok then 0 else 1
      ensures forall j :: 0 <= j < |group| ==> Sound(backend.model, backend.caches, group[j])
      ensures ok ==> forall j :: 0 <= j < |group| ==>
              Moved(backend.model, backend.caches, group[j], old(|group[j].tokens|))
    {
      hide Sound;
      hide Moved;
      hide Steppable;
      hide Session.Ahead;
      var m := backend.model;
      forall j | 0 <= j < |group|
        ensures Sound(m, backend.caches, group[j])
      {
        SteppableIsSound(m, backend.caches, group[j]);
      }
      ok := true;
      for i := 0 to |group|
        invariant ok && backend.raised == old(backend.raised)
        invariant forall j :: 0 <= j < |group| ==> Sound(m, backend.caches, group[j])
        invariant forall j :: 0 <= j < i ==> Moved(m, backend.caches, group[j], old(|group[j].tokens|))
        invariant forall j :: i <= j < |group| ==>
                    && Steppable(m, backend.caches, group[j]) && group[j].Ahead(m, backend.caches, picks[j])
                    && |group[j].tokens| == old(|group[j].tokens|)
      {
        var session := group[i];
        ok := AcceptOne(session, picks[i], chained);
        assert forall j :: 0 <= j < |group| && j != i ==> Untouched(group[j], session);
        if !ok {
          return;
        }
      }
    }

    method AcceptOne(session: Session, picks: seq<Token>, chained: bool) returns (ok: bool)
      requires Steppable(backend.model, backend.caches, session) && session.Ahead(backend.model, backend.caches, picks)
      requires picks != [] && (!chained ==> |picks| == 1)
      modifies session`tokens, session`done, session`stop, session`state, session.stream, backend`raised
      ensures backend.raised == old(backend.raised) + if ok then 0 else 1
      ensures Sound(backend.model, backend.caches, session)
      ensures ok ==> Moved(backend.model, backend.caches, session, |old(session.tokens)|)
    {
      if chained {
        ok := runner.AcceptChain(session, picks);
      } else {
        assert picks == [picks[0]];
        ok := runner.AcceptStep(session, picks[0]);
      }
    }

    /** `_fall_back`: a failed group leaves its states unknown, so its requests restart from their prefill, those that
        had finished in the failed round too, and finish one by one. */
    method FallBack(group: seq<Session>, capacity: nat) returns (ok: bool)
      requires Apart(group)
      requires forall j :: 0 <= j < |group| ==> Sound(backend.model, backend.caches, group[j])
      requires forall j :: 0 <= j < |group| ==> Restartable(backend.model, group[j])
      modifies runner`fallbacks, group, Streams(group)
      modifies backend`caches, backend`raised, backend`overruns
      ensures runner.fallbacks == old(runner.fallbacks) + 1
      ensures backend.raised == old(backend.raised) + if ok then 0 else 1
      ensures backend.overruns == old(backend.overruns)
      ensures KeptOutside(old(backend.caches), backend.caches, Seats(group))
      ensures forall j :: 0 <= j < |group| ==> Sound(backend.model, backend.caches, group[j])
      ensures ok ==> forall j :: 0 <= j < |group| ==> group[j].done
    {
      runner.fallbacks := runner.fallbacks + 1;
      RestartAll(group);
      ok := runner.FinishSequentially(group, capacity);
    }

    method RestartOne(session: Session)
      requires Sound(backend.model, backend.caches, session) && Restartable(backend.model, session)
      modifies session
      ensures Sound(backend.model, backend.caches, session) && Runnable(backend.model, backend.caches, session)
    {
      session.Restart(backend.model, backend.caches);
    }

    method RestartAll(group: seq<Session>)
      requires Apart(group)
      requires forall j :: 0 <= j < |group| ==> Sound(backend.model, backend.caches, group[j])
      requires forall j :: 0 <= j < |group| ==> Restartable(backend.model, group[j])
      modifies group
      ensures forall j :: 0 <= j < |group| ==> Sound(backend.model, backend.caches, group[j])
      ensures forall j :: 0 <= j < |group| ==> Runnable(backend.model, backend.caches, group[j])
    {
      hide Sound;
      hide Runnable;
      for i := 0 to |group|
        invariant forall j :: 0 <= j < |group| ==> Sound(backend.model, backend.caches, group[j])
        invariant forall j :: 0 <= j < i ==> Runnable(backend.model, backend.caches, group[j])
      {
        var session := group[i];
        RestartOne(session);
        assert forall j :: 0 <= j < |group| && j != i ==> Untouched(group[j], session);
      }
    }

    /** One round: a chained or a plain submission, and the fallback for whatever raised in it. */
    method ServeGroup(group: seq<Session>, capacity: nat) returns (ok: bool, fellBack: bool)
      requires Apart(group)
      requires forall j :: 0 <= j < |group| ==> Steppable(backend.model, backend.caches, group[j])
      modifies this`widths, this`served, runner`fallbacks, group, Streams(group)
      modifies backend`caches, backend`raised, backend`overruns
      ensures runner.fallbacks == old(runner.fallbacks) + if fellBack then 1 else 0
      ensures backend.raised == old(backend.raised) + (if fellBack then 1 else 0) + (if ok then 0 else 1)
      ensures !ok ==> fellBack
      ensures backend.overruns == old(backend.overruns)
      ensures served == old(served) + [group]
      ensures widths == if fellBack then old(widths) else old(widths) + [|group|]
      ensures KeptOutside(old(backend.caches), backend.caches, Seats(group))
      ensures forall j :: 0 <= j < |group| ==> Sound(backend.model, backend.caches, group[j])
      ensures ok && fellBack ==> forall j :: 0 <= j < |group| ==> group[j].done
      ensures ok && !fellBack ==>
                forall j :: 0 <= j < |group| ==> Moved(backend.model, backend.caches, group[j], old(|group[j].tokens|))
    {
      hide Sound;
      hide Moved;
      hide Steppable;
      hide Session.Ahead;
      var m := backend.model;
      served := served + [group];
      forall j | 0 <= j < |group|
        ensures Restartable(m, group[j])
      {
        SteppableIsSound(m, backend.caches, group[j]);
      }
      var chains;
      ok, chains := ChainGroup(group, capacity);
      var picks := if chains.Some? then chains.value else [];
      if ok && chains.None? {
        ok, picks := StepGroup(group, capacity);
      }
      forall j | 0 <= j < |group|
        ensures Sound(m, backend.caches, group[j])
      {
        SteppableIsSound(m, backend.caches, group[j]);
      }
      if ok {
        ok := AcceptGroup(group, picks, chains.Some?);
      }
      fellBack := !ok;
      if fellBack {
        ok := FallBack(group, capacity);
      } else {
        widths := widths + [|group|];
      }
    }
  }

  /** A session whose first token did not already finish it. */
  predicate Restartable(m: Model, s: Session) {
    s.seat >= 0 && |Reference(m, s.job)| > 1
  }

  /** A session the round moved on: done, or able to take part again, with more tokens than before. */
  ghost predicate Moved(m: Model, caches: Caches, s: Session, before: nat)
    reads s, s.stream
  {
    |s.tokens| > before && (!s.done ==> Steppable(m, caches, s))
  }

  lemma SteppableIsSound(m: Model, caches: Caches, s: Session)
    requires Steppable(m, caches, s)
    ensures Sound(m, caches, s) && Restartable(m, s)
  {
  }
}
