/** The executors: one request at a time, and groups of up to `maxWidth` requests a round. */
module Executor {
  import opened Decoding
  import opened CacheContract
  import opened Serving

  /** Two sessions that share no object and no slot. */
  ghost predicate Untouched(a: Session, b: Session) {
    && a != b
    && (a.stream != null ==> a.stream != b.stream)
    && (a.seat >= 0 ==> a.seat != b.seat)
  }

  ghost predicate Apart(ss: seq<Session>) {
    forall i, j :: 0 <= i < |ss| && 0 <= j < |ss| && i != j ==> Untouched(ss[i], ss[j])
  }

  ghost function Streams(ss: seq<Session>): set<TokenStream> {
    set s | s in ss && s.stream != null :: s.stream
  }

  ghost function Seats(ss: seq<Session>): set<int> {
    set s | s in ss :: s.seat
  }

  /** The loops every executor shares. */
  class Runner {
    const backend: Backend
    var fallbacks: nat

    constructor (backend: Backend)
      ensures this.backend == backend && fallbacks == 0
    {
      this.backend, fallbacks := backend, 0;
    }

    /** The loop of a draft or a chain: accept its tokens up to the end of the request or a cancellation. */
    method AcceptAll(session: Session, picks: seq<Token>) returns (ok: bool, accepted: nat)
      requires session.Settled(backend.model) && !session.done
      requires forall k :: 0 <= k < |picks| ==> Foretold(backend.model, session.job, session.tokens, picks, k)
      modifies session`tokens, session`done, session`stop, session.stream, backend`raised
      ensures backend.raised == old(backend.raised) + if ok then 0 else 1
      ensures session.Consistent(backend.model) && accepted <= |picks|
      ensures session.tokens == old(session.tokens) + picks[..accepted]
      ensures ok ==> session.Settled(backend.model) && (session.done || accepted == |picks|)
      ensures ok && picks != [] ==> accepted > 0
    {
      ok, accepted := true, 0;
      ghost var before := session.tokens;
      assert session.tokens == before + picks[..0];
      while accepted < |picks|
        invariant accepted <= |picks| && session.tokens == before + picks[..accepted]
        invariant ok && backend.raised == old(backend.raised)
        invariant session.Settled(backend.model) && !session.done
      {
        assert Foretold(backend.model, session.job, before, picks, accepted);
        NextIsReference(backend.model, session.job, session.tokens);
        ok := session.AcceptToken(backend, picks[accepted]);
        accepted := accepted + 1;
        assert session.tokens == before + picks[..accepted];
        if !ok || session.done {
          return;
        }
        var stopped := session.StopIfCancelled(backend.model);
        if stopped {
          return;
        }
      }
    }

    /** `_accept_chain`: accept a chain that read ahead, then move the position back to the last accepted token. */
    method AcceptChain(session: Session, picks: seq<Token>) returns (ok: bool)
      requires session.Settled(backend.model) && !session.done
      requires session.Ahead(backend.model, backend.caches, picks)
      modifies session`tokens, session`done, session`stop, session`state, session.stream, backend`raised
      ensures backend.raised == old(backend.raised) + if ok then 0 else 1
      ensures session.Consistent(backend.model) && session.Seated(backend.model, backend.caches)
      ensures ok ==> session.Settled(backend.model) && session.Ready(backend.model, backend.caches)
      ensures ok && picks != [] ==> |session.tokens| > |old(session.tokens)|
    {
      hide Feed;
      hide PrivateCache;
      hide PromptColumns;
      hide Lone;
      hide Foretold;
      hide Session.Ahead;
      hide Session.Ready;
      var m := backend.model;
      ghost var before := session.tokens;
      AheadForetells(m, backend.caches, session, picks);
      var accepted;
      ok, accepted := AcceptAll(session, picks);
      if ok {
        Rewind(session, before, picks, accepted);
      }
    }

    /** `rewind`: the position goes back to the last accepted token; the cache stays as the chain left it. */
    method Rewind(session: Session, ghost before: seq<Token>, ghost picks: seq<Token>, ghost accepted: nat)
      requires session.Settled(backend.model) && session.Seated(backend.model, backend.caches)
      requires before != [] && accepted <= |picks| && session.tokens == before + picks[..accepted]
      requires |session.job.prompt| + |before| - 1 + |picks| <= |backend.caches[session.seat]|
      requires backend.caches[session.seat][..|session.job.prompt| + |before| - 1 + |picks|]
            == Feed(backend.model, Capacity(backend.model, session.job),
              PrivateCache(backend.model, session.job, before),
                    Fed(before[|before| - 1], picks, |picks|))
      modifies session`state
      ensures session.Settled(backend.model) && session.Ready(backend.model, backend.caches)
    {
      hide Feed;
      hide PrivateCache;
      hide PromptColumns;
      hide Lone;
      session.AheadRewinds(backend.model, backend.caches, before, picks, accepted);
      session.state := Some(Place(session.state.value.slot, |session.job.prompt| + |session.tokens| - 1));
    }

    lemma AheadForetells(m: Model, caches: Caches, s: Session, picks: seq<Token>)
      requires s.Ahead(m, caches, picks)
      ensures forall k :: 0 <= k < |picks| ==> Foretold(m, s.job, s.tokens, picks, k)
      ensures s.Seated(m, caches) && s.tokens != []
      ensures |s.job.prompt| + |s.tokens| - 1 + |picks| <= |caches[s.seat]|
      ensures caches[s.seat][..|s.job.prompt| + |s.tokens| - 1 + |picks|]
           == Feed(m, Capacity(m, s.job), PrivateCache(m, s.job, s.tokens),
             Fed(s.tokens[|s.tokens| - 1], picks, |picks|))
    {
      hide Feed;
      hide Lone;
      forall k | 0 <= k < |picks|
        ensures Foretold(m, s.job, s.tokens, picks, k)
      {
        ChainIsStepwise(m, s.job, s.tokens, picks, k);
      }
    }

    /** One unchained step: the new position first, then the token; a cancellation waits for the next boundary. */
    method AcceptStep(session: Session, pick: Token) returns (ok: bool)
      requires session.Settled(backend.model) && !session.done
      requires session.Ahead(backend.model, backend.caches, [pick])
      modifies session`tokens, session`done, session`stop, session`state, session.stream, backend`raised
      ensures backend.raised == old(backend.raised) + if ok then 0 else 1
      ensures session.Consistent(backend.model) && session.Seated(backend.model, backend.caches)
      ensures ok ==> session.Settled(backend.model) && session.Ready(backend.model, backend.caches)
      ensures ok ==> |session.tokens| > |old(session.tokens)|
    {
      var m := backend.model;
      ghost var before := session.tokens;
      ChainIsStepwise(m, session.job, before, [pick], 0);
      assert before + [pick][..0] == before;
      NextIsReference(m, session.job, before);
      session.state := Some(Place(session.state.value.slot, session.state.value.offset + 1));
      ok := session.AcceptToken(backend, pick);
      assert session.tokens == before + [pick][..1];
      session.AheadRewinds(m, backend.caches, before, [pick], 1);
    }

    /** A whole draft of a fresh session. */
    method AcceptDraft(session: Session, draft: Draft) returns (ok: bool)
      requires session.Settled(backend.model) && !session.done && |session.tokens| == 1
      requires session.Seated(backend.model, backend.caches) && draft.place.slot == session.seat
      requires Reference(backend.model, session.job) <= session.tokens + draft.tokens
      requires |session.job.prompt| + |Reference(backend.model, session.job)| - 1 <= session.capacity
      requires backend.caches[session.seat][..|session.job.prompt| + |Reference(backend.model, session.job)| - 1]
            == PrivateCache(backend.model, session.job, Reference(backend.model, session.job))
      modifies session`tokens, session`done, session`stop, session`state, session.stream, backend`raised
      ensures backend.raised == old(backend.raised) + if ok then 0 else 1
      ensures session.Consistent(backend.model) && session.Seated(backend.model, backend.caches)
      ensures ok ==> session.Settled(backend.model) && session.Ready(backend.model, backend.caches) && session.done
    {
      hide Feed;
      hide PrivateCache;
      hide PromptColumns;
      hide Lone;
      var m, job := backend.model, session.job;
      ghost var before, output := session.tokens, Reference(m, job);
      forall k | 0 <= k < |draft.tokens|
        ensures Foretold(m, job, before, draft.tokens, k)
      {
        var sofar := before + draft.tokens[..k];
        if OnTrack(m, job, sofar) && !Finished(m, job, sofar) {
          NextIsReference(m, job, sofar);
          assert (before + draft.tokens)[|sofar|] == draft.tokens[k];
        }
      }
      assert draft.tokens[..|draft.tokens|] == draft.tokens;
      var accepted;
      ok, accepted := AcceptAll(session, draft.tokens);
      if ok {
        OnTrackIsPrefix(m, job, session.tokens);
        PrivateCachePrefix(m, job, output, session.tokens);
        var n := |job.prompt| + |session.tokens| - 1;
        assert backend.caches[session.seat][..|job.prompt| + |output| - 1][..n] == backend.caches[session.seat][..n];
        session.state := Some(Place(draft.place.slot, n));
      }
    }

    /** `_capacity`: the capacity a session decodes at, its own when it has one. */
    method OwnCapacity(session: Session, capacity: nat) returns (own: nat)
      ensures own == if session.capacity > 0 then session.capacity else capacity
    {
      own := if session.capacity > 0 then session.capacity else capacity;
    }

    /** Chained readback of one session, when it can chain and has more than one token left. */
    method TryChain(session: Session, own: nat) returns (ok: bool, taken: bool)
      requires session.Settled(backend.model) && !session.done
      requires session.Ready(backend.model, backend.caches) && own == session.capacity
      modifies backend`caches, backend`raised, backend`overruns
      modifies session`tokens, session`done, session`stop, session`state, session.stream
      ensures backend.raised == old(backend.raised) + if ok then 0 else 1
      ensures backend.overruns == old(backend.overruns)
      ensures KeptOutside(old(backend.caches), backend.caches, {session.seat})
      ensures session.Consistent(backend.model) && session.Seated(backend.model, backend.caches)
      ensures ok ==> session.Settled(backend.model) && session.Ready(backend.model, backend.caches)
      ensures ok && taken ==> |session.tokens| > |old(session.tokens)|
      ensures ok && !taken ==> !session.done && session.tokens == old(session.tokens)
    {
      hide Feed;
      hide PrivateCache;
      hide PromptColumns;
      hide ChainPicks;
      hide Lone;
      var m := backend.model;
      ghost var c0, place := backend.caches, session.state.value;
      var last := session.tokens[|session.tokens| - 1];
      var every := if backend.canChain then backend.readback else 1;
      var remaining := session.job.limit - |session.tokens|;
      var count := if every < remaining then every else remaining;
      ok, taken := true, false;
      if count > 1 {
        var chain;
        ok, chain := backend.Steps(session.state.value, last, own, count, session);
        session.SeatedAhead(m, c0, backend.caches, [place], 0);
        if ok && chain.Some? && chain.value != [] {
          session.AdvancedIsAhead(m, c0, backend.caches, [place], [last], [chain.value], 0);
          taken := true;
          ok := AcceptChain(session, chain.value);
        }
      }
    }

    /** One round of the sequential loop: a chain, or else one step. */
    method Advance(session: Session, capacity: nat) returns (ok: bool)
      requires session.Settled(backend.model) && !session.done
      requires session.Ready(backend.model, backend.caches)
      modifies backend`caches, backend`raised, backend`overruns
      modifies session`tokens, session`done, session`stop, session`state, session.stream
      ensures backend.raised == old(backend.raised) + if ok then 0 else 1
      ensures backend.overruns == old(backend.overruns)
      ensures KeptOutside(old(backend.caches), backend.caches, {session.seat})
      ensures session.Consistent(backend.model) && session.Seated(backend.model, backend.caches)
      ensures ok ==> session.Settled(backend.model) && session.Ready(backend.model, backend.caches)
      ensures ok ==> |session.tokens| > |old(session.tokens)|
    {
      var own := OwnCapacity(session, capacity);
      var taken;
      ok, taken := TryChain(session, own);
      if !ok || taken {
        return;
      }
      var m := backend.model;
      ghost var c1, place := backend.caches, session.state.value;
      var last := session.tokens[|session.tokens| - 1];
      var pick;
      ok, pick := backend.Step(session.state.value, last, own, session);
      session.SeatedAhead(m, c1, backend.caches, [place], 0);
      if ok {
        session.AdvancedIsAhead(m, c1, backend.caches, [place], [last], [[pick]], 0);
        ok := AcceptStep(session, pick);
      }
    }

    /** A fresh session is drafted whole, when the backend drafts at all. */
    method TryDraft(session: Session) returns (ok: bool, taken: bool)
      requires session.Settled(backend.model) && !session.done && |session.tokens| == 1
      requires session.Ready(backend.model, backend.caches)
      modifies backend`caches, backend`raised, backend`overruns
      modifies session`tokens, session`done, session`stop, session`state, session.stream
      ensures backend.raised == old(backend.raised) + if ok then 0 else 1
      ensures backend.overruns == old(backend.overruns)
      ensures KeptOutside(old(backend.caches), backend.caches, {session.seat})
      ensures session.Consistent(backend.model) && session.Seated(backend.model, backend.caches)
      ensures ok && taken ==> session.done
      ensures ok && !taken ==> session.Settled(backend.model) && session.Ready(backend.model, backend.caches)
    {
      var m := backend.model;
      ghost var c0, place := backend.caches, session.state.value;
      assert session.tokens == [FirstToken(m, session.job)];
      PrivateCacheOfFirst(m, session.job, session.tokens);
      var draft;
      ok, draft := backend.Speculate(session.job, session.state.value);
      session.SeatedAhead(m, c0, backend.caches, [place], 0);
      taken := ok && draft.Some?;
      if taken {
        ok := AcceptDraft(session, draft.value);
      }
    }

    /** `_finish_sequentially` for one session: afterwards it is done, unless something raised. */
    method FinishOne(session: Session, capacity: nat) returns (ok: bool)
      requires Sound(backend.model, backend.caches, session) && Runnable(backend.model, backend.caches, session)
      modifies backend`caches, backend`raised, backend`overruns
      modifies session`tokens, session`done, session`stop, session`state, session.stream
      ensures backend.raised == old(backend.raised) + if ok then 0 else 1
      ensures backend.overruns == old(backend.overruns)
      ensures KeptOutside(old(backend.caches), backend.caches, {session.seat})
      ensures Sound(backend.model, backend.caches, session)
      ensures ok ==> session.done
    {
      ok := true;
      if session.done {
        return;
      }
      if |session.tokens| == 1 && backend.canDraft {
        var taken;
        ok, taken := TryDraft(session);
        if !ok || taken {
          return;
        }
      }
      while !session.done
        invariant ok && backend.raised == old(backend.raised) && backend.overruns == old(backend.overruns)
        invariant session.Settled(backend.model) && session.Ready(backend.model, backend.caches)
        invariant KeptOutside(old(backend.caches), backend.caches, {session.seat})
        decreases session.job.limit - |session.tokens|
      {
        var stopped := session.StopIfCancelled(backend.model);
        if stopped {
          return;
        }
        ok := Advance(session, capacity);
        if !ok {
          return;
        }
      }
    }

    /** `_finish_sequentially`: one session after the other. */
    method FinishSequentially(sessions: seq<Session>, capacity: nat) returns (ok: bool)
      requires Apart(sessions)
      requires forall j :: 0 <= j < |sessions| ==> Sound(backend.model, backend.caches, sessions[j])
      requires forall j :: 0 <= j < |sessions| ==> Runnable(backend.model, backend.caches, sessions[j])
      modifies backend`caches, backend`raised, backend`overruns, sessions, Streams(sessions)
      ensures backend.raised == old(backend.raised) + if ok then 0 else 1
      ensures backend.overruns == old(backend.overruns)
      ensures KeptOutside(old(backend.caches), backend.caches, Seats(sessions))
      ensures forall j :: 0 <= j < |sessions| ==> Sound(backend.model, backend.caches, sessions[j])
      ensures ok ==> forall j :: 0 <= j < |sessions| ==> sessions[j].done
    {
      hide Sound;
      hide Runnable;
      ok := true;
      var m := backend.model;
      for i := 0 to |sessions|
        invariant ok && backend.raised == old(backend.raised) && backend.overruns == old(backend.overruns)
        invariant KeptOutside(old(backend.caches), backend.caches, Seats(sessions))
        invariant forall j :: 0 <= j < |sessions| ==> Sound(m, backend.caches, sessions[j])
        invariant forall j :: 0 <= j < i ==> sessions[j].done
        invariant forall j :: i <= j < |sessions| ==> Runnable(m, backend.caches, sessions[j])
      {
        ghost var c1 := backend.caches;
        var session := sessions[i];
        assert session in sessions && session.seat in Seats(sessions);
        ok := FinishOne(session, capacity);
        forall j | 0 <= j < |sessions| && j != i
          ensures Sound(m, backend.caches, sessions[j])
          ensures j > i ==> Runnable(m, backend.caches, sessions[j])
        {
          assert Untouched(session, sessions[j]);
          SoundElsewhere(m, c1, backend.caches, {session.seat}, sessions[j]);
        }
        if !ok {
          return;
        }
      }
    }
  }

  /** What no failure can take away from a session. */
  ghost predicate Sound(m: Model, caches: Caches, s: Session)
    reads s, s.stream
  {
    s.Consistent(m) && (s.seat >= 0 ==> s.Seated(m, caches))
  }

  /** A session that is not done can step. */
  ghost predicate Runnable(m: Model, caches: Caches, s: Session)
    reads s, s.stream
  {
    !s.done ==> s.Settled(m) && s.Ready(m, caches)
  }

  lemma SoundElsewhere(m: Model, before: Caches, after: Caches, seats: set<int>, s: Session)
    requires Sound(m, before, s) && KeptOutside(before, after, seats)
    requires s.seat >= 0 ==> s.seat !in seats
    ensures Sound(m, after, s)
    ensures Runnable(m, before, s) ==> Runnable(m, after, s)
  {
    if s.seat >= 0 {
      s.SeatedElsewhere(m, before, after);
    }
  }

  /** `picks[k]` is the next token of the request once the ones before it were accepted, if it is still running. */
  ghost predicate Foretold(m: Model, job: Job, tokens: seq<Token>, picks: seq<Token>, k: nat)
    requires k < |picks|
  {
    OnTrack(m, job, tokens + picks[..k]) && !Finished(m, job, tokens + picks[..k]) ==>
      picks[k] == NextToken(m, job, tokens + picks[..k])
  }
}
