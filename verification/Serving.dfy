/** The objects an executor works on: the token stream of a caller, one in-flight request, and the most general
    decode backend that keeps `CacheContract`. */
module Serving {
  import opened Decoding
  import opened CacheContract

  /** Hands each output token of one request to its caller once, in order. `emitted` is what the caller was
      handed, and `answers` what a cancellable caller's predicate will answer, poll by poll. */
  class TokenStream {
    const cancellable: bool
    const answers: nat -> bool
    var tokens: seq<Token>
    var emitted: seq<Token>

    constructor (cancellable: bool, answers: nat -> bool)
      ensures tokens == emitted == [] && this.cancellable == cancellable && this.answers == answers
    {
      this.cancellable, this.answers := cancellable, answers;
      tokens, emitted := [], [];
    }

    /** The caller has a prefix of the request's reference output, each token handed over exactly once. */
    ghost predicate Honest(m: Model, job: Job)
      reads this
    {
      emitted == tokens && tokens <= Reference(m, job)
    }

    predicate Answer(poll: nat) {
      answers(poll)
    }

    /** The caller gives up: its predicate says yes to some poll. */
    ghost predicate Quits() {
      cancellable && exists poll: nat :: Answer(poll)
    }

    /** One poll of the predicate. How many came before it depends on the rounds, and is left open. */
    method Cancelled() returns (yes: bool)
      requires cancellable
      ensures yes ==> Quits()
      ensures (forall poll: nat :: Answer(poll)) ==> yes
    {
      var poll: nat :| 0 <= poll;
      yes := Answer(poll);
    }

    /** `accept`: a replayed token must equal the one already handed over; a token past the end is a skip. The
        hand-over itself may raise, after the token was recorded. */
    method Accept(b: Backend, index: nat, token: Token) returns (ok: bool)
      modifies this, b`raised
      ensures b.raised == old(b.raised) + if ok then 0 else 1
      ensures index < |old(tokens)| ==>
              tokens == old(tokens) && emitted == old(emitted) && (ok <==> old(tokens)[index] == token)
      ensures index == |old(tokens)| ==> tokens == old(tokens) + [token] && emitted == old(emitted) + [token]
      ensures index > |old(tokens)| ==> tokens == old(tokens) && emitted == old(emitted) && !ok
    {
      if index < |tokens| {
        ok := tokens[index] == token;
      } else if index == |tokens| {
        tokens := tokens + [token];
        emitted := emitted + [token];
        ok := *;
      } else {
        ok := false;
      }
      b.Note(ok);
    }
  }

  datatype StopReason = Running | Eos | Length | Cancelled

  /** What a caller asks for. */
  datatype Request = Request(rid: int, job: Job, arrival: int, stream: TokenStream?)

  /** One in-flight request. `seat` is the slot its prefill took, or negative when it never had one. */
  class Session {
    const rid: int
    const job: Job
    const arrival: int
    const stream: TokenStream?
    const seat: int
    var capacity: nat
    var base: Option<Place>
    var state: Option<Place>
    var tokens: seq<Token>
    var done: bool
    var stop: StopReason

    /** A request cancelled before its prefill: it computes nothing and produces nothing. */
    constructor Unstarted(request: Request)
      ensures rid == request.rid && job == request.job && arrival == request.arrival && stream == request.stream
      ensures seat == -1 && state == base == None && tokens == [] && done && stop == Cancelled
    {
      rid, job, arrival, stream, seat := request.rid, request.job, request.arrival, request.stream, -1;
      capacity, base, state, tokens, done, stop := 0, None, None, [], true, Cancelled;
    }

    constructor Started(request: Request, place: Place, capacity: nat)
      ensures rid == request.rid && job == request.job && arrival == request.arrival && stream == request.stream
      ensures seat == place.slot && base == state == Some(place) && this.capacity == capacity
      ensures tokens == [] && !done && stop == Running
    {
      rid, job, arrival, stream, seat := request.rid, request.job, request.arrival, request.stream, place.slot;
      this.capacity, base, state, tokens, done, stop := capacity, Some(place), Some(place), [], false, Running;
    }

    ghost predicate Placed(m: Model)
      reads this`base, this`state, this`capacity
    {
      && seat >= 0 && base == Some(Place(seat, |job.prompt|))
      && state.Some? && state.value.slot == seat
      && capacity == Capacity(m, job) > 0
      && |job.prompt| + job.limit <= capacity && |job.prompt| <= capacity
    }

    ghost predicate StreamAgrees(m: Model)
      reads this, stream
    {
      stream != null ==> stream.Honest(m, job) && tokens <= stream.tokens
    }

    /** Why the request ended is what ended it. */
    ghost predicate StopAgrees(m: Model)
      reads this
    {
      match stop
      case Running => !done
      case Eos => done && Finished(m, job, tokens) && tokens[|tokens| - 1] in m.eos
      case Length => done && Finished(m, job, tokens) && tokens[|tokens| - 1] !in m.eos
      case Cancelled => done && stream != null && stream.Quits()
    }

    /** What holds of a session at every moment, also in the middle of a step that raised: its tokens are a prefix of
        its reference output, and its caller has those tokens and perhaps more of the same output. */
    ghost predicate Consistent(m: Model)
      reads this, stream
    {
      && StreamAgrees(m) && StopAgrees(m)
      && (seat < 0 ==> state == None && done && tokens == [])
      && (seat >= 0 ==> Placed(m) && OnTrack(m, job, tokens))
      && (!done ==> |Reference(m, job)| > 1)
    }

    /** What holds between steps: only an unfinished request is still running. */
    ghost predicate Settled(m: Model)
      reads this, stream
    {
      Consistent(m) && (!done ==> !Finished(m, job, tokens))
    }

    /** The prompt's columns, which a restart goes back to, are still in the session's slot. */
    ghost predicate Seated(m: Model, caches: Caches)
      reads this`base, this`state, this`capacity
    {
      && Placed(m) && seat in caches && |caches[seat]| == capacity
      && caches[seat][..|job.prompt|] == PromptColumns(m, capacity, job.prompt)
    }

    /** The session may step: its slot shows the private cache of exactly its own tokens. */
    ghost predicate Ready(m: Model, caches: Caches)
      reads this
    {
      && Seated(m, caches) && tokens != []
      && state.value.offset == |job.prompt| + |tokens| - 1 <= capacity
      && caches[seat][..state.value.offset] == PrivateCache(m, job, tokens)
    }

    /** A submission of this session came back with `picks`: they are the picks of its own private cache, and the slot
        shows the columns they left. */
    ghost predicate Ahead(m: Model, caches: Caches, picks: seq<Token>)
      reads this
    {
      && Ready(m, caches) && state.value.offset + |picks| <= capacity
      && RowAhead(m, caches[seat], picks)
    }

    ghost predicate RowAhead(m: Model, row: seq<Column>, picks: seq<Token>)
      requires tokens != [] && |job.prompt| + |tokens| - 1 + |picks| <= |row|
      reads this
    {
      var view, last := PrivateCache(m, job, tokens), tokens[|tokens| - 1];
      && ChainPicks(m, Capacity(m, job), view, last, picks)
      && row[..|job.prompt| + |tokens| - 1 + |picks|] == Feed(m, Capacity(m, job), view, Fed(last, picks, |picks|))
    }

    /** What a submission does for its row `i` it does for this session. */
    lemma AdvancedIsAhead(m: Model, before: Caches, after: Caches, places: seq<Place>, feed: seq<Token>,
                          picks: seq<seq<Token>>, i: nat)
      requires |feed| == |places| == |picks| && Fits(before, places, Lengths(picks))
      requires Advanced(m, before, after, places, feed, picks)
      requires i < |places| && Ready(m, before) && places[i] == state.value && feed[i] == tokens[|tokens| - 1]
      ensures Ahead(m, after, picks[i])
    {
      SeatedAhead(m, before, after, places, i);
      assert RowAdvanced(m, before[places[i].slot], after[places[i].slot], places[i].offset, feed[i], picks[i]);
    }

    /** A call that was given this session's place leaves it able to step, and so to restart. */
    lemma SeatedAhead(m: Model, before: Caches, after: Caches, places: seq<Place>, i: nat)
      requires OnlyAhead(before, after, places) && i < |places| && Ready(m, before) && places[i] == state.value
      ensures Ready(m, after)
    {
      var n := |job.prompt|;
      assert after[seat][..state.value.offset] == before[seat][..state.value.offset];
      assert after[seat][..n] == after[seat][..state.value.offset][..n];
      assert before[seat][..n] == before[seat][..state.value.offset][..n];
    }

    /** Nothing that happens in other slots matters to this session. */
    lemma SeatedElsewhere(m: Model, before: Caches, after: Caches)
      requires Seated(m, before) && seat in after && after[seat] == before[seat]
      ensures Seated(m, after)
      ensures Ready(m, before) ==> Ready(m, after)
    {
    }

    lemma AheadElsewhere(m: Model, before: Caches, after: Caches, picks: seq<Token>)
      requires Ahead(m, before, picks) && seat in after && after[seat] == before[seat]
      ensures Ahead(m, after, picks)
    {
    }

    /** A chain reads ahead of its request: after any number of its picks were accepted, moving the position back is
        enough. */
    lemma AheadRewinds(m: Model, caches: Caches, before: seq<Token>, picks: seq<Token>, k: nat)
      requires before != [] && k <= |picks| && tokens == before + picks[..k]
      requires Seated(m, caches) && |job.prompt| + |before| - 1 + |picks| <= |caches[seat]|
      requires caches[seat][..|job.prompt| + |before| - 1 + |picks|]
            == Feed(m, Capacity(m, job), PrivateCache(m, job, before), Fed(before[|before| - 1], picks, |picks|))
      ensures caches[seat][..|job.prompt| + |tokens| - 1] == PrivateCache(m, job, tokens)
    {
      RewoundChain(m, job, before, picks, k);
    }

    /** `_accept_token`: one physical output token under the generation contract. It raises only if the hand-over to
        the caller does: a deterministic backend never diverges from what was already streamed. */
    method AcceptToken(b: Backend, token: Token) returns (ok: bool)
      requires !done && StreamAgrees(b.model) && stop == Running && Placed(b.model)
               && |Reference(b.model, job)| > |tokens|
      requires tokens == [] ==> token == FirstToken(b.model, job)
      requires tokens != [] ==> OnTrack(b.model, job, tokens) && !Finished(b.model, job, tokens)
      requires tokens != [] ==> token == NextToken(b.model, job, tokens)
      modifies this`tokens, this`done, this`stop, stream, b`raised
      ensures b.raised == old(b.raised) + if ok then 0 else 1
      ensures tokens == old(tokens) + [token] && OnTrack(b.model, job, tokens) && StreamAgrees(b.model)
      ensures ok ==> StopAgrees(b.model) && (done <==> Finished(b.model, job, tokens))
      ensures ok ==> (done <==> token in b.model.eos || |tokens| >= job.limit)
      ensures ok ==> (stop == Eos <==> token in b.model.eos) && (stop == Length <==> done && token !in b.model.eos)
      ensures !ok ==> !done && stop == Running
      ensures stream == null ==> ok
      ensures stream != null && |old(tokens)| < |old(stream.tokens)| ==>
                ok && stream.tokens == old(stream.tokens) && stream.emitted == old(stream.emitted)
    {
      hide Lone;
      hide Session.Placed;
      ghost var before := tokens;
      tokens := tokens + [token];
      if before == [] {
        FirstOnTrack(b.model, job);
        assert tokens == [FirstToken(b.model, job)];
      } else {
        OnTrackStep(b.model, job, before);
      }
      OnTrackIsPrefix(b.model, job, tokens);
      if stream != null {
        ok := stream.Accept(b, |tokens| - 1, token);
        if !ok {
          return;
        }
      }
      if token in b.model.eos {
        done, stop := true, Eos;
      } else if |tokens| >= job.limit {
        done, stop := true, Length;
      }
      ok := true;
    }

    /** `_stop_if_cancelled`: a running request stops if and only if its caller's predicate, where there is one, says
        yes to this poll. */
    method StopIfCancelled(m: Model) returns (stopped: bool)
      requires Consistent(m)
      modifies this`done, this`stop
      ensures Consistent(m) && (old(Settled(m)) ==> Settled(m))
      ensures stopped ==> !old(done) && done && stop == Cancelled && stream != null && stream.Quits()
      ensures !stopped ==> done == old(done) && stop == old(stop)
      ensures !old(done) && stream != null && stream.cancellable && (forall poll: nat :: stream.Answer(poll)) ==>
              stopped
    {
      if done || stream == null || !stream.cancellable {
        return false;
      }
      stopped := stream.Cancelled();
      if stopped {
        done, stop := true, Cancelled;
      }
    }

    /** `restart`: back to the post-prefill state with the prefill's own token. */
    method Restart(m: Model, caches: Caches)
      requires Consistent(m) && Seated(m, caches) && |Reference(m, job)| > 1
      modifies this`state, this`tokens, this`done, this`stop
      ensures Settled(m) && Ready(m, caches) && !done && tokens == old(tokens)[..1]
    {
      state := Some(Place(base.value.slot, |job.prompt|));
      OnTrackIsPrefix(m, job, tokens);
      PrefixIsOnTrack(m, job, tokens[..1]);
      OnTrackIsPrefix(m, job, tokens[..1]);
      tokens := tokens[..1];
      done, stop := false, Running;
    }

    /** An uncancelled request that is done produced its reference output, all of it handed to its caller. */
    lemma DoneIsReference(m: Model)
      requires Consistent(m) && done && stop != Cancelled
      ensures tokens == Reference(m, job)
      ensures stream != null ==> stream.emitted == tokens
    {
      OnTrackIsPrefix(m, job, tokens);
    }
  }

  /** A draft of one request: the tokens after the first, and where its cache stands after them. */
  datatype Draft = Draft(tokens: seq<Token>, place: Place)

  /** The most general backend that keeps the contract. Prefills and submissions may raise, and one that raises may
      leave anything at or beyond the offsets it was given. `held` are the slots with a prefill nobody has released;
      `idleReleases` counts releases of a slot that was not held. */
  class Backend {
    const model: Model
    const readback: nat
    const canChain: bool
    const canDraft: bool
    /** Whether a prefill that fits may raise. */
    const mayFail: bool
    var caches: Caches
    var held: set<int>
    ghost var idleReleases: nat
    /** How often a prefill, a submission, a draft or a hand-over to a caller has raised. */
    ghost var raised: nat
    /** How often a submission reached beyond the prompt plus the output limit of a session. */
    ghost var overruns: nat

    constructor (model: Model, readback: nat, canChain: bool, canDraft: bool, mayFail: bool)
      ensures this.model == model && this.readback == readback && this.canChain == canChain && this.canDraft == canDraft
      ensures this.mayFail == mayFail
      ensures caches == map[] && held == {} && raised == overruns == 0
    {
      this.model, this.readback, this.canChain, this.canDraft, this.mayFail :=
        model, readback, canChain, canDraft, mayFail;
      caches, held, idleReleases, raised, overruns := map[], {}, 0, 0, 0;
    }

    /** What raises is counted, here and nowhere else. */
    method Note(ok: bool)
      modifies this`raised
      ensures raised == old(raised) + if ok then 0 else 1
    {
      if !ok {
        raised := raised + 1;
      }
    }

    /** `capacity_for`: what the request would get alone, or a refusal. */
    method CapacityFor(job: Job) returns (ok: bool, capacity: nat)
      ensures capacity == Capacity(model, job)
      ensures ok <==> capacity > 0 && |job.prompt| + job.limit <= capacity
    {
      capacity := Capacity(model, job);
      ok := capacity > 0 && |job.prompt| + job.limit <= capacity;
    }

    method Prefill(prompt: seq<Token>, capacity: nat) returns (ok: bool, place: Place, first: Token)
      modifies this`caches, this`held, this`raised
      ensures raised == old(raised) + if ok then 0 else 1
      ensures ok ==> Prefilled(model, old(caches), caches, old(held), prompt, capacity, place, first)
      ensures ok ==> place.slot >= 0 && held == old(held) + {place.slot}
      ensures !ok ==> HeldUntouched(old(caches), caches, old(held)) && held == old(held)
      ensures !mayFail && |prompt| <= capacity ==> ok
    {
      var free := SlotBeyond(held);
      assert free !in held;
      var slot: int :| slot >= 0 && slot !in held;
      place, first := Place(slot, |prompt|), model.first(capacity, prompt);
      if |prompt| > capacity {
        Note(false);
        return false, place, first;
      }
      var padding := seq(capacity - |prompt|, _ => model.promptColumn(capacity, prompt, 0));
      caches := caches[slot := PromptColumns(model, capacity, prompt) + padding];
      var fails: bool := *;
      ok := !(mayFail && fails);
      Note(ok);
      if ok {
        held := held + {slot};
      }
    }

    /** There is always another slot. */
    lemma SlotBeyond(slots: set<int>) returns (bound: nat)
      ensures forall s :: s in slots ==> s < bound
    {
      bound := 0;
      if one :| one in slots {
        var rest := SlotBeyond(slots - {one});
        bound := if one >= rest then one + 1 else rest;
        assert forall s :: s in slots ==> s == one || s in slots - {one};
      }
    }

    /** `count` stacked steps of distinct slots, each row fed its own picks. */
    method StepsGroup(places: seq<Place>, tokens: seq<Token>, count: nat, ghost group: seq<Session>)
      returns (ok: bool, picks: seq<seq<Token>>)
      requires |tokens| == |places| && DistinctSlots(places)
      requires forall i :: 0 <= i < |places| ==>
                 places[i].slot in caches && places[i].offset + count <= |caches[places[i].slot]|
      requires |group| == |places| && forall i :: 0 <= i < |places| ==> group[i].state == Some(places[i])
      modifies this`caches, this`raised, this`overruns
      ensures raised == old(raised) + if ok then 0 else 1
      ensures overruns == old(overruns) + if (forall i :: 0 <= i < |places| ==>
                places[i].offset + count <= |group[i].job.prompt| + group[i].job.limit) then 0 else 1
      ensures |picks| == |places|
      ensures ok ==> forall i :: 0 <= i < |picks| ==> |picks[i]| == count
      ensures ok ==> Fits(old(caches), places, Lengths(picks))
      ensures ok ==> Advanced(model, old(caches), caches, places, tokens, picks)
      ensures !ok ==> OnlyAhead(old(caches), caches, places)
    {
      hide Advanced;
      hide OnlyAhead;
      hide Feed;
      ok, picks := true, [];
      ghost var c0 := caches;
      AdvancedNone(model, c0);
      assert places[..0] == [] && tokens[..0] == [];
      for i := 0 to |places|
        invariant |picks| == i && raised == old(raised) && overruns == old(overruns)
        invariant forall j :: 0 <= j < i ==> |picks[j]| == count
        invariant Fits(c0, places[..i], Lengths(picks)) && Advanced(model, c0, caches, places[..i], tokens[..i], picks)
      {
        ghost var c1 := caches;
        AdvancedElsewhere(model, c0, c1, places[..i], tokens[..i], picks, places[i].slot);
        var pick := RunRow(places[i], tokens[i], count);
        AdvanceOneMore(model, c0, c1, caches, places[..i], tokens[..i], picks, places[i], tokens[i], pick);
        assert places[..i + 1] == places[..i] + [places[i]] && tokens[..i + 1] == tokens[..i] + [tokens[i]];
        picks := picks + [pick];
      }
      assert places[..|places|] == places && tokens[..|places|] == tokens;
      AdvancedOnlyAhead(model, c0, caches, places, tokens, picks);
      ok := *;
      ghost var within := forall i :: 0 <= i < |places| ==>
                            places[i].offset + count <= |group[i].job.prompt| + group[i].job.limit;
      overruns := overruns + if within then 0 else 1;
      Note(ok);
    }

    method RunRow(place: Place, token: Token, count: nat) returns (picks: seq<Token>)
      requires place.slot in caches && place.offset + count <= |caches[place.slot]|
      modifies this`caches
      ensures |picks| == count && Fits(old(caches), [place], Lengths([picks]))
      ensures Advanced(model, old(caches), caches, [place], [token], [picks])
    {
      var row, current := caches[place.slot], token;
      var view := row[..place.offset];
      picks := [];
      for k := 0 to count
        invariant caches == old(caches) && |picks| == k && current == FedAt(token, picks, k)
        invariant ChainPicks(model, |row|, row[..place.offset], token, picks)
        invariant view == Feed(model, |row|, row[..place.offset], Fed(token, picks, k))
      {
        var next := model.pick(|row|, view, current);
        ChainExtends(model, |row|, row[..place.offset], token, picks, next);
        view := view + [model.column(|row|, view, current)];
        picks, current := picks + [next], next;
      }
      FeedPrefix(model, |row|, row[..place.offset], Fed(token, picks, count), 0);
      var after := view + row[|view|..];
      assert after[..place.offset] == row[..place.offset];
      RowReplaced(caches, place, after);
      caches := caches[place.slot := after];
      assert Lengths([picks])[0] == count;
    }

    /** One step of one session. The step compiled for `capacity` runs on a cache of exactly that length. */
    method Step(place: Place, token: Token, capacity: nat, ghost session: Session) returns (ok: bool, pick: Token)
      requires place.slot in caches && place.offset < |caches[place.slot]| == capacity
      requires session.state == Some(place)
      modifies this`caches, this`raised, this`overruns
      ensures raised == old(raised) + if ok then 0 else 1
      ensures overruns == old(overruns)
                          + if place.offset + 1 <= |session.job.prompt| + session.job.limit then 0 else 1
      ensures Fits(old(caches), [place], Lengths([[pick]]))
      ensures ok ==> Advanced(model, old(caches), caches, [place], [token], [[pick]])
      ensures !ok ==> OnlyAhead(old(caches), caches, [place])
    {
      var picks;
      ok, picks := StepsGroup([place], [token], 1, [session]);
      pick := if ok then picks[0][0] else token;
      assert Lengths([[pick]])[0] == 1;
      if ok {
        assert picks[0] == [pick];
        assert picks == [[pick]];
      }
    }

    /** Chained steps of one session, or none when its state cannot be rewound. */
    method Steps(place: Place, token: Token, capacity: nat, count: nat, ghost session: Session)
      returns (ok: bool, chain: Option<seq<Token>>)
      requires place.slot in caches && place.offset + count <= |caches[place.slot]| == capacity
      requires session.state == Some(place)
      modifies this`caches, this`raised, this`overruns
      ensures raised == old(raised) + if ok then 0 else 1
      ensures overruns == old(overruns)
                          + if (ok && chain.None?) || place.offset + count <= |session.job.prompt| + session.job.limit
                            then 0 else 1
      ensures ok && chain.Some? ==> |chain.value| == count && Fits(old(caches), [place], Lengths([chain.value]))
      ensures ok && chain.Some? ==> Advanced(model, old(caches), caches, [place], [token], [chain.value])
      ensures !ok || chain.None? ==> OnlyAhead(old(caches), caches, [place])
    {
      var hybrid: bool := *;
      if hybrid {
        return true, None;
      }
      var picks;
      ok, picks := StepsGroup([place], [token], count, [session]);
      chain := Some(picks[0]);
      assert picks == [picks[0]];
    }

    /** A speculative decode of one fresh session. The assumption every backend has to meet: a draft it returns finishes
        the request, because the executor goes on to the next session after it. */
    method Speculate(job: Job, place: Place) returns (ok: bool, draft: Option<Draft>)
      requires place.slot in caches && |caches[place.slot]| == Capacity(model, job) && place.offset == |job.prompt|
      requires |job.prompt| <= Capacity(model, job) && |job.prompt| + job.limit <= Capacity(model, job)
      requires |Reference(model, job)| > 1
      requires caches[place.slot][..place.offset] == PromptColumns(model, Capacity(model, job), job.prompt)
      modifies this`caches, this`raised
      ensures raised == old(raised) + if ok then 0 else 1
      ensures OnlyAhead(old(caches), caches, [place])
      ensures ok && draft.Some? ==>
        && draft.value.place.slot == place.slot
        && Reference(model, job) <= [FirstToken(model, job)] + draft.value.tokens
        && |job.prompt| + |Reference(model, job)| - 1 <= |caches[place.slot]|
        && caches[place.slot][..|job.prompt| + |Reference(model, job)| - 1]
           == PrivateCache(model, job, Reference(model, job))
    {
      ok, draft := *, None;
      Note(ok);
      var drafts: bool := *;
      if !ok || !canDraft || !drafts {
        return;
      }
      var output := Reference(model, job);
      LoneExtends(model, job, [FirstToken(model, job)]);
      LoneLength(model, job, [FirstToken(model, job)]);
      var view, row := PrivateCache(model, job, output), caches[place.slot];
      FeedPrefix(model, Capacity(model, job), PromptColumns(model, Capacity(model, job), job.prompt),
                 output[..|output| - 1], 0);
      var after := view + row[|view|..];
      assert after[..place.offset] == row[..place.offset];
      RowReplaced(caches, place, after);
      caches := caches[place.slot := after];
      var extra: seq<Token> := *;
      draft := Some(Draft(output[1..] + extra, Place(place.slot, |view|)));
      assert output == [output[0]] + output[1..];
    }

    method Release(place: Option<Place>)
      modifies this`held, this`idleReleases
      ensures held == old(held) - (if place.Some? then {place.value.slot} else {})
      ensures idleReleases == old(idleReleases) + if place.Some? && place.value.slot !in old(held) then 1 else 0
    {
      if place.Some? {
        if place.value.slot !in held {
          idleReleases := idleReleases + 1;
        }
        held := held - {place.value.slot};
      }
    }
  }
}
