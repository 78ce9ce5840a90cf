/** `build_sessions`: every request is prefilled alone, at the capacity it would get alone. */
module Admission {
  import opened Decoding
  import opened CacheContract
  import opened Serving
  import opened Executor

  ghost function StreamsOf(requests: seq<Request>): set<TokenStream> {
    set r | r in requests && r.stream != null :: r.stream
  }

  /** Requests a caller may hand over: each with a stream of its own, which has seen nothing but that request's
      output. */
  ghost predicate Askable(m: Model, requests: seq<Request>)
    reads StreamsOf(requests)
  {
    && (forall r :: r in requests && r.stream != null ==> r.stream.Honest(m, r.job))
    && (forall i, j :: 0 <= i < j < |requests| && requests[i].stream != null ==>
          requests[i].stream != requests[j].stream)
  }

  ghost function Slots(ss: seq<Session>): set<int> {
    set s | s in ss && s.seat >= 0 :: s.seat
  }

  /** The session is this request's. */
  predicate IsFor(s: Session, request: Request) {
    s.rid == request.rid && s.job == request.job && s.arrival == request.arrival && s.stream == request.stream
  }

  /** `s` is what `request` became: in a slot nobody held, or nowhere when it was cancelled first. Only a prompt whose
      first token is its whole output is done at once. */
  ghost predicate Started(m: Model, caches: Caches, s: Session, request: Request)
    reads s, s.stream
  {
    && IsFor(s, request)
    && Sound(m, caches, s) && Runnable(m, caches, s)
    && (s.done <==> s.seat < 0 || |Reference(m, s.job)| <= 1)
    && (s.seat < 0 ==> s.stream != null && s.stream.Quits())
  }

  /** The backend has no capacity for this request. */
  predicate Refused(m: Model, job: Job) {
    Capacity(m, job) == 0 || |job.prompt| + job.limit > Capacity(m, job)
  }

  /** `own` is the slot that a raising hand-over of the first token leaves held, for no session at all. */
  method BuildOne(b: Backend, request: Request) returns (built: Option<Session>, ghost own: set<int>)
    requires request.stream != null ==> request.stream.Honest(b.model, request.job)
    modifies b`caches, b`held, b`raised, request.stream
    ensures b.raised == old(b.raised) + if built.Some? || Refused(b.model, request.job) then 0 else 1
    ensures HeldUntouched(old(b.caches), b.caches, old(b.held))
    ensures built.Some? ==> fresh(built.value) && Started(b.model, b.caches, built.value, request)
    ensures built.Some? ==> Slots([built.value]) !! old(b.held) && b.held == old(b.held) + Slots([built.value])
    ensures built.None? ==> b.held == old(b.held) + own && own !! old(b.held)
    ensures built.None? ==> |own| <= 1 && (own != {} ==> request.stream != null)
    ensures built.None? && request.stream == null ==> b.mayFail || !HasRoom(b.model, request.job)
    ensures request.stream != null ==> request.stream.Honest(b.model, request.job)
  {
    hide Started;
    hide Slots;
    hide TokenStream.Honest;
    hide HeldUntouched;
    own := {};
    ghost var c0, h0 := b.caches, b.held;
    Reflexive(c0, h0);
    if request.stream != null && request.stream.cancellable {
      var cancelled := request.stream.Cancelled();
      if cancelled {
        var unstarted := Cancel(b, request);
        return Some(unstarted), {};
      }
    }
    var ok, capacity := b.CapacityFor(request.job);
    if !ok {
      return None, {};
    }
    var place, first;
    ok, place, first := b.Prefill(request.job.prompt, capacity);
    if !ok {
      return None, {};
    }
    PrefilledUntouched(b.model, c0, b.caches, h0, request.job.prompt, capacity, place, first);
    built := Begin(b, request, place, capacity, first);
    own := {place.slot};
  }

  /** A request that was cancelled before its prefill. */
  method Cancel(b: Backend, request: Request) returns (unstarted: Session)
    requires request.stream != null && request.stream.Quits() && request.stream.Honest(b.model, request.job)
    ensures fresh(unstarted) && Started(b.model, b.caches, unstarted, request) && Slots([unstarted]) == {}
  {
    unstarted := new Session.Unstarted(request);
    assert Slots([unstarted]) == {};
  }

  /** Building one request leaves the streams of the others alone. */
  method BuildNth(b: Backend, requests: seq<Request>, i: nat) returns (built: Option<Session>, ghost own: set<int>)
    requires i < |requests| && Askable(b.model, requests)
    modifies b`caches, b`held, b`raised, requests[i].stream
    ensures b.raised == old(b.raised) + if built.Some? || Refused(b.model, requests[i].job) then 0 else 1
    ensures Askable(b.model, requests) && HeldUntouched(old(b.caches), b.caches, old(b.held))
    ensures built.Some? ==> fresh(built.value) && Started(b.model, b.caches, built.value, requests[i])
    ensures built.Some? ==> Slots([built.value]) !! old(b.held) && b.held == old(b.held) + Slots([built.value])
    ensures built.None? ==> b.held == old(b.held) + own && own !! old(b.held)
    ensures built.None? ==> |own| <= 1 && (own != {} ==> requests[i].stream != null)
    ensures built.None? && requests[i].stream == null ==> b.mayFail || !HasRoom(b.model, requests[i].job)
  {
    hide Started;
    hide TokenStream.Honest;
    hide HeldUntouched;
    hide Slots;
    built, own := BuildOne(b, requests[i]);
  }

  /** The prefilled session and its first token. */
  method Begin(b: Backend, request: Request, place: Place, own: nat, first: Token) returns (built: Option<Session>)
    requires request.stream != null ==> request.stream.Honest(b.model, request.job)
    requires own == Capacity(b.model, request.job) > 0 && |request.job.prompt| + request.job.limit <= own
    requires place.slot in b.caches && |b.caches[place.slot]| == own && place.slot >= 0
    requires place.offset == |request.job.prompt| <= own && first == FirstToken(b.model, request.job)
    requires b.caches[place.slot][..place.offset] == PromptColumns(b.model, own, request.job.prompt)
    modifies request.stream, b`raised
    ensures b.raised == old(b.raised) + if built.Some? then 0 else 1
    ensures built.Some? ==> fresh(built.value) && Started(b.model, b.caches, built.value, request)
    ensures built.Some? ==> Slots([built.value]) == {place.slot}
    ensures built.None? ==> request.stream != null
    ensures request.stream != null ==> request.stream.Honest(b.model, request.job)
  {
    hide Feed;
    hide Lone;
    hide PromptColumns;
    hide PrivateCache;
    var m := b.model;
    var session := new Session.Started(request, place, own);
    LoneExtends(m, request.job, [first]);
    var ok := session.AcceptToken(b, first);
    if !ok {
      return None;
    }
    OnTrackIsPrefix(m, request.job, session.tokens);
    PrivateCacheOfFirst(m, request.job, session.tokens);
    assert [session][0] == session && Slots([session]) == {place.slot};
    built := Some(session);
  }

  lemma Reflexive(caches: Caches, held: set<int>)
    ensures HeldUntouched(caches, caches, held)
  {
  }

  lemma PrefilledUntouched(m: Model, before: Caches, after: Caches, held: set<int>, prompt: seq<Token>, capacity: nat,
                           place: Place, first: Token)
    requires Prefilled(m, before, after, held, prompt, capacity, place, first)
    ensures HeldUntouched(before, after, held)
  {
  }

  lemma StillUntouched(a: Caches, b: Caches, c: Caches, held: set<int>, more: set<int>)
    requires HeldUntouched(a, b, held) && HeldUntouched(b, c, more) && held <= more
    ensures HeldUntouched(a, c, held)
  {
  }

  lemma StartedElsewhere(m: Model, before: Caches, after: Caches, held: set<int>, s: Session, request: Request)
    requires Started(m, before, s, request) && HeldUntouched(before, after, held)
    requires s.seat >= 0 ==> s.seat in held
    ensures Started(m, after, s, request)
  {
    if s.seat >= 0 {
      s.SeatedElsewhere(m, before, after);
    }
  }

  /** What a batch whose building raised leaves behind: the sessions built for its first requests, and the slot of the
      request that raised, if its prefill had succeeded and handing over the first token raised. */
  datatype Wreck = Wreck(batch: seq<Request>, built: seq<Session>, own: set<int>) {
    ghost predicate Valid() {
      && |built| < |batch| && Apart(built) && (forall i :: 0 <= i < |built| ==> IsFor(built[i], batch[i]))
      && |own| <= 1 && (own != {} ==> batch[|built|].stream != null) && own !! Slots(built)
    }

    /** It was not the backend that raised: the request got no capacity. */
    predicate Refusal(m: Model) {
      |built| < |batch| && Refused(m, batch[|built|].job)
    }

    /** The slots that stay held with nobody left to release them. */
    ghost function Leaked(): set<int> {
      Slots(built) + own
    }
  }

  /** A failed batch leaks a slot if and only if a request of it was prefilled: one before the request that failed, or
      that one itself. */
  lemma LeaksWhenPrefilled(wreck: Wreck)
    ensures wreck.Leaked() != {} <==> wreck.own != {} || exists i :: 0 <= i < |wreck.built| && wreck.built[i].seat >= 0
  {
    if i :| 0 <= i < |wreck.built| && wreck.built[i].seat >= 0 {
      InSlots(wreck.built, i);
    }
  }

  lemma UncancelledFits(m: Model, caches: Caches, s: Session, request: Request)
    requires Started(m, caches, s, request) && request.stream == null
    ensures s.seat >= 0 && HasRoom(m, request.job)
  {
  }

  /** A request that is refused leaks the slot of the one before it. */
  method RefusalLeaks(b: Backend, fitting: Request, refused: Request) returns (built: seq<Session>)
    requires fitting.stream == refused.stream == null && HasRoom(b.model, fitting.job) && !HasRoom(b.model, refused.job)
    requires !b.mayFail
    modifies b`caches, b`held, b`raised
    ensures |built| == 1 && built[0].seat !in old(b.held) && b.held == old(b.held) + {built[0].seat}
  {
    var requests, ok := [fitting, refused], true;
    ghost var own;
    ok, built, own := BuildSessions(b, requests);
    if ok {
      UncancelledFits(b.model, b.caches, built[1], requests[1]);
    }
    UncancelledFits(b.model, b.caches, built[0], requests[0]);
    assert own == {} && Slots(built) == {built[0].seat};
  }

  /** A failure in the middle of a batch raises past the sessions already built: their slots stay held, and so does the
      slot of the failing request itself when it had got one. Nothing else does. */
  method BuildSessions(b: Backend, requests: seq<Request>)
    returns (ok: bool, built: seq<Session>, ghost own: set<int>)
    requires Askable(b.model, requests)
    modifies b`caches, b`held, b`raised, StreamsOf(requests)
    ensures HeldUntouched(old(b.caches), b.caches, old(b.held))
    ensures Apart(built) && fresh(built) && Slots(built) !! old(b.held)
    ensures forall i :: 0 <= i < |built| && i < |requests| ==> Started(b.model, b.caches, built[i], requests[i])
    ensures b.held == old(b.held) + Slots(built) + own && own !! old(b.held)
    ensures if ok then |built| == |requests| && own == {}
            else |built| < |requests| && Wreck(requests, built, own).Valid()
    ensures b.raised == old(b.raised) + if ok || Refused(b.model, requests[|built|].job) then 0 else 1
    ensures !ok && requests[|built|].stream == null ==> b.mayFail || !HasRoom(b.model, requests[|built|].job)
    ensures Askable(b.model, requests)
  {
    hide Started;
    hide TokenStream.Honest;
    hide HeldUntouched;
    hide Slots;
    hide Apart;
    hide Wreck.Valid;
    var m := b.model;
    NobodyYet();
    ok, built, own := true, [], {};
    Reflexive(b.caches, b.held);
    for i := 0 to |requests|
      invariant b.raised == old(b.raised)
      invariant HeldUntouched(old(b.caches), b.caches, old(b.held))
      invariant b.held == old(b.held) + Slots(built) && Slots(built) !! old(b.held)
      invariant Apart(built) && fresh(built) && |built| == i
      invariant forall j :: 0 <= j < i ==> built[j].stream == requests[j].stream
      invariant forall j :: 0 <= j < i ==> Started(m, b.caches, built[j], requests[j])
      invariant Askable(m, requests) && own == {}
    {
      ghost var c1, h1 := b.caches, b.held;
      var one;
      one, own := BuildNth(b, requests, i);
      forall j | 0 <= j < i
        ensures Started(m, b.caches, built[j], requests[j])
      {
        InSlots(built, j);
        StartedElsewhere(m, c1, b.caches, h1, built[j], requests[j]);
      }
      StillUntouched(old(b.caches), c1, b.caches, old(b.held), h1);
      if one.None? {
        WreckIsValid(m, b.caches, built, requests, own);
        return false, built, own;
      }
      StartedAgrees(m, b.caches, one.value, requests[i]);
      OneMore(built, one.value);
      built, own := built + [one.value], {};
    }
  }

  lemma NobodyYet()
    ensures Apart([]) && Slots([]) == {}
  {
  }

  lemma InSlots(ss: seq<Session>, i: nat)
    requires i < |ss|
    ensures ss[i].seat >= 0 ==> ss[i].seat in Slots(ss)
  {
    assert ss[i] in ss;
  }

  lemma OneMore(built: seq<Session>, s: Session)
    requires Apart(built) && s !in built && Slots([s]) !! Slots(built)
    requires s.stream != null ==> forall j :: 0 <= j < |built| ==> built[j].stream != s.stream
    ensures Apart(built + [s]) && Slots(built + [s]) == Slots(built) + Slots([s])
  {
    forall j | 0 <= j < |built|
      ensures Untouched(built[j], s) && Untouched(s, built[j])
    {
      InSlots(built, j);
      InSlots([s], 0);
    }
  }

  lemma WreckIsValid(m: Model, caches: Caches, built: seq<Session>, requests: seq<Request>, own: set<int>)
    requires |built| < |requests| && Apart(built)
    requires forall i :: 0 <= i < |built| ==> Started(m, caches, built[i], requests[i])
    requires |own| <= 1 && (own != {} ==> requests[|built|].stream != null) && own !! Slots(built)
    ensures Wreck(requests, built, own).Valid()
  {
  }

  lemma StartedAgrees(m: Model, caches: Caches, s: Session, request: Request)
    requires Started(m, caches, s, request)
    ensures s.stream == request.stream
  {
  }
}
