/** What an executor may rely on from a decode backend, as relations between the caches before and after a call.

    Positions at or beyond a place's offset are never observed, so a backend may leave anything there: a chain
    that read too far, a failed step or an earlier occupant of the slot. `DensePool` proves these relations of
    the flat key/value pool; `Serving.Backend` is the most general backend that satisfies them. */
module CacheContract {
  import opened Decoding

  /** A session's place in the pool: its slot and the position of its next token. */
  datatype Place = Place(slot: int, offset: nat)

  type Caches = map<int, seq<Column>>

  predicate DistinctSlots(places: seq<Place>) {
    forall i, j :: 0 <= i < j < |places| ==> places[i].slot != places[j].slot
  }

  /** `counts[i]` more tokens fit behind place `i`. */
  predicate Fits(caches: Caches, places: seq<Place>, counts: seq<nat>)
    requires |counts| == |places|
  {
    forall i :: 0 <= i < |places| ==>
      places[i].slot in caches && places[i].offset + counts[i] <= |caches[places[i].slot]|
  }

  function Lengths(picks: seq<seq<Token>>): (counts: seq<nat>)
    ensures |counts| == |picks|
    ensures forall i :: 0 <= i < |picks| ==> counts[i] == |picks[i]|
  {
    seq(|picks|, i requires 0 <= i < |picks| => |picks[i]|)
  }

  /** All that any call may change: positions at or beyond the offsets of the places it was given. */
  ghost predicate OnlyAhead(before: Caches, after: Caches, places: seq<Place>) {
    && after.Keys == before.Keys
    && (forall s :: s in before ==> |after[s]| == |before[s]|)
    && (forall s :: s in before && (forall i :: 0 <= i < |places| ==> places[i].slot != s) ==> after[s] == before[s])
    && (forall i :: 0 <= i < |places| && places[i].slot in before && places[i].offset <= |before[places[i].slot]| ==>
          after[places[i].slot][..places[i].offset] == before[places[i].slot][..places[i].offset])
  }

  /** What a chain has fed before step `k`: the token it started with, then its own picks. */
  function Fed(token: Token, picks: seq<Token>, k: nat): (fed: seq<Token>)
    requires k <= |picks| + 1
    ensures |fed| == k
  {
    if k == 0 then [] else [token] + picks[..k - 1]
  }

  function FedAt(token: Token, picks: seq<Token>, k: nat): Token
    requires k <= |picks|
  {
    if k == 0 then token else picks[k - 1]
  }

  ghost predicate PickAt(m: Model, capacity: nat, view: seq<Column>, token: Token, picks: seq<Token>, k: nat)
    requires k < |picks|
  {
    picks[k] == m.pick(capacity, Feed(m, capacity, view, Fed(token, picks, k)), FedAt(token, picks, k))
  }

  /** The picks of a chain of steps that starts at `view` with `token`, each step fed the pick before it. */
  ghost predicate ChainPicks(m: Model, capacity: nat, view: seq<Column>, token: Token, picks: seq<Token>) {
    forall k :: 0 <= k < |picks| ==> PickAt(m, capacity, view, token, picks, k)
  }

  /** One row of a step: its picks and the columns it left, from its own columns and token alone. */
  ghost predicate RowAdvanced(m: Model, before: seq<Column>, after: seq<Column>, offset: nat, token: Token,
                              picks: seq<Token>)
    requires offset + |picks| <= |before| == |after|
  {
    && ChainPicks(m, |before|, before[..offset], token, picks)
    && after[..offset + |picks|] == Feed(m, |before|, before[..offset], Fed(token, picks, |picks|))
  }

  ghost predicate Advanced(m: Model, before: Caches, after: Caches, places: seq<Place>, tokens: seq<Token>,
                           picks: seq<seq<Token>>)
    requires |tokens| == |places| == |picks| && Fits(before, places, Lengths(picks))
  {
    && OnlyAhead(before, after, places)
    && (forall i :: 0 <= i < |picks| ==>
          RowAdvanced(m, before[places[i].slot], after[places[i].slot], places[i].offset, tokens[i], picks[i]))
  }

  /** A prefill fills a slot nobody holds and touches no other. */
  ghost predicate Prefilled(m: Model, before: Caches, after: Caches, held: set<int>, prompt: seq<Token>,
                            capacity: nat, place: Place, first: Token)
  {
    && place.slot !in held
    && place.offset == |prompt| <= capacity
    && after.Keys == before.Keys + {place.slot}
    && (forall s :: s in before && s != place.slot ==> after[s] == before[s])
    && |after[place.slot]| == capacity
    && after[place.slot][..|prompt|] == PromptColumns(m, capacity, prompt)
    && first == m.first(capacity, prompt)
  }

  /** A failed prefill leaves every held slot as it was. */
  ghost predicate HeldUntouched(before: Caches, after: Caches, held: set<int>) {
    && before.Keys <= after.Keys
    && forall s :: s in before && s in held ==> after[s] == before[s]
  }

  /** Only the rows of `seats` may differ. */
  ghost predicate KeptOutside(before: Caches, after: Caches, seats: set<int>) {
    && after.Keys == before.Keys
    && (forall s :: s in before ==> |after[s]| == |before[s]|)
    && (forall s :: s in before && s !in seats ==> after[s] == before[s])
  }

  lemma RowReplaced(caches: Caches, place: Place, row: seq<Column>)
    requires place.slot in caches && |row| == |caches[place.slot]| && place.offset <= |row|
    requires row[..place.offset] == caches[place.slot][..place.offset]
    ensures OnlyAhead(caches, caches[place.slot := row], [place])
  {
    var after := caches[place.slot := row];
    assert [place][0] == place;
    assert after.Keys == caches.Keys;
  }

  lemma OnlyAheadJoins(a: Caches, b: Caches, c: Caches, places: seq<Place>, place: Place)
    requires OnlyAhead(a, b, places) && OnlyAhead(b, c, [place])
    requires forall i :: 0 <= i < |places| ==> places[i].slot != place.slot
    ensures OnlyAhead(a, c, places + [place])
  {
    var all := places + [place];
    assert all[|places|] == place && [place][0] == place;
    forall s | s in a && (forall i :: 0 <= i < |all| ==> all[i].slot != s)
      ensures c[s] == a[s]
    {
      assert forall i :: 0 <= i < |places| ==> all[i] == places[i];
    }
    forall i | 0 <= i < |all| && all[i].slot in a && all[i].offset <= |a[all[i].slot]|
      ensures c[all[i].slot][..all[i].offset] == a[all[i].slot][..all[i].offset]
    {
      if i < |places| {
        assert all[i] == places[i];
        assert c[all[i].slot] == b[all[i].slot];
      } else {
        assert b[place.slot] == a[place.slot];
      }
    }
  }

  /** Rows in distinct slots may be submitted one after the other or stacked into one step: the result is the same. */
  lemma AdvanceOneMore(m: Model, a: Caches, b: Caches, c: Caches, places: seq<Place>, tokens: seq<Token>,
                       picks: seq<seq<Token>>, place: Place, token: Token, pick: seq<Token>)
    requires |tokens| == |places| == |picks|
    requires forall i :: 0 <= i < |places| ==> places[i].slot != place.slot
    requires Fits(a, places, Lengths(picks)) && Advanced(m, a, b, places, tokens, picks)
    requires Fits(b, [place], Lengths([pick])) && Advanced(m, b, c, [place], [token], [pick])
    ensures Fits(a, places + [place], Lengths(picks + [pick]))
    ensures Advanced(m, a, c, places + [place], tokens + [token], picks + [pick])
  {
    OnlyAheadJoins(a, b, c, places, place);
    var all := places + [place];
    assert all[|places|] == place && [place][0] == place && [pick][0] == pick && Lengths([pick])[0] == |pick|;
    assert a[place.slot] == b[place.slot];
    forall i | 0 <= i < |all|
      ensures all[i].slot in a && all[i].offset + |(picks + [pick])[i]| <= |a[all[i].slot]|
      ensures RowAdvanced(m, a[all[i].slot], c[all[i].slot], all[i].offset, (tokens + [token])[i], (picks + [pick])[i])
    {
      if i < |places| {
        assert all[i] == places[i] && Lengths(picks)[i] == |picks[i]|;
        assert c[all[i].slot] == b[all[i].slot];
      } else {
        assert [token][0] == token;
      }
    }
  }

  lemma AdvancedNone(m: Model, caches: Caches)
    ensures Fits(caches, [], Lengths([])) && Advanced(m, caches, caches, [], [], [])
  {
  }

  lemma AdvancedElsewhere(m: Model, a: Caches, b: Caches, places: seq<Place>, tokens: seq<Token>,
                          picks: seq<seq<Token>>, slot: int)
    requires |tokens| == |places| == |picks| && Fits(a, places, Lengths(picks))
    requires Advanced(m, a, b, places, tokens, picks)
    requires slot in a && forall i :: 0 <= i < |places| ==> places[i].slot != slot
    ensures slot in b && b[slot] == a[slot]
  {
  }

  lemma AdvancedOnlyAhead(m: Model, a: Caches, b: Caches, places: seq<Place>, tokens: seq<Token>,
                          picks: seq<seq<Token>>)
    requires |tokens| == |places| == |picks| && Fits(a, places, Lengths(picks))
    requires Advanced(m, a, b, places, tokens, picks)
    ensures OnlyAhead(a, b, places)
  {
  }

  /** One more step of a chain, from where `|picks|` steps of it stand. */
  lemma ChainExtends(m: Model, capacity: nat, view: seq<Column>, token: Token, picks: seq<Token>, next: Token)
    requires ChainPicks(m, capacity, view, token, picks)
    requires next == m.pick(capacity, Feed(m, capacity, view, Fed(token, picks, |picks|)), FedAt(token, picks, |picks|))
    ensures ChainPicks(m, capacity, view, token, picks + [next])
    ensures Feed(m, capacity, view, Fed(token, picks + [next], |picks| + 1))
         == Feed(m, capacity, view, Fed(token, picks, |picks|))
          + [m.column(capacity, Feed(m, capacity, view, Fed(token, picks, |picks|)), FedAt(token, picks, |picks|))]
  {
    var longer := picks + [next];
    forall k | 0 <= k < |longer|
      ensures PickAt(m, capacity, view, token, longer, k)
    {
      assert Fed(token, longer, k) == Fed(token, picks, k);
      if k < |picks| {
        assert PickAt(m, capacity, view, token, picks, k);
      }
    }
    var fed := Fed(token, longer, |longer|);
    assert fed[..|fed| - 1] == Fed(token, picks, |picks|);
    assert fed[|fed| - 1] == FedAt(token, picks, |picks|);
  }

  lemma FedJoins(tokens: seq<Token>, picks: seq<Token>, k: nat)
    requires tokens != [] && k <= |picks|
    ensures var sofar := tokens + picks[..k];
      && sofar[..|sofar| - 1] == tokens[..|tokens| - 1] + Fed(tokens[|tokens| - 1], picks, k)
      && sofar[|sofar| - 1] == FedAt(tokens[|tokens| - 1], picks, k)
  {
  }

  /** A chain of a request picks the request's own next tokens: what stepping one token at a time would pick. */
  lemma ChainIsStepwise(m: Model, job: Job, tokens: seq<Token>, picks: seq<Token>, k: nat)
    requires tokens != [] && k < |picks|
    requires ChainPicks(m, Capacity(m, job), PrivateCache(m, job, tokens), tokens[|tokens| - 1], picks)
    ensures picks[k] == NextToken(m, job, tokens + picks[..k])
  {
    var capacity, last := Capacity(m, job), tokens[|tokens| - 1];
    FedJoins(tokens, picks, k);
    FeedConcat(m, capacity, PromptColumns(m, capacity, job.prompt), tokens[..|tokens| - 1], Fed(last, picks, k));
    assert PickAt(m, capacity, PrivateCache(m, job, tokens), last, picks, k);
  }

  /** The columns of a request that accepted `k` picks of a chain are the first ones the chain left. */
  lemma RewoundChain(m: Model, job: Job, tokens: seq<Token>, picks: seq<Token>, k: nat)
    requires tokens != [] && k <= |picks|
    ensures PrivateCache(m, job, tokens + picks[..k])
         == Feed(m, Capacity(m, job), PrivateCache(m, job, tokens),
                 Fed(tokens[|tokens| - 1], picks, |picks|))[..|job.prompt| + |tokens| + k - 1]
  {
    var capacity, last := Capacity(m, job), tokens[|tokens| - 1];
    FedJoins(tokens, picks, k);
    FeedConcat(m, capacity, PromptColumns(m, capacity, job.prompt), tokens[..|tokens| - 1], Fed(last, picks, k));
    FeedPrefix(m, capacity, PrivateCache(m, job, tokens), Fed(last, picks, |picks|), k);
    assert Fed(last, picks, |picks|)[..k] == Fed(last, picks, k);
  }
}
