/** What a request's answer is when it is decoded alone: the specification every executor refines.

    A model is a record of uninterpreted functions, so nothing here depends on what a step computes, only on
    what it may look at: the columns its own request has in the cache and the token fed to it. */
module Decoding {

  type Token = int

  /** A key or a value of one attention head. */
  type Vector(!new, ==)

  datatype KeyValue = KeyValue(key: Vector, value: Vector)

  /** One cache position of one request: the keys and values of every layer's heads. */
  datatype Column = Column(layers: seq<seq<KeyValue>>)

  /** The functions take the capacity of the cache they run at, because a cache's length can move the logits.
      `capacity` is the capacity a request of that prompt length and output limit gets when it is alone. */
  datatype Model = Model(
    capacity: (nat, int) -> nat,
    promptColumn: (nat, seq<Token>, nat) -> Column,
    first: (nat, seq<Token>) -> Token,
    column: (nat, seq<Column>, Token) -> Column,
    pick: (nat, seq<Column>, Token) -> Token,
    eos: set<Token>)

  datatype Option<+T> = None | Some(value: T)

  /** What identifies a request's answer: its prompt and its output limit. */
  datatype Job = Job(prompt: seq<Token>, limit: int)

  function Capacity(m: Model, job: Job): nat {
    m.capacity(|job.prompt|, job.limit)
  }

  /** The request gets a capacity, and its prompt and its longest output fit into it. */
  predicate HasRoom(m: Model, job: Job) {
    Capacity(m, job) > 0 && |job.prompt| + job.limit <= Capacity(m, job) && |job.prompt| <= Capacity(m, job)
  }

  function PromptColumns(m: Model, capacity: nat, prompt: seq<Token>): (columns: seq<Column>)
    ensures |columns| == |prompt|
  {
    seq(|prompt|, i requires 0 <= i < |prompt| => m.promptColumn(capacity, prompt, i))
  }

  /** A private cache that starts as `view` and is fed `fed`, one token a step. */
  function Feed(m: Model, capacity: nat, view: seq<Column>, fed: seq<Token>): (columns: seq<Column>)
    ensures |columns| == |view| + |fed|
  {
    if fed == [] then view
    else
      var before := Feed(m, capacity, view, fed[..|fed| - 1]);
      before + [m.column(capacity, before, fed[|fed| - 1])]
  }

  /** The private cache of a request whose output so far is `tokens`: the last one has not been fed yet. */
  function PrivateCache(m: Model, job: Job, tokens: seq<Token>): (columns: seq<Column>)
    requires tokens != []
    ensures |columns| == |job.prompt| + |tokens| - 1
  {
    Feed(m, Capacity(m, job), PromptColumns(m, Capacity(m, job), job.prompt), tokens[..|tokens| - 1])
  }

  function NextToken(m: Model, job: Job, tokens: seq<Token>): Token
    requires tokens != []
  {
    m.pick(Capacity(m, job), PrivateCache(m, job, tokens), tokens[|tokens| - 1])
  }

  /** The generation contract: the first end-of-sequence token or the output limit ends a request. */
  predicate Finished(m: Model, job: Job, tokens: seq<Token>) {
    tokens != [] && (tokens[|tokens| - 1] in m.eos || |tokens| >= job.limit)
  }

  function Lone(m: Model, job: Job, tokens: seq<Token>): seq<Token>
    requires tokens != []
    decreases job.limit - |tokens|
  {
    if Finished(m, job, tokens) then tokens else Lone(m, job, tokens + [NextToken(m, job, tokens)])
  }

  function FirstToken(m: Model, job: Job): Token {
    m.first(Capacity(m, job), job.prompt)
  }

  /** The one-step-at-a-time decode of one request with nobody else in the machine. */
  function Reference(m: Model, job: Job): seq<Token> {
    Lone(m, job, [FirstToken(m, job)])
  }

  /** `tokens` is where the lone decode is after `|tokens|` tokens. */
  ghost predicate OnTrack(m: Model, job: Job, tokens: seq<Token>) {
    tokens != [] && Lone(m, job, tokens) == Reference(m, job) && tokens[0] == FirstToken(m, job)
  }

  lemma FirstOnTrack(m: Model, job: Job)
    ensures OnTrack(m, job, [FirstToken(m, job)])
  {
  }

  lemma {:induction false} LoneExtends(m: Model, job: Job, tokens: seq<Token>)
    requires tokens != []
    ensures tokens <= Lone(m, job, tokens)
    ensures Finished(m, job, Lone(m, job, tokens))
    ensures !Finished(m, job, tokens) ==> |tokens| < |Lone(m, job, tokens)|
    decreases job.limit - |tokens|
  {
    if !Finished(m, job, tokens) {
      LoneExtends(m, job, tokens + [NextToken(m, job, tokens)]);
    }
  }

  /** On track means a prefix of the reference; finished on track means the whole of it. */
  lemma OnTrackIsPrefix(m: Model, job: Job, tokens: seq<Token>)
    requires OnTrack(m, job, tokens)
    ensures tokens <= Reference(m, job)
    ensures Finished(m, job, tokens) <==> tokens == Reference(m, job)
  {
    LoneExtends(m, job, tokens);
  }

  lemma OnTrackStep(m: Model, job: Job, tokens: seq<Token>)
    requires OnTrack(m, job, tokens) && !Finished(m, job, tokens)
    ensures OnTrack(m, job, tokens + [NextToken(m, job, tokens)])
  {
  }

  lemma {:induction false} LoneLength(m: Model, job: Job, tokens: seq<Token>)
    requires tokens != []
    ensures |Lone(m, job, tokens)| <= if |tokens| >= job.limit then |tokens| else job.limit
    decreases job.limit - |tokens|
  {
    if !Finished(m, job, tokens) {
      LoneLength(m, job, tokens + [NextToken(m, job, tokens)]);
    }
  }

  /** Every nonempty prefix of the reference is a point of the lone decode. */
  lemma {:induction false} PrefixIsOnTrack(m: Model, job: Job, tokens: seq<Token>)
    requires tokens != [] && tokens <= Reference(m, job)
    ensures OnTrack(m, job, tokens)
    decreases |tokens|
  {
    if |tokens| == 1 {
      LoneExtends(m, job, [FirstToken(m, job)]);
      assert tokens == [FirstToken(m, job)];
    } else {
      var before := tokens[..|tokens| - 1];
      PrefixIsOnTrack(m, job, before);
      OnTrackIsPrefix(m, job, before);
      OnTrackStep(m, job, before);
      OnTrackIsPrefix(m, job, before + [NextToken(m, job, before)]);
      assert tokens == before + [NextToken(m, job, before)];
    }
  }

  /** The only token that continues a prefix of the reference is the reference's own. */
  lemma NextIsReference(m: Model, job: Job, tokens: seq<Token>)
    requires OnTrack(m, job, tokens) && !Finished(m, job, tokens)
    ensures |tokens| < |Reference(m, job)| && Reference(m, job)[|tokens|] == NextToken(m, job, tokens)
  {
    OnTrackStep(m, job, tokens);
    OnTrackIsPrefix(m, job, tokens + [NextToken(m, job, tokens)]);
  }

  /** A decode, told by the model alone: the cache begins with the prompt's columns and every token but the last adds
      one; each token after the first is the model's pick on what the cache held and the token before. It ends at the
      first end-of-sequence token or at the output limit, and not before. */
  ghost predicate IsDecode(m: Model, job: Job, tokens: seq<Token>, columns: seq<Column>) {
    var capacity, n := m.capacity(|job.prompt|, job.limit), |job.prompt|;
    && tokens != [] && |columns| == n + |tokens| - 1
    && tokens[0] == m.first(capacity, job.prompt)
    && (forall j :: 0 <= j < n ==> columns[j] == m.promptColumn(capacity, job.prompt, j))
    && (forall i :: 0 <= i < |tokens| - 1 ==> StepsOn(m, capacity, n, tokens, columns, i))
    && (tokens[|tokens| - 1] in m.eos || |tokens| >= job.limit)
    && forall i :: 0 <= i < |tokens| - 1 ==> tokens[i] !in m.eos && i + 1 < job.limit
  }

  ghost predicate StepsOn(m: Model, capacity: nat, n: nat, tokens: seq<Token>, columns: seq<Column>, i: nat)
    requires i + 1 < |tokens| && |columns| == n + |tokens| - 1
  {
    var view := columns[..n + i];
    columns[n + i] == m.column(capacity, view, tokens[i]) && tokens[i + 1] == m.pick(capacity, view, tokens[i])
  }

  /** The lone decode is a decode. */
  lemma {:induction false} ReferenceIsDecode(m: Model, job: Job)
    ensures Reference(m, job) != []
    ensures IsDecode(m, job, Reference(m, job), PrivateCache(m, job, Reference(m, job)))
    ensures forall i :: 0 <= i < |Reference(m, job)| - 1 ==> Reference(m, job)[i] !in m.eos && i + 1 < job.limit
    ensures var last := Reference(m, job)[|Reference(m, job)| - 1]; last in m.eos || |Reference(m, job)| >= job.limit
  {
    var tokens, n := Reference(m, job), |job.prompt|;
    LoneExtends(m, job, [FirstToken(m, job)]);
    var columns := PrivateCache(m, job, tokens);
    PrivateCachePrefix(m, job, tokens, tokens[..1]);
    PrivateCacheOfFirst(m, job, tokens[..1]);
    forall j | 0 <= j < n
      ensures columns[j] == m.promptColumn(Capacity(m, job), job.prompt, j)
    {
      assert columns[j] == columns[..n][j];
    }
    forall i | 0 <= i < |tokens| - 1
      ensures tokens[i] !in m.eos && i + 1 < job.limit && StepsOn(m, Capacity(m, job), n, tokens, columns, i)
    {
      ReferenceSteps(m, job, i);
    }
  }

  lemma ReferenceSteps(m: Model, job: Job, i: nat)
    requires i + 1 < |Reference(m, job)|
    ensures var tokens := Reference(m, job);
      && tokens[i] !in m.eos && i + 1 < job.limit
      && StepsOn(m, Capacity(m, job), |job.prompt|, tokens, PrivateCache(m, job, tokens), i)
  {
    var tokens, n := Reference(m, job), |job.prompt|;
    var before, columns := tokens[..i + 1], PrivateCache(m, job, tokens);
    PrefixIsOnTrack(m, job, before);
    OnTrackIsPrefix(m, job, before);
    NextIsReference(m, job, before);
    PrivateCachePrefix(m, job, tokens, before);
    PrivateCachePrefix(m, job, tokens, tokens[..i + 2]);
    assert tokens[..i + 2][..i + 1] == before && before[..i] == tokens[..i];
    assert PrivateCache(m, job, tokens[..i + 2])[n + i] == columns[n + i];
  }

  /** No other tokens are one: the specification has exactly one meaning. */
  lemma {:induction false} OnlyDecode(m: Model, job: Job, tokens: seq<Token>, columns: seq<Column>)
    requires IsDecode(m, job, tokens, columns)
    ensures tokens == Reference(m, job)
  {
    var n := |job.prompt|;
    assert columns[..n] == PromptColumns(m, Capacity(m, job), job.prompt);
    DecodeOnTrack(m, job, tokens, columns, |tokens| - 1);
    assert tokens[..|tokens|] == tokens;
    OnTrackIsPrefix(m, job, tokens);
  }

  lemma {:induction false} DecodeOnTrack(m: Model, job: Job, tokens: seq<Token>, columns: seq<Column>, i: nat)
    requires IsDecode(m, job, tokens, columns) && i < |tokens|
    requires columns[..|job.prompt|] == PromptColumns(m, Capacity(m, job), job.prompt)
    ensures OnTrack(m, job, tokens[..i + 1])
    ensures PrivateCache(m, job, tokens[..i + 1]) == columns[..|job.prompt| + i]
  {
    var n := |job.prompt|;
    if i == 0 {
      assert tokens[..1] == [FirstToken(m, job)];
      FirstOnTrack(m, job);
      PrivateCacheOfFirst(m, job, tokens[..1]);
    } else {
      var before := tokens[..i];
      DecodeOnTrack(m, job, tokens, columns, i - 1);
      assert StepsOn(m, Capacity(m, job), n, tokens, columns, i - 1);
      assert tokens[i - 1] !in m.eos && i < job.limit;
      OnTrackStep(m, job, before);
      assert tokens[..i + 1] == before + [tokens[i]];
      assert tokens[..i + 1][..i] == before && before[..i - 1] == tokens[..i - 1];
      assert columns[..n + i] == columns[..n + (i - 1)] + [columns[n + (i - 1)]];
    }
  }

  lemma {:induction false} FeedConcat(m: Model, capacity: nat, view: seq<Column>, a: seq<Token>, b: seq<Token>)
    ensures Feed(m, capacity, view, a + b) == Feed(m, capacity, Feed(m, capacity, view, a), b)
    decreases |b|
  {
    if b == [] {
      assert a + b == a;
    } else {
      FeedConcat(m, capacity, view, a, b[..|b| - 1]);
      assert (a + b)[..|a + b| - 1] == a + b[..|b| - 1];
    }
  }

  /** Feeding less leaves a prefix: a position never depends on what is fed after it. */
  lemma {:induction false} FeedPrefix(m: Model, capacity: nat, view: seq<Column>, fed: seq<Token>, k: nat)
    requires k <= |fed|
    ensures Feed(m, capacity, view, fed[..k]) == Feed(m, capacity, view, fed)[..|view| + k]
    decreases |fed|
  {
    if k < |fed| {
      FeedPrefix(m, capacity, view, fed[..|fed| - 1], k);
      assert fed[..|fed| - 1][..k] == fed[..k];
    } else {
      assert fed[..k] == fed;
    }
  }

  /** A request that has only its first token has fed nothing. */
  lemma PrivateCacheOfFirst(m: Model, job: Job, tokens: seq<Token>)
    requires |tokens| == 1
    ensures PrivateCache(m, job, tokens) == PromptColumns(m, Capacity(m, job), job.prompt)
  {
  }

  lemma PrivateCachePrefix(m: Model, job: Job, tokens: seq<Token>, shorter: seq<Token>)
    requires shorter != [] && shorter <= tokens
    ensures PrivateCache(m, job, shorter) == PrivateCache(m, job, tokens)[..|job.prompt| + |shorter| - 1]
  {
    var fed := tokens[..|tokens| - 1];
    FeedPrefix(m, Capacity(m, job), PromptColumns(m, Capacity(m, job), job.prompt), fed, |shorter| - 1);
    assert fed[..|shorter| - 1] == shorter[..|shorter| - 1];
  }
}
