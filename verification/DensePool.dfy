/** The dense plan's key/value pool: fixed-capacity slots in flat arrays that are written in place, a sorted list of
    free slots, and steps that advance up to eight slots at once. It keeps `CacheContract`.

    Moving a session's position back (`reset_state`, `rewind`) touches nothing here: what a slot holds at or beyond
    the position stays as it was. What a row computes is a record of uninterpreted functions of that row alone;
    `RowKernels` and `FlashAttention` are about the kernels behind them. */
module DensePool {
  import opened Decoding
  import opened CacheContract
  import opened Layout

  const MAX_ROWS := 8
  const PREFILL_CHUNK := 2048

  type Hidden(!new)

  type Query(!new)

  type Attended(!new)

  /** The network: what each operation makes of one row. */
  datatype Net = Net(
    layers: nat,
    heads: nat,
    zero: Vector,
    eos: set<Token>,
    embed: Token -> Hidden,
    query: (nat, Hidden, nat) -> Query,
    key: (nat, Hidden, nat, nat) -> Vector,
    value: (nat, Hidden, nat) -> Vector,
    attend: (Query, seq<seq<KeyValue>>) -> Attended,
    mix: (nat, Hidden, Attended) -> Hidden,
    head: Hidden -> Token,
    chunkEntry: (seq<Column>, seq<Token>, nat, nat, nat) -> KeyValue,
    chunkLast: (seq<Column>, seq<Token>) -> Hidden)

  function Layer(column: Column, l: nat): seq<KeyValue> {
    if l < |column.layers| then column.layers[l] else []
  }

  function History(view: seq<Column>, l: nat): seq<seq<KeyValue>> {
    seq(|view|, p requires 0 <= p < |view| => Layer(view[p], l))
  }

  /** The keys and values a row writes at a layer. */
  function Written(net: Net, l: nat, hidden: Hidden, position: nat): (entries: seq<KeyValue>)
    ensures |entries| == net.heads
  {
    seq(net.heads, h requires 0 <= h < net.heads => KeyValue(net.key(l, hidden, position, h), net.value(l, hidden, h)))
  }

  function AfterLayer(net: Net, l: nat, hidden: Hidden, history: seq<seq<KeyValue>>, position: nat): Hidden {
    net.mix(l, hidden, net.attend(net.query(l, hidden, position), history))
  }

  /** The lone row: what enters layer `l` when `token` follows a private cache `view`. */
  function HiddenAt(net: Net, view: seq<Column>, token: Token, l: nat): Hidden {
    if l == 0 then net.embed(token)
    else
      var hidden := HiddenAt(net, view, token, l - 1);
      AfterLayer(net, l - 1, hidden, History(view, l - 1) + [Written(net, l - 1, hidden, |view|)], |view|)
  }

  function NewColumn(net: Net, view: seq<Column>, token: Token): Column {
    Column(seq(net.layers, l requires 0 <= l < net.layers => Written(net, l, HiddenAt(net, view, token, l), |view|)))
  }

  function ChunkColumn(net: Net, view: seq<Column>, chunk: seq<Token>, i: nat): Column {
    Column(seq(net.layers, l requires 0 <= l < net.layers =>
      seq(net.heads, h requires 0 <= h < net.heads => net.chunkEntry(view, chunk, i, l, h))))
  }

  function LastChunk(prompt: seq<Token>): nat
    requires prompt != []
    ensures LastChunk(prompt) < |prompt| <= LastChunk(prompt) + PREFILL_CHUNK
  {
    (|prompt| - 1) / PREFILL_CHUNK * PREFILL_CHUNK
  }

  /** A prompt's columns: each chunk of 2,048 positions on top of the chunks before it. */
  function PromptCache(net: Net, prompt: seq<Token>): (columns: seq<Column>)
    ensures |columns| == |prompt|
    decreases |prompt|
  {
    if prompt == [] then []
    else
      var start := LastChunk(prompt);
      ChunkAdded(net, PromptCache(net, prompt[..start]), prompt[start..])
  }

  function ChunkAdded(net: Net, view: seq<Column>, chunk: seq<Token>): (columns: seq<Column>)
    ensures |columns| == |view| + |chunk|
  {
    view + seq(|chunk|, i requires 0 <= i < |chunk| => ChunkColumn(net, view, chunk, i))
  }

  /** The request's first token: the head on the last position of its last chunk. */
  function FirstPick(net: Net, prompt: seq<Token>): Token {
    if prompt == [] then net.head(net.chunkLast([], []))
    else
      var start := LastChunk(prompt);
      net.head(net.chunkLast(PromptCache(net, prompt[..start]), prompt[start..]))
  }

  /** What the executor knows of a plan over slots of `capacity` positions: no function looks at the capacity. */
  function ModelOf(net: Net, capacity: nat): Model {
    Model(
      (length: nat, limit: int) => if length + limit <= capacity then capacity else 0,
      (c: nat, prompt: seq<Token>, i: nat) =>
        if i < |prompt| then PromptCache(net, prompt)[i] else Column([]),
      (c: nat, prompt: seq<Token>) => FirstPick(net, prompt),
      (c: nat, view: seq<Column>, token: Token) => NewColumn(net, view, token),
      (c: nat, view: seq<Column>, token: Token) => net.head(HiddenAt(net, view, token, net.layers)),
      net.eos)
  }

  lemma PromptCacheIsColumns(net: Net, capacity: nat, prompt: seq<Token>)
    ensures PromptColumns(ModelOf(net, capacity), capacity, prompt) == PromptCache(net, prompt)
  {
  }

  /** The answer of a request does not depend on the size of the slots, as long as it fits. */
  lemma {:induction false} CapacityDoesNotMatter(net: Net, a: nat, b: nat, job: Job, tokens: seq<Token>)
    requires tokens != []
    requires 0 < |job.prompt| + job.limit <= a && |job.prompt| + job.limit <= b
    ensures Lone(ModelOf(net, a), job, tokens) == Lone(ModelOf(net, b), job, tokens)
    decreases job.limit - |tokens|
  {
    var ma, mb := ModelOf(net, a), ModelOf(net, b);
    if !Finished(ma, job, tokens) {
      var fed := tokens[..|tokens| - 1];
      PromptCacheIsColumns(net, a, job.prompt);
      PromptCacheIsColumns(net, b, job.prompt);
      FeedIgnoresCapacity(net, a, b, PromptCache(net, job.prompt), fed);
      assert NextToken(ma, job, tokens) == NextToken(mb, job, tokens);
      CapacityDoesNotMatter(net, a, b, job, tokens + [NextToken(ma, job, tokens)]);
    }
  }

  lemma {:induction false} FeedIgnoresCapacity(net: Net, a: nat, b: nat, view: seq<Column>, fed: seq<Token>)
    ensures Feed(ModelOf(net, a), a, view, fed) == Feed(ModelOf(net, b), b, view, fed)
  {
    if fed != [] {
      FeedIgnoresCapacity(net, a, b, view, fed[..|fed| - 1]);
    }
  }

  predicate Sorted(s: seq<int>) {
    forall i, j :: 0 <= i < j < |s| ==> s[i] < s[j]
  }

  /** Chains of one pick each. */
  function Singles(picks: seq<Token>): (chains: seq<seq<Token>>)
    ensures |chains| == |picks|
  {
    seq(|picks|, i requires 0 <= i < |picks| => [picks[i]])
  }

  /** The plan's pool and its slots. A place is a cell of the pool: a slot and a position in it. */
  class Pool {
    const net: Net
    const slots: nat
    const capacity: nat
    const keys: array2<Vector>
    const values: array2<Vector>
    var free: seq<int>

    constructor (net: Net, slots: nat, capacity: nat)
      requires capacity > 0 && net.heads > 0
      ensures Shaped() && SlotsSound() && fresh(keys) && fresh(values)
      ensures this.net == net && this.slots == slots && this.capacity == capacity && Held() == {}
    {
      this.net, this.slots, this.capacity := net, slots, capacity;
      var rows := slots * net.heads * capacity;
      keys := new Vector[net.layers, rows]((_, _) => net.zero);
      values := new Vector[net.layers, rows]((_, _) => net.zero);
      free := seq(slots, i => i);
      new;
      forall s | 0 <= s < slots
        ensures s in free
      {
        assert free[s] == s;
      }
    }

    ghost predicate Shaped() {
      && capacity > 0 && net.heads > 0 && keys != values
      && keys.Length0 == values.Length0 == net.layers
      && keys.Length1 == values.Length1 == slots * net.heads * capacity
    }

    /** The free list is sorted, has no slot twice and names slots of the pool only. */
    ghost predicate SlotsSound()
      reads this`free
    {
      Sorted(free) && forall i :: 0 <= i < |free| ==> 0 <= free[i] < slots
    }

    /** Every slot is either free or held. */
    ghost function Held(): set<int>
      reads this`free
    {
      set s | 0 <= s < slots && s !in free
    }

    predicate Inside(place: Place) {
      0 <= place.slot < slots && place.offset < capacity
    }

    function RowOf(place: Place, h: nat): (row: nat)
      requires Shaped() && Inside(place) && h < net.heads
      ensures row < keys.Length1 && row == (place.slot * net.heads + h) * capacity + place.offset
    {
      FlatRowInside(net.heads, capacity, slots, place.slot, h, place.offset);
      FlatRow(net.heads, capacity, place.slot, h, place.offset)
    }

    lemma RowsDiffer()
      requires Shaped()
      ensures forall p, q, g, h ::
                Inside(p) && Inside(q) && 0 <= g < net.heads && 0 <= h < net.heads && RowOf(p, g) == RowOf(q, h)
                ==> p == q && g == h
    {
      forall p, q, g, h | Inside(p) && Inside(q) && 0 <= g < net.heads && 0 <= h < net.heads
        && RowOf(p, g) == RowOf(q, h)
        ensures p == q && g == h
      {
        FlatRowInverts(net.heads, capacity, p.slot, g, p.offset);
        FlatRowInverts(net.heads, capacity, q.slot, h, q.offset);
      }
    }

    function Entry(l: nat, place: Place, h: nat): KeyValue
      requires Shaped() && l < net.layers && Inside(place) && h < net.heads
      reads keys, values
    {
      KeyValue(keys[l, RowOf(place, h)], values[l, RowOf(place, h)])
    }

    function Entries(l: nat, place: Place): (entries: seq<KeyValue>)
      requires Shaped() && l < net.layers && Inside(place)
      reads keys, values
      ensures |entries| == net.heads
    {
      seq(net.heads, h requires 0 <= h < net.heads reads keys, values => Entry(l, place, h))
    }

    /** What attention reads of a slot: its first `length` positions. */
    function Read(l: nat, slot: int, length: nat): (history: seq<seq<KeyValue>>)
      requires Shaped() && l < net.layers && 0 <= slot < slots && length <= capacity
      reads keys, values
      ensures |history| == length && forall p :: 0 <= p < length ==> |history[p]| == net.heads
      ensures forall p, h :: 0 <= p < length && 0 <= h < net.heads ==> history[p][h] == Entry(l, Place(slot, p), h)
    {
      seq(length, p requires 0 <= p < length reads keys, values => Entries(l, Place(slot, p)))
    }

    ghost function ColumnAt(place: Place): Column
      requires Shaped() && Inside(place)
      reads keys, values
    {
      Column(seq(net.layers, l requires 0 <= l < net.layers reads keys, values => Entries(l, place)))
    }

    ghost function Cache(slot: int): (columns: seq<Column>)
      requires Shaped() && 0 <= slot < slots
      reads keys, values
      ensures |columns| == capacity
    {
      seq(capacity, p requires 0 <= p < capacity reads keys, values => ColumnAt(Place(slot, p)))
    }

    /** The contract's view of the pool. */
    ghost function Caches(): (caches: Caches)
      requires Shaped()
      reads keys, values
      ensures forall s :: s in caches <==> 0 <= s < slots
      ensures forall s :: 0 <= s < slots ==> caches[s] == Cache(s)
    {
      map s | 0 <= s < slots :: Cache(s)
    }

    /** One layer's keys and values into one cell of the pool. */
    method WriteCell(l: nat, place: Place, entries: seq<KeyValue>)
      requires Shaped() && l < net.layers && Inside(place) && |entries| == net.heads
      modifies keys, values
      ensures Entries(l, place) == entries
      ensures forall k, q :: 0 <= k < net.layers && Inside(q) && !(k == l && q == place) ==>
              Entries(k, q) == old(Entries(k, q))
    {
      RowsDiffer();
      for h := 0 to net.heads
        invariant forall g :: 0 <= g < h ==> Entry(l, place, g) == entries[g]
        invariant forall k, q, g ::
                    0 <= k < net.layers && Inside(q) && 0 <= g < net.heads && !(k == l && q == place) ==>
                    Entry(k, q, g) == old(Entry(k, q, g))
      {
        keys[l, RowOf(place, h)] := entries[h].key;
        values[l, RowOf(place, h)] := entries[h].value;
      }
      assert Entries(l, place) == entries;
    }

    /** One layer's keys and values, scattered over distinct cells. */
    method Scatter(l: nat, cells: seq<Place>, entries: seq<seq<KeyValue>>)
      requires Shaped() && l < net.layers && |entries| == |cells|
      requires forall i :: 0 <= i < |cells| ==> Inside(cells[i]) && |entries[i]| == net.heads
      requires forall i, j :: 0 <= i < j < |cells| ==> cells[i] != cells[j]
      modifies keys, values
      ensures forall i :: 0 <= i < |cells| ==> Entries(l, cells[i]) == entries[i]
      ensures forall k, q :: 0 <= k < net.layers && Inside(q) && !(k == l && q in cells) ==>
              Entries(k, q) == old(Entries(k, q))
    {
      for i := 0 to |cells|
        invariant forall j :: 0 <= j < i ==> Entries(l, cells[j]) == entries[j]
        invariant forall k, q :: 0 <= k < net.layers && Inside(q) && !(k == l && q in cells[..i]) ==>
                    Entries(k, q) == old(Entries(k, q))
      {
        WriteCell(l, cells[i], entries[i]);
      }
    }

    /** A step's cells: one per row, each in a slot of its own. */
    ghost predicate Rows(cells: seq<Place>) {
      (forall i :: 0 <= i < |cells| ==> Inside(cells[i])) && DistinctSlots(cells)
    }

    /** What a layer makes of a row, in terms of the network and the pool alone: the row's own keys and values are in
        its cell, and it attended over its own slot's first positions, this cell the last of them. */
    ghost predicate LayerDone(l: nat, cell: Place, hidden: Hidden, next: Hidden)
      requires Shaped() && l < net.layers && Inside(cell)
      reads keys, values
    {
      var p := cell.offset;
      && (forall h :: 0 <= h < net.heads ==>
            Entry(l, cell, h) == KeyValue(net.key(l, hidden, p, h), net.value(l, hidden, h)))
      && next == net.mix(l, hidden, net.attend(net.query(l, hidden, p), Read(l, cell.slot, p + 1)))
    }

    /** Layer `l` of a step: every row's keys and values are written before any row attends. */
    method ForwardLayer(l: nat, hidden: seq<Hidden>, cells: seq<Place>, ghost histories: seq<seq<seq<KeyValue>>>)
        returns (next: seq<Hidden>)
      requires Shaped() && l < net.layers && |hidden| == |cells| == |histories| && Rows(cells)
      requires forall i :: 0 <= i < |cells| ==> Read(l, cells[i].slot, cells[i].offset) == histories[i]
      modifies keys, values
      ensures |next| == |cells|
      ensures forall i :: 0 <= i < |cells| ==> LayerDone(l, cells[i], hidden[i], next[i])
      ensures forall i :: 0 <= i < |cells| ==> Entries(l, cells[i]) == Written(net, l, hidden[i], cells[i].offset)
      ensures forall i :: 0 <= i < |cells| ==>
                next[i] == AfterLayer(net, l, hidden[i], histories[i] + [Written(net, l, hidden[i], cells[i].offset)],
                                      cells[i].offset)
      ensures forall k, q :: 0 <= k < net.layers && Inside(q) && !(k == l && q in cells) ==>
              Entries(k, q) == old(Entries(k, q))
    {
      hide Pool.LayerDone;
      hide AfterLayer;
      hide Written;
      hide Pool.Entries;
      hide Pool.Read;
      hide Pool.Holds;
      WriteLayer(l, hidden, cells, histories);
      forall i | 0 <= i < |cells|
        ensures var p, own := cells[i].offset, Written(net, l, hidden[i], cells[i].offset);
          var row := AfterLayer(net, l, hidden[i], Read(l, cells[i].slot, p + 1), p);
          LayerDone(l, cells[i], hidden[i], row) && row == AfterLayer(net, l, hidden[i], histories[i] + [own], p)
      {
        Attended(l, hidden[i], cells[i], histories[i]);
      }
      next := [];
      for i := 0 to |cells|
        invariant |next| == i && forall j :: 0 <= j < i ==> LayerDone(l, cells[j], hidden[j], next[j])
        invariant forall j :: 0 <= j < i ==>
                    next[j] == AfterLayer(net, l, hidden[j],
                                          histories[j] + [Written(net, l, hidden[j], cells[j].offset)], cells[j].offset)
      {
        var p := cells[i].offset;
        next := next + [AfterLayer(net, l, hidden[i], Read(l, cells[i].slot, p + 1), p)];
      }
    }

    /** Below a row's cell its slot still holds the history. */
    ghost predicate Holds(l: nat, cell: Place, history: seq<seq<KeyValue>>)
      requires Shaped() && l < net.layers && Inside(cell)
      reads keys, values
    {
      && |history| == cell.offset
      && forall q :: 0 <= q < cell.offset ==> Entries(l, Place(cell.slot, q)) == history[q]
    }

    method WriteLayer(l: nat, hidden: seq<Hidden>, cells: seq<Place>, ghost histories: seq<seq<seq<KeyValue>>>)
      requires Shaped() && l < net.layers && |hidden| == |cells| == |histories| && Rows(cells)
      requires forall i :: 0 <= i < |cells| ==> Read(l, cells[i].slot, cells[i].offset) == histories[i]
      modifies keys, values
      ensures forall i :: 0 <= i < |cells| ==> Entries(l, cells[i]) == Written(net, l, hidden[i], cells[i].offset)
      ensures forall i :: 0 <= i < |cells| ==> Holds(l, cells[i], histories[i])
      ensures forall k, q :: 0 <= k < net.layers && Inside(q) && !(k == l && q in cells) ==>
              Entries(k, q) == old(Entries(k, q))
    {
      hide Pool.Entries;
      hide Pool.Read;
      hide Written;
      forall i | 0 <= i < |cells|
        ensures Holds(l, cells[i], histories[i])
      {
        HistoryRead(l, cells[i], histories[i]);
      }
      Scatter(l, cells, seq(|cells|, i requires 0 <= i < |cells| => Written(net, l, hidden[i], cells[i].offset)));
      forall i | 0 <= i < |cells|
        ensures Holds(l, cells[i], histories[i])
      {
        forall q | 0 <= q < cells[i].offset
          ensures Entries(l, Place(cells[i].slot, q)) == histories[i][q]
        {
          assert Place(cells[i].slot, q) !in cells;
          assert old(Holds(l, cells[i], histories[i]));
        }
      }
    }

    lemma HistoryRead(l: nat, cell: Place, history: seq<seq<KeyValue>>)
      requires Shaped() && l < net.layers && Inside(cell) && Read(l, cell.slot, cell.offset) == history
      ensures Holds(l, cell, history)
    {
      forall q | 0 <= q < cell.offset
        ensures Entries(l, Place(cell.slot, q)) == history[q]
      {
        assert Read(l, cell.slot, cell.offset)[q] == history[q];
      }
    }

    /** One row of a layer, after its keys and values were written. */
    lemma Attended(l: nat, hidden: Hidden, cell: Place, before: seq<seq<KeyValue>>)
      requires Shaped() && l < net.layers && Inside(cell) && Holds(l, cell, before)
      requires Entries(l, cell) == Written(net, l, hidden, cell.offset)
      ensures var p, own := cell.offset, Written(net, l, hidden, cell.offset);
        var next := AfterLayer(net, l, hidden, Read(l, cell.slot, p + 1), p);
        LayerDone(l, cell, hidden, next) && next == AfterLayer(net, l, hidden, before + [own], p)
    {
      hide Written;
      var p := cell.offset;
      var history := Read(l, cell.slot, p + 1);
      EntriesWritten(l, cell, hidden);
      assert forall q :: 0 <= q < p ==> history[q] == Entries(l, Place(cell.slot, q));
      assert history == before + [Written(net, l, hidden, p)];
    }

    lemma EntriesWritten(l: nat, cell: Place, hidden: Hidden)
      requires Shaped() && l < net.layers && Inside(cell) && Entries(l, cell) == Written(net, l, hidden, cell.offset)
      ensures forall h :: 0 <= h < net.heads ==>
                Entry(l, cell, h) == KeyValue(net.key(l, hidden, cell.offset, h), net.value(l, hidden, h))
    {
      forall h | 0 <= h < net.heads
        ensures Entry(l, cell, h) == KeyValue(net.key(l, hidden, cell.offset, h), net.value(l, hidden, h))
      {
        assert Entries(l, cell)[h] == Entry(l, cell, h);
      }
    }

    /** What a row sees before a step: its slot's columns below its position. */
    ghost function View(cell: Place): (view: seq<Column>)
      requires Shaped() && Inside(cell)
      reads keys, values
      ensures |view| == cell.offset
    {
      Cache(cell.slot)[..cell.offset]
    }

    ghost function Views(cells: seq<Place>): (views: seq<seq<Column>>)
      requires Shaped() && Rows(cells)
      reads keys, values
      ensures |views| == |cells|
      ensures forall i :: 0 <= i < |cells| ==> views[i] == View(cells[i])
    {
      seq(|cells|, i requires 0 <= i < |cells| reads keys, values => View(cells[i]))
    }

    lemma ColumnWritten(cell: Place, view: seq<Column>, token: Token)
      requires Shaped() && Inside(cell) && |view| == cell.offset
      requires forall l :: 0 <= l < net.layers ==>
                 Entries(l, cell) == Written(net, l, HiddenAt(net, view, token, l), cell.offset)
      ensures ColumnAt(cell) == NewColumn(net, view, token)
    {
    }

    /** Where a step stands before layer `l`: the layers below have written their cells from the rows' own views. */
    ghost predicate Reached(l: nat, hidden: seq<Hidden>, cells: seq<Place>, views: seq<seq<Column>>, tokens: seq<Token>)
      requires Shaped() && l <= net.layers && Rows(cells) && |hidden| == |cells| == |views| == |tokens|
      reads keys, values
    {
      forall i :: 0 <= i < |cells| ==>
        && hidden[i] == HiddenAt(net, views[i], tokens[i], l)
        && forall k :: 0 <= k < l ==>
             Entries(k, cells[i]) == Written(net, k, HiddenAt(net, views[i], tokens[i], k), cells[i].offset)
    }

    /** All that the first `l` layers of a step changed. */
    twostate predicate OnlyCells(l: nat, cells: seq<Place>)
      requires Shaped()
      reads keys, values
    {
      forall k, q :: 0 <= k < net.layers && Inside(q) && !(k < l && q in cells) ==> Entries(k, q) == old(Entries(k, q))
    }

    /** Below the rows' own cells every layer still reads what the rows saw before the step. */
    ghost predicate Pending(cells: seq<Place>, views: seq<seq<Column>>)
      requires Shaped() && Rows(cells) && |views| == |cells|
      reads keys, values
    {
      forall k, i :: 0 <= k < net.layers && 0 <= i < |cells| ==>
        |views[i]| == cells[i].offset && Read(k, cells[i].slot, cells[i].offset) == History(views[i], k)
    }

    lemma AllPending(cells: seq<Place>, views: seq<seq<Column>>)
      requires Shaped() && Rows(cells) && views == Views(cells)
      ensures Pending(cells, views)
    {
    }

    method PassLayer(l: nat, hidden: seq<Hidden>, cells: seq<Place>, ghost views: seq<seq<Column>>,
                     ghost tokens: seq<Token>)
        returns (next: seq<Hidden>)
      requires Shaped() && l < net.layers && Rows(cells) && |hidden| == |cells| == |views| == |tokens|
      requires Reached(l, hidden, cells, views, tokens) && Pending(cells, views)
      modifies keys, values
      ensures |next| == |cells| && Reached(l + 1, next, cells, views, tokens) && Pending(cells, views)
      ensures forall k, q :: 0 <= k < net.layers && Inside(q) && !(k == l && q in cells) ==>
              Entries(k, q) == old(Entries(k, q))
    {
      ghost var histories := seq(|cells|, i requires 0 <= i < |cells| => History(views[i], l));
      next := ForwardLayer(l, hidden, cells, histories);
      forall k, i | 0 <= k < net.layers && 0 <= i < |cells|
        ensures Read(k, cells[i].slot, cells[i].offset) == old(Read(k, cells[i].slot, cells[i].offset))
      {
      }
    }

    /** What a row is before every layer, and after the last. */
    ghost function HiddenRow(view: seq<Column>, token: Token): (row: seq<Hidden>)
      ensures |row| == net.layers + 1 && forall l :: 0 <= l <= net.layers ==> row[l] == HiddenAt(net, view, token, l)
    {
      seq(net.layers + 1, l requires 0 <= l <= net.layers => HiddenAt(net, view, token, l))
    }

    /** The pool still shows what layer `l` read. */
    lemma LayerKept(l: nat, cell: Place, view: seq<Column>, token: Token)
      requires Shaped() && l < net.layers && Inside(cell) && |view| == cell.offset
      requires Read(l, cell.slot, cell.offset) == History(view, l)
      requires Entries(l, cell) == Written(net, l, HiddenAt(net, view, token, l), cell.offset)
      ensures LayerDone(l, cell, HiddenAt(net, view, token, l), HiddenAt(net, view, token, l + 1))
    {
      var hidden, p := HiddenAt(net, view, token, l), cell.offset;
      EntriesWritten(l, cell, hidden);
      var history := Read(l, cell.slot, p + 1);
      forall q | 0 <= q < p
        ensures history[q] == History(view, l)[q]
      {
        assert Read(l, cell.slot, p)[q] == history[q];
      }
      assert history == History(view, l) + [Written(net, l, hidden, p)];
    }

    /** `forward`: one stacked step. It may raise at any operation; the kernels take one to eight rows. */
    method Forward(tokens: seq<Token>, cells: seq<Place>)
      returns (ok: bool, picks: seq<Token>, ghost trace: seq<seq<Hidden>>)
      requires Shaped() && |tokens| == |cells| && Rows(cells)
      modifies keys, values
      ensures ok ==> 1 <= |cells| <= MAX_ROWS && |picks| == |cells| && |trace| == |cells|
      ensures ok ==> forall i :: 0 <= i < |cells| ==>
                && |trace[i]| == net.layers + 1
                && trace[i][0] == net.embed(tokens[i]) && picks[i] == net.head(trace[i][net.layers])
                && forall l :: 0 <= l < net.layers ==> LayerDone(l, cells[i], trace[i][l], trace[i][l + 1])
      ensures ok ==> forall i :: 0 <= i < |cells| ==>
                && ColumnAt(cells[i]) == NewColumn(net, old(Views(cells))[i], tokens[i])
                && picks[i] == net.head(HiddenAt(net, old(Views(cells))[i], tokens[i], net.layers))
      ensures forall q :: Inside(q) && q !in cells ==> ColumnAt(q) == old(ColumnAt(q))
    {
      hide Read;
      hide View;
      hide Entries;
      hide NewColumn;
      hide Written;
      picks, trace := [], [];
      if !(1 <= |cells| <= MAX_ROWS) {
        return false, picks, trace;
      }
      ghost var views := Views(cells);
      AllPending(cells, views);
      var hidden := seq(|cells|, i requires 0 <= i < |cells| => net.embed(tokens[i]));
      for l := 0 to net.layers
        invariant |hidden| == |cells| && Reached(l, hidden, cells, views, tokens) && Pending(cells, views)
        invariant OnlyCells(l, cells)
      {
        var raises: bool := *;
        if raises {
          return false, picks, trace;
        }
        hidden := PassLayer(l, hidden, cells, views, tokens);
      }
      trace := seq(|cells|, i requires 0 <= i < |cells| => HiddenRow(views[i], tokens[i]));
      forall i | 0 <= i < |cells|
        ensures ColumnAt(cells[i]) == NewColumn(net, views[i], tokens[i])
        ensures forall l :: 0 <= l < net.layers ==> LayerDone(l, cells[i], trace[i][l], trace[i][l + 1])
      {
        ColumnWritten(cells[i], views[i], tokens[i]);
        forall l | 0 <= l < net.layers
          ensures LayerDone(l, cells[i], trace[i][l], trace[i][l + 1])
        {
          LayerKept(l, cells[i], views[i], tokens[i]);
        }
      }
      picks := seq(|cells|, i requires 0 <= i < |cells| => net.head(hidden[i]));
      ok := true;
    }

    /** `steps_group`: `count` stacked steps, each fed the picks of the one before. A row's picks and columns are those
        of a private cache of its own; nothing else in the pool changes. */
    method StepsGroup(places: seq<Place>, tokens: seq<Token>, count: nat) returns (ok: bool, picks: seq<seq<Token>>)
      requires Shaped() && |tokens| == |places| && DistinctSlots(places)
      requires forall i :: 0 <= i < |places| ==> 0 <= places[i].slot < slots && places[i].offset + count <= capacity
      modifies keys, values
      ensures |picks| == |places|
      ensures ok ==> forall i :: 0 <= i < |picks| ==> |picks[i]| == count
      ensures ok ==>
        && Fits(old(Caches()), places, Lengths(picks))
        && Advanced(ModelOf(net, capacity), old(Caches()), Caches(), places, tokens, picks)
      ensures !ok ==> OnlyAhead(old(Caches()), Caches(), places)
      ensures forall q :: Inside(q) && !Touched(q, places, count) ==> ColumnAt(q) == old(ColumnAt(q))
    {
      hide OnlyAhead;
      hide RowAdvanced;
      hide HiddenAt;
      hide NewColumn;
      hide ModelOf;
      ghost var m, c0 := ModelOf(net, capacity), Caches();
      var current := tokens;
      picks := seq(|places|, _ => []);
      OnlyAheadNothing(c0, places);
      forall i | 0 <= i < |places|
        ensures RowAdvanced(m, c0[places[i].slot], c0[places[i].slot], places[i].offset, tokens[i], [])
      {
        RowNotYet(m, c0[places[i].slot], places[i].offset, tokens[i]);
      }
      for k := 0 to count
        invariant |picks| == |current| == |places|
        invariant forall i :: 0 <= i < |places| ==> |picks[i]| == k && current[i] == FedAt(tokens[i], picks[i], k)
        invariant OnlyAhead(c0, Caches(), places)
        invariant Chained(c0, Caches(), places, tokens, picks, k)
        invariant forall q :: Inside(q) && !Touched(q, places, k) ==> ColumnAt(q) == old(ColumnAt(q))
      {
        ghost var before := Caches();
        var next;
        ok, next := ChainStep(c0, places, current, k);
        TouchedGrows(places, k, count);
        if !ok {
          return;
        }
        ChainsOn(c0, before, Caches(), places, tokens, current, picks, next, k);
        picks, current := Longer(picks, next), next;
      }
      ok := true;
    }

    /** `steps`: the chain of one session, which no session elsewhere notices. */
    method Steps(place: Place, token: Token, count: nat) returns (ok: bool, chain: seq<Token>)
      requires Shaped() && 0 <= place.slot < slots && place.offset + count <= capacity
      modifies keys, values
      ensures ok ==>
        && |chain| == count && Fits(old(Caches()), [place], Lengths([chain]))
        && Advanced(ModelOf(net, capacity), old(Caches()), Caches(), [place], [token], [chain])
      ensures !ok ==> OnlyAhead(old(Caches()), Caches(), [place])
      ensures forall q :: Inside(q) && !Touched(q, [place], count) ==> ColumnAt(q) == old(ColumnAt(q))
    {
      hide Advanced;
      hide OnlyAhead;
      hide Fits;
      var chains;
      ok, chains := StepsGroup([place], [token], count);
      chain := chains[0];
      assert chains == [chain];
    }

    /** `step_group`: one stacked step, a chain of length one for every row. */
    method StepGroup(places: seq<Place>, tokens: seq<Token>) returns (ok: bool, picks: seq<Token>)
      requires Shaped() && |tokens| == |places| && DistinctSlots(places)
      requires forall i :: 0 <= i < |places| ==> 0 <= places[i].slot < slots && places[i].offset < capacity
      modifies keys, values
      ensures ok ==>
        && |picks| == |places| && Fits(old(Caches()), places, Lengths(Singles(picks)))
        && Advanced(ModelOf(net, capacity), old(Caches()), Caches(), places, tokens, Singles(picks))
      ensures !ok ==> OnlyAhead(old(Caches()), Caches(), places)
      ensures forall q :: Inside(q) && q !in places ==> ColumnAt(q) == old(ColumnAt(q))
    {
      hide Advanced;
      hide OnlyAhead;
      hide Fits;
      var chains;
      ok, chains := StepsGroup(places, tokens, 1);
      picks := [];
      if ok {
        picks := seq(|chains|, i requires 0 <= i < |chains| => chains[i][0]);
        forall i | 0 <= i < |chains|
          ensures Singles(picks)[i] == chains[i]
        {
          assert |chains[i]| == 1;
        }
        assert Singles(picks) == chains;
      }
      TouchedOnce(places);
    }

    lemma TouchedOnce(places: seq<Place>)
      ensures forall q :: Touched(q, places, 1) ==> q in places
    {
    }

    /** `step`: a stacked step of one row. */
    method Step(place: Place, token: Token) returns (ok: bool, pick: Token)
      requires Shaped() && 0 <= place.slot < slots && place.offset < capacity
      modifies keys, values
      ensures ok ==>
        && Fits(old(Caches()), [place], Lengths([[pick]]))
        && Advanced(ModelOf(net, capacity), old(Caches()), Caches(), [place], [token], [[pick]])
      ensures !ok ==> OnlyAhead(old(Caches()), Caches(), [place])
      ensures forall q :: Inside(q) && q != place ==> ColumnAt(q) == old(ColumnAt(q))
    {
      hide Advanced;
      hide OnlyAhead;
      hide Fits;
      var picks;
      ok, picks := StepGroup([place], [token]);
      pick := if ok then picks[0] else token;
      if ok {
        assert picks == [pick];
        assert Singles([pick])[0] == [pick];
        assert Singles(picks) == [[pick]];
      }
    }

    /** Every row of `caches` stands `k` steps into the chain it started from `first`. */
    ghost predicate Chained(first: Caches, caches: Caches, places: seq<Place>, tokens: seq<Token>,
                            picks: seq<seq<Token>>, k: nat)
      requires |tokens| == |places| == |picks|
    {
      forall i :: 0 <= i < |places| ==>
        && places[i].slot in first && places[i].slot in caches
        && |picks[i]| == k && |first[places[i].slot]| == |caches[places[i].slot]| == capacity
        && places[i].offset + k <= capacity
        && RowAdvanced(ModelOf(net, capacity), first[places[i].slot], caches[places[i].slot], places[i].offset,
          tokens[i],
                       picks[i])
    }

    /** What one stacked step did to the caches: one new column per row, from that row's own columns and token. */
    ghost predicate Stepped(before: Caches, after: Caches, cells: seq<Place>, tokens: seq<Token>, picks: seq<Token>)
      requires |tokens| == |cells| == |picks|
    {
      forall i :: 0 <= i < |cells| ==>
        && cells[i].slot in before && cells[i].slot in after
        && cells[i].offset < |before[cells[i].slot]| == |after[cells[i].slot]| == capacity
        && (forall p :: 0 <= p < capacity && p != cells[i].offset ==>
          after[cells[i].slot][p] == before[cells[i].slot][p])
        && after[cells[i].slot][cells[i].offset] == NewColumn(net, before[cells[i].slot][..cells[i].offset], tokens[i])
        && picks[i] == net.head(HiddenAt(net, before[cells[i].slot][..cells[i].offset], tokens[i], net.layers))
    }

    /** Step `k` of a chain of stacked steps. */
    method ChainStep(ghost first: Caches, places: seq<Place>, current: seq<Token>, k: nat)
      returns (ok: bool, next: seq<Token>)
      requires Shaped() && |places| == |current| && DistinctSlots(places)
      requires forall i :: 0 <= i < |places| ==> 0 <= places[i].slot < slots && places[i].offset + k < capacity
      requires OnlyAhead(first, Caches(), places)
      modifies keys, values
      ensures OnlyAhead(first, Caches(), places)
      ensures ok ==> |next| == |places| && Stepped(old(Caches()), Caches(), Ahead(places, k), current, next)
      ensures forall q :: Inside(q) && q !in Ahead(places, k) ==> ColumnAt(q) == old(ColumnAt(q))
    {
      hide OnlyAhead;
      hide Pool.Stepped;
      hide Pool.ColumnAt;
      var cells := Ahead(places, k);
      ghost var before := Caches();
      ok, next := ForwardCaches(current, cells);
      CellsAhead(first, before, Caches(), places, cells);
    }

    /** A stacked step as the caches see it. */
    method ForwardCaches(tokens: seq<Token>, cells: seq<Place>) returns (ok: bool, picks: seq<Token>)
      requires Shaped() && |tokens| == |cells| && Rows(cells)
      modifies keys, values
      ensures ok ==> |picks| == |cells| && Stepped(old(Caches()), Caches(), cells, tokens, picks)
      ensures forall q :: Inside(q) && q !in cells ==> ColumnAt(q) == old(ColumnAt(q))
      ensures forall s, p :: 0 <= s < slots && 0 <= p < capacity && Place(s, p) !in cells ==>
                Caches()[s][p] == old(Caches())[s][p]
    {
      hide HiddenAt;
      hide NewColumn;
      ghost var trace;
      ok, picks, trace := Forward(tokens, cells);
      forall i, p | 0 <= i < |cells| && 0 <= p < capacity && p != cells[i].offset
        ensures Place(cells[i].slot, p) !in cells
      {
      }
    }

    /** A cell that `k` steps from these places write. */
    ghost predicate Touched(q: Place, places: seq<Place>, k: nat) {
      exists i :: 0 <= i < |places| && places[i].slot == q.slot && places[i].offset <= q.offset < places[i].offset + k
    }

    lemma TouchedGrows(places: seq<Place>, k: nat, count: nat)
      requires k < count
      ensures forall q :: Touched(q, places, k) || q in Ahead(places, k) ==> Touched(q, places, k + 1)
      ensures forall q :: Touched(q, places, k + 1) ==> Touched(q, places, count)
    {
      forall q | q in Ahead(places, k)
        ensures Touched(q, places, k + 1)
      {
        var i :| 0 <= i < |places| && Ahead(places, k)[i] == q;
      }
    }

    /** The places `k` positions further. */
    function Ahead(places: seq<Place>, k: nat): (cells: seq<Place>)
      ensures |cells| == |places|
      ensures forall i :: 0 <= i < |places| ==> cells[i] == Place(places[i].slot, places[i].offset + k)
    {
      seq(|places|, i requires 0 <= i < |places| => Place(places[i].slot, places[i].offset + k))
    }

    lemma ChainsOn(first: Caches, before: Caches, after: Caches, places: seq<Place>, tokens: seq<Token>,
                   current: seq<Token>, picks: seq<seq<Token>>, next: seq<Token>, k: nat)
      requires |tokens| == |places| == |picks| == |current| == |next|
      requires Chained(first, before, places, tokens, picks, k)
      requires forall i :: 0 <= i < |places| ==>
               places[i].offset + k < capacity && current[i] == FedAt(tokens[i], picks[i], k)
      requires Stepped(before, after, Ahead(places, k), current, next)
      ensures Chained(first, after, places, tokens, Longer(picks, next), k + 1)
    {
      hide RowAdvanced;
      hide HiddenAt;
      hide NewColumn;
      hide ModelOf;
      forall i | 0 <= i < |places|
        ensures RowAdvanced(ModelOf(net, capacity), first[places[i].slot], after[places[i].slot], places[i].offset,
                            tokens[i], picks[i] + [next[i]])
      {
        OneMoreStep(first[places[i].slot], before[places[i].slot], after[places[i].slot], places[i].offset, tokens[i],
                    picks[i], next[i]);
      }
    }

    function Longer(picks: seq<seq<Token>>, next: seq<Token>): (longer: seq<seq<Token>>)
      requires |picks| == |next|
      ensures |longer| == |picks|
      ensures forall i :: 0 <= i < |picks| ==> longer[i] == picks[i] + [next[i]]
    {
      seq(|picks|, i requires 0 <= i < |picks| => picks[i] + [next[i]])
    }

    /** A step extends a row's chain by the pick it made. */
    lemma OneMoreStep(first: seq<Column>, row: seq<Column>, after: seq<Column>, offset: nat, token: Token,
                      picks: seq<Token>, next: Token)
      requires |first| == |row| == |after| == capacity && offset + |picks| < capacity
      requires RowAdvanced(ModelOf(net, capacity), first, row, offset, token, picks)
      requires forall p :: 0 <= p < capacity && p != offset + |picks| ==> after[p] == row[p]
      requires after[offset + |picks|] == NewColumn(net, row[..offset + |picks|], FedAt(token, picks, |picks|))
      requires next == net.head(HiddenAt(net, row[..offset + |picks|], FedAt(token, picks, |picks|), net.layers))
      ensures RowAdvanced(ModelOf(net, capacity), first, after, offset, token, picks + [next])
    {
      hide HiddenAt;
      hide NewColumn;
      hide ChainPicks;
      hide FedAt;
      hide Feed;
      var n := offset + |picks|;
      ChainExtends(ModelOf(net, capacity), capacity, first[..offset], token, picks, next);
      assert after[..n] == row[..n];
      assert after[..n + 1] == row[..n] + [after[n]];
    }

    /** `write_prefill`: a prompt's columns into the first positions of a slot, or a refusal when they do not fit. */
    method WritePrefill(slot: int, columns: seq<Column>) returns (ok: bool)
      requires Shaped() && 0 <= slot < slots
      requires forall p :: 0 <= p < |columns| ==> ShapedColumn(columns[p])
      modifies keys, values
      ensures ok ==> |columns| <= capacity && forall p :: 0 <= p < |columns| ==> ColumnAt(Place(slot, p)) == columns[p]
      ensures forall q :: Inside(q) && (q.slot != slot || q.offset >= |columns|) ==> ColumnAt(q) == old(ColumnAt(q))
      ensures |columns| > capacity ==> !ok
    {
      if |columns| > capacity {
        return false;
      }
      var cells := seq(|columns|, p requires 0 <= p < |columns| => Place(slot, p));
      for l := 0 to net.layers
        invariant forall k, p :: 0 <= k < l && 0 <= p < |columns| ==> Entries(k, cells[p]) == columns[p].layers[k]
        invariant forall k, q :: 0 <= k < net.layers && Inside(q) && (q.slot != slot || q.offset >= |columns|) ==>
                    Entries(k, q) == old(Entries(k, q))
      {
        var raises: bool := *;
        if raises {
          return false;
        }
        Scatter(l, cells, seq(|columns|, p requires 0 <= p < |columns| => columns[p].layers[l]));
      }
      forall p | 0 <= p < |columns|
        ensures ColumnAt(Place(slot, p)) == columns[p]
      {
        assert cells[p] == Place(slot, p);
        assert ColumnAt(cells[p]).layers == columns[p].layers;
      }
      ok := true;
    }

    predicate ShapedColumn(column: Column) {
      |column.layers| == net.layers && forall l :: 0 <= l < net.layers ==> |column.layers[l]| == net.heads
    }

    lemma {:induction false} PromptCacheShaped(prompt: seq<Token>)
      ensures forall p :: 0 <= p < |prompt| ==> ShapedColumn(PromptCache(net, prompt)[p])
      decreases |prompt|
    {
      if prompt != [] {
        PromptCacheShaped(prompt[..LastChunk(prompt)]);
      }
    }

    lemma EmptyPrompt()
      ensures PromptCache(net, []) == []
    {
    }

    /** The column of position `p` is what the network makes of it from the whole chunk that it is in, on top of the
        columns of the chunks before. */
    ghost predicate FromChunk(prompt: seq<Token>, columns: seq<Column>, p: nat)
      requires |columns| == |prompt| && p < |prompt|
    {
      var start := p / PREFILL_CHUNK * PREFILL_CHUNK;
      FromRange(prompt, columns, p, start, if start + PREFILL_CHUNK < |prompt| then start + PREFILL_CHUNK else |prompt|)
    }

    ghost predicate FromRange(prompt: seq<Token>, columns: seq<Column>, p: nat, start: nat, stop: nat)
      requires start <= p < stop <= |prompt| == |columns|
    {
      && ShapedColumn(columns[p])
      && forall l, h :: 0 <= l < net.layers && 0 <= h < net.heads ==>
           columns[p].layers[l][h] == net.chunkEntry(columns[..start], prompt[start..stop], p - start, l, h)
    }

    lemma {:induction false} FromChunks(prompt: seq<Token>)
      requires prompt != []
      ensures forall p :: 0 <= p < |prompt| ==> FromChunk(prompt, PromptCache(net, prompt), p)
      decreases |prompt|
    {
      hide PromptCache;
      hide Pool.FromRange;
      hide Pool.FromChunk;
      var columns, start := PromptCache(net, prompt), LastChunk(prompt);
      LastChunkAdded(prompt, start);
      if start > 0 {
        FromChunks(prompt[..start]);
      }
      forall p | 0 <= p < |prompt|
        ensures FromChunk(prompt, columns, p)
      {
        if p < start {
          FromChunkStill(prompt, columns, p, start);
        } else {
          FromLastChunk(prompt, columns, p, start);
        }
      }
    }

    /** What the last chunk adds. */
    lemma LastChunkAdded(prompt: seq<Token>, start: nat)
      requires prompt != [] && start == LastChunk(prompt)
      ensures var columns := PromptCache(net, prompt);
        && columns[..start] == PromptCache(net, prompt[..start])
        && forall p :: start <= p < |prompt| ==> FromRange(prompt, columns, p, start, |prompt|)
    {
      assert PromptCache(net, prompt) == ChunkAdded(net, PromptCache(net, prompt[..start]), prompt[start..]);
      ChunkFromRange(prompt, PromptCache(net, prompt[..start]), start);
      hide PromptCache;
      hide ChunkAdded;
      hide Pool.FromRange;
      hide LastChunk;
    }

    lemma ChunkFromRange(prompt: seq<Token>, before: seq<Column>, start: nat)
      requires start < |prompt| && |before| == start
      ensures var columns := ChunkAdded(net, before, prompt[start..]);
        && columns[..start] == before && |columns| == |prompt|
        && forall p :: start <= p < |prompt| ==> FromRange(prompt, columns, p, start, |prompt|)
    {
      var columns := ChunkAdded(net, before, prompt[start..]);
      assert columns[..start] == before && prompt[start..|prompt|] == prompt[start..];
      forall p | start <= p < |prompt|
        ensures FromRange(prompt, columns, p, start, |prompt|)
      {
        assert columns[p] == ChunkColumn(net, before, prompt[start..], p - start);
      }
    }

    lemma FromLastChunk(prompt: seq<Token>, columns: seq<Column>, p: nat, start: nat)
      requires start <= p < |prompt| == |columns| && start == (|prompt| - 1) / PREFILL_CHUNK * PREFILL_CHUNK
      requires FromRange(prompt, columns, p, start, |prompt|)
      ensures FromChunk(prompt, columns, p)
    {
      hide Pool.FromRange;
      assert p / PREFILL_CHUNK * PREFILL_CHUNK == start;
    }

    lemma FromChunkStill(prompt: seq<Token>, columns: seq<Column>, p: nat, start: nat)
      requires p < start < |prompt| == |columns| && start % PREFILL_CHUNK == 0
      requires FromChunk(prompt[..start], columns[..start], p)
      ensures FromChunk(prompt, columns, p)
    {
      var from := p / PREFILL_CHUNK * PREFILL_CHUNK;
      ChunkBefore(p, start);
      RangeStill(prompt, columns, p, start, from, from + PREFILL_CHUNK);
      hide Pool.FromRange;
    }

    lemma RangeStill(prompt: seq<Token>, columns: seq<Column>, p: nat, n: nat, start: nat, stop: nat)
      requires start <= p < stop <= n <= |prompt| == |columns|
      ensures FromRange(prompt[..n], columns[..n], p, start, stop) ==> FromRange(prompt, columns, p, start, stop)
    {
      assert prompt[..n][start..stop] == prompt[start..stop];
      assert columns[..n][..start] == columns[..start];
    }

    /** A chunk before the last one is whole. */
    lemma ChunkBefore(p: nat, start: nat)
      requires p < start && start % PREFILL_CHUNK == 0
      ensures p / PREFILL_CHUNK * PREFILL_CHUNK + PREFILL_CHUNK <= start
    {
    }

    lemma LastPick(prompt: seq<Token>, start: nat)
      requires prompt != [] && start == LastChunk(prompt)
      ensures FirstPick(net, prompt) == net.head(net.chunkLast(PromptCache(net, prompt)[..start], prompt[start..]))
    {
      LastChunkAdded(prompt, start);
    }

    /** The prefill's trunk: chunks of 2,048 positions, each on the columns of the chunks before it. An empty prompt
        has no last position and raises. */
    method Trunk(prompt: seq<Token>) returns (ok: bool, columns: seq<Column>, first: Token)
      ensures ok ==> prompt != [] && columns == PromptCache(net, prompt) && first == FirstPick(net, prompt)
      ensures ok ==>
        && |columns| == |prompt| && (forall p :: 0 <= p < |prompt| ==> FromChunk(prompt, columns, p))
        && var start := (|prompt| - 1) / PREFILL_CHUNK * PREFILL_CHUNK;
           first == net.head(net.chunkLast(columns[..start], prompt[start..]))
    {
      hide PromptCache;
      hide FirstPick;
      hide ChunkAdded;
      hide Pool.FromChunk;
      columns, first := [], 0;
      EmptyPrompt();
      assert prompt[..0] == [];
      var start := 0;
      while start < |prompt|
        invariant start % PREFILL_CHUNK == 0
        invariant start < |prompt| ==> columns == PromptCache(net, prompt[..start])
        invariant start >= |prompt| ==>
                  columns == PromptCache(net, prompt) && (prompt != [] ==> first == FirstPick(net, prompt))
      {
        var raises: bool := *;
        if raises {
          return false, columns, first;
        }
        var stop := if start + PREFILL_CHUNK < |prompt| then start + PREFILL_CHUNK else |prompt|;
        ChunkStep(prompt, start, stop);
        first := net.head(net.chunkLast(columns, prompt[start..stop]));
        columns := ChunkAdded(net, columns, prompt[start..stop]);
        assert prompt[..|prompt|] == prompt;
        start := start + PREFILL_CHUNK;
      }
      ok := prompt != [];
      if ok {
        FromChunks(prompt);
        LastPick(prompt, LastChunk(prompt));
      }
    }

    /** The chunk that starts at a multiple of 2,048 is the last one of the prompt it completes. */
    lemma ChunkStep(prompt: seq<Token>, start: nat, stop: nat)
      requires start % PREFILL_CHUNK == 0 && start < stop <= start + PREFILL_CHUNK && stop <= |prompt|
      ensures PromptCache(net, prompt[..stop])
              == ChunkAdded(net, PromptCache(net, prompt[..start]), prompt[start..stop])
      ensures FirstPick(net, prompt[..stop])
           == net.head(net.chunkLast(PromptCache(net, prompt[..start]), prompt[start..stop]))
    {
      var sofar := prompt[..stop];
      assert LastChunk(sofar) == start;
      assert sofar[..start] == prompt[..start] && sofar[start..] == prompt[start..stop];
    }

    lemma IsPrefilled(before: Caches, after: Caches, held: set<int>, prompt: seq<Token>, place: Place)
      requires place.slot !in held && place.offset == |prompt| <= capacity
      requires place.slot in after && after.Keys == before.Keys
      requires forall s :: s in after ==> |after[s]| == capacity
      requires forall s :: s in before && s != place.slot ==> after[s] == before[s]
      requires forall p :: 0 <= p < |prompt| ==> after[place.slot][p] == PromptCache(net, prompt)[p]
      ensures Prefilled(ModelOf(net, capacity), before, after, held, prompt, capacity, place, FirstPick(net, prompt))
    {
      hide PromptCache;
      hide FirstPick;
      assert PromptColumns(ModelOf(net, capacity), capacity, prompt) == PromptCache(net, prompt) by {
        PromptCacheIsColumns(net, capacity, prompt);
      }
      assert after[place.slot][..|prompt|] == PromptCache(net, prompt);
    }

    /** `prefill`: takes the lowest free slot. A prefill that raises gives its slot back, and the free list is exactly
        what it was. */
    method Prefill(prompt: seq<Token>, oneShot: bool) returns (ok: bool, place: Place, first: Token)
      requires Shaped() && SlotsSound()
      modifies this`free, keys, values
      ensures SlotsSound()
      ensures ok ==> Prefilled(ModelOf(net, capacity), old(Caches()), Caches(), old(Held()), prompt, capacity, place,
              first)
      ensures ok ==> oneShot && Held() == old(Held()) + {place.slot}
      ensures ok ==> place.slot in old(free) && forall s :: s in old(free) ==> place.slot <= s
      ensures !ok ==> HeldUntouched(old(Caches()), Caches(), old(Held())) && free == old(free)
      ensures forall q :: Inside(q) && (q.slot in old(Held()) || q.offset >= |prompt|) ==>
              ColumnAt(q) == old(ColumnAt(q))
      ensures !oneShot || old(free) == [] || |prompt| > capacity || prompt == [] ==> !ok
    {
      hide Pool.ColumnAt;
      hide PromptCache;
      hide FirstPick;
      hide ModelOf;
      hide Prefilled;
      hide Sorted;
      ghost var before, c0 := free, Caches();
      place, first := Place(0, 0), 0;
      if !oneShot || free == [] {
        return false, place, first;
      }
      var slot := free[0];
      free := free[1..];
      TakenSlot(before);
      var columns;
      ok, columns, first := Trunk(prompt);
      if ok {
        PromptCacheShaped(prompt);
        ok := WritePrefill(slot, columns);
      }
      if !ok {
        Release(Some(slot));
        SameSlots(free, before);
        return;
      }
      place := Place(slot, |prompt|);
      IsPrefilled(c0, Caches(), old(Held()), prompt, place);
    }

    /** `release`: the slot goes back to its sorted place; one that is free already or not the pool's changes
        nothing. */
    method Release(slot: Option<int>)
      requires SlotsSound()
      modifies this`free
      ensures SlotsSound()
      ensures forall s :: s in free <==> s in old(free) || (slot == Some(s) && 0 <= s < slots)
      ensures Held() == old(Held()) - (if slot.Some? then {slot.value} else {})
      ensures slot == None || slot.value !in old(Held()) ==> free == old(free)
    {
      if slot.Some? && slot.value !in free && 0 <= slot.value < slots {
        free := free + [slot.value];
        SortedSlots(free);
        free := Ascending(free);
        assert forall i :: 0 <= i < |free| ==> free[i] in free;
      }
    }

    /** `capacity_for`: every request gets a whole slot, or a refusal when the longest of them does not fit. */
    method CapacityFor(lengths: seq<nat>, limit: int) returns (ok: bool, granted: nat)
      ensures ok <==> lengths != [] && forall i :: 0 <= i < |lengths| ==> lengths[i] + limit <= capacity
      ensures ok ==> granted == capacity
      ensures ok ==> forall i :: 0 <= i < |lengths| ==> granted == ModelOf(net, capacity).capacity(lengths[i], limit)
    {
      granted := capacity;
      if lengths == [] {
        return false, granted;
      }
      var longest := lengths[0];
      for i := 1 to |lengths|
        invariant forall j :: 0 <= j < i ==> lengths[j] <= longest
        invariant exists j :: 0 <= j < i && lengths[j] == longest
      {
        if lengths[i] > longest {
          longest := lengths[i];
        }
      }
      ok := longest + limit <= capacity;
    }
  }

  lemma OnlyAheadNothing(caches: Caches, places: seq<Place>)
    ensures OnlyAhead(caches, caches, places)
  {
  }

  lemma RowNotYet(m: Model, row: seq<Column>, offset: nat, token: Token)
    requires offset <= |row|
    ensures RowAdvanced(m, row, row, offset, token, [])
  {
  }

  /** Cells at or beyond the places' offsets are ahead of them. */
  lemma CellsAhead(a: Caches, b: Caches, c: Caches, places: seq<Place>, cells: seq<Place>)
    requires OnlyAhead(a, b, places) && c.Keys == b.Keys && DistinctSlots(places)
    requires |cells| == |places|
    requires forall i :: 0 <= i < |cells| ==> cells[i].slot == places[i].slot && cells[i].offset >= places[i].offset
    requires forall s :: s in b ==> |c[s]| == |b[s]|
    requires forall s, p :: s in b && 0 <= p < |b[s]| && Place(s, p) !in cells ==> c[s][p] == b[s][p]
    ensures OnlyAhead(a, c, places)
  {
    forall s | s in a && (forall i :: 0 <= i < |places| ==> places[i].slot != s)
      ensures c[s] == a[s]
    {
      assert forall p :: Place(s, p) !in cells;
    }
    forall i | 0 <= i < |places| && places[i].slot in a && places[i].offset <= |a[places[i].slot]|
      ensures c[places[i].slot][..places[i].offset] == a[places[i].slot][..places[i].offset]
    {
      var s, n := places[i].slot, places[i].offset;
      forall p | 0 <= p < n
        ensures Place(s, p) !in cells
      {
        NotACell(places, cells, i, p);
      }
      assert c[s][..n] == b[s][..n];
    }
  }

  lemma NotACell(places: seq<Place>, cells: seq<Place>, i: nat, p: nat)
    requires DistinctSlots(places) && |cells| == |places| && i < |places| && p < places[i].offset
    requires forall j :: 0 <= j < |cells| ==> cells[j].slot == places[j].slot && cells[j].offset >= places[j].offset
    ensures Place(places[i].slot, p) !in cells
  {
    forall j | 0 <= j < |cells|
      ensures cells[j] != Place(places[i].slot, p)
    {
      assert j == i || places[j].slot != places[i].slot;
    }
  }

  function Inserted(s: seq<int>, x: int): (r: seq<int>) {
    if s == [] || x <= s[0] then [x] + s else [s[0]] + Inserted(s[1..], x)
  }

  /** The list in ascending order. */
  function Ascending(s: seq<int>): (r: seq<int>) {
    if s == [] then [] else Inserted(Ascending(s[1..]), s[0])
  }

  lemma {:induction false} InsertedSlots(s: seq<int>, x: int)
    requires Sorted(s) && x !in s
    ensures Sorted(Inserted(s, x)) && forall y :: y in Inserted(s, x) <==> y in s || y == x
  {
    if s != [] && x > s[0] {
      TakenSlot(s);
      InsertedSlots(s[1..], x);
      var r := Inserted(s[1..], x);
      forall i | 0 <= i < |r|
        ensures s[0] < r[i]
      {
        assert r[i] in r;
      }
    }
  }

  lemma {:induction false} SortedSlots(s: seq<int>)
    requires forall i, j :: 0 <= i < j < |s| ==> s[i] != s[j]
    ensures Sorted(Ascending(s)) && forall y :: y in Ascending(s) <==> y in s
  {
    if s != [] {
      SortedSlots(s[1..]);
      InsertedSlots(Ascending(s[1..]), s[0]);
    }
  }

  /** There is one sorted list of a set of slots. */
  lemma {:induction false} SameSlots(a: seq<int>, b: seq<int>)
    requires Sorted(a) && Sorted(b) && forall y :: y in a <==> y in b
    ensures a == b
  {
    assert a != [] ==> a[0] in a;
    assert b != [] ==> b[0] in b;
    if a != [] && b != [] {
      TakenSlot(a);
      TakenSlot(b);
      forall y
        ensures y in a[1..] <==> y in b[1..]
      {
      }
      SameSlots(a[1..], b[1..]);
    }
  }

  lemma TakenSlot(s: seq<int>)
    requires Sorted(s) && s != []
    ensures Sorted(s[1..]) && s[0] !in s[1..]
    ensures forall y :: y in s <==> y == s[0] || y in s[1..]
    ensures forall y :: y in s ==> s[0] <= y
  {
  }
}
