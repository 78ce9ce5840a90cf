/** The hash-chained event journal. The digest is an injective function; rows are what the database holds, by sequence
    number; `valid` stands for the checks of a row's own fields. */
module Journal {

  type Digest(!new, ==)

  type Payload(!new, ==, 0)

  datatype Option<+T> = None | Some(value: T)

  datatype Body = Body(number: int, recorded: int, run: int, kind: int, payload: Payload, previous: Digest)

  datatype Row = Row(body: Body, digest: Digest)

  /** What a journal is bound to. */
  datatype Scheme = Scheme(digest: Body -> Digest, zero: Digest, valid: Body -> bool)

  ghost predicate Injective(digest: Body -> Digest) {
    forall a, b :: digest(a) == digest(b) ==> a == b
  }

  /** The digest that the next row has to name. */
  function Head(s: Scheme, rows: seq<Row>): Digest {
    if rows == [] then s.zero else rows[|rows| - 1].digest
  }

  predicate Links(s: Scheme, before: seq<Row>, row: Row) {
    && s.valid(row.body) && row.digest == s.digest(row.body)
    && row.body.number == |before| + 1 && row.body.previous == Head(s, before)
  }

  /** Every row is valid, digested, numbered in order and linked to the one before. */
  ghost predicate Verified(s: Scheme, rows: seq<Row>) {
    forall i :: 0 <= i < |rows| ==> Links(s, rows[..i], rows[i])
  }

  lemma VerifiedPrefix(s: Scheme, rows: seq<Row>, n: nat)
    requires Verified(s, rows) && n <= |rows|
    ensures Verified(s, rows[..n])
  {
    forall i | 0 <= i < n
      ensures Links(s, rows[..n][..i], rows[..n][i])
    {
      assert rows[..n][..i] == rows[..i];
      assert Links(s, rows[..i], rows[i]);
    }
  }

  lemma VerifiedExtends(s: Scheme, rows: seq<Row>, row: Row)
    requires Verified(s, rows) && Links(s, rows, row)
    ensures Verified(s, rows + [row])
  {
    forall i | 0 <= i < |rows| + 1
      ensures Links(s, (rows + [row])[..i], (rows + [row])[i])
    {
      if i < |rows| {
        assert (rows + [row])[..i] == rows[..i];
        assert Links(s, rows[..i], rows[i]);
      } else {
        assert (rows + [row])[..i] == rows;
      }
    }
  }

  /** One digest pins down a whole journal: two verified journals with the same head digest are the same journal. */
  lemma {:induction false} SameHeadSameJournal(s: Scheme, a: seq<Row>, b: seq<Row>)
    requires Injective(s.digest) && Verified(s, a) && Verified(s, b) && a != [] && b != []
    requires Head(s, a) == Head(s, b)
    ensures a == b
    decreases |a|
  {
    var m, n := |a| - 1, |b| - 1;
    assert Links(s, a[..m], a[m]) && Links(s, b[..n], b[n]);
    assert a[m].body == b[n].body;
    assert m == n && a[m] == b[n];
    if m > 0 {
      VerifiedPrefix(s, a, m);
      VerifiedPrefix(s, b, n);
      SameHeadSameJournal(s, a[..m], b[..n]);
    }
    assert a == a[..m] + [a[m]] && b == b[..n] + [b[n]];
  }

  /** Whoever kept a digest of a prefix can tell: a verified journal that has that digest anywhere begins with that
      prefix. */
  lemma KeptDigest(s: Scheme, kept: seq<Row>, now: seq<Row>, k: nat)
    requires Injective(s.digest) && Verified(s, kept) && Verified(s, now) && kept != [] && k < |now|
    requires now[k].digest == Head(s, kept)
    ensures kept == now[..k + 1]
  {
    VerifiedPrefix(s, now, k + 1);
    SameHeadSameJournal(s, kept, now[..k + 1]);
  }

  predicate Wanted(row: Row, run: Option<int>, after: int) {
    row.body.number > after && (run.Some? ==> row.body.run == run.value)
  }

  /** The rows a reader wants, in order. */
  function Matching(rows: seq<Row>, run: Option<int>, after: int): (found: seq<Row>) {
    if rows == [] then []
    else
      var n := |rows| - 1;
      Matching(rows[..n], run, after) + if Wanted(rows[n], run, after) then [rows[n]] else []
  }

  /** Exactly the rows after `after`, of the run that is asked for or of any, are wanted, each as often as it is
      there. */
  lemma {:induction false} MatchingFilters(rows: seq<Row>, run: Option<int>, after: int, row: Row)
    ensures multiset(Matching(rows, run, after))[row]
         == if row.body.number > after && (run == None || run == Some(row.body.run)) then multiset(rows)[row] else 0
  {
    if rows != [] {
      var n := |rows| - 1;
      MatchingFilters(rows[..n], run, after, row);
      assert rows == rows[..n] + [rows[n]];
    }
  }

  /** In a verified journal they come by number, lowest first. */
  lemma {:induction false} MatchingInOrder(s: Scheme, rows: seq<Row>, run: Option<int>, after: int)
    requires Verified(s, rows)
    ensures var found := Matching(rows, run, after);
      forall i, j :: 0 <= i < j < |found| ==> found[i].body.number < found[j].body.number
  {
    if rows != [] {
      var n := |rows| - 1;
      var before, found := Matching(rows[..n], run, after), Matching(rows, run, after);
      VerifiedPrefix(s, rows, n);
      assert Links(s, rows[..n], rows[n]);
      MatchingInOrder(s, rows[..n], run, after);
      forall i, j | 0 <= i < j < |found|
        ensures found[i].body.number < found[j].body.number
      {
        MemberNumber(s, rows[..n], run, after, i);
        assert found[i] == before[i];
        if j < |before| {
          assert found[j] == before[j];
        }
      }
    }
  }

  lemma {:induction false} NoneMatching(rows: seq<Row>, run: Option<int>, after: int)
    requires forall i :: 0 <= i < |rows| ==> rows[i].body.number <= after
    ensures Matching(rows, run, after) == []
  {
    if rows != [] {
      NoneMatching(rows[..|rows| - 1], run, after);
    }
  }

  /** A page's last row splits what is wanted into the page and what is wanted after that row. */
  lemma {:induction false} PageSplits(s: Scheme, rows: seq<Row>, run: Option<int>, after: int, n: nat)
    requires Verified(s, rows) && 0 < n <= |Matching(rows, run, after)|
    ensures var found := Matching(rows, run, after); var later := found[n - 1].body.number;
      later > after && found == found[..n] + Matching(rows, run, later)
    decreases |rows|
  {
    var m := |rows| - 1;
    var found := Matching(rows, run, after);
    VerifiedPrefix(s, rows, m);
    assert Links(s, rows[..m], rows[m]);
    if n <= |Matching(rows[..m], run, after)| {
      PageSplits(s, rows[..m], run, after, n);
      MemberNumber(s, rows[..m], run, after, n - 1);
      assert found[..n] == Matching(rows[..m], run, after)[..n];
    } else {
      forall i | 0 <= i < |rows|
        ensures rows[i].body.number <= rows[m].body.number
      {
        assert Links(s, rows[..i], rows[i]);
      }
      NoneMatching(rows, run, rows[m].body.number);
      assert found[..n] == found;
    }
  }

  lemma {:induction false} MemberNumber(s: Scheme, rows: seq<Row>, run: Option<int>, after: int, i: nat)
    requires Verified(s, rows) && i < |Matching(rows, run, after)|
    ensures after < Matching(rows, run, after)[i].body.number <= |rows|
    decreases |rows|
  {
    var m := |rows| - 1;
    VerifiedPrefix(s, rows, m);
    assert Links(s, rows[..m], rows[m]);
    if i < |Matching(rows[..m], run, after)| {
      MemberNumber(s, rows[..m], run, after, i);
    }
  }

  /** The journal. A read-only one never appends; `size` and `maxSize` bound the database file, and `refuses` tells
      after which rows the database fails to take another. */
  class EventJournal {
    const scheme: Scheme
    const readOnly: bool
    const size: seq<Row> -> nat
    const maxSize: nat
    const refuses: seq<Row> -> bool
    var rows: seq<Row>

    constructor (scheme: Scheme, readOnly: bool, size: seq<Row> -> nat, maxSize: nat, refuses: seq<Row> -> bool)
      ensures rows == [] && this.scheme == scheme && this.readOnly == readOnly
      ensures this.size == size && this.maxSize == maxSize && this.refuses == refuses
    {
      this.scheme, this.readOnly, this.size, this.maxSize, this.refuses := scheme, readOnly, size, maxSize, refuses;
      rows := [];
    }

    /** `_verify_chain`: walks the rows with the digest and the number it expects next; it accepts exactly the verified
        journals, whatever the database held. */
    method VerifyChain() returns (ok: bool, count: nat)
      ensures ok <==> Verified(scheme, rows)
      ensures ok ==> count == |rows|
    {
      var previous, expected := scheme.zero, 1;
      count := 0;
      for i := 0 to |rows|
        invariant count == i && expected == i + 1 && previous == Head(scheme, rows[..i])
        invariant forall j :: 0 <= j < i ==> Links(scheme, rows[..j], rows[j])
      {
        var row := rows[i];
        ok := scheme.valid(row.body) && row.digest == scheme.digest(row.body);
        ok := ok && row.body.number == expected && row.body.previous == previous;
        if !ok {
          assert !Links(scheme, rows[..i], row);
          return;
        }
        assert rows[..i + 1][i] == row;
        previous, expected, count := row.digest, expected + 1, count + 1;
      }
      ok := true;
    }

    /** The row that an append would add. */
    function Next(recorded: int, run: int, kind: int, payload: Payload): (row: Row)
      reads this`rows
    {
      var body := Body(|rows| + 1, recorded, run, kind, payload, Head(scheme, rows));
      Row(body, scheme.digest(body))
    }

    /** `append`: a corrupted chain is never extended, and the database may refuse the row. The file's size is checked
        after the commit, so an append may raise although its row was added: exactly when the file then is too large. */
    method Append(recorded: int, run: int, kind: int, payload: Payload) returns (result: Option<Row>)
      modifies this
      ensures old(Verified(scheme, rows)) ==> Verified(scheme, rows)
      ensures var row := old(Next(recorded, run, kind, payload));
        && rows == (if !readOnly && scheme.valid(row.body) && old(Verified(scheme, rows)) && !refuses(old(rows))
                    then old(rows) + [row] else old(rows))
        && result == if rows == old(rows) || size(rows) > maxSize then None else Some(row)
    {
      if readOnly {
        return None;
      }
      var body := Body(|rows| + 1, recorded, run, kind, payload, Head(scheme, rows));
      if !scheme.valid(body) {
        return None;
      }
      var ok, count := VerifyChain();
      if !ok {
        return None;
      }
      var number := if rows == [] then 1 else rows[|rows| - 1].body.number + 1;
      assert rows != [] ==> Links(scheme, rows[..|rows| - 1], rows[|rows| - 1]);
      body := body.(number := number);
      if refuses(rows) {
        return None;
      }
      var row := Row(body, scheme.digest(body));
      VerifiedExtends(scheme, rows, row);
      rows := rows + [row];
      if size(rows) > maxSize {
        return None;
      }
      result := Some(row);
    }

    /** `events`: one page of at most `limit` rows after `after`, from a verified journal only. */
    method Events(run: Option<int>, limit: int, after: int) returns (page: Option<seq<Row>>)
      ensures page.Some? <==> 1 <= limit <= 1000 && after >= 0 && Verified(scheme, rows)
      ensures page.Some? ==> forall i :: 0 <= i < |page.value| ==>
                page.value[i].body.number > after && (run == None || run == Some(page.value[i].body.run))
      ensures page.Some? ==>
        var found := Matching(rows, run, after);
        page.value == if |found| <= limit then found else found[..limit]
    {
      hide Verified;
      if limit < 1 || limit > 1000 || after < 0 {
        return None;
      }
      var ok, count := VerifyChain();
      if !ok {
        return None;
      }
      var found := [];
      for i := 0 to |rows|
        invariant found == Matching(rows[..i], run, after) || |found| == limit
        invariant forall j :: 0 <= j < |found| ==>
                    found[j].body.number > after && (run == None || run == Some(found[j].body.run))
        invariant |found| <= limit && found <= Matching(rows[..i], run, after)
      {
        assert rows[..i + 1][..i] == rows[..i];
        if Wanted(rows[i], run, after) && |found| < limit {
          found := found + [rows[i]];
        }
      }
      assert rows[..|rows|] == rows;
      page := Some(found);
    }

    /** What a reader has read, and what it still wants after the last number it saw, are together all it ever
        wanted. */
    ghost predicate Reading(run: Option<int>, read: seq<Row>, after: int)
      reads this`rows
    {
      && Verified(scheme, rows) && 0 <= after <= |rows|
      && read + Matching(rows, run, after) == Matching(rows, run, 0)
    }

    /** A reader that pages by the last number it saw, while others append: what it has read are the first wanted rows
        of the journal, each once, in order, at least one a page; once a page is empty, they are all of them. So with as
        many pages as rows were wanted in the beginning it has read all of those, whatever was appended meanwhile. */
    method ReadAll(run: Option<int>, limit: int, pages: nat) returns (read: seq<Row>, drained: bool)
      requires 1 <= limit <= 1000 && Verified(scheme, rows)
      modifies this
      ensures Verified(scheme, rows) && old(rows) <= rows
      ensures read <= Matching(rows, run, 0)
      ensures drained ==> read == Matching(rows, run, 0)
      ensures !drained ==> |read| >= pages
      ensures pages >= |Matching(old(rows), run, 0)| ==> Matching(old(rows), run, 0) <= read
    {
      hide Verified;
      hide Matching;
      read, drained := [], false;
      StartReading(run);
      var after := 0;
      for i := 0 to pages
        invariant Reading(run, read, after) && old(rows) <= rows && !drained && |read| >= i
      {
        OthersAppend(run, read, after);
        var page := Events(run, limit, after);
        if page.value == [] {
          drained := true;
          MatchingGrows(old(rows), rows, run);
          return;
        }
        ReadOn(run, read, after, page.value);
        read := read + page.value;
        after := page.value[|page.value| - 1].body.number;
      }
      MatchingGrows(old(rows), rows, run);
    }

    lemma StartReading(run: Option<int>)
      requires Verified(scheme, rows)
      ensures Reading(run, [], 0)
    {
    }

    lemma ReadOn(run: Option<int>, read: seq<Row>, after: int, page: seq<Row>)
      requires Reading(run, read, after) && page != [] && page <= Matching(rows, run, after)
      ensures Reading(run, read + page, page[|page| - 1].body.number)
    {
      PageSplits(scheme, rows, run, after, |page|);
      MemberNumber(scheme, rows, run, after, |page| - 1);
      assert page == Matching(rows, run, after)[..|page|];
    }

    /** Any number of appends by others. */
    method OthersAppend(run: Option<int>, ghost read: seq<Row>, ghost after: int)
      requires Reading(run, read, after)
      modifies this
      ensures Reading(run, read, after) && old(rows) <= rows
    {
      var count: int :| count >= 0;
      for i := 0 to count
        invariant Reading(run, read, after) && old(rows) <= rows
      {
        hide Matching;
        hide Verified;
        var recorded: int, author: int, kind: int, payload: Payload := *, *, *, *;
        ghost var before := rows;
        var row := Append(recorded, author, kind, payload);
        if rows != before {
          Appended(scheme, before, rows, run, read, after);
        }
      }
    }
  }

  /** Appending only adds to what is wanted. */
  lemma {:induction false} MatchingGrows(before: seq<Row>, rows: seq<Row>, run: Option<int>)
    requires before <= rows
    ensures Matching(before, run, 0) <= Matching(rows, run, 0)
    decreases |rows|
  {
    if |before| < |rows| {
      var n := |rows| - 1;
      assert before <= rows[..n];
      MatchingGrows(before, rows[..n], run);
    } else {
      assert before == rows;
    }
  }

  /** An append that raises although its row was added: the first row makes the file too large. */
  method LateError(scheme: Scheme, payload: Payload) returns (journal: EventJournal, result: Option<Row>)
    requires scheme.valid(Body(1, 0, 0, 0, payload, scheme.zero))
    ensures !journal.readOnly && Verified(scheme, journal.rows)
    ensures result == None && |journal.rows| == 1 && journal.rows[0].body.payload == payload
  {
    journal := new EventJournal(scheme, false, (rows: seq<Row>) => |rows|, 0, (rows: seq<Row>) => false);
    result := journal.Append(0, 0, 0, payload);
  }

  /** A row appended later is wanted after any number already seen exactly when it is wanted at all. */
  lemma Appended(s: Scheme, before: seq<Row>, rows: seq<Row>, run: Option<int>, read: seq<Row>, after: int)
    requires Verified(s, rows) && |rows| == |before| + 1 && rows[..|before|] == before && 0 <= after <= |before|
    requires read + Matching(before, run, after) == Matching(before, run, 0)
    ensures read + Matching(rows, run, after) == Matching(rows, run, 0)
  {
    var n := |before|;
    assert Links(s, rows[..n], rows[n]);
    var more := if Wanted(rows[n], run, 0) then [rows[n]] else [];
    assert Matching(rows, run, after) == Matching(before, run, after) + more;
    assert Matching(rows, run, 0) == Matching(before, run, 0) + more;
  }
}
