/** The append-only log of one Experience KB and the pages that walk it.
  *
  * A record's position is the number of records written up to and including it, so positions start at 1 and a
  * cursor of 0 is before every record.
  */
module Log {
  import opened Prelude

  type Id = string
  type Schema = string
  type FileId = string

  /** One Experience; `complete` stands for "complete and valid under its schema's declaration". */
  datatype Record = Record(id: Id, schema: Schema, body: string, files: set<FileId>, complete: bool)

  /** A record with the position it was written at. */
  datatype Row = Row(position: nat, record: Record)

  function Ids(log: seq<Record>): set<Id> {
    set r | r in log :: r.id
  }

  function StoredOf(log: seq<Record>, schema: Schema): set<Id> {
    set r | r in log && r.schema == schema :: r.id
  }

  predicate DistinctIds(log: seq<Record>) {
    forall i, j :: 0 <= i < j < |log| ==> log[i].id != log[j].id
  }

  lemma SameIdSameRecord(log: seq<Record>, a: Record, b: Record)
    requires DistinctIds(log) && a in log && b in log && a.id == b.id
    ensures a == b
  {
    var i :| 0 <= i < |log| && log[i] == a;
    var j :| 0 <= j < |log| && log[j] == b;
    assert i == j;
  }

  /** The record stored under `id`; `_existing` and `held` look it up by its id. */
  function Find(log: seq<Record>, id: Id): (r: Option<Record>)
    ensures r.Some? ==> r.value in log && r.value.id == id
    ensures r.None? <==> id !in Ids(log)
  {
    if log == [] then None
    else if log[|log| - 1].id == id then Some(log[|log| - 1])
    else
      assert forall r | r in log :: r == log[|log| - 1] || r in log[..|log| - 1];
      Find(log[..|log| - 1], id)
  }

  /** The record written at `position`, "" when none was, as for 0. */
  function WrittenAt(log: seq<Record>, position: nat): Id {
    if 1 <= position <= |log| then log[position - 1].id else ""
  }

  predicate Matches(schema: Option<Schema>, r: Record) {
    schema.None? || r.schema == schema.value
  }

  /** The matching rows at positions in `(after, upto]`, in write order. */
  function Rows(log: seq<Record>, schema: Option<Schema>, after: nat, upto: nat): seq<Row>
    requires upto <= |log|
  {
    if upto <= after then []
    else
      Rows(log, schema, after, upto - 1)
      + if Matches(schema, log[upto - 1]) then [Row(upto, log[upto - 1])] else []
  }

  /** What `Rows` holds, said without its recursion: exactly the matching positions, ascending. */
  lemma RowsMeaning(log: seq<Record>, schema: Option<Schema>, after: nat, upto: nat)
    requires upto <= |log|
    ensures forall i | after <= i < upto && Matches(schema, log[i]) ::
            Row(i + 1, log[i]) in Rows(log, schema, after, upto)
    ensures forall row | row in Rows(log, schema, after, upto) ::
              after < row.position <= upto && row.record == log[row.position - 1] && Matches(schema, row.record)
    ensures Ascending(Rows(log, schema, after, upto))
  {
    RowsHoldMatches(log, schema, after, upto);
    RowsAscend(log, schema, after, upto);
  }

  lemma {:induction false} RowsHoldMatches(log: seq<Record>, schema: Option<Schema>, after: nat, upto: nat)
    requires upto <= |log|
    ensures forall i | after <= i < upto && Matches(schema, log[i]) ::
            Row(i + 1, log[i]) in Rows(log, schema, after, upto)
    ensures forall row | row in Rows(log, schema, after, upto) ::
              after < row.position <= upto && row.record == log[row.position - 1] && Matches(schema, row.record)
  {
    if upto > after {
      RowsHoldMatches(log, schema, after, upto - 1);
    }
  }

  lemma {:induction false} RowsAscend(log: seq<Record>, schema: Option<Schema>, after: nat, upto: nat)
    requires upto <= |log|
    ensures Ascending(Rows(log, schema, after, upto))
  {
    if upto > after {
      RowsAscend(log, schema, after, upto - 1);
      RowsHoldMatches(log, schema, after, upto - 1);
      AppendAscends(Rows(log, schema, after, upto - 1), Row(upto, log[upto - 1]));
    }
  }

  lemma AppendAscends(rows: seq<Row>, last: Row)
    requires Ascending(rows) && forall row | row in rows :: row.position < last.position
    ensures Ascending(rows + [last])
  {
    assert forall i | 0 <= i < |rows| :: rows[i] in rows;
  }

  predicate Ascending(rows: seq<Row>) {
    forall i, j :: 0 <= i < j < |rows| ==> rows[i].position < rows[j].position
  }

  lemma {:induction false} RowsSplit(log: seq<Record>, schema: Option<Schema>, after: nat, mid: nat, upto: nat)
    requires after <= mid <= upto <= |log|
    ensures Rows(log, schema, after, mid) + Rows(log, schema, mid, upto) == Rows(log, schema, after, upto)
  {
    if mid < upto {
      RowsSplit(log, schema, after, mid, upto - 1);
      var last := if Matches(schema, log[upto - 1]) then [Row(upto, log[upto - 1])] else [];
      assert Rows(log, schema, after, mid) + (Rows(log, schema, mid, upto - 1) + last)
          == (Rows(log, schema, after, mid) + Rows(log, schema, mid, upto - 1)) + last;
    }
  }

  /** Writes past `upto` never change a row at or before it. */
  lemma {:induction false} RowsStable(log: seq<Record>, longer: seq<Record>, schema: Option<Schema>, after: nat,
                                      upto: nat)
    requires upto <= |log| && log <= longer
    ensures Rows(log, schema, after, upto) == Rows(longer, schema, after, upto)
  {
    if upto > after {
      RowsStable(log, longer, schema, after, upto - 1);
    }
  }

  /** One page of `records_after`: the rows, the cursor to resume after, and whether more rows follow. */
  datatype Page = Page(rows: seq<Row>, next: nat, more: bool)

  function RecordsAfter(log: seq<Record>, schema: Option<Schema>, after: nat, limit: nat): Page {
    var rows := if after <= |log| then Rows(log, schema, after, |log|) else [];
    var page := if |rows| <= limit then rows else rows[..limit];
    Page(page, if page == [] then after else page[|page| - 1].position, |rows| > limit)
  }

  /** A page is exactly the matching rows between its two cursors, and it ends the log when it reports no more. */
  lemma PageIsRange(log: seq<Record>, schema: Option<Schema>, after: nat, limit: nat)
    requires after <= |log| && limit >= 1
    ensures var page := RecordsAfter(log, schema, after, limit);
            && after <= page.next <= |log|
            && page.rows == Rows(log, schema, after, page.next)
            && |page.rows| <= limit
            && (page.more <==> Rows(log, schema, page.next, |log|) != [])
            && (page.more ==> after < page.next)
  {
    var page := RecordsAfter(log, schema, after, limit);
    var rows := Rows(log, schema, after, |log|);
    if page.rows == [] {
      RowsSplit(log, schema, after, after, |log|);
    } else {
      CutAt(log, schema, after, |log|, |page.rows|);
      RowsSplit(log, schema, after, page.next, |log|);
      assert page.rows == rows[..|page.rows|];
    }
  }

  /** The first `count` rows of a range are the range up to the position of the last of them. */
  lemma {:induction false} CutAt(log: seq<Record>, schema: Option<Schema>, after: nat, upto: nat, count: nat)
    requires after <= upto <= |log| && 1 <= count <= |Rows(log, schema, after, upto)|
    ensures var rows := Rows(log, schema, after, upto);
            var cut := rows[count - 1].position;
            after < cut <= upto && rows[..count] == Rows(log, schema, after, cut)
  {
    var rows, rest := Rows(log, schema, after, upto), Rows(log, schema, after, upto - 1);
    if count <= |rest| {
      CutAt(log, schema, after, upto - 1, count);
      assert rows[..count] == rest[..count];
    } else {
      assert rows[..count] == rows;
    }
  }

  /** The rows a reader collects by following cursors: page `k` is read from `logs[k]` with size `limits[k]`. */
  function Follow(logs: seq<seq<Record>>, limits: seq<nat>, schema: Option<Schema>, after: nat): (rows: seq<Row>)
    requires |logs| == |limits|
  {
    if logs == [] then []
    else
      var page := RecordsAfter(logs[0], schema, after, limits[0]);
      page.rows + Follow(logs[1..], limits[1..], schema, page.next)
  }

  function FollowCursor(logs: seq<seq<Record>>, limits: seq<nat>, schema: Option<Schema>, after: nat): nat
    requires |logs| == |limits|
  {
    if logs == [] then after
    else FollowCursor(logs[1..], limits[1..], schema, RecordsAfter(logs[0], schema, after, limits[0]).next)
  }

  /** Each log a page is read from is some later state of the one before it. */
  predicate Growing(logs: seq<seq<Record>>) {
    forall i, j :: 0 <= i <= j < |logs| ==> logs[i] <= logs[j]
  }

  /** Paging with any sizes, with writes between pages, yields each matching record once, in order, none skipped:
    * the rows collected are exactly the matching rows up to the last cursor. */
  lemma {:induction false} PagingIsLossless(logs: seq<seq<Record>>, limits: seq<nat>, schema: Option<Schema>,
                                            after: nat)
    requires |logs| == |limits| > 0 && Growing(logs) && after <= |logs[0]|
    requires forall i | 0 <= i < |limits| :: limits[i] >= 1
    ensures var last := logs[|logs| - 1];
            var end := FollowCursor(logs, limits, schema, after);
            && after <= end <= |last|
            && Follow(logs, limits, schema, after) == Rows(last, schema, after, end)
  {
    var page := RecordsAfter(logs[0], schema, after, limits[0]);
    var last := logs[|logs| - 1];
    PageIsRange(logs[0], schema, after, limits[0]);
    assert logs[0] <= last;
    RowsStable(logs[0], last, schema, after, page.next);
    if |logs| > 1 {
      assert logs[0] <= logs[1];
      assert logs[1..][|logs| - 2] == last;
      PagingIsLossless(logs[1..], limits[1..], schema, page.next);
      RowsSplit(last, schema, after, page.next, FollowCursor(logs[1..], limits[1..], schema, page.next));
    } else {
      assert logs[1..] == [] && page.rows + [] == page.rows;
    }
  }

  /** So when the last page reports no more, the reader holds every matching record of the last log. */
  lemma PagingReachesTheEnd(logs: seq<seq<Record>>, limits: seq<nat>, schema: Option<Schema>)
    requires |logs| == |limits| > 0 && Growing(logs)
    requires forall i | 0 <= i < |limits| :: limits[i] >= 1
    requires var k := |logs| - 1;
             !RecordsAfter(logs[k], schema, FollowCursor(logs[..k], limits[..k], schema, 0), limits[k]).more
    ensures Follow(logs, limits, schema, 0) == Rows(logs[|logs| - 1], schema, 0, |logs[|logs| - 1]|)
  {
    var k := |logs| - 1;
    var last := logs[k];
    var before := FollowCursor(logs[..k], limits[..k], schema, 0);
    var end := FollowCursor(logs, limits, schema, 0);
    PagingIsLossless(logs, limits, schema, 0);
    CursorOfLastPage(logs, limits, schema, 0);
    if k > 0 {
      assert logs[..k][k - 1] <= last;
      PagingIsLossless(logs[..k], limits[..k], schema, 0);
    }
    PageIsRange(last, schema, before, limits[k]);
    RowsSplit(last, schema, 0, end, |last|);
  }

  lemma {:induction false} CursorOfLastPage(logs: seq<seq<Record>>, limits: seq<nat>, schema: Option<Schema>,
                                            after: nat)
    requires |logs| == |limits| > 0
    ensures var k := |logs| - 1;
            FollowCursor(logs, limits, schema, after)
            == RecordsAfter(logs[k], schema, FollowCursor(logs[..k], limits[..k], schema, after), limits[k]).next
  {
    if |logs| > 1 {
      var k := |logs| - 1;
      assert logs[..k][1..] == logs[1..][..k - 1] && limits[..k][1..] == limits[1..][..k - 1];
      CursorOfLastPage(logs[1..], limits[1..], schema, RecordsAfter(logs[0], schema, after, limits[0]).next);
    }
  }
}
