/**
 * The report store: saving a report as a new row of the `vital_reports` table and listing the
 * newest hundred. The table is a sequence of rows; the id and the creation time the database
 * fills in for a new row are parameters.
 */
module ReportService {
  import opened Wrappers

  /** A row of `vital_reports`; `createdAt` is in seconds since the epoch. */
  datatype Row = Row(rowid: nat, id: string, bpm: string, bpv1: string, bpv0: string, s2: string,
                     ltv: string, score: real, statusKey: string, createdAt: int)

  /** What the caller saves: a report without its id and creation time. */
  datatype NewReport = NewReport(bpm: string, bpv1: string, bpv0: string, s2: string, ltv: string,
                                 score: real, statusKey: string)

  /** A report as the application sees it: the creation time in milliseconds, or none. */
  datatype TeamReport = TeamReport(id: string, bpm: string, bpv1: string, bpv0: string, s2: string,
                                   ltv: string, score: real, statusKey: string, createdAt: Option<int>)

  /** The largest rowid of the table, 0 for an empty one. */
  function MaxRowid(table: seq<Row>): (m: nat)
    ensures forall i :: 0 <= i < |table| ==> table[i].rowid <= m
    ensures |table| > 0 ==> exists i :: 0 <= i < |table| && table[i].rowid == m
    ensures |table| == 0 ==> m == 0
  {
    if |table| == 0 then 0
    else
      var rest := MaxRowid(table[1..]);
      if table[0].rowid >= rest then table[0].rowid else rest
  }

  /** The `INSERT`: a new row with the next rowid, the database's id and time, and the report's columns. */
  function Insert(table: seq<Row>, data: NewReport, newId: string, now: int): (t: seq<Row>)
    ensures |t| == |table| + 1 && t[..|table|] == table
    ensures forall i :: 0 <= i < |table| ==> table[i].rowid < t[|table|].rowid
    ensures var row := t[|table|];
      row.id == newId && row.createdAt == now
      && (row.bpm, row.bpv1, row.bpv0, row.s2, row.ltv, row.score, row.statusKey)
         == (data.bpm, data.bpv1, data.bpv0, data.s2, data.ltv, data.score, data.statusKey)
  {
    table + [Row(MaxRowid(table) + 1, newId, data.bpm, data.bpv1, data.bpv0, data.s2, data.ltv,
                 data.score, data.statusKey, now)]
  }

  /** `SELECT id … ORDER BY rowid DESC LIMIT 1`: the row with the largest rowid, if there is a row. */
  method Latest(table: seq<Row>) returns (r: Option<Row>)
    ensures r.None? <==> |table| == 0
    ensures r.Some? ==> r.value in table
    ensures r.Some? ==> forall i :: 0 <= i < |table| ==> table[i].rowid <= r.value.rowid
  {
    if |table| == 0 {
      return None;
    }
    var best := table[0];
    var i := 1;
    while i < |table|
      invariant 1 <= i <= |table|
      invariant best in table[..i]
      invariant forall j :: 0 <= j < i ==> table[j].rowid <= best.rowid
    {
      if table[i].rowid > best.rowid {
        best := table[i];
      }
      i := i + 1;
    }
    assert table[..|table|] == table;
    return Some(best);
  }

  /**
   * `saveReport`: insert the report, then read back the id of the newest row, or "unknown"
   * when there is none. Run on its own, the id read back is the one the new row was given.
   */
  method SaveReport(table: seq<Row>, data: NewReport, newId: string, now: int) returns (t: seq<Row>, id: string)
    ensures t == Insert(table, data, newId, now)
    ensures id == newId
  {
    t := Insert(table, data, newId, now);
    var row := Latest(t);
    match row
    case None =>
      id := "unknown";
    case Some(newest) =>
      var k :| 0 <= k < |t| && t[k] == newest;
      if k < |table| {
        assert false;
      }
      id := newest.id;
  }

  /** The listing's `LIMIT`. */
  const Limit: nat := 100

  /** Newest first: creation times never increase along the sequence. */
  predicate NewestFirst(rows: seq<Row>) {
    forall i, j :: 0 <= i < j < |rows| ==> rows[i].createdAt >= rows[j].createdAt
  }

  /** Places a row into a newest-first sequence, after the rows at least as new. */
  function InsertByTime(x: Row, rows: seq<Row>): (r: seq<Row>)
    requires NewestFirst(rows)
    ensures |r| == |rows| + 1
    ensures NewestFirst(r)
    ensures multiset(r) == multiset(rows) + multiset{x}
  {
    if |rows| == 0 then [x]
    else if x.createdAt >= rows[0].createdAt then [x] + rows
    else
      var tail := InsertByTime(x, rows[1..]);
      assert rows == [rows[0]] + rows[1..];
      NoNewerThanHead(x, rows, tail);
      ConsNewestFirst(rows[0], tail);
      [rows[0]] + tail
  }

  /** Every row of the rest of a newest-first sequence, and any older row, is at most as new as its head. */
  lemma NoNewerThanHead(x: Row, rows: seq<Row>, tail: seq<Row>)
    requires NewestFirst(rows) && |rows| > 0 && x.createdAt < rows[0].createdAt
    requires multiset(tail) == multiset(rows[1..]) + multiset{x}
    ensures forall k :: 0 <= k < |tail| ==> tail[k].createdAt <= rows[0].createdAt
  {
    forall k | 0 <= k < |tail|
      ensures tail[k].createdAt <= rows[0].createdAt
    {
      assert tail[k] in multiset(tail);
      if tail[k] != x {
        assert tail[k] in multiset(rows[1..]);
        var j :| 0 <= j < |rows[1..]| && rows[1..][j] == tail[k];
        assert rows[j + 1] == tail[k];
      }
    }
  }

  /** A row at least as new as every row of a newest-first sequence can head it. */
  lemma ConsNewestFirst(y: Row, tail: seq<Row>)
    requires NewestFirst(tail)
    requires forall k :: 0 <= k < |tail| ==> tail[k].createdAt <= y.createdAt
    ensures NewestFirst([y] + tail)
  {
    var r := [y] + tail;
    forall i, j | 0 <= i < j < |r|
      ensures r[i].createdAt >= r[j].createdAt
    {
      assert r[j] == tail[j - 1];
      if i > 0 {
        assert r[i] == tail[i - 1];
      }
    }
  }

  /** `ORDER BY created_at DESC`, as an insertion sort. */
  function SortByTime(rows: seq<Row>): (r: seq<Row>)
    ensures |r| == |rows|
    ensures NewestFirst(r)
    ensures multiset(r) == multiset(rows)
  {
    if |rows| == 0 then []
    else
      assert rows == [rows[0]] + rows[1..];
      InsertByTime(rows[0], SortByTime(rows[1..]))
  }

  function Min(a: nat, b: nat): nat {
    if a <= b then a else b
  }

  /**
   * The rows `getAllReports` reads: the newest hundred, newest first. Every row left out is at
   * most as new as every row listed.
   */
  function Newest(table: seq<Row>): (rows: seq<Row>)
    ensures |rows| == Min(|table|, Limit)
    ensures NewestFirst(rows)
    ensures multiset(rows) <= multiset(table)
    ensures forall x, y :: x in multiset(table) - multiset(rows) && y in rows ==> x.createdAt <= y.createdAt
  {
    var sorted := SortByTime(table);
    var rows := sorted[..Min(|table|, Limit)];
    SortedCut(sorted, Min(|table|, Limit));
    rows
  }

  /** Cutting a newest-first sequence keeps the newest rows in front and the rest behind. */
  lemma {:induction false} SortedCut(s: seq<Row>, k: nat)
    requires NewestFirst(s) && k <= |s|
    ensures NewestFirst(s[..k])
    ensures multiset(s) - multiset(s[..k]) == multiset(s[k..])
    ensures forall x, y :: x in multiset(s) - multiset(s[..k]) && y in s[..k] ==> x.createdAt <= y.createdAt
  {
    assert s == s[..k] + s[k..];
    assert multiset(s) == multiset(s[..k]) + multiset(s[k..]);
    forall x, y | x in s[k..] && y in s[..k]
      ensures x.createdAt <= y.createdAt
    {
      var a :| k <= a < |s| && s[a] == x;
      var b :| 0 <= b < k && s[b] == y;
    }
  }

  /** The report for a row: the time in milliseconds, or none when the stored time is 0. */
  function ToTeamReport(row: Row): (r: TeamReport)
    ensures r.createdAt.None? <==> row.createdAt == 0
    ensures r.createdAt.Some? ==> r.createdAt.value % 1000 == 0 && r.createdAt.value / 1000 == row.createdAt
    ensures (r.id, r.bpm, r.bpv1, r.bpv0, r.s2, r.ltv, r.score, r.statusKey)
         == (row.id, row.bpm, row.bpv1, row.bpv0, row.s2, row.ltv, row.score, row.statusKey)
  {
    TeamReport(row.id, row.bpm, row.bpv1, row.bpv0, row.s2, row.ltv, row.score, row.statusKey,
               if row.createdAt != 0 then Some(row.createdAt * 1000) else None)
  }

  /** `getAllReports`: the newest hundred rows as reports, newest first. */
  function GetAllReports(table: seq<Row>): (r: seq<TeamReport>)
    ensures |r| == Min(|table|, Limit)
    ensures forall i :: 0 <= i < |r| ==> r[i] == ToTeamReport(Newest(table)[i])
    ensures forall i, j :: 0 <= i < j < |r| && r[i].createdAt.Some? && r[j].createdAt.Some? ==>
      r[i].createdAt.value >= r[j].createdAt.value
  {
    var rows := Newest(table);
    seq(|rows|, i requires 0 <= i < |rows| => ToTeamReport(rows[i]))
  }

  /**
   * A report saved later than every stored one heads the listing, with every column it was
   * saved with, its new id, and its creation time in milliseconds.
   */
  lemma SavedHeadsListing(table: seq<Row>, data: NewReport, newId: string, now: int)
    requires forall i :: 0 <= i < |table| ==> table[i].createdAt < now
    ensures var r := GetAllReports(Insert(table, data, newId, now));
      |r| > 0 && r[0] == TeamReport(newId, data.bpm, data.bpv1, data.bpv0, data.s2, data.ltv, data.score,
                                    data.statusKey, if now != 0 then Some(now * 1000) else None)
  {
    var t := Insert(table, data, newId, now);
    var rows := Newest(t);
    var saved := t[|table|];
    assert t == table + [saved];
    HeadIsNewest(t, rows);
    assert saved in multiset(t);
    assert rows[0] !in table;
    assert multiset(t) == multiset(table) + multiset{saved};
    assert rows[0] in multiset(t);
    assert rows[0] == saved;
  }

  /** The head of the listing is at least as new as every row of the table. */
  lemma HeadIsNewest(table: seq<Row>, rows: seq<Row>)
    requires |rows| > 0 && NewestFirst(rows) && multiset(rows) <= multiset(table)
    requires forall x, y :: x in multiset(table) - multiset(rows) && y in rows ==> x.createdAt <= y.createdAt
    ensures forall y :: y in multiset(table) ==> y.createdAt <= rows[0].createdAt
  {
    forall y | y in multiset(table)
      ensures y.createdAt <= rows[0].createdAt
    {
      if y in rows {
        var j :| 0 <= j < |rows| && rows[j] == y;
      } else {
        assert y in multiset(table) - multiset(rows);
        assert rows[0] in rows;
      }
    }
  }
}
