/** The two read paths over the stored rows: the bounded history (the newest
    fifty events as entries with boolean alerts) and the CSV export (a header
    line, then every row as stored). Both read the rows ordered by timestamp,
    newest first. */
module Queries {
  import opened Telemetry
  import opened Rows

  /** The LIMIT of the history query. */
  const HistoryLimit: nat := 50

  /** Timestamps never increase along the sequence. */
  ghost predicate NewestFirst(rs: seq<Row>) {
    forall i, j :: 0 <= i < j < |rs| ==> rs[i].timestamp >= rs[j].timestamp
  }

  /** Places one row into a newest-first sequence, ahead of every row that is
      not newer than it. */
  function InsertByTime(r: Row, sorted: seq<Row>): (out: seq<Row>)
    requires NewestFirst(sorted)
    ensures NewestFirst(out)
    ensures multiset(out) == multiset(sorted) + multiset{r}
    ensures |out| == |sorted| + 1
  {
    if sorted == [] || r.timestamp >= sorted[0].timestamp then [r] + sorted
    else
      var rest := InsertByTime(r, sorted[1..]);
      BoundedByHead(sorted, r, rest);
      [sorted[0]] + rest
  }

  /** Every row of `rest`, a permutation of the tail of `sorted` plus a row
      older than its head, is no newer than that head. */
  lemma BoundedByHead(sorted: seq<Row>, r: Row, rest: seq<Row>)
    requires NewestFirst(sorted) && sorted != [] && r.timestamp < sorted[0].timestamp
    requires multiset(rest) == multiset(sorted[1..]) + multiset{r}
    ensures forall j :: 0 <= j < |rest| ==> rest[j].timestamp <= sorted[0].timestamp
    ensures NewestFirst([sorted[0]] + rest) <== NewestFirst(rest)
    ensures multiset([sorted[0]] + rest) == multiset(sorted) + multiset{r}
  {
    assert sorted == [sorted[0]] + sorted[1..];
    forall j | 0 <= j < |rest|
      ensures rest[j].timestamp <= sorted[0].timestamp
    {
      assert rest[j] in multiset(rest);
      if rest[j] != r {
        assert rest[j] in multiset(sorted[1..]);
        var k :| 0 <= k < |sorted[1..]| && sorted[1..][k] == rest[j];
        assert sorted[k + 1] == rest[j];
      }
    }
  }

  /** `ORDER BY timestamp DESC` over the table in insertion order. Rows with
      equal timestamps come out later-inserted first. */
  function SortNewestFirst(rows: seq<Row>): (out: seq<Row>)
    ensures NewestFirst(out)
    ensures multiset(out) == multiset(rows)
    ensures |out| == |rows|
  {
    if rows == [] then []
    else
      var n := |rows| - 1;
      assert rows == rows[..n] + [rows[n]];
      InsertByTime(rows[n], SortNewestFirst(rows[..n]))
  }

  function Min(a: nat, b: nat): nat { if a <= b then a else b }

  /** The response of /history: at most fifty rows, newest first, each read
      back as an entry with boolean alerts. */
  function History(rows: seq<Row>): (h: seq<Event>)
    ensures |h| == Min(|rows|, HistoryLimit)
    ensures forall i, j :: 0 <= i < j < |h| ==> h[i].timestamp >= h[j].timestamp
  {
    var top := SortNewestFirst(rows)[..Min(|rows|, HistoryLimit)];
    seq(|top|, i requires 0 <= i < |top| => Decode(top[i]))
  }

  /** Entry `k` of the history is the `k`-th newest row, read back. */
  lemma HistoryEntry(rows: seq<Row>, k: nat)
    requires k < Min(|rows|, HistoryLimit)
    ensures History(rows)[k] == Decode(SortNewestFirst(rows)[k])
  {
  }

  /** The position of a stored row in the sorted table. */
  lemma SortedPosition(rows: seq<Row>, r: Row) returns (k: nat)
    requires r in rows
    ensures k < |rows| && SortNewestFirst(rows)[k] == r
  {
    var sorted := SortNewestFirst(rows);
    assert r in multiset(sorted);
    k :| 0 <= k < |sorted| && sorted[k] == r;
  }

  /** With fifty rows or fewer, history returns every stored row. */
  lemma HistoryReturnsAll(rows: seq<Row>)
    requires |rows| <= HistoryLimit
    ensures forall r :: r in rows ==> Decode(r) in History(rows)
  {
    forall r | r in rows
      ensures Decode(r) in History(rows)
    {
      var k := SortedPosition(rows, r);
      HistoryEntry(rows, k);
    }
  }

  /** History returns the newest rows: every stored row is either among the
      entries or no newer than the oldest entry returned. */
  lemma HistoryKeepsNewest(rows: seq<Row>)
    ensures forall r :: r in rows && Decode(r) !in History(rows) ==>
      |History(rows)| == HistoryLimit && r.timestamp <= History(rows)[HistoryLimit - 1].timestamp
  {
    forall r | r in rows && Decode(r) !in History(rows)
      ensures |History(rows)| == HistoryLimit
      ensures r.timestamp <= History(rows)[HistoryLimit - 1].timestamp
    {
      var k := SortedPosition(rows, r);
      if k < HistoryLimit {
        HistoryEntry(rows, k);
        assert false;
      }
      HistoryEntry(rows, HistoryLimit - 1);
    }
  }

  /** An ingest whose timestamp is not older than any stored row heads the next
      history. When every stored row is strictly older, that first entry is the
      event itself, read back exactly, whatever order ties would take. */
  lemma HistoryAfterIngest(rows: seq<Row>, e: Event)
    requires forall r :: r in rows ==> r.timestamp <= e.timestamp
    ensures History(rows + [Encode(e)])[0].timestamp == e.timestamp
    ensures (forall r :: r in rows ==> r.timestamp < e.timestamp) ==> History(rows + [Encode(e)])[0] == e
  {
    var all := rows + [Encode(e)];
    assert all[..|all| - 1] == rows;
    var sorted := SortNewestFirst(rows);
    if sorted != [] {
      assert sorted[0] in multiset(rows);
    }
  }

  /** The rows in the opposite order. */
  function Reverse(s: seq<Row>): (r: seq<Row>)
    ensures |r| == |s|
    ensures forall i :: 0 <= i < |s| ==> r[i] == s[|s| - 1 - i]
  {
    if s == [] then [] else [s[|s| - 1]] + Reverse(s[..|s| - 1])
  }

  /** Timestamps strictly increase in insertion order. */
  ghost predicate OldestFirst(rs: seq<Row>) {
    forall i, j :: 0 <= i < j < |rs| ==> rs[i].timestamp < rs[j].timestamp
  }

  /** When rows were stored with strictly increasing timestamps, as a clock
      that always moves forward assigns them, both read paths list the rows in
      exactly the reverse of insertion order; no two rows tie, so this holds
      for any order SQL gives equal timestamps. */
  lemma {:induction false} SortOfChronologicalIsReverse(rows: seq<Row>)
    requires OldestFirst(rows)
    ensures SortNewestFirst(rows) == Reverse(rows)
  {
    if rows != [] {
      var n := |rows| - 1;
      SortOfChronologicalIsReverse(rows[..n]);
      if n > 0 {
        assert Reverse(rows[..n])[0] == rows[n - 1];
      }
    }
  }

  /** A line of the CSV export. */
  datatype Line = HeaderLine(names: seq<string>) | DataLine(cells: seq<Cell>)

  /** The timestamp a data line starts with. */
  function StampOf(l: Line): nat {
    if l.DataLine? && |l.cells| > 0 && l.cells[0].Stamp? then l.cells[0].t else 0
  }

  /** The response of /export: the header, then one line per stored row,
      newest first, each holding the row's thirteen stored values. */
  function Export(rows: seq<Row>): (lines: seq<Line>)
    ensures |lines| == |rows| + 1
    ensures lines[0] == HeaderLine(ExportHeader)
    ensures forall i :: 1 <= i < |lines| ==> lines[i].DataLine? && |lines[i].cells| == |ExportHeader|
    ensures forall i, j :: 1 <= i < j < |lines| ==> StampOf(lines[i]) >= StampOf(lines[j])
    ensures forall r :: r in rows ==> DataLine(Cells(r)) in lines
    ensures multiset(lines[1..]) == multiset(DataLines(rows))
  {
    var sorted := SortNewestFirst(rows);
    var body := DataLines(sorted);
    DataLinesIndex(sorted);
    DataLinesCover(rows, sorted);
    LinesOfSameRows(sorted, rows);
    var lines := [HeaderLine(ExportHeader)] + body;
    assert lines[1..] == body;
    lines
  }

  /** One data line per row, in the given order. */
  function DataLines(sorted: seq<Row>): seq<Line> {
    if sorted == [] then [] else [DataLine(Cells(sorted[0]))] + DataLines(sorted[1..])
  }

  /** Line `i` holds the thirteen values of row `i` and starts with its timestamp. */
  lemma {:induction false} DataLinesIndex(sorted: seq<Row>)
    ensures |DataLines(sorted)| == |sorted|
    ensures forall i :: 0 <= i < |sorted| ==> DataLines(sorted)[i] == DataLine(Cells(sorted[i]))
    ensures forall i :: 0 <= i < |sorted| ==> StampOf(DataLines(sorted)[i]) == sorted[i].timestamp
  {
    if sorted != [] {
      DataLinesIndex(sorted[1..]);
    }
  }

  lemma DataLinesCover(rows: seq<Row>, sorted: seq<Row>)
    requires multiset(sorted) == multiset(rows)
    ensures forall r :: r in rows ==> DataLine(Cells(r)) in DataLines(sorted)
  {
    var body := DataLines(sorted);
    DataLinesIndex(sorted);
    forall r | r in rows
      ensures DataLine(Cells(r)) in body
    {
      assert r in multiset(sorted);
      var i :| 0 <= i < |sorted| && sorted[i] == r;
      assert body[i] == DataLine(Cells(r));
    }
  }

  lemma {:induction false} DataLinesAppend(a: seq<Row>, b: seq<Row>)
    ensures DataLines(a + b) == DataLines(a) + DataLines(b)
  {
    if a == [] {
      assert a + b == b;
    } else {
      assert (a + b)[0] == a[0] && (a + b)[1..] == a[1..] + b;
      DataLinesAppend(a[1..], b);
    }
  }

  /** The line of one row followed by the lines of the rest. */
  lemma ConsLines(r: Row, rest: seq<Row>)
    ensures DataLines([r] + rest) == [DataLine(Cells(r))] + DataLines(rest)
  {
    assert ([r] + rest)[0] == r && ([r] + rest)[1..] == rest;
  }

  /** Taking one row out removes exactly its line. */
  lemma DeleteLine(front: seq<Row>, r: Row, back: seq<Row>)
    ensures multiset(DataLines(front + ([r] + back)))
      == multiset(DataLines(front + back)) + multiset{DataLine(Cells(r))}
  {
    DataLinesAppend(front, [r] + back);
    ConsLines(r, back);
    DataLinesAppend(front, back);
    LineSpliced(DataLines(front), DataLine(Cells(r)), DataLines(back));
  }

  lemma LineSpliced(front: seq<Line>, line: Line, back: seq<Line>)
    ensures multiset(front + ([line] + back)) == multiset(front + back) + multiset{line}
  {
  }

  lemma RowsWithout(b: seq<Row>, k: nat)
    requires k < |b|
    ensures multiset(b[..k] + b[k + 1..]) + multiset{b[k]} == multiset(b)
  {
    assert b == b[..k] + [b[k]] + b[k + 1..];
  }

  lemma Cancel(p: multiset<Row>, q: multiset<Row>, x: Row)
    requires p + multiset{x} == q + multiset{x}
    ensures p == q
  {
    forall y
      ensures p[y] == q[y]
    {
      assert (p + multiset{x})[y] == (q + multiset{x})[y];
    }
  }

  /** Two orderings of the same rows have the same lines, as many times each:
      the export writes every fetched row exactly once, whatever the order. */
  lemma {:induction false} LinesOfSameRows(a: seq<Row>, b: seq<Row>)
    requires multiset(a) == multiset(b)
    ensures multiset(DataLines(a)) == multiset(DataLines(b))
  {
    if a == [] {
      assert |b| == |multiset(b)| == 0;
    } else {
      var x, tail := a[0], a[1..];
      assert x in multiset(b);
      var k :| 0 <= k < |b| && b[k] == x;
      var front, back := b[..k], b[k + 1..];
      var line := DataLine(Cells(x));
      assert multiset(front + back) == multiset(tail) by {
        RowsWithout(b, k);
        assert a == [x] + tail;
        Cancel(multiset(front + back), multiset(tail), x);
      }
      assert multiset(DataLines(b)) == multiset(DataLines(front + back)) + multiset{line} by {
        assert b == front + ([x] + back);
        DeleteLine(front, x, back);
      }
      assert multiset(DataLines(a)) == multiset(DataLines(tail)) + multiset{line} by {
        assert a == [x] + tail;
        ConsLines(x, tail);
      }
      LinesOfSameRows(tail, front + back);
    }
  }
}
