/** The INSERT statement ingest runs against drilling_events, and sqlite3's
    two checks on it: the VALUES list must be as wide as the table, and the
    supplied parameters must match the placeholders. */
module Statement {
  import opened Rows

  datatype SqlError =
    | ColumnCountMismatch(columns: nat, values: nat)
    | BindingCountMismatch(placeholders: nat, supplied: nat)

  datatype Outcome = Inserted(values: seq<Cell>) | Failed(err: SqlError)

  const InsertPrefix: string := "INSERT INTO drilling_events VALUES ("

  /** `n` comma-separated placeholders and the closing parenthesis: `?,?,...,?)`. */
  function Marks(n: nat): string
    requires n > 0
  {
    if n == 1 then "?)" else "?," + Marks(n - 1)
  }

  /** The statement as ingest writes it: fourteen placeholders. */
  const InsertAsWritten: string := InsertPrefix + Marks(14)

  /** The statement with one placeholder per column. */
  const InsertCorrected: string := InsertPrefix + Marks(13)

  /** The number of `?` placeholders in a statement. */
  function Placeholders(sql: string): nat {
    if sql == [] then 0 else (if sql[0] == '?' then 1 else 0) + Placeholders(sql[1..])
  }

  lemma {:induction false} PlaceholdersAppend(a: string, b: string)
    ensures Placeholders(a + b) == Placeholders(a) + Placeholders(b)
  {
    if a != [] {
      assert (a + b)[1..] == a[1..] + b;
      PlaceholdersAppend(a[1..], b);
    } else {
      assert a + b == b;
    }
  }

  lemma {:induction false} NoPlaceholders(s: string)
    requires forall i :: 0 <= i < |s| ==> s[i] != '?'
    ensures Placeholders(s) == 0
  {
    if s != [] {
      NoPlaceholders(s[1..]);
    }
  }

  lemma {:induction false} MarksCount(n: nat)
    requires n > 0
    ensures Placeholders(Marks(n)) == n
  {
    var one := "?)";
    assert one[1..][1..] == [];
    if n > 1 {
      var pair := "?,";
      assert pair[1..][1..] == [];
      PlaceholdersAppend(pair, Marks(n - 1));
      MarksCount(n - 1);
    }
  }

  /** The text before the VALUES list holds no placeholder. */
  lemma PrefixHasNoMarks()
    ensures forall i :: 0 <= i < |InsertPrefix| ==> InsertPrefix[i] != '?'
  {
  }

  /** A prefix without placeholders followed by `n` placeholders has `n` placeholders. */
  lemma StatementCount(p: string, n: nat)
    requires forall i :: 0 <= i < |p| ==> p[i] != '?'
    requires n > 0
    ensures Placeholders(p + Marks(n)) == n
  {
    NoPlaceholders(p);
    MarksCount(n);
    PlaceholdersAppend(p, Marks(n));
  }

  /** sqlite3 executing an INSERT ... VALUES of placeholders into drilling_events
      with the given parameters: preparing checks the VALUES list against the
      table's width, binding checks the parameters against the placeholders. */
  function Execute(sql: string, params: seq<Cell>): (o: Outcome)
    ensures o.Inserted? ==> o.values == params && |params| == |TableColumns|
  {
    var marks := Placeholders(sql);
    if marks != |TableColumns| then Failed(ColumnCountMismatch(|TableColumns|, marks))
    else if |params| != marks then Failed(BindingCountMismatch(marks, |params|))
    else Inserted(params)
  }

  /** The statement as written lists fourteen placeholders for a table of
      thirteen columns, so no ingest call can ever store its row. */
  lemma InsertAsWrittenAlwaysFails(r: Row)
    ensures Placeholders(InsertAsWritten) == 14
    ensures Execute(InsertAsWritten, Cells(r)) == Failed(ColumnCountMismatch(13, 14))
  {
    PrefixHasNoMarks();
    StatementCount(InsertPrefix, 14);
  }

  /** With one placeholder per column, every row ingest builds is stored as its
      thirteen values in table order. */
  lemma InsertCorrectedStoresRow(r: Row)
    ensures Execute(InsertCorrected, Cells(r)) == Inserted(Cells(r))
  {
    PrefixHasNoMarks();
    StatementCount(InsertPrefix, 13);
  }
}
