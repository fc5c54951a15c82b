/**
  The catalog snapshot the explorer reads, and the small post-processing it
  applies to fetched rows (db_explorer.py, list_tables, describe_table and
  query_table).

  Every value a database driver hands back is treated as text: a fetched row
  is a sequence of strings, and `bytes` type strings are taken as already
  decoded.
*/
module Catalog {
  import opened Wrappers

  /** One row returned by `cursor.fetchall()`, field by field. */
  type Row = seq<string>

  /** True when every row has at least `width` fields. */
  predicate AllWide(rows: seq<Row>, width: nat) {
    forall i | 0 <= i < |rows| :: |rows[i]| >= width
  }

  /**
    The first field of every row, in row order. `list_tables` returns this of
    the catalog's table rows; PostgreSQL's primary-key list is this of its
    `pg_index` rows; `query_table` applies it to the cursor description.
  */
  function FirstFields(rows: seq<Row>): (names: seq<string>)
    requires AllWide(rows, 1)
    ensures |names| == |rows|
    ensures forall i | 0 <= i < |rows| :: names[i] == rows[i][0]
  {
    seq(|rows|, i requires 0 <= i < |rows| => rows[i][0])
  }

  /** `SHOW TABLES` / `information_schema.tables`: one name per row. */
  function ListTables(rows: seq<Row>): (tables: seq<string>)
    requires AllWide(rows, 1)
    ensures |tables| == |rows|
    ensures forall i | 0 <= i < |rows| :: tables[i] == rows[i][0]
    ensures forall name :: name in tables <==> exists i | 0 <= i < |rows| :: rows[i][0] == name
  {
    var r := FirstFields(rows);
    assert forall name :: name in r ==> exists i | 0 <= i < |rows| :: rows[i][0] == name by {
      forall name | name in r ensures exists i | 0 <= i < |rows| :: rows[i][0] == name {
        var i :| 0 <= i < |r| && r[i] == name;
        assert rows[i][0] == name;
      }
    }
    r
  }

  /** The MySQL `DESCRIBE` key field that marks a primary-key column. */
  const PRIMARY_KEY_FLAG := "PRI"

  /**
    The MySQL primary-key list: the names (field 0) of the `DESCRIBE` rows
    whose key field (field 3) is exactly `PRI`.
  */
  function MySqlPrimaryKeys(rows: seq<Row>): (keys: seq<string>)
    requires AllWide(rows, 4)
    ensures |keys| <= |rows|
    ensures forall name ::
      name in keys <==> exists i | 0 <= i < |rows| :: rows[i][3] == PRIMARY_KEY_FLAG && rows[i][0] == name
  {
    if rows == [] then []
    else
      var rest := MySqlPrimaryKeys(rows[1..]);
      assert forall i | 0 <= i < |rows| - 1 :: rows[1..][i] == rows[i + 1];
      (if rows[0][3] == PRIMARY_KEY_FLAG then [rows[0][0]] else []) + rest
  }

  /** The key list keeps row order: it distributes over concatenation. */
  lemma {:induction false} MySqlPrimaryKeysAppend(a: seq<Row>, b: seq<Row>)
    requires AllWide(a, 4) && AllWide(b, 4)
    ensures AllWide(a + b, 4)
    ensures MySqlPrimaryKeys(a + b) == MySqlPrimaryKeys(a) + MySqlPrimaryKeys(b)
    decreases |a|
  {
    assert AllWide(a + b, 4) by {
      forall i | 0 <= i < |a + b| ensures |(a + b)[i]| >= 4 {
        if i < |a| { assert (a + b)[i] == a[i]; } else { assert (a + b)[i] == b[i - |a|]; }
      }
    }
    if a != [] {
      assert (a + b)[1..] == a[1..] + b;
      assert AllWide(a[1..], 4) by {
        forall i | 0 <= i < |a| - 1 ensures |a[1..][i]| >= 4 { assert a[1..][i] == a[i + 1]; }
      }
      MySqlPrimaryKeysAppend(a[1..], b);
    } else {
      assert a + b == b;
    }
  }

  /**
    The column names `query_table` reports: the first field of each
    description entry, or none when the cursor has no description.
  */
  function ColumnNames(description: Option<seq<Row>>): (names: seq<string>)
    requires description.Some? ==> AllWide(description.value, 1)
    ensures description.None? ==> names == []
    ensures description.Some? ==> |names| == |description.value|
    ensures description.Some? ==>
      forall i | 0 <= i < |names| :: names[i] == description.value[i][0]
  {
    // Python tests `if cursor.description:`, so None and an empty
    // description both give no names; FirstFields of [] is [] as well.
    match description
    case None => []
    case Some(entries) => FirstFields(entries)
  }

  /** A column as the diagram uses it: row fields 0 (name) and 1 (type). */
  datatype Column = Column(name: string, typ: string)

  /** One row of the foreign-key query: the column and the table it references. */
  datatype ForeignKey = ForeignKey(column: string, referenced: string)

  /**
    The outcome of the per-table foreign-key query: the rows it returned
    (possibly none), or the fact that it raised.
  */
  datatype ForeignKeyLookup = Declared(rows: seq<ForeignKey>) | QueryFailed

  /** Everything the diagram needs to know about one listed table. */
  datatype Table = Table(
    name: string,
    columns: seq<Column>,
    primaryKeys: seq<string>,
    foreignKeys: ForeignKeyLookup)

  /** A `DESCRIBE` or `information_schema.columns` row as a column. */
  function ColumnOfRow(row: Row): (c: Column)
    requires |row| >= 2
    ensures c.name == row[0] && c.typ == row[1]
  {
    Column(row[0], row[1])
  }

  /**
    A MySQL table as the diagram sees it: the columns are the `DESCRIBE`
    rows' names and types, the key list is derived from the same rows.
  */
  function MySqlTable(name: string, rows: seq<Row>, foreignKeys: ForeignKeyLookup): (t: Table)
    requires AllWide(rows, 4)
    ensures t.name == name && |t.columns| == |rows|
    ensures forall k | 0 <= k < |rows| :: t.columns[k] == ColumnOfRow(rows[k])
    ensures t.primaryKeys == MySqlPrimaryKeys(rows)
    ensures t.foreignKeys == foreignKeys
  {
    Table(name, seq(|rows|, k requires 0 <= k < |rows| => ColumnOfRow(rows[k])), MySqlPrimaryKeys(rows), foreignKeys)
  }

  /** The table list, in catalog order. */
  function TableNames(tables: seq<Table>): (names: seq<string>)
    ensures |names| == |tables|
    ensures forall i | 0 <= i < |tables| :: names[i] == tables[i].name
  {
    seq(|tables|, i requires 0 <= i < |tables| => tables[i].name)
  }
}
