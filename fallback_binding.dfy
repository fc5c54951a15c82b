/**
  The naming-convention fallback as written (db_explorer.py lines 140-148,
  repeated at 168-176, 228-236 and 256-264).

  Line 142 binds the whole value `describe_table` returns, the pair
  (columns, primary_keys), to `columns`. The loop at 143 therefore visits the
  list of rows and then the key list, and `column[0]` of the row list is a
  row tuple, which has no `endswith`. The fallback thus raises whenever it is
  reached, and the error escapes generate_er_diagram. Unpacking the pair, as
  lines 98 and 186 do, gives the per-column rule `ErDiagram.FallbackTargets`
  states, which the rest of the model uses.
*/
module FallbackBinding {
  import opened Wrappers
  import opened Catalog
  import opened ErDiagram

  /** The Python values the fallback touches. */
  datatype PyValue = Str(s: string) | Tuple(items: seq<PyValue>) | List(items: seq<PyValue>)

  /** The exceptions the fallback can raise. */
  datatype PyError = IndexError | AttributeError

  /** A fetched column row, as far as the fallback reads it. */
  function RowValue(c: Column): PyValue {
    Tuple([Str(c.name), Str(c.typ)])
  }

  /** The list of fetched column rows. */
  function RowsValue(columns: seq<Column>): (v: PyValue)
    ensures v.List? && |v.items| == |columns|
  {
    List(seq(|columns|, k requires 0 <= k < |columns| => RowValue(columns[k])))
  }

  /** What `describe_table` returns: the pair (columns, primary_keys). */
  function DescribeValue(t: Table): PyValue {
    Tuple([RowsValue(t.columns), List(seq(|t.primaryKeys|, k requires 0 <= k < |t.primaryKeys| => Str(t.primaryKeys[k])))])
  }

  /** `v[0]`. */
  function Subscript0(v: PyValue): Result<PyValue, PyError> {
    match v
    case Str(s) => if s == [] then Failure(IndexError) else Success(Str([s[0]]))
    case Tuple(items) => if items == [] then Failure(IndexError) else Success(items[0])
    case List(items) => if items == [] then Failure(IndexError) else Success(items[0])
  }

  /** `v.endswith(suffix)`: only strings have the method. */
  function EndsWithCall(v: PyValue, suffix: string): Result<bool, PyError> {
    match v
    case Str(s) => Success(EndsWith(s, suffix))
    case _ => Failure(AttributeError)
  }

  /**
    The loop at lines 143-148 over the items of the bound value: for each
    item, take `item[0]`, and if that ends in `_id` and the rest is a listed
    table, emit that table. The first exception stops the loop.
  */
  function ScanAsWritten(items: seq<PyValue>, tableNames: seq<string>): (r: Result<seq<string>, PyError>)
    ensures r.Success? ==> |r.value| <= |items| && forall k | 0 <= k < |r.value| :: r.value[k] in tableNames
  {
    if items == [] then Success([])
    else
      match Subscript0(items[0])
      case Failure(e) => Failure(e)
      case Success(field) =>
        match EndsWithCall(field, KEY_SUFFIX)
        case Failure(e) => Failure(e)
        case Success(ends) =>
          var here :=
            if ends && field.Str? && field.s[..|field.s| - |KEY_SUFFIX|] in tableNames
            then [field.s[..|field.s| - |KEY_SUFFIX|]] else [];
          match ScanAsWritten(items[1..], tableNames)
          case Failure(e) => Failure(e)
          case Success(rest) => Success(here + rest)
  }

  /** The fallback as written: the loop over the whole `describe_table` pair. */
  function FallbackAsWritten(t: Table, tableNames: seq<string>): (r: Result<seq<string>, PyError>)
    ensures r.Failure?
  {
    var rows := RowsValue(t.columns);
    assert DescribeValue(t).items[0] == rows;
    assert t.columns != [] ==> rows.items[0] == RowValue(t.columns[0]);
    ScanAsWritten(DescribeValue(t).items, tableNames)
  }

  /**
    As written, the fallback never produces a relationship: it raises
    IndexError for a table without columns and AttributeError otherwise.
  */
  lemma AsWrittenRaises(t: Table, tableNames: seq<string>)
    ensures FallbackAsWritten(t, tableNames)
         == Failure(if t.columns == [] then IndexError else AttributeError)
  {
    var rows := RowsValue(t.columns);
    assert DescribeValue(t).items[0] == rows;
    if t.columns != [] {
      assert rows.items[0] == RowValue(t.columns[0]);
    }
  }

  /**
    With the pair unpacked, the same loop over the column rows infers exactly
    the tables the per-column convention names, in column order.
  */
  lemma {:induction false} UnpackedScanMatchesConvention(columns: seq<Column>, tableNames: seq<string>)
    ensures ScanAsWritten(RowsValue(columns).items, tableNames) == Success(FallbackTargets(columns, tableNames))
    decreases |columns|
  {
    if columns != [] {
      var items := RowsValue(columns).items;
      assert items[0] == RowValue(columns[0]);
      assert items[1..] == RowsValue(columns[1..]).items;
      UnpackedScanMatchesConvention(columns[1..], tableNames);
      assert columns == [columns[0]] + columns[1..];
      ConventionStep(columns[0], tableNames);
      FallbackTargetsCons(columns[0], columns[1..], tableNames);
    }
  }

  /** The fallback's result for a single column. */
  lemma ConventionStep(c: Column, tableNames: seq<string>)
    ensures FallbackTargets([c], tableNames)
         == (if EndsWith(c.name, KEY_SUFFIX) && c.name[..|c.name| - |KEY_SUFFIX|] in tableNames
             then [c.name[..|c.name| - |KEY_SUFFIX|]] else [])
  {
    assert [c][..0] == [];
  }

  /** The fallback scans the first column, then the rest. */
  lemma {:induction false} FallbackTargetsCons(c: Column, rest: seq<Column>, tableNames: seq<string>)
    ensures FallbackTargets([c] + rest, tableNames) == FallbackTargets([c], tableNames) + FallbackTargets(rest, tableNames)
    decreases |rest|
  {
    if rest != [] {
      var n := |rest| - 1;
      assert ([c] + rest)[..|[c] + rest| - 1] == [c] + rest[..n];
      FallbackTargetsCons(c, rest[..n], tableNames);
    }
  }

  /**
    For `orders(id, user_id)` with a failing foreign-key query and a table
    named `user`, the code as written raises where the convention infers
    `orders -> user`.
  */
  lemma OrdersUserExample()
    ensures var orders := Table("orders", [Column("id", "int"), Column("user_id", "int")], ["id"], QueryFailed);
      && FallbackAsWritten(orders, ["user", "orders"]) == Failure(AttributeError)
      && RelationTargets(orders, ["user", "orders"]) == ["user"]
  {
    var orders := Table("orders", [Column("id", "int"), Column("user_id", "int")], ["id"], QueryFailed);
    AsWrittenRaises(orders, ["user", "orders"]);
    var names := ["user", "orders"];
    assert ConventionTarget("id", names) == None;
    assert "user_id"[..4] == "user";
    assert ConventionTarget("user_id", names) == Some("user");
    assert orders.columns[..1] == [Column("id", "int")];
    assert FallbackTargets(orders.columns[..1], names) == [] by {
      assert orders.columns[..1][..0] == [];
    }
  }
}
