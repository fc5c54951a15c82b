/**
  Properties of the ER-diagram text: entity blocks, primary-key markers,
  type sanitisation, the two-tier relationship rule, ordering and line
  counts.
*/
module ErProperties {
  import opened Wrappers
  import opened Catalog
  import opened ErDiagram

  // ---------------------------------------------------------------------
  // Entity blocks and column lines
  // ---------------------------------------------------------------------

  /**
    A table with N columns gets exactly N column lines, in column order,
    between its header line and its footer line.
  */
  lemma EntityBlockShape(f: Format, t: Table)
    ensures |EntityBlock(f, t)| == |t.columns| + 2
    ensures EntityBlock(f, t)[0] == EntityHeader(f, t.name)
    ensures EntityBlock(f, t)[|t.columns| + 1] == EntityFooter(f)
    ensures forall k | 0 <= k < |t.columns| ::
      EntityBlock(f, t)[k + 1] == ColumnLine(f, t.columns[k], t.primaryKeys)
  {
    var lines := ColumnLines(f, t.columns, t.primaryKeys);
    assert EntityBlock(f, t) == [EntityHeader(f, t.name)] + lines + [EntityFooter(f)];
    forall k | 0 <= k < |t.columns|
      ensures EntityBlock(f, t)[k + 1] == ColumnLine(f, t.columns[k], t.primaryKeys)
    {
      assert EntityBlock(f, t)[k + 1] == lines[k];
    }
  }

  /** Replacing commas is idempotent, and leaves comma-free text alone. */
  lemma SanitizeIdempotent(s: string)
    ensures Sanitize(Sanitize(s)) == Sanitize(s)
    ensures Sanitize(s) == s <==> ',' !in s
  {
    if ',' in s {
      var i :| 0 <= i < |s| && s[i] == ',';
      assert Sanitize(s)[i] != s[i];
    }
  }

  /** `decimal(10,2)` is rendered as `decimal(10_2)`. */
  lemma SanitizeDecimal()
    ensures Sanitize("decimal(10,2)") == "decimal(10_2)"
  {
    var r := Sanitize("decimal(10,2)");
    assert |r| == 13;
    assert r[10] == '_';
    assert forall i | 0 <= i < 13 && i != 10 :: r[i] == "decimal(10,2)"[i];
  }

  /**
    The type part of a column line never holds a comma, so a comma can only
    come from the column's own name.
  */
  lemma ColumnLineCommaOnlyFromName(f: Format, c: Column, primaryKeys: seq<string>)
    ensures ',' in ColumnLine(f, c, primaryKeys) ==> ',' in c.name
  {
    var typ := Sanitize(c.typ);
    var marker := if c.name in primaryKeys then (if f.Mermaid? then " PK" else "*") else "";
    assert ',' !in typ && ',' !in marker;
    match f
    case Mermaid =>
      assert ColumnLine(f, c, primaryKeys) == "        " + typ + " " + c.name + marker;
    case PlantUml =>
      assert ColumnLine(f, c, primaryKeys) == "  " + marker + c.name + " : " + typ;
  }

  /** `line.startswith(prefix)`. */
  predicate StartsWith(line: string, prefix: string) {
    |prefix| <= |line| && line[..|prefix|] == prefix
  }

  /** The visible primary-key marker: a ` PK` suffix or a `*` after the indent. */
  predicate HasPkMarker(f: Format, line: string) {
    match f
    case Mermaid => EndsWith(line, " PK")
    case PlantUml => StartsWith(line, "  *")
  }

  /**
    A column name whose unmarked line cannot be mistaken for a marked one:
    in Mermaid, ` ` + name must not itself end in ` PK` (a column called
    `PK` would); in PlantUML, the name must not start with `*`.
  */
  predicate NameUnambiguous(f: Format, name: string) {
    match f
    case Mermaid => !EndsWith(" " + name, " PK")
    case PlantUml => !(|name| > 0 && name[0] == '*')
  }

  /** The Mermaid rule: the line's last three characters decide the marker. */
  lemma MermaidMarker(typ: string, name: string, isKey: bool)
    requires !EndsWith(" " + name, " PK")
    ensures EndsWith("        " + typ + " " + name + (if isKey then " PK" else ""), " PK") <==> isKey
  {
    var body := "        " + typ + " " + name;
    if !isKey {
      assert body + "" == body;
      var named := " " + name;
      assert body == "        " + typ + named;
      if |named| >= 3 {
        assert body[|body| - 3..] == named[|named| - 3..];
      } else if |named| == 2 {
        assert body[|body| - 2] == ' ';
      } else {
        assert body[|body| - 1] == ' ';
      }
    } else {
      assert (body + " PK")[|body + " PK"| - 3..] == " PK";
    }
  }

  /** The PlantUML rule: the fourth character decides the marker. */
  lemma PlantUmlMarker(typ: string, name: string, isKey: bool)
    requires !(|name| > 0 && name[0] == '*')
    ensures StartsWith("  " + (if isKey then "*" else "") + name + " : " + typ, "  *") <==> isKey
  {
    var line := "  " + (if isKey then "*" else "") + name + " : " + typ;
    if !isKey {
      if |name| > 0 {
        assert line[2] == name[0];
      } else {
        assert line[2] == ' ';
      }
    }
  }

  /**
    A column line carries the primary-key marker exactly when the column's
    name is in the table's primary-key list.
  */
  lemma PkMarkerIff(f: Format, c: Column, primaryKeys: seq<string>)
    requires NameUnambiguous(f, c.name)
    ensures HasPkMarker(f, ColumnLine(f, c, primaryKeys)) <==> c.name in primaryKeys
  {
    match f
    case Mermaid => MermaidMarker(Sanitize(c.typ), c.name, c.name in primaryKeys);
    case PlantUml => PlantUmlMarker(Sanitize(c.typ), c.name, c.name in primaryKeys);
  }

  /** Without the ambiguity condition the marker can mislead: a non-key column named `PK`. */
  lemma MermaidColumnNamedPk()
    ensures !NameUnambiguous(Mermaid, "PK")
    ensures HasPkMarker(Mermaid, ColumnLine(Mermaid, Column("PK", "int"), []))
  {
    var line := ColumnLine(Mermaid, Column("PK", "int"), []);
    assert line == "        int PK";
    assert line[|line| - 3..] == " PK";
    assert (" " + "PK")[|" " + "PK"| - 3..] == " PK";
  }

  /**
    For a MySQL table whose column names are distinct, column k's line
    carries the marker exactly when its `DESCRIBE` row is flagged `PRI`.
  */
  lemma MySqlKeyMarkers(f: Format, name: string, rows: seq<Row>, foreignKeys: ForeignKeyLookup, k: nat)
    requires AllWide(rows, 4) && k < |rows|
    requires forall i, j | 0 <= i < j < |rows| :: rows[i][0] != rows[j][0]
    requires NameUnambiguous(f, rows[k][0])
    ensures var t := MySqlTable(name, rows, foreignKeys);
      HasPkMarker(f, EntityBlock(f, t)[k + 1]) <==> rows[k][3] == PRIMARY_KEY_FLAG
  {
    var t := MySqlTable(name, rows, foreignKeys);
    EntityBlockShape(f, t);
    PkMarkerIff(f, t.columns[k], t.primaryKeys);
    if rows[k][0] in t.primaryKeys {
      var i :| 0 <= i < |rows| && rows[i][3] == PRIMARY_KEY_FLAG && rows[i][0] == rows[k][0];
      assert i == k;
    }
  }

  /** Number of lines that carry the primary-key marker. */
  function CountMarked(f: Format, lines: seq<string>): nat {
    if lines == [] then 0
    else CountMarked(f, lines[..|lines| - 1]) + (if HasPkMarker(f, lines[|lines| - 1]) then 1 else 0)
  }

  /** Number of columns whose name is in the primary-key list. */
  function KeyColumnCount(columns: seq<Column>, primaryKeys: seq<string>): nat {
    if columns == [] then 0
    else KeyColumnCount(columns[..|columns| - 1], primaryKeys)
         + (if columns[|columns| - 1].name in primaryKeys then 1 else 0)
  }

  lemma {:induction false} CountMarkedAppend(f: Format, a: seq<string>, b: seq<string>)
    ensures CountMarked(f, a + b) == CountMarked(f, a) + CountMarked(f, b)
    decreases |b|
  {
    if b == [] {
      assert a + b == a;
    } else {
      assert (a + b)[..|a + b| - 1] == a + b[..|b| - 1];
      CountMarkedAppend(f, a, b[..|b| - 1]);
    }
  }

  lemma {:induction false} ColumnLinesMarked(f: Format, columns: seq<Column>, primaryKeys: seq<string>)
    requires forall k | 0 <= k < |columns| :: NameUnambiguous(f, columns[k].name)
    ensures CountMarked(f, ColumnLines(f, columns, primaryKeys)) == KeyColumnCount(columns, primaryKeys)
    decreases |columns|
  {
    if columns != [] {
      var n := |columns| - 1;
      var lines := ColumnLines(f, columns, primaryKeys);
      assert lines[..n] == ColumnLines(f, columns[..n], primaryKeys);
      assert lines[n] == ColumnLine(f, columns[n], primaryKeys);
      ColumnLinesMarked(f, columns[..n], primaryKeys);
      PkMarkerIff(f, columns[n], primaryKeys);
    }
  }

  /**
    The entity block of a table carries as many primary-key markers as the
    table has columns named in its primary-key list.
  */
  lemma PkMarkerCount(f: Format, t: Table)
    requires forall k | 0 <= k < |t.columns| :: NameUnambiguous(f, t.columns[k].name)
    ensures CountMarked(f, EntityBlock(f, t)) == KeyColumnCount(t.columns, t.primaryKeys)
  {
    var header, footer := EntityHeader(f, t.name), EntityFooter(f);
    var lines := ColumnLines(f, t.columns, t.primaryKeys);
    assert !HasPkMarker(f, header) by {
      match f
      case Mermaid => assert header[|header| - 1] == '{';
      case PlantUml => assert header[0] == 'e';
    }
    assert !HasPkMarker(f, footer) by {
      match f
      case Mermaid => assert footer[|footer| - 1] == '}';
      case PlantUml => assert footer == "}";
    }
    CountMarkedAppend(f, [header], lines);
    CountMarkedAppend(f, [header] + lines, [footer]);
    assert CountMarked(f, [header]) == 0 by { assert [header][..0] == []; }
    assert CountMarked(f, [footer]) == 0 by { assert [footer][..0] == []; }
    ColumnLinesMarked(f, t.columns, t.primaryKeys);
  }

  /** The names of the columns that are in the primary-key list. */
  function KeyColumnNames(columns: seq<Column>, primaryKeys: seq<string>): set<string> {
    set k | 0 <= k < |columns| && columns[k].name in primaryKeys :: columns[k].name
  }

  predicate DistinctNames(columns: seq<Column>) {
    forall i, j | 0 <= i < j < |columns| :: columns[i].name != columns[j].name
  }

  predicate Distinct(s: seq<string>) {
    forall i, j | 0 <= i < j < |s| :: s[i] != s[j]
  }

  lemma {:induction false} KeyColumnCountIsCard(columns: seq<Column>, primaryKeys: seq<string>)
    requires DistinctNames(columns)
    ensures KeyColumnCount(columns, primaryKeys) == |KeyColumnNames(columns, primaryKeys)|
    decreases |columns|
  {
    if columns != [] {
      var n := |columns| - 1;
      var init := columns[..n];
      KeyColumnCountIsCard(init, primaryKeys);
      var last := columns[n].name;
      var before := KeyColumnNames(init, primaryKeys);
      assert last !in before by {
        forall k | 0 <= k < n ensures init[k].name != last {
          assert columns[k].name != columns[n].name;
        }
      }
      if last in primaryKeys {
        assert KeyColumnNames(columns, primaryKeys) == before + {last};
      } else {
        assert KeyColumnNames(columns, primaryKeys) == before;
      }
    }
  }

  lemma {:induction false} DistinctCard(s: seq<string>)
    requires Distinct(s)
    ensures |set x | x in s| == |s|
    decreases |s|
  {
    if s != [] {
      var n := |s| - 1;
      DistinctCard(s[..n]);
      assert (set x | x in s) == (set x | x in s[..n]) + {s[n]};
      assert s[n] !in (set x | x in s[..n]);
    }
  }

  /**
    When the column names are distinct and the K primary keys are distinct
    names of columns, the entity block carries exactly K markers.
  */
  lemma PkMarkersMatchDeclaredKeys(f: Format, t: Table)
    requires forall k | 0 <= k < |t.columns| :: NameUnambiguous(f, t.columns[k].name)
    requires DistinctNames(t.columns) && Distinct(t.primaryKeys)
    requires forall p | p in t.primaryKeys :: exists k | 0 <= k < |t.columns| :: t.columns[k].name == p
    ensures CountMarked(f, EntityBlock(f, t)) == |t.primaryKeys|
  {
    PkMarkerCount(f, t);
    KeyColumnCountIsCard(t.columns, t.primaryKeys);
    assert KeyColumnNames(t.columns, t.primaryKeys) == set x | x in t.primaryKeys;
    DistinctCard(t.primaryKeys);
  }

  // ---------------------------------------------------------------------
  // The two-tier relationship rule
  // ---------------------------------------------------------------------

  /**
    When the foreign-key query succeeded, a table gets one relationship line
    per returned row, in row order, and its columns and the table list play
    no part: an empty result gives no lines.
  */
  lemma DeclaredTier(f: Format, t: Table, tableNames: seq<string>, otherColumns: seq<Column>, otherNames: seq<string>)
    requires t.foreignKeys.Declared?
    ensures var lines := RelationLines(f, t.name, RelationTargets(t, tableNames));
      && |lines| == |t.foreignKeys.rows|
      && (forall k | 0 <= k < |lines| :: lines[k] == RelationLine(f, t.name, t.foreignKeys.rows[k].referenced))
    ensures RelationTargets(t, tableNames) == RelationTargets(t.(columns := otherColumns), otherNames)
  {
  }

  /** When the query raised, only the naming convention decides. */
  lemma FallbackTier(f: Format, t: Table, tableNames: seq<string>, otherKeys: seq<string>)
    requires t.foreignKeys.QueryFailed?
    ensures RelationTargets(t, tableNames) == FallbackTargets(t.columns, tableNames)
    ensures RelationTargets(t, tableNames) == RelationTargets(t.(primaryKeys := otherKeys), tableNames)
  {
  }

  /** The convention: `name` refers to `target` iff `name` is `target` + `_id` and `target` is listed. */
  lemma ConventionTargetIff(name: string, tableNames: seq<string>, target: string)
    ensures ConventionTarget(name, tableNames) == Some(target)
        <==> target in tableNames && name == target + KEY_SUFFIX
  {
    if target in tableNames && name == target + KEY_SUFFIX {
      assert EndsWith(name, KEY_SUFFIX);
      assert name[..|name| - |KEY_SUFFIX|] == target;
    }
  }

  /** There is no pluralisation: `user_id` does not refer to `users`. */
  lemma NoPluralisation()
    ensures ConventionTarget("user_id", ["users", "orders"]) == None
    ensures ConventionTarget("user_id", ["user", "orders"]) == Some("user")
  {
    ConventionTargetIff("user_id", ["users", "orders"], "user");
    ConventionTargetIff("user_id", ["user", "orders"], "user");
    assert "user" + KEY_SUFFIX == "user_id";
    assert "user" !in ["users", "orders"];
  }

  /** The fallback scans columns in order: it distributes over concatenation. */
  lemma {:induction false} FallbackTargetsAppend(a: seq<Column>, b: seq<Column>, tableNames: seq<string>)
    ensures FallbackTargets(a + b, tableNames) == FallbackTargets(a, tableNames) + FallbackTargets(b, tableNames)
    decreases |b|
  {
    if b == [] {
      assert a + b == a;
    } else {
      assert (a + b)[..|a + b| - 1] == a + b[..|b| - 1];
      FallbackTargetsAppend(a, b[..|b| - 1], tableNames);
    }
  }

  /**
    A table is inferred by the fallback exactly when it is listed and some
    column is named after it with the `_id` suffix.
  */
  lemma {:induction false} FallbackTargetsMembership(columns: seq<Column>, tableNames: seq<string>, target: string)
    ensures target in FallbackTargets(columns, tableNames)
        <==> target in tableNames
             && exists k | 0 <= k < |columns| :: columns[k].name == target + KEY_SUFFIX
    decreases |columns|
  {
    if columns != [] {
      var n := |columns| - 1;
      FallbackTargetsMembership(columns[..n], tableNames, target);
      ConventionTargetIff(columns[n].name, tableNames, target);
      if exists k | 0 <= k < |columns| :: columns[k].name == target + KEY_SUFFIX {
        var k :| 0 <= k < |columns| && columns[k].name == target + KEY_SUFFIX;
        if k < n {
          assert columns[..n][k].name == target + KEY_SUFFIX;
        }
      }
      if exists k | 0 <= k < n :: columns[..n][k].name == target + KEY_SUFFIX {
        var k :| 0 <= k < n && columns[..n][k].name == target + KEY_SUFFIX;
        assert columns[k].name == target + KEY_SUFFIX;
      }
    }
  }

  // ---------------------------------------------------------------------
  // Framing
  // ---------------------------------------------------------------------

  /**
    The text opens with the code fence and diagram keyword, closes with the
    fence (after `@enduml` in PlantUML) without a final newline, and holds
    the newline-terminated body lines in between.
  */
  lemma DiagramFraming(f: Format, tables: seq<Table>)
    ensures var text := DiagramText(f, tables);
      var open, close := OpenText(f), CloseText(f);
      && |open| + |close| <= |text|
      && text[..|open|] == open
      && text[|text| - |close|..] == close
      && text[|open| .. |text| - |close|] == Terminated(BodyLines(f, tables))
    ensures DiagramText(f, tables)[|DiagramText(f, tables)| - 3..] == "```"
  {
    var text := DiagramText(f, tables);
    var open, body, close := OpenText(f), Terminated(BodyLines(f, tables)), CloseText(f);
    assert text == open + body + close;
    assert text[|text| - 3..] == close[|close| - 3..];
  }

  // ---------------------------------------------------------------------
  // Ordering and counts
  // ---------------------------------------------------------------------

  lemma {:induction false} FlattenAppend<T>(a: seq<seq<T>>, b: seq<seq<T>>)
    ensures Flatten(a + b) == Flatten(a) + Flatten(b)
    decreases |b|
  {
    if b == [] {
      assert a + b == a;
    } else {
      var n := |b| - 1;
      assert (a + b)[..|a + b| - 1] == a + b[..n];
      FlattenAppend(a, b[..n]);
    }
  }

  /** The k-th group of a flattened list sits right after the groups before it. */
  lemma FlattenAt<T>(groups: seq<seq<T>>, k: nat)
    requires k < |groups|
    ensures var offset := |Flatten(groups[..k])|;
      offset + |groups[k]| <= |Flatten(groups)|
      && Flatten(groups)[offset .. offset + |groups[k]|] == groups[k]
  {
    assert groups == groups[..k] + [groups[k]] + groups[k + 1..];
    FlattenAppend(groups[..k] + [groups[k]], groups[k + 1..]);
    FlattenSnoc(groups[..k], groups[k]);
  }

  lemma SliceOfPrefix<T>(a: seq<T>, b: seq<T>, lo: nat, hi: nat)
    requires lo <= hi <= |a|
    ensures (a + b)[lo..hi] == a[lo..hi]
  {
  }

  lemma SliceOfSuffix<T>(a: seq<T>, b: seq<T>, lo: nat, hi: nat)
    requires lo <= hi <= |b|
    ensures (a + b)[|a| + lo .. |a| + hi] == b[lo..hi]
  {
  }

  /**
    Table k's entity block appears whole, right after the blocks of the
    tables listed before it: blocks follow the table-list order.
  */
  lemma EntityBlockInPlace(f: Format, tables: seq<Table>, k: nat)
    requires k < |tables|
    ensures var offset := |Flatten(EntityBlocks(f, tables[..k]))|;
      var block := EntityBlock(f, tables[k]);
      offset + |block| <= |BodyLines(f, tables)|
      && BodyLines(f, tables)[offset .. offset + |block|] == block
  {
    var groups := EntityBlocks(f, tables);
    assert groups[..k] == EntityBlocks(f, tables[..k]);
    FlattenAt(groups, k);
    var offset := |Flatten(groups[..k])|;
    SliceOfPrefix(Flatten(groups), Flatten(RelationGroups(f, tables, TableNames(tables))),
                  offset, offset + |groups[k]|);
  }

  /** Group k of the flattened groups sits after the prefix and the groups before it. */
  lemma GroupInPlace<T>(prefix: seq<T>, groups: seq<seq<T>>, k: nat)
    requires k < |groups|
    ensures var offset := |prefix| + |Flatten(groups[..k])|;
      offset + |groups[k]| <= |prefix + Flatten(groups)|
      && (prefix + Flatten(groups))[offset .. offset + |groups[k]|] == groups[k]
  {
    FlattenAt(groups, k);
    var offset := |Flatten(groups[..k])|;
    SliceOfSuffix(prefix, Flatten(groups), offset, offset + |groups[k]|);
  }

  /**
    Table k's relationship lines appear after all entity blocks and after
    the relationship lines of the tables listed before it.
  */
  lemma RelationGroupInPlace(f: Format, tables: seq<Table>, k: nat)
    requires k < |tables|
    ensures var names := TableNames(tables);
      var offset := |Flatten(EntityBlocks(f, tables))| + |Flatten(RelationGroups(f, tables[..k], names))|;
      var group := RelationLines(f, tables[k].name, RelationTargets(tables[k], names));
      offset + |group| <= |BodyLines(f, tables)|
      && BodyLines(f, tables)[offset .. offset + |group|] == group
  {
    var names := TableNames(tables);
    var groups := RelationGroups(f, tables, names);
    assert groups[..k] == RelationGroups(f, tables[..k], names) by {
      assert forall i | 0 <= i < k :: groups[..k][i] == RelationGroups(f, tables[..k], names)[i];
    }
    GroupInPlace(Flatten(EntityBlocks(f, tables)), groups, k);
  }

  /** Total number of columns over all tables. */
  function TotalColumns(tables: seq<Table>): nat {
    if tables == [] then 0 else TotalColumns(tables[..|tables| - 1]) + |tables[|tables| - 1].columns|
  }

  /** Total number of rows the successful foreign-key queries returned. */
  function TotalForeignKeyRows(tables: seq<Table>): nat {
    if tables == [] then 0
    else TotalForeignKeyRows(tables[..|tables| - 1])
         + match tables[|tables| - 1].foreignKeys
           case Declared(rows) => |rows|
           case QueryFailed => 0
  }

  /** The entity part has two framing lines per table plus one line per column. */
  lemma {:induction false} EntityLineCount(f: Format, tables: seq<Table>)
    ensures |Flatten(EntityBlocks(f, tables))| == TotalColumns(tables) + 2 * |tables|
    decreases |tables|
  {
    if tables != [] {
      var n := |tables| - 1;
      assert EntityBlocks(f, tables) == EntityBlocks(f, tables[..n]) + [EntityBlock(f, tables[n])];
      FlattenSnoc(EntityBlocks(f, tables[..n]), EntityBlock(f, tables[n]));
      EntityLineCount(f, tables[..n]);
    }
  }

  /**
    When every foreign-key query succeeded, there is exactly one
    relationship line per returned row, and no edge is dropped or merged.
  */
  lemma {:induction false} DeclaredRelationCount(f: Format, tables: seq<Table>, tableNames: seq<string>)
    requires forall i | 0 <= i < |tables| :: tables[i].foreignKeys.Declared?
    ensures |Flatten(RelationGroups(f, tables, tableNames))| == TotalForeignKeyRows(tables)
    decreases |tables|
  {
    if tables != [] {
      var n := |tables| - 1;
      var group := RelationLines(f, tables[n].name, RelationTargets(tables[n], tableNames));
      assert RelationGroups(f, tables, tableNames) == RelationGroups(f, tables[..n], tableNames) + [group];
      FlattenSnoc(RelationGroups(f, tables[..n], tableNames), group);
      DeclaredRelationCount(f, tables[..n], tableNames);
    }
  }

  // ---------------------------------------------------------------------
  // Worked examples: users(id PK, name) and orders(id PK, user_id)
  // ---------------------------------------------------------------------

  function Users(fk: ForeignKeyLookup): Table {
    Table("users", [Column("id", "int"), Column("name", "varchar(50)")], ["id"], fk)
  }

  function Orders(fk: ForeignKeyLookup): Table {
    Table("orders", [Column("id", "int"), Column("user_id", "int")], ["id"], fk)
  }

  /**
    An empty but successful foreign-key query gives no relationship lines,
    and a failed one gives none either, because `user` is not `users`.
  */
  lemma NoRelationshipsWithoutDeclaredKeys()
    ensures Flatten(RelationGroups(Mermaid, [Users(Declared([])), Orders(Declared([]))], ["users", "orders"])) == []
    ensures Flatten(RelationGroups(Mermaid, [Users(QueryFailed), Orders(QueryFailed)], ["users", "orders"])) == []
  {
    var names := ["users", "orders"];
    NoPluralisation();
    assert ConventionTarget("id", names) == None;
    assert ConventionTarget("name", names) == None;
    assert FallbackTargets(Users(QueryFailed).columns, names) == [];
    assert FallbackTargets(Orders(QueryFailed).columns, names) == [];
    var failed := [Users(QueryFailed), Orders(QueryFailed)];
    assert RelationGroups(Mermaid, failed, names) == [[], []];
    var none: seq<seq<string>> := [[], []];
    assert Flatten(none) == [];
    var empty := [Users(Declared([])), Orders(Declared([]))];
    assert RelationGroups(Mermaid, empty, names) == [[], []];
  }

  /** A declared `orders.user_id -> users` key gives the one Mermaid line. */
  lemma DeclaredKeyExample()
    ensures var tables := [Users(Declared([])), Orders(Declared([ForeignKey("user_id", "users")]))];
      Flatten(RelationGroups(Mermaid, tables, TableNames(tables)))
        == ["    orders ||--o{ users : references"]
  {
    var tables := [Users(Declared([])), Orders(Declared([ForeignKey("user_id", "users")]))];
    var line := RelationLine(Mermaid, "orders", "users");
    assert line == "    orders ||--o{ users : references";
    assert RelationTargets(tables[0], TableNames(tables)) == [];
    assert RelationTargets(tables[1], TableNames(tables)) == ["users"];
    assert RelationLines(Mermaid, "orders", ["users"]) == [line];
    assert RelationGroups(Mermaid, tables, TableNames(tables)) == [[], [line]];
    var groups: seq<seq<string>> := [[], [line]];
    assert groups[..1] == [[]];
    assert Flatten(groups[..1]) == [];
  }
}
