/**
  ER-diagram synthesis (db_explorer.py, generate_er_diagram, lines 87-269).

  The text is specified as an opening frame, a list of body lines each
  followed by a newline, and a closing frame. The body is every table's
  entity block, in table-list order, followed by every table's relationship
  lines, in table-list order. `GenerateErDiagram` builds the same text the way
  the source does, by appending to an accumulator inside nested loops.

  The MySQL and PostgreSQL branches of the source render identically once the
  catalog has been fetched, so the engine does not appear here.
*/
module ErDiagram {
  import opened Wrappers
  import opened Catalog

  /** The two notations; any format other than `mermaid` renders as PlantUML. */
  datatype Format = Mermaid | PlantUml

  /** The suffix the naming-convention fallback strips from a column name. */
  const KEY_SUFFIX := "_id"

  // ---------------------------------------------------------------------
  // Framing and single lines
  // ---------------------------------------------------------------------

  /** The opening frame, ending in a newline. */
  function OpenText(f: Format): string {
    match f
    case Mermaid => "```mermaid\nerDiagram\n"
    case PlantUml => "```plantuml\n@startuml\n"
  }

  /** The closing frame; the text does not end in a newline. */
  function CloseText(f: Format): string {
    match f
    case Mermaid => "```"
    case PlantUml => "@enduml\n```"
  }

  /** The line that opens a table's entity block. */
  function EntityHeader(f: Format, table: string): string {
    match f
    case Mermaid => "    " + table + " {"
    case PlantUml => "entity " + table + " {"
  }

  /** The line that closes a table's entity block. */
  function EntityFooter(f: Format): string {
    match f
    case Mermaid => "    }"
    case PlantUml => "}"
  }

  /** `str.replace(',', '_')`: the notations use commas as delimiters. */
  function Sanitize(s: string): (r: string)
    ensures |r| == |s|
    ensures ',' !in r
    ensures forall i | 0 <= i < |s| :: s[i] != ',' ==> r[i] == s[i]
    ensures forall i | 0 <= i < |s| :: s[i] == ',' ==> r[i] == '_'
  {
    seq(|s|, i requires 0 <= i < |s| => if s[i] == ',' then '_' else s[i])
  }

  /**
    One column line: `type name` with a ` PK` suffix in Mermaid,
    `name : type` with a `*` prefix in PlantUML.
  */
  function ColumnLine(f: Format, c: Column, primaryKeys: seq<string>): string {
    var isKey := c.name in primaryKeys;
    match f
    case Mermaid => "        " + Sanitize(c.typ) + " " + c.name + (if isKey then " PK" else "")
    case PlantUml => "  " + (if isKey then "*" else "") + c.name + " : " + Sanitize(c.typ)
  }

  /** One relationship line from `table` to `referenced`. */
  function RelationLine(f: Format, table: string, referenced: string): string {
    match f
    case Mermaid => "    " + table + " ||--o{ " + referenced + " : references"
    case PlantUml => table + " }|--o| " + referenced + " : references"
  }

  // ---------------------------------------------------------------------
  // Sequences of lines
  // ---------------------------------------------------------------------

  /** The concatenation of a list of line groups, in order. */
  function Flatten<T>(groups: seq<seq<T>>): seq<T> {
    if groups == [] then [] else Flatten(groups[..|groups| - 1]) + groups[|groups| - 1]
  }

  /** Lines as text: every line followed by a newline. */
  function Terminated(lines: seq<string>): string {
    if lines == [] then "" else Terminated(lines[..|lines| - 1]) + lines[|lines| - 1] + "\n"
  }

  /** One column line per column, in column order. */
  function ColumnLines(f: Format, columns: seq<Column>, primaryKeys: seq<string>): (lines: seq<string>)
    ensures |lines| == |columns|
    ensures forall k | 0 <= k < |columns| :: lines[k] == ColumnLine(f, columns[k], primaryKeys)
  {
    seq(|columns|, k requires 0 <= k < |columns| => ColumnLine(f, columns[k], primaryKeys))
  }

  /**
    A table's entity block: exactly one line per column, in column order,
    between the header line and the footer line.
  */
  function EntityBlock(f: Format, t: Table): (block: seq<string>)
  {
    [EntityHeader(f, t.name)] + ColumnLines(f, t.columns, t.primaryKeys) + [EntityFooter(f)]
  }

  /** The entity blocks of the tables, one group per table. */
  function EntityBlocks(f: Format, tables: seq<Table>): (blocks: seq<seq<string>>)
    ensures |blocks| == |tables|
  {
    seq(|tables|, i requires 0 <= i < |tables| => EntityBlock(f, tables[i]))
  }

  // ---------------------------------------------------------------------
  // Relationship inference
  // ---------------------------------------------------------------------

  /** `name.endswith(suffix)`. */
  predicate EndsWith(name: string, suffix: string) {
    |suffix| <= |name| && name[|name| - |suffix|..] == suffix
  }

  /**
    The naming-convention rule for one column name: a name ending in `_id`
    refers to the table named by the rest of it, when exactly that name is
    in the table list.
  */
  function ConventionTarget(name: string, tableNames: seq<string>): (target: Option<string>)
    ensures target.Some? ==> target.value in tableNames && name == target.value + KEY_SUFFIX
  {
    if EndsWith(name, KEY_SUFFIX) && name[..|name| - |KEY_SUFFIX|] in tableNames then
      assert name == name[..|name| - |KEY_SUFFIX|] + KEY_SUFFIX;
      Some(name[..|name| - |KEY_SUFFIX|])
    else
      None
  }

  /**
    The tables the fallback infers for one table, in column order: one per
    column whose name matches the naming convention.
  */
  function FallbackTargets(columns: seq<Column>, tableNames: seq<string>): (targets: seq<string>)
    ensures |targets| <= |columns|
    ensures forall k | 0 <= k < |targets| :: targets[k] in tableNames
  {
    if columns == [] then []
    else
      var rest := FallbackTargets(columns[..|columns| - 1], tableNames);
      match ConventionTarget(columns[|columns| - 1].name, tableNames)
      case Some(target) => rest + [target]
      case None => rest
  }

  /** The referenced table of every declared foreign-key row, in row order. */
  function DeclaredTargets(rows: seq<ForeignKey>): (targets: seq<string>)
    ensures |targets| == |rows|
    ensures forall k | 0 <= k < |rows| :: targets[k] == rows[k].referenced
  {
    seq(|rows|, k requires 0 <= k < |rows| => rows[k].referenced)
  }

  /**
    The two-tier rule: the declared foreign keys when the query succeeded
    (even with no rows), the naming convention only when it raised.
  */
  function RelationTargets(t: Table, tableNames: seq<string>): seq<string> {
    match t.foreignKeys
    case Declared(rows) => DeclaredTargets(rows)
    case QueryFailed => FallbackTargets(t.columns, tableNames)
  }

  /** One relationship line per target, in order. */
  function RelationLines(f: Format, table: string, targets: seq<string>): (lines: seq<string>)
    ensures |lines| == |targets|
  {
    seq(|targets|, k requires 0 <= k < |targets| => RelationLine(f, table, targets[k]))
  }

  /** The relationship lines of the tables, one group per table. */
  function RelationGroups(f: Format, tables: seq<Table>, tableNames: seq<string>): (groups: seq<seq<string>>)
    ensures |groups| == |tables|
  {
    seq(|tables|, i requires 0 <= i < |tables| =>
      RelationLines(f, tables[i].name, RelationTargets(tables[i], tableNames)))
  }

  // ---------------------------------------------------------------------
  // The whole diagram
  // ---------------------------------------------------------------------

  /** Every entity block, then every relationship line. */
  function BodyLines(f: Format, tables: seq<Table>): seq<string> {
    Flatten(EntityBlocks(f, tables)) + Flatten(RelationGroups(f, tables, TableNames(tables)))
  }

  /** The diagram text for a catalog snapshot. */
  function DiagramText(f: Format, tables: seq<Table>): string {
    OpenText(f) + Terminated(BodyLines(f, tables)) + CloseText(f)
  }

  /** Appending one line to the accumulator appends it, terminated, to the text. */
  lemma TerminatedSnoc(lines: seq<string>, line: string)
    ensures Terminated(lines + [line]) == Terminated(lines) + line + "\n"
  {
  }

  /** Closing a group extends the flattened groups by that group. */
  lemma FlattenSnoc<T>(groups: seq<seq<T>>, group: seq<T>)
    ensures Flatten(groups + [group]) == Flatten(groups) + group
  {
  }

  /** Appending one group of lines appends its text. */
  lemma {:induction false} TerminatedAppend(a: seq<string>, b: seq<string>)
    ensures Terminated(a + b) == Terminated(a) + Terminated(b)
    decreases |b|
  {
    if b == [] {
      assert a + b == a;
    } else {
      var init, last := b[..|b| - 1], b[|b| - 1];
      assert a + b == (a + init) + [last];
      assert b == init + [last];
      TerminatedSnoc(a + init, last);
      TerminatedSnoc(init, last);
      TerminatedAppend(a, init);
    }
  }

  /** Appending a terminated line to the accumulator extends its lines by one. */
  lemma AppendLine(prefix: string, lines: seq<string>, line: string)
    ensures prefix + Terminated(lines) + line + "\n" == prefix + Terminated(lines + [line])
  {
    TerminatedSnoc(lines, line);
  }

  lemma ColumnLinesSnoc(f: Format, columns: seq<Column>, j: nat, primaryKeys: seq<string>)
    requires j < |columns|
    ensures ColumnLines(f, columns[..j + 1], primaryKeys)
         == ColumnLines(f, columns[..j], primaryKeys) + [ColumnLine(f, columns[j], primaryKeys)]
  {
  }

  lemma RelationLinesSnoc(f: Format, table: string, targets: seq<string>, target: string)
    ensures RelationLines(f, table, targets + [target])
         == RelationLines(f, table, targets) + [RelationLine(f, table, target)]
  {
  }

  lemma DeclaredTargetsSnoc(rows: seq<ForeignKey>, j: nat)
    requires j < |rows|
    ensures DeclaredTargets(rows[..j + 1]) == DeclaredTargets(rows[..j]) + [rows[j].referenced]
  {
  }

  lemma FallbackTargetsStep(columns: seq<Column>, j: nat, tableNames: seq<string>)
    requires j < |columns|
    ensures FallbackTargets(columns[..j + 1], tableNames)
         == FallbackTargets(columns[..j], tableNames)
            + match ConventionTarget(columns[j].name, tableNames)
              case Some(target) => [target]
              case None => []
  {
    assert columns[..j + 1][..j] == columns[..j];
  }

  /**
    The entity-block loop body of generate_er_diagram (lines 96-118 and
    184-206): appends the header, one line per column and the footer.
  */
  method AppendEntityBlock(f: Format, t: Table, diagram: string) returns (result: string)
    ensures result == diagram + Terminated(EntityBlock(f, t))
  {
    ghost var lines: seq<string> := [];
    var header := EntityHeader(f, t.name);
    AppendLine(diagram, lines, header);
    result, lines := diagram + header + "\n", lines + [header];
    for j := 0 to |t.columns|
      invariant result == diagram + Terminated(lines)
      invariant lines == [header] + ColumnLines(f, t.columns[..j], t.primaryKeys)
    {
      var line := ColumnLine(f, t.columns[j], t.primaryKeys);
      AppendLine(diagram, lines, line);
      ColumnLinesSnoc(f, t.columns, j, t.primaryKeys);
      result, lines := result + line + "\n", lines + [line];
    }
    var footer := EntityFooter(f);
    AppendLine(diagram, lines, footer);
    result, lines := result + footer + "\n", lines + [footer];
    assert t.columns[..|t.columns|] == t.columns;
  }

  /**
    The relationship loop body of generate_er_diagram (lines 122-176 and
    210-264): one line per declared foreign-key row when the query
    succeeded, the naming convention only when it raised.
  */
  method AppendRelations(f: Format, t: Table, tableNames: seq<string>, diagram: string) returns (result: string)
    ensures result == diagram + Terminated(RelationLines(f, t.name, RelationTargets(t, tableNames)))
  {
    result := diagram;
    ghost var targets: seq<string> := [];
    match t.foreignKeys {
      case Declared(rows) =>
        for j := 0 to |rows|
          invariant targets == DeclaredTargets(rows[..j])
          invariant result == diagram + Terminated(RelationLines(f, t.name, targets))
        {
          var line := RelationLine(f, t.name, rows[j].referenced);
          AppendLine(diagram, RelationLines(f, t.name, targets), line);
          RelationLinesSnoc(f, t.name, targets, rows[j].referenced);
          DeclaredTargetsSnoc(rows, j);
          result, targets := result + line + "\n", targets + [rows[j].referenced];
        }
        assert rows[..|rows|] == rows;
      case QueryFailed =>
        // The source binds the whole (columns, primary_keys) pair here
        // (line 142) and so raises; this is the per-column rule it intends.
        for j := 0 to |t.columns|
          invariant targets == FallbackTargets(t.columns[..j], tableNames)
          invariant result == diagram + Terminated(RelationLines(f, t.name, targets))
        {
          var name := t.columns[j].name;
          FallbackTargetsStep(t.columns, j, tableNames);
          if EndsWith(name, KEY_SUFFIX) {
            var referenced := name[..|name| - |KEY_SUFFIX|];
            if referenced in tableNames {
              var line := RelationLine(f, t.name, referenced);
              AppendLine(diagram, RelationLines(f, t.name, targets), line);
              RelationLinesSnoc(f, t.name, targets, referenced);
              result, targets := result + line + "\n", targets + [referenced];
            }
          }
        }
        assert t.columns[..|t.columns|] == t.columns;
    }
  }

  /** Appending a group's text to the accumulator extends its lines by the group. */
  lemma AppendGroup(prefix: string, lines: seq<string>, group: seq<string>)
    ensures prefix + Terminated(lines) + Terminated(group) == prefix + Terminated(lines + group)
  {
    TerminatedAppend(lines, group);
  }

  lemma EntityBlocksStep(f: Format, tables: seq<Table>, i: nat)
    requires i < |tables|
    ensures Flatten(EntityBlocks(f, tables[..i + 1]))
         == Flatten(EntityBlocks(f, tables[..i])) + EntityBlock(f, tables[i])
  {
    assert EntityBlocks(f, tables[..i + 1]) == EntityBlocks(f, tables[..i]) + [EntityBlock(f, tables[i])];
    FlattenSnoc(EntityBlocks(f, tables[..i]), EntityBlock(f, tables[i]));
  }

  lemma RelationGroupsStep(f: Format, tables: seq<Table>, tableNames: seq<string>, i: nat)
    requires i < |tables|
    ensures Flatten(RelationGroups(f, tables[..i + 1], tableNames))
         == Flatten(RelationGroups(f, tables[..i], tableNames))
            + RelationLines(f, tables[i].name, RelationTargets(tables[i], tableNames))
  {
    var group := RelationLines(f, tables[i].name, RelationTargets(tables[i], tableNames));
    assert RelationGroups(f, tables[..i + 1], tableNames) == RelationGroups(f, tables[..i], tableNames) + [group];
    FlattenSnoc(RelationGroups(f, tables[..i], tableNames), group);
  }

  /**
    The first pass of generate_er_diagram (lines 96-118 and 184-206): every
    table's entity block, in table-list order.
  */
  method AppendEntityBlocks(f: Format, tables: seq<Table>, diagram: string) returns (result: string)
    ensures result == diagram + Terminated(Flatten(EntityBlocks(f, tables)))
  {
    result := diagram;
    for i := 0 to |tables|
      invariant result == diagram + Terminated(Flatten(EntityBlocks(f, tables[..i])))
    {
      ghost var done := Flatten(EntityBlocks(f, tables[..i]));
      ghost var block := EntityBlock(f, tables[i]);
      assert diagram + Terminated(done) + Terminated(block)
          == diagram + Terminated(Flatten(EntityBlocks(f, tables[..i + 1]))) by {
        AppendGroup(diagram, done, block);
        EntityBlocksStep(f, tables, i);
      }
      result := AppendEntityBlock(f, tables[i], result);
    }
    assert tables[..|tables|] == tables;
  }

  /**
    The second pass of generate_er_diagram (lines 122-176 and 210-264):
    every table's relationship lines, in table-list order.
  */
  method AppendAllRelations(f: Format, tables: seq<Table>, tableNames: seq<string>, diagram: string)
    returns (result: string)
    ensures result == diagram + Terminated(Flatten(RelationGroups(f, tables, tableNames)))
  {
    result := diagram;
    for i := 0 to |tables|
      invariant result == diagram + Terminated(Flatten(RelationGroups(f, tables[..i], tableNames)))
    {
      ghost var done := Flatten(RelationGroups(f, tables[..i], tableNames));
      ghost var group := RelationLines(f, tables[i].name, RelationTargets(tables[i], tableNames));
      assert diagram + Terminated(done) + Terminated(group)
          == diagram + Terminated(Flatten(RelationGroups(f, tables[..i + 1], tableNames))) by {
        AppendGroup(diagram, done, group);
        RelationGroupsStep(f, tables, tableNames, i);
      }
      result := AppendRelations(f, tables[i], tableNames, result);
    }
    assert tables[..|tables|] == tables;
  }

  /**
    generate_er_diagram: the opening frame, every table's entity block, every
    table's relationship lines, then the closing frame, all appended to one
    accumulator.
  */
  method GenerateErDiagram(f: Format, tables: seq<Table>) returns (diagram: string)
    ensures diagram == DiagramText(f, tables)
  {
    var tableNames := TableNames(tables);
    diagram := OpenText(f);
    diagram := AppendEntityBlocks(f, tables, diagram);
    diagram := AppendAllRelations(f, tables, tableNames, diagram);
    AppendGroup(OpenText(f), Flatten(EntityBlocks(f, tables)), Flatten(RelationGroups(f, tables, tableNames)));
    diagram := diagram + CloseText(f);
  }
}
