/**
  The pure rules in db_explorer.py's `main`: the default port, the diagram
  format chosen from the menu answer, and the default file name.
*/
module Cli {
  import opened Wrappers
  import opened ErDiagram

  const MYSQL_PORT := 3306
  const POSTGRESQL_PORT := 5432

  /**
    The port to connect to. `if not args.port` replaces a missing port and
    also a port of 0 with the engine's default: 3306 for `mysql`, 5432 for
    anything else.
  */
  function EffectivePort(dbType: string, given: Option<int>): (port: int)
    ensures given.Some? && given.value != 0 ==> port == given.value
    ensures (given.None? || given.value == 0) ==>
      (port == MYSQL_PORT <==> dbType == "mysql") && (port == POSTGRESQL_PORT <==> dbType != "mysql")
    ensures port != 0
  {
    match given
    case Some(p) => if p != 0 then p else if dbType == "mysql" then MYSQL_PORT else POSTGRESQL_PORT
    case None => if dbType == "mysql" then MYSQL_PORT else POSTGRESQL_PORT
  }

  /** Menu answer `1` chooses Mermaid; every other answer chooses PlantUML. */
  function FormatOfChoice(answer: string): (f: Format)
    ensures f == Mermaid <==> answer == "1"
  {
    if answer == "1" then Mermaid else PlantUml
  }

  /** The file extension: `.md` for Mermaid, `.puml` otherwise. */
  function DefaultExtension(f: Format): (ext: string)
    ensures ext == ".md" <==> f == Mermaid
    ensures ext == ".puml" <==> f == PlantUml
  {
    match f
    case Mermaid => assert |".md"| != |".puml"|; ".md"
    case PlantUml => assert |".md"| != |".puml"|; ".puml"
  }

  /**
    The file the diagram is saved to: the answer typed, or
    `er_diagram` + the default extension when the answer is empty.
  */
  function OutputFilename(answer: string, f: Format): (name: string)
    ensures answer != "" ==> name == answer
    ensures answer == "" ==>
      |name| > |"er_diagram"| && name[..|"er_diagram"|] == "er_diagram"
      && name[|"er_diagram"|..] == DefaultExtension(f)
    ensures name != ""
  {
    if answer != "" then answer else "er_diagram" + DefaultExtension(f)
  }
}
