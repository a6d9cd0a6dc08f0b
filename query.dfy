/** The query value the analyzer builds. Its Go definition (the `Query` type,
    `NewQuery`, the command identifiers and `CommandNameToCommandID`) is not
    part of this model's source files; what is here is the smallest
    definition consistent with how analyzer.go uses it, with the fixed
    case-sensitive vocabulary SET, GET and DEL. */
module Queries {

  datatype CommandId = UnknownCommandId | SetCommandId | GetCommandId | DelCommandId

  /** A command identifier with the arguments that followed the command name. */
  datatype Query = Query(commandId: CommandId, arguments: seq<string>)

  /** Go's zero value `Query{}`: no command, no arguments. */
  const EMPTY_QUERY: Query := Query(UnknownCommandId, [])

  /** Assumed name table: the three command names, matched exactly. */
  function CommandNameToCommandId(name: string): (id: CommandId)
  {
    if name == "SET" then SetCommandId
    else if name == "GET" then GetCommandId
    else if name == "DEL" then DelCommandId
    else UnknownCommandId
  }

  /** Assumed constructor: pairs the identifier with the arguments as given. */
  function NewQuery(commandId: CommandId, arguments: seq<string>): (q: Query)
  {
    Query(commandId, arguments)
  }
}
