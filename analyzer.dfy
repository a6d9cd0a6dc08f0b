/** internal/database/compute/analyzer.go: checks a token sequence against
    the command vocabulary and the argument count each command requires. */
module Analyzer {
  import opened Common
  import opened Queries

  const SET_QUERY_ARGUMENTS_NUMBER: nat := 2
  const GET_QUERY_ARGUMENTS_NUMBER: nat := 1
  const DEL_QUERY_ARGUMENTS_NUMBER: nat := 1

  /** `Analyzer` holds its logger; its handler slice is the fixed dispatch
      `Handler` below, built once by `NewAnalyzer` and never changed. */
  datatype Analyzer = Analyzer(logger: Logger)

  /** Go's `(Query, error)` as returned by the analyzer and by compute. */
  datatype Analyzed = Analyzed(query: Query, err: Option<Error>)

  /** `NewAnalyzer`: refuses a nil logger. */
  function NewAnalyzer(logger: Option<Logger>): (r: Result<Analyzer>)
    ensures r.Ok? <==> logger.Some?
    ensures r.Ok? ==> r.value.logger == logger.value
    ensures r.Err? ==> r.error == Invalid(LOGGER_INVALID)
  {
    if logger.None? then Err(Invalid(LOGGER_INVALID))
    else Ok(Analyzer(logger.value))
  }

  function AnalyzeSetQuery(a: Analyzer, query: Query): (err: Option<Error>)
  {
    if |query.arguments| != SET_QUERY_ARGUMENTS_NUMBER then Some(InvalidArguments) else None
  }

  function AnalyzeGetQuery(a: Analyzer, query: Query): (err: Option<Error>)
  {
    if |query.arguments| != GET_QUERY_ARGUMENTS_NUMBER then Some(InvalidArguments) else None
  }

  function AnalyzeDelQuery(a: Analyzer, query: Query): (err: Option<Error>)
  {
    if |query.arguments| != DEL_QUERY_ARGUMENTS_NUMBER then Some(InvalidArguments) else None
  }

  /** `a.handlers[commandID]`: the slice has an entry for each known command
      only, so the unknown identifier is excluded. */
  function Handler(a: Analyzer, commandId: CommandId, query: Query): (err: Option<Error>)
    requires commandId != UnknownCommandId
    ensures err.None? <==> |query.arguments| == Arity(commandId)
    ensures err.Some? ==> err == Some(InvalidArguments)
  {
    match commandId
    case SetCommandId => AnalyzeSetQuery(a, query)
    case GetCommandId => AnalyzeGetQuery(a, query)
    case DelCommandId => AnalyzeDelQuery(a, query)
  }

  /** The number of arguments each command takes, as the protocol states it:
      `SET <key> <value>`, `GET <key>`, `DEL <key>`. */
  function Arity(commandId: CommandId): (n: nat)
    requires commandId != UnknownCommandId
  {
    match commandId
    case SetCommandId => 2
    case GetCommandId => 1
    case DelCommandId => 1
  }

  /** Each of the three handlers accepts a query exactly when it carries the
      argument count of its command (two for SET, one for GET and DEL), and
      otherwise reports `InvalidArguments`. */
  lemma HandlersCheckArity(a: Analyzer, query: Query)
    ensures AnalyzeSetQuery(a, query).None? <==> |query.arguments| == 2
    ensures AnalyzeGetQuery(a, query).None? <==> |query.arguments| == 1
    ensures AnalyzeDelQuery(a, query).None? <==> |query.arguments| == 1
    ensures AnalyzeSetQuery(a, query).Some? ==> AnalyzeSetQuery(a, query) == Some(InvalidArguments)
    ensures AnalyzeGetQuery(a, query).Some? ==> AnalyzeGetQuery(a, query) == Some(InvalidArguments)
    ensures AnalyzeDelQuery(a, query).Some? ==> AnalyzeDelQuery(a, query) == Some(InvalidArguments)
  {
  }

  /** `AnalyzeQuery`: the four outcomes, in the order the checks are made. */
  function AnalyzeQuery(a: Analyzer, tokens: seq<string>): (r: Analyzed)
    ensures |tokens| == 0 ==> r == Analyzed(EMPTY_QUERY, Some(InvalidCommand))
    ensures |tokens| > 0 && CommandNameToCommandId(tokens[0]) == UnknownCommandId ==>
              r == Analyzed(EMPTY_QUERY, Some(InvalidCommand))
    ensures |tokens| > 0 && CommandNameToCommandId(tokens[0]) != UnknownCommandId ==>
              r == if |tokens| - 1 == Arity(CommandNameToCommandId(tokens[0]))
                   then Analyzed(Query(CommandNameToCommandId(tokens[0]), tokens[1..]), None)
                   else Analyzed(EMPTY_QUERY, Some(InvalidArguments))
  {
    if |tokens| == 0 then Analyzed(EMPTY_QUERY, Some(InvalidCommand))
    else
      var commandId := CommandNameToCommandId(tokens[0]);
      if commandId == UnknownCommandId then Analyzed(EMPTY_QUERY, Some(InvalidCommand))
      else
        var query := NewQuery(commandId, tokens[1..]);
        var err := Handler(a, commandId, query);
        if err.Some? then Analyzed(EMPTY_QUERY, err)
        else Analyzed(query, None)
  }

  /** The command table of the protocol: name, identifier and argument count. */
  datatype CommandSpec = CommandSpec(commandId: CommandId, arguments: nat)

  const COMMAND_TABLE: map<string, CommandSpec> :=
    map["SET" := CommandSpec(SetCommandId, 2),
        "GET" := CommandSpec(GetCommandId, 1),
        "DEL" := CommandSpec(DelCommandId, 1)]

  /** A token sequence the protocol accepts: a known command name followed by
      exactly as many arguments as the table gives it. */
  predicate WellFormed(tokens: seq<string>)
  {
    |tokens| > 0 && tokens[0] in COMMAND_TABLE && |tokens| - 1 == COMMAND_TABLE[tokens[0]].arguments
  }

  /** The analyzer agrees with the command table: it accepts exactly the
      well-formed token sequences, returns their command and their remaining
      tokens in order, and otherwise returns the empty query with one of the
      two analysis errors. */
  lemma AnalyzeQueryMatchesTable(a: Analyzer, tokens: seq<string>)
    ensures AnalyzeQuery(a, tokens).err.None? <==> WellFormed(tokens)
    ensures WellFormed(tokens) ==>
              AnalyzeQuery(a, tokens).query == Query(COMMAND_TABLE[tokens[0]].commandId, tokens[1..])
    ensures !WellFormed(tokens) ==>
              AnalyzeQuery(a, tokens).query == EMPTY_QUERY &&
              AnalyzeQuery(a, tokens).err in {Some(InvalidCommand), Some(InvalidArguments)}
    ensures AnalyzeQuery(a, tokens).err == Some(InvalidCommand) <==>
              |tokens| == 0 || tokens[0] !in COMMAND_TABLE
  {
  }
}
