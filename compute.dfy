/** internal/database/compute/compute.go: the orchestrator that runs the
    parser and then the analyzer on one query line. Its two collaborators are
    interfaces in the source; here they are function values, so that any
    parser and any analyzer can be plugged in. */
module Compute {
  import opened Common
  import opened Queries
  import Parser
  import Analyzer

  /** The `parser` interface: `ParseQuery(string) ([]string, error)`. */
  type QueryParser = string -> Parser.Parsed

  /** The `analyzer` interface: `AnalyzeQuery([]string) (Query, error)`. */
  type QueryAnalyzer = seq<string> -> Analyzer.Analyzed

  /** A `Compute` whose two collaborators and logger are all present. */
  datatype Compute = Compute(parser: QueryParser, analyzer: QueryAnalyzer, logger: Logger)

  const PARSER_INVALID: string := "query parser is invalid"
  const ANALYZER_INVALID: string := "query analyzer is invalid"

  /** The `Compute` struct as `NewCompute` can really build it: each field
      may be nil. */
  datatype UncheckedCompute =
    UncheckedCompute(parser: Option<QueryParser>, analyzer: Option<QueryAnalyzer>, logger: Option<Logger>)

  /** `NewCompute` as written: its second guard tests the parser a second
      time, so a nil analyzer is never reported. */
  function NewComputeAsWritten(parser: Option<QueryParser>, analyzer: Option<QueryAnalyzer>,
                               logger: Option<Logger>): (r: Result<UncheckedCompute>)
    ensures r.Ok? <==> parser.Some? && logger.Some?
    ensures r.Ok? ==> r.value == UncheckedCompute(parser, analyzer, logger)
    ensures r.Err? ==> r.error == Invalid(if parser.None? then PARSER_INVALID else LOGGER_INVALID)
  {
    if parser.None? then Err(Invalid(PARSER_INVALID))
    else if parser.None? then Err(Invalid(ANALYZER_INVALID))
    else if logger.None? then Err(Invalid(LOGGER_INVALID))
    else Ok(UncheckedCompute(parser, analyzer, logger))
  }

  /** The discrepancy: with a parser and a logger but no analyzer, the
      constructor as written succeeds and hands back a `Compute` whose
      analyzer is nil, which `HandleQuery` then calls for every line that
      parses under a live context; the "query analyzer is invalid" error can
      never be produced. */
  lemma NilAnalyzerAccepted(parser: QueryParser, logger: Logger)
    ensures NewComputeAsWritten(Some(parser), None, Some(logger)).Ok?
    ensures NewComputeAsWritten(Some(parser), None, Some(logger)).value.analyzer.None?
    ensures forall p, a, l :: NewComputeAsWritten(p, a, l) != Err(Invalid(ANALYZER_INVALID))
  {
  }

  /** `NewCompute` with its second guard testing the analyzer, as its
      message says: each nil collaborator is reported, in argument order. */
  function NewCompute(parser: Option<QueryParser>, analyzer: Option<QueryAnalyzer>,
                      logger: Option<Logger>): (r: Result<Compute>)
    ensures r.Ok? <==> parser.Some? && analyzer.Some? && logger.Some?
    ensures r.Ok? ==> r.value == Compute(parser.value, analyzer.value, logger.value)
    ensures r.Err? ==> r.error == Invalid(if parser.None? then PARSER_INVALID
                                          else if analyzer.None? then ANALYZER_INVALID
                                          else LOGGER_INVALID)
  {
    if parser.None? then Err(Invalid(PARSER_INVALID))
    else if analyzer.None? then Err(Invalid(ANALYZER_INVALID))
    else if logger.None? then Err(Invalid(LOGGER_INVALID))
    else Ok(Compute(parser.value, analyzer.value, logger.value))
  }

  /** `HandleQuery`: a done context wins over everything; then the first
      error of the parser or the analyzer is returned unchanged with the
      empty query; otherwise the analyzer's query is the result. */
  function HandleQuery(c: Compute, ctx: Context, queryStr: string): (r: Analyzer.Analyzed)
    ensures ctx.Err().Some? ==> r == Analyzer.Analyzed(EMPTY_QUERY, ctx.Err())
    ensures ctx.Err().None? && c.parser(queryStr).err.Some? ==>
              r == Analyzer.Analyzed(EMPTY_QUERY, c.parser(queryStr).err)
    ensures ctx.Err().None? && c.parser(queryStr).err.None? ==>
              var analyzed := c.analyzer(c.parser(queryStr).tokens);
              r == if analyzed.err.Some? then Analyzer.Analyzed(EMPTY_QUERY, analyzed.err) else analyzed
  {
    if ctx.Err().Some? then Analyzer.Analyzed(EMPTY_QUERY, ctx.Err())
    else
      var parsed := c.parser(queryStr);
      if parsed.err.Some? then Analyzer.Analyzed(EMPTY_QUERY, parsed.err)
      else
        var analyzed := c.analyzer(parsed.tokens);
        if analyzed.err.Some? then Analyzer.Analyzed(EMPTY_QUERY, analyzed.err)
        else analyzed
  }

  /** `HandleQuery` on the struct as `NewComputeAsWritten` builds it. Calling
      through a nil field panics; `None` stands for that panic. A done
      context is logged through the logger (compute.go:46), a line is
      parsed through the parser and, once it parses, analyzed through the
      analyzer. With every field present it is the corrected `HandleQuery`. */
  function HandleQueryAsWritten(c: UncheckedCompute, ctx: Context, queryStr: string): (r: Option<Analyzer.Analyzed>)
    ensures r.None? <==>
              if ctx.Err().Some? then c.logger.None?
              else c.parser.None? || (c.parser.value(queryStr).err.None? && c.analyzer.None?)
    ensures ctx.Err().Some? && c.logger.Some? ==> r == Some(Analyzer.Analyzed(EMPTY_QUERY, ctx.Err()))
    ensures ctx.Err().None? && c.parser.Some? && c.parser.value(queryStr).err.Some? ==>
              r == Some(Analyzer.Analyzed(EMPTY_QUERY, c.parser.value(queryStr).err))
    ensures c.parser.Some? && c.analyzer.Some? && c.logger.Some? ==>
              r == Some(HandleQuery(Compute(c.parser.value, c.analyzer.value, c.logger.value), ctx, queryStr))
  {
    if ctx.Err().Some? then
      if c.logger.None? then None else Some(Analyzer.Analyzed(EMPTY_QUERY, ctx.Err()))
    else if c.parser.None? then None
    else
      var parsed := c.parser.value(queryStr);
      if parsed.err.Some? then Some(Analyzer.Analyzed(EMPTY_QUERY, parsed.err))
      else if c.analyzer.None? then None
      else
        var analyzed := c.analyzer.value(parsed.tokens);
        if analyzed.err.Some? then Some(Analyzer.Analyzed(EMPTY_QUERY, analyzed.err))
        else Some(analyzed)
  }

  /** The consequence of the discrepancy: a `Compute` built with a nil
      analyzer panics exactly on the lines that parse under a live context;
      a done context and a parser error still return the empty query with
      their error before the analyzer is reached. */
  lemma NilAnalyzerPanics(parser: QueryParser, logger: Logger, ctx: Context, line: string)
    ensures NewComputeAsWritten(Some(parser), None, Some(logger)).Ok?
    ensures var r := HandleQueryAsWritten(NewComputeAsWritten(Some(parser), None, Some(logger)).value, ctx, line);
            && (r.None? <==> ctx.Err().None? && parser(line).err.None?)
            && (ctx.Err().Some? ==> r == Some(Analyzer.Analyzed(EMPTY_QUERY, ctx.Err())))
            && (ctx.Err().None? && parser(line).err.Some? ==> r == Some(Analyzer.Analyzed(EMPTY_QUERY, parser(line).err)))
  {
  }

  /** Under a done context the outcome depends neither on the line nor on
      the collaborators: nothing is parsed or analyzed. */
  lemma CancellationFirst(c: Compute, d: Compute, ctx: Context, line: string, other: string)
    requires ctx.Err().Some?
    ensures HandleQuery(c, ctx, line) == HandleQuery(d, ctx, other)
  {
  }

  /** After a parser error the analyzer plays no part in the outcome. */
  lemma ParserErrorSkipsAnalyzer(c: Compute, analyzer: QueryAnalyzer, ctx: Context, line: string)
    requires c.parser(line).err.Some?
    ensures HandleQuery(c, ctx, line) == HandleQuery(c.(analyzer := analyzer), ctx, line)
  {
  }

  /** The production wiring: the parser over a lexer, and the analyzer. */
  function Standard(p: Parser.Parser, lex: Parser.Lexer, a: Analyzer.Analyzer, logger: Logger): (c: Compute)
  {
    Compute(line => Parser.ParseQuery(p, lex, line), tokens => Analyzer.AnalyzeQuery(a, tokens), logger)
  }

  /** End to end over any lexer: a line is accepted exactly when the context
      is live, the lexer succeeds and its tokens are well formed for the
      command table; an accepted line gives the table's command and the
      remaining tokens; a rejected one gives the empty query and the first
      error in pipeline order. */
  lemma PipelineOutcome(p: Parser.Parser, lex: Parser.Lexer, a: Analyzer.Analyzer, logger: Logger,
                        ctx: Context, line: string)
    ensures var r := HandleQuery(Standard(p, lex, a, logger), ctx, line);
            var tokens := lex(line).tokens;
            && (r.err.None? <==> ctx.Err().None? && lex(line).err.None? && Analyzer.WellFormed(tokens))
            && (r.err.None? ==> r.query == Query(Analyzer.COMMAND_TABLE[tokens[0]].commandId, tokens[1..]))
            && (r.err.Some? ==> r.query == EMPTY_QUERY)
            && (ctx.Err().Some? ==> r.err == ctx.Err())
            && (ctx.Err().None? && lex(line).err.Some? ==> r.err == lex(line).err)
  {
  }

  /** The line `"  GET  key1 \n"`, once a lexer splits it into `GET` and
      `key1`, becomes the query GET with the single argument `key1`. */
  lemma GetLineExample(p: Parser.Parser, lex: Parser.Lexer, a: Analyzer.Analyzer, logger: Logger)
    requires lex("  GET  key1 \n") == Parser.Parsed(["GET", "key1"], None)
    ensures HandleQuery(Standard(p, lex, a, logger), Active, "  GET  key1 \n")
            == Analyzer.Analyzed(Query(GetCommandId, ["key1"]), None)
  {
  }
}
