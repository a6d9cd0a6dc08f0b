# A verified model of a small key-value store's query pipeline

The store takes one text line per query (`SET <key> <value>`, `GET <key>`,
`DEL <key>`). It tokenizes the line, checks the command name and the argument
count, and passes the right call to a storage layer. That layer forwards
Set/Get/Del to an in-memory engine, which is backed by a string-to-string map.

This project models that core in Dafny, one module per Go file:

- `Common` (shared by all files): Go's nilable values (`Option`), the constructors'
  `(*T, error)` (`Result`), the error values, the caller's context
  (`Context.Err()` is `ctx.Err()`), and the logger handle.
- `Queries` (the `Query` type of the compute package): the `Query` value with its command identifiers. Its
  Go definition, `NewQuery` and `CommandNameToCommandID` are not part of this
  model. Here they are ASSUMED as the smallest definition consistent with how
  the analyzer uses them: the case-sensitive names "SET", "GET" and "DEL", any
  other name unknown, and the zero `Query{}` as `EMPTY_QUERY`. They are not
  transcriptions of code.
- `Parser` (`parser.go`): the two byte classes and `ParseQuery`. The lexer
  that `ParseQuery` runs (`newStateMachine().parse`) is not part of this
  model, so it is a function parameter of type `Lexer`.
- `Analyzer` (`analyzer.go`): the arity constants, `NewAnalyzer`, the three
  handlers, their dispatch by command id, and `AnalyzeQuery`. The analyzer is
  also checked against the protocol's command table (`COMMAND_TABLE`).
- `Compute` (`compute.go`): `NewCompute` and `HandleQuery`. The `parser` and
  `analyzer` interfaces are function values. `Standard` wires in the real
  parser and analyzer, and `PipelineOutcome` states the end-to-end behaviour.
- `InMemoryTable` (`hash_table.go`): the map semantics (`Lookup`, `Put`,
  `Remove`) and the `HashTable` class holding `data: map<string, string>`.
  It also gives the outcome of any sequence of writes (`Replay` against
  `LatestBinding`).
- `InMemoryEngine` (`engine.go`): the `Engine` class forwarding to its table,
  and `NewEngine`.
- `Storage` (`storage.go`): the `Storage` class with its context guard, and
  `NewStorage`.

The context is observed only through `ctx.Err()`. It is the datatype
`Context`: `Active` (nil), `Cancelled` (`Canceled`) or `TimedOut`
(`DeadlineExceeded`). Under a done context, every operation returns that error
unchanged.

The engine's `Get` returns a found flag
(internal/database/storage/engine/in_memory/engine.go:40-43), which tells an
absent key apart from one that holds `""`. `Storage.Get`
(internal/database/storage/storage.go:52) drops that flag.
`Storage.Storage.Get` returns only the value, as the code does, and
`Storage.EmptyValueReadsAsAbsent` states that the two cases then read the
same.

## Model

| member | source | states |
|---|---|---|
| `Parser.NewParser` | internal/database/compute/parser.go:13-21 | fails with "logger is invalid" exactly when the logger is nil, otherwise holds the given logger |
| `Parser.ParseQuery` | internal/database/compute/parser.go:23-36 | the error is the lexer's error unchanged; on an error the tokens are nil whatever the lexer produced; on success they are the lexer's tokens unchanged |
| `Parser.IsWhiteSpace` | internal/database/compute/parser.go:38-40 | holds exactly for the byte values 9, 10 and 32 (tab, newline, space); `Parser.WhiteSpaceClass` states the whole class |
| `Parser.IsLetter` | internal/database/compute/parser.go:42-47 | a token byte is never whitespace and lies between '0' (48) and 'z' (122); `Parser.LetterClass` states the exact class |
| `Parser.WhiteSpaceClass` | internal/database/compute/parser.go:38-40 | the whitespace bytes are exactly tab, newline and space: three bytes |
| `Parser.LetterClass` | internal/database/compute/parser.go:42-47 | the token bytes are exactly a-z, A-Z, 0-9 and underscore: 63 bytes |
| `Parser.ClassesDisjoint` | internal/database/compute/parser.go:38-47 | no byte is both whitespace and a token byte |
| `Analyzer.NewAnalyzer` | internal/database/compute/analyzer.go:26-42 | fails with "logger is invalid" exactly when the logger is nil, otherwise holds the given logger |
| `Analyzer.Handler` | internal/database/compute/analyzer.go:35-39 | the handler the slice holds for a known command id (called at line 61) accepts a query exactly when it has that command's argument count, and otherwise reports `InvalidArguments` |
| `Analyzer.HandlersCheckArity` | internal/database/compute/analyzer.go:74-108 | `analyzeSetQuery` accepts exactly 2 arguments, `analyzeGetQuery` and `analyzeDelQuery` exactly 1 (the constants at lines 9-13), and each otherwise reports `InvalidArguments` |
| `Analyzer.AnalyzeQuery` | internal/database/compute/analyzer.go:44-72 | empty tokens or an unknown first token give the empty query with `InvalidCommand`; a known command with the wrong argument count gives the empty query with `InvalidArguments`; otherwise the query of the resolved command with `tokens[1..]` in order and no error |
| `Analyzer.AnalyzeQueryMatchesTable` | internal/database/compute/analyzer.go:44-108 | the analyzer accepts exactly the token sequences that the command table makes well formed, and returns the table's command with the remaining tokens; every rejection is the empty query with `InvalidCommand` (exactly when the name is missing or not in the table) or `InvalidArguments` |
| `Compute.NewComputeAsWritten` | internal/database/compute/compute.go:24-42 | the constructor as written succeeds exactly when the parser and the logger are non-nil, whatever the analyzer is, and reports the nil parser first |
| `Compute.NilAnalyzerAccepted` | internal/database/compute/compute.go:29-31 | with a nil analyzer it succeeds and stores a nil analyzer; "query analyzer is invalid" is never returned |
| `Compute.NewCompute` | internal/database/compute/compute.go:24-42 | corrected constructor: succeeds exactly when parser, analyzer and logger are all non-nil, and otherwise reports the first nil one in argument order |
| `Compute.HandleQuery` | internal/database/compute/compute.go:44-61 | a done context gives the empty query and the context's error; next, a parser error is returned unchanged with the empty query; next, an analyzer error is returned unchanged with the empty query; otherwise the analyzer's query applied to the parser's tokens |
| `Compute.HandleQueryAsWritten` | internal/database/compute/compute.go:44-61 | on the struct the as-written constructor builds, a nil field panics (no result) exactly when the call reaches it: the logger under a done context, the parser on every line under a live context, the analyzer on every such line that parses; a done context with a logger gives the empty query and the context's error, a parser error gives the empty query and that error, whatever the analyzer is; with every field present it equals `Compute.HandleQuery` |
| `Compute.NilAnalyzerPanics` | internal/database/compute/compute.go:55 | a `Compute` built with a nil analyzer panics exactly on the lines that parse under a live context; under a done context it returns the empty query with the context's error, and on a parser error the empty query with that error |
| `Compute.CancellationFirst` | internal/database/compute/compute.go:45-48 | under a done context the result is the same for any line and any parser and analyzer |
| `Compute.ParserErrorSkipsAnalyzer` | internal/database/compute/compute.go:50-53 | after a parser error, replacing the analyzer does not change the result |
| `Compute.PipelineOutcome` | internal/database/compute/compute.go:44-61 | with the real parser and analyzer over any lexer: a line is accepted exactly when the context is live, the lexer succeeds and the tokens are well formed for the command table; accepted lines give the table's command and the remaining tokens; a rejection gives the empty query, and a done context or a lexer error takes precedence |
| `Compute.GetLineExample` | internal/database/compute/compute.go:44-61 | a line that a lexer splits into GET and key1 becomes the query GET with the single argument key1 |
| `InMemoryTable.Lookup` | internal/database/storage/engine/in_memory/hash_table.go:21-24 | reports found exactly when the key is present, with its value, and the zero value "" otherwise; this is Go's comma-ok read, and what it means for writes is stated by `Put`, `Remove` and `ReplayLookup` |
| `InMemoryTable.Put` | internal/database/storage/engine/in_memory/hash_table.go:17-19 | afterwards the key reads back as (value, true), it is added if it was absent, and every other key reads as before |
| `InMemoryTable.Remove` | internal/database/storage/engine/in_memory/hash_table.go:26-28 | afterwards the key reads as ("", false), it leaves the key set, and every other key reads as before |
| `InMemoryTable.RemoveAbsentAndIdempotent` | internal/database/storage/engine/in_memory/hash_table.go:26-28 | deleting an absent key is a no-op; deleting twice equals deleting once |
| `InMemoryTable.ReplayLookup` | internal/database/storage/engine/in_memory/hash_table.go:17-28 | after any sequence of Set and Del calls, a lookup of a key gives the value of the last Set to it, or ("", false) if a Del came later, or the original binding if no call touched it |
| `InMemoryTable.Build` | internal/database/storage/engine/in_memory/hash_table.go:3-5 | the default builder yields a fresh, empty table |
| `InMemoryTable.HashTable.constructor` | internal/database/storage/engine/in_memory/hash_table.go:11-15 | a new table is empty |
| `InMemoryTable.HashTable.Set` | internal/database/storage/engine/in_memory/hash_table.go:17-19 | the map becomes the old map with the key set to the value (insert or overwrite) |
| `InMemoryTable.HashTable.Get` | internal/database/storage/engine/in_memory/hash_table.go:21-24 | returns exactly `Lookup` of the current map, that is Go's comma-ok read, and modifies nothing; `Put`, `Remove` and `ReplayLookup` state what that read gives after writes |
| `InMemoryTable.HashTable.Del` | internal/database/storage/engine/in_memory/hash_table.go:26-28 | the map becomes the old map without the key |
| `InMemoryEngine.NewEngine` | internal/database/storage/engine/in_memory/engine.go:20-33 | fails with "hash table builder is invalid" for a nil builder, then "logger is invalid" for a nil logger; otherwise a fresh engine with a freshly built, empty table |
| `InMemoryEngine.Engine.Set` | internal/database/storage/engine/in_memory/engine.go:35-38 | the engine's state becomes the table's Set applied to the old state |
| `InMemoryEngine.Engine.Get` | internal/database/storage/engine/in_memory/engine.go:40-44 | returns exactly the table's (value, found) and modifies nothing |
| `InMemoryEngine.Engine.Del` | internal/database/storage/engine/in_memory/engine.go:46-49 | the engine's state becomes the table's Del applied to the old state |
| `Storage.NewStorage` | internal/database/storage/storage.go:21-34 | fails with "engine is invalid" for a nil engine, then "logger is invalid" for a nil logger; otherwise a fresh storage holding that engine |
| `Storage.Storage.Set` | internal/database/storage/storage.go:36-44 | returns the context's error; when the context is done the engine state is unchanged, otherwise the key is set to the value |
| `Storage.Storage.Get` | internal/database/storage/storage.go:46-54 | returns the context's error; when the context is done the value is "", otherwise the engine's value with the found flag dropped, so a missing key gives "" with no error; it modifies nothing |
| `Storage.Storage.Del` | internal/database/storage/storage.go:56-64 | returns the context's error; when the context is done the engine state is unchanged, otherwise the key is removed |
| `Storage.EmptyValueReadsAsAbsent` | internal/database/storage/storage.go:52-53 | a key that holds "" and an absent key give the same `Get` value, although the engine's found flag tells them apart |

## Findings

| source | as written | input that shows it | evidently intended | confidence | as-written member | corrected member |
|---|---|---|---|---|---|---|
| internal/database/compute/compute.go:29 | the second guard of `NewCompute` tests `parser == nil` again | `NewCompute(p, nil, logger)` with a non-nil parser and logger succeeds and holds a nil analyzer, which `HandleQuery` calls at line 55 for every line that parses under a live context, and panics | `analyzer == nil`, reported as "query analyzer is invalid" | high; not executed | `Compute.NewComputeAsWritten`, `Compute.NilAnalyzerAccepted`, `Compute.NilAnalyzerPanics` | `Compute.NewCompute` |

## Left out

- The lexer (`newStateMachine` and `machine.parse`) is not part of this model. `ParseQuery` takes it as a `Lexer` parameter. So the model proves nothing about how a line is split into tokens, or when `InvalidSymbol` arises.
- `Query`, `NewQuery` and `CommandNameToCommandID` are not part of this model. They are assumed as described above, with `UnknownCommandID` as the zero value of the command id.
- Every zap logging call. Logging has no functional effect. A logger is modelled only as present or nil.
- Go's `context.Context` machinery is reduced to the value of `ctx.Err()`. It is checked only at entry, as in the code.
- `storage.Engine` and the `hashTable` interface are interfaces in the code. Dafny traits are not used here, so `Storage` holds the in-memory `Engine` and the engine holds a `HashTable`. Swapping in another engine is therefore not modelled.
- The table builder is a function value (`func() hashTable`, engine.go:20, and `HashTableBuilder` at hash_table.go:3-5). The model knows only `HashTableBuilder`, as the datatype `TableBuilder`, so a builder returning some other table is not modelled.
- `Analyzer.AnalyzeSetQuery`, `Analyzer.AnalyzeGetQuery` and `Analyzer.AnalyzeDelQuery` carry no contract of their own. Their behaviour is stated in `Analyzer.HandlersCheckArity`.
- Go strings are byte strings. Tokens, keys and values are Dafny `string`s, and the byte classes are stated over a `byte` newtype.
- A Go interface that holds a nil pointer is not nil. The model does not distinguish this case from a non-nil collaborator.
- Concurrency: the code takes no locks, and the model is single-threaded.
- Process start-up, configuration, logger construction and the interactive loop (`cmd/db/main.go`, `internal/initialization/`) are I/O and wiring outside the core.
