/** The tokenizer side of internal/database/compute/parser.go: the two byte
    classes of the query language and the `Parser` wrapper around the lexer.
    The lexer itself (`newStateMachine().parse`) is not part of this model:
    it is a parameter of `ParseQuery`. */
module Parser {
  import opened Common

  /** Go's `byte`. */
  newtype byte = b: int | 0 <= b < 256

  /** `Parser` holds only its logger. */
  datatype Parser = Parser(logger: Logger)

  /** Go's `([]string, error)` as returned by the lexer and by `ParseQuery`;
      a nil slice is the empty sequence. */
  datatype Parsed = Parsed(tokens: seq<string>, err: Option<Error>)

  /** The lexer `ParseQuery` runs on the query line. */
  type Lexer = string -> Parsed

  /** `NewParser`: refuses a nil logger. */
  function NewParser(logger: Option<Logger>): (r: Result<Parser>)
    ensures r.Ok? <==> logger.Some?
    ensures r.Ok? ==> r.value.logger == logger.value
    ensures r.Err? ==> r.error == Invalid(LOGGER_INVALID)
  {
    if logger.None? then Err(Invalid(LOGGER_INVALID))
    else Ok(Parser(logger.value))
  }

  /** `ParseQuery`: runs the lexer and forwards its verdict. A lexer error
      comes back unchanged with no tokens at all, whatever partial tokens the
      lexer had produced; a success comes back with the lexer's tokens. */
  function ParseQuery(p: Parser, lex: Lexer, query: string): (r: Parsed)
    ensures r.err == lex(query).err
    ensures r.err.Some? ==> r.tokens == []
    ensures r.err.None? ==> r.tokens == lex(query).tokens
  {
    var lexed := lex(query);
    if lexed.err.Some? then Parsed([], lexed.err)
    else Parsed(lexed.tokens, None)
  }

  /** `isWhiteSpace`: tab, newline and space separate tokens. */
  predicate IsWhiteSpace(symbol: byte)
    ensures IsWhiteSpace(symbol) <==> symbol in {9, 10, 32}
  {
    symbol == '\t' as byte || symbol == '\n' as byte || symbol == ' ' as byte
  }

  /** `isLetter`: the bytes a token is made of. */
  predicate IsLetter(symbol: byte)
    ensures IsLetter(symbol) ==> !IsWhiteSpace(symbol)
    ensures IsLetter(symbol) ==> 48 <= symbol <= 122
  {
    ('a' as byte <= symbol <= 'z' as byte) ||
    ('A' as byte <= symbol <= 'Z' as byte) ||
    ('0' as byte <= symbol <= '9' as byte) ||
    symbol == '_' as byte
  }

  ghost predicate InSpan(b: byte, lo: int, hi: int)
  {
    lo <= b as int < hi
  }

  /** The bytes whose value lies in [lo, hi). */
  ghost function Span(lo: int, hi: int): (s: set<byte>)
  {
    set b: byte | InSpan(b, lo, hi)
  }

  lemma {:induction false} SpanSize(lo: int, hi: int)
    requires 0 <= lo <= hi <= 256
    ensures |Span(lo, hi)| == hi - lo
  {
    if lo < hi {
      SpanSize(lo, hi - 1);
      assert Span(lo, hi) == Span(lo, hi - 1) + {(hi - 1) as byte};
    } else {
      assert Span(lo, hi) == {};
    }
  }

  /** Exactly three bytes are whitespace: tab (9), newline (10), space (32). */
  lemma WhiteSpaceClass()
    ensures (set b: byte | IsWhiteSpace(b)) == {9, 10, 32}
    ensures |set b: byte | IsWhiteSpace(b)| == 3
  {
  }

  /** Exactly 63 bytes are token bytes: 26 lower-case and 26 upper-case ASCII
      letters, 10 digits and the underscore. */
  lemma LetterClass()
    ensures (set b: byte | IsLetter(b)) == Span(97, 123) + Span(65, 91) + Span(48, 58) + {95}
    ensures |set b: byte | IsLetter(b)| == 63
  {
    var lower, upper, digits := Span(97, 123), Span(65, 91), Span(48, 58);
    assert (set b: byte | IsLetter(b)) == lower + upper + digits + {95};
    SpanSize(97, 123);
    SpanSize(65, 91);
    SpanSize(48, 58);
    assert lower * upper == {};
    assert |lower + upper| == 52;
    assert (lower + upper) * digits == {};
    assert |lower + upper + digits| == 62;
    assert 95 !in lower + upper + digits;
  }

  /** No byte is both a separator and part of a token. */
  lemma ClassesDisjoint(symbol: byte)
    ensures !(IsWhiteSpace(symbol) && IsLetter(symbol))
  {
  }
}
