/**
 * The streaming JSON decoder interface (jsonflow/internal/json/json.go).
 *
 * A decoder is modelled as the tokens it has not yet read, followed by the
 * error every read past them returns (`io.EOF`, or the tokenizer's syntax
 * error). `PeekKind` looks at the next token, `ReadToken` consumes it. A
 * function of a decoder, `func(d Decoder) (T, error)`, is a `Parser`: a pure
 * function from the stream before to the result and the stream after.
 */
module JsonStream {
  import opened Wrappers
  import ErrUtil

  type Error = ErrUtil.Error

  /** `json.Kind`: one byte, the first byte of the token's grammar. */
  newtype Kind = x: int | 0 <= x < 256

  const InvalidKind: Kind := 0
  const NullKind: Kind := 'n' as Kind
  const FalseKind: Kind := 'f' as Kind
  const TrueKind: Kind := 't' as Kind
  const StringKind: Kind := '"' as Kind
  const NumberKind: Kind := '0' as Kind
  const ObjectBeginKind: Kind := '{' as Kind
  const ObjectEndKind: Kind := '}' as Kind
  const ArrayBeginKind: Kind := '[' as Kind
  const ArrayEndKind: Kind := ']' as Kind

  /** One token: its text (a string token without its quotes) and its kind. */
  datatype Token = Token(text: string, kind: Kind)

  /** What a decoder has left: the unread tokens, then the error that ends them. */
  datatype Stream = Stream(tokens: seq<Token>, tail: Error)

  /** A result together with the stream left after producing it. */
  datatype Reply<T> = Reply(result: Result<T, Error>, rest: Stream)

  /** `PeekKind`: the kind of the next token, `InvalidKind` when none is left. */
  function Peek(s: Stream): Kind {
    if s.tokens == [] then InvalidKind else s.tokens[0].kind
  }

  /** `ReadToken`: the next token, consumed; past the last token, the tail error. */
  function Read(s: Stream): Reply<Token> {
    if s.tokens == [] then Reply(Err(s.tail), s) else Reply(Ok(s.tokens[0]), Stream(s.tokens[1..], s.tail))
  }

  /** `r` is what is left of `s` after reading some of its tokens. */
  ghost predicate Advances(s: Stream, r: Stream) {
    r.tail == s.tail && |r.tokens| <= |s.tokens| && r.tokens == s.tokens[|s.tokens| - |r.tokens|..]
  }

  /** Only reads tokens, and reads at least one whenever it succeeds. */
  ghost predicate Progressive<T>(p: Stream -> Reply<T>) {
    forall s :: Advances(s, p(s).rest) && (p(s).result.Ok? ==> |p(s).rest.tokens| < |s.tokens|)
  }

  /** `func(d Decoder) (T, error)`, for a function that only reads `d`. */
  type Parser<T> = p: Stream -> Reply<T> | Progressive(p) witness (s: Stream) => Reply(Err(s.tail), s)

  /** Reading advances the stream, by one token exactly when a token is left. */
  lemma ReadAdvances(s: Stream)
    ensures Advances(s, Read(s).rest)
    ensures Read(s).result.Ok? <==> |Read(s).rest.tokens| == |s.tokens| - 1
  {
  }

  /** Reading on from what is left after reading some tokens still leaves a suffix. */
  lemma AdvancesTransitive(a: Stream, b: Stream, c: Stream)
    requires Advances(a, b) && Advances(b, c)
    ensures Advances(a, c)
  {
    assert c.tokens == a.tokens[|a.tokens| - |b.tokens|..][|b.tokens| - |c.tokens|..];
  }

  /** A decoder: the cursor state behind the `Decoder` interface. */
  class Decoder {
    var tokens: seq<Token>
    const tail: Error

    /** What the decoder has left, as a value. */
    function Remaining(): Stream
      reads this
    {
      Stream(tokens, tail)
    }

    constructor (s: Stream)
      ensures Remaining() == s
    {
      tokens := s.tokens;
      tail := s.tail;
    }

    /** `PeekKind`: changes nothing. */
    method PeekKind() returns (k: Kind)
      ensures k == Peek(Remaining())
    {
      if tokens == [] {
        return InvalidKind;
      }
      return tokens[0].kind;
    }

    /** `ReadToken`. */
    method ReadToken() returns (r: Result<Token, Error>)
      modifies this
      ensures Reply(r, Remaining()) == Read(old(Remaining()))
    {
      if tokens == [] {
        return Err(tail);
      }
      r := Ok(tokens[0]);
      tokens := tokens[1..];
    }

    /** Hands the decoder to a function of it, `parseFn(d)`. */
    method Apply<T>(p: Parser<T>) returns (r: Result<T, Error>)
      modifies this
      ensures Reply(r, Remaining()) == p(old(Remaining()))
    {
      var reply := p(Remaining());
      tokens := reply.rest.tokens;
      r := reply.result;
    }
  }
}
