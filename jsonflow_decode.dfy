/**
 * The streaming decode combinators of jsonflow (jsonflow/decode.go).
 *
 * Scalar parsers turn one token into a Go value. Combinators read from a
 * decoder: `DecodeValue` and `DecodeValuePtr` one scalar, `DecodeArray` and
 * `DecodeMap` a whole array or object through element parsers, and
 * `DecodeObject` a struct through its own decoding function. Each
 * combinator is a function on token streams (`...Reply`), so that parsers
 * nest as in the source, and a method on a `Decoder` proved to follow it.
 *
 * `strconv.ParseInt` and `strconv.ParseUint` are parameters: any function
 * from the token's text to a 64-bit value or an error. Go's `int` and `uint`
 * are taken to be 64 bits wide.
 */
module JsonFlow {
  import opened Wrappers
  import ErrUtil
  import opened JsonStream

  /** A message format with one `%s`: the text before and after the token. */
  datatype Format = Format(before: string, after: string)

  const BooleanFormat := Format("invalid JSON: expected boolean but got `", "`")
  const NumberFormat := Format("invalid JSON: expected number but got `", "`")
  const StringFormat := Format("invalid JSON: expected string but got `", "`")
  /** The signed and key range errors: no closing backtick. */
  const IntRangeFormat := Format("invalid JSON: number out of range, got `", "")
  /** The unsigned value range error: with the closing backtick. */
  const UintRangeFormat := Format("invalid JSON: number out of range, got `", "`")
  const ObjectBeginFormat := Format("invalid JSON: expected `{` but got ", "")
  const ObjectEndFormat := Format("invalid JSON: expected `}` but got ", "")
  const ExpectObjectFormat := Format("invalid JSON: expected `{` but got `", "`")
  const ExpectArrayFormat := Format("invalid JSON: expected `[` but got `", "`")

  /** `errutil.Explain(nil, format, token)`: a new error that wraps nothing. */
  function Complaint(f: Format, token: string): Error {
    ErrUtil.Explain(None, f.before + token + f.after)
  }

  /** `func(token string, kind json.Kind) (T, error)`. */
  type ScalarFn<T> = (string, Kind) -> Result<T, Error>

  /** The kinds `DecodeValue` hands to its parser. */
  predicate IsScalar(k: Kind) {
    k == FalseKind || k == TrueKind || k == NumberKind || k == StringKind
  }

  // ---------------------------------------------------------------------
  // Scalar parsers

  /** `ParseBool`: true for 't', false for 'f', and an error for any other kind. */
  function ParseBool(token: string, k: Kind): (r: Result<bool, Error>)
    ensures r.Ok? <==> k == TrueKind || k == FalseKind
    ensures r.Ok? ==> r.value == (k == TrueKind)
    ensures r.Err? ==> r.error.text == BooleanFormat.before + token + BooleanFormat.after
  {
    if k != FalseKind && k != TrueKind then Err(Complaint(BooleanFormat, token)) else Ok(k == TrueKind)
  }

  /** `ParseString`: the token itself, for a string token only. */
  function ParseString(token: string, k: Kind): (r: Result<string, Error>)
    ensures r.Ok? <==> k == StringKind
    ensures r.Ok? ==> r.value == token
    ensures r.Err? ==> r.error.text == StringFormat.before + token + StringFormat.after
  {
    if k != StringKind then Err(Complaint(StringFormat, token)) else Ok(token)
  }

  function Pow2(n: nat): nat {
    if n == 0 then 1 else 2 * Pow2(n - 1)
  }

  lemma {:induction false} Pow2Add(a: nat, b: nat)
    ensures Pow2(a + b) == Pow2(a) * Pow2(b)
    decreases a
  {
    if a > 0 {
      calc {
        Pow2(a + b);
        2 * Pow2(a - 1 + b);
        { Pow2Add(a - 1, b); }
        2 * (Pow2(a - 1) * Pow2(b));
        (2 * Pow2(a - 1)) * Pow2(b);
        Pow2(a) * Pow2(b);
      }
    }
  }

  /** The powers of two behind the bounds in Go's `math` package. */
  lemma Pow2Values()
    ensures Pow2(7) == 0x80 && Pow2(8) == 0x100 && Pow2(15) == 0x8000 && Pow2(16) == 0x1_0000
    ensures Pow2(31) == 0x8000_0000 && Pow2(32) == 0x1_0000_0000
    ensures Pow2(63) == 0x8000_0000_0000_0000 && Pow2(64) == 0x1_0000_0000_0000_0000
  {
    Pow2Add(16, 16);
    Pow2Add(15, 16);
    Pow2Add(31, 32);
    Pow2Add(32, 32);
  }

  /** A multiple of a positive `n` leaves no remainder. */
  lemma MultipleMod(q: int, n: int)
    requires n > 0
    ensures (q * n) % n == 0
  {
    var d := (q * n) / n;
    var rest := (q * n) % n;
    assert q * n == d * n + rest;
    assert (q - d) * n == rest;
    if q - d >= 1 {
      assert false;
    } else if q - d <= -1 {
      assert false;
    }
  }

  /** Dafny's `%` with a positive modulus: the remainder and its two wrap-arounds. */
  lemma EuclideanMod(v: int, n: int)
    requires n > 0
    ensures 0 <= v % n < n
    ensures (v - v % n) % n == 0 && (v - (v % n - n)) % n == 0
    ensures 0 <= v < n ==> v % n == v
    ensures -n <= v < 0 ==> v % n == v + n
  {
    var q := v / n;
    var r := v % n;
    assert v == q * n + r;
    MultipleMod(q, n);
    MultipleMod(q + 1, n);
    assert v - r == q * n;
    assert v - (r - n) == (q + 1) * n;
    if 0 <= v < n {
      if q >= 1 {
        assert false;
      } else if q <= -1 {
        assert false;
      }
    }
    if -n <= v < 0 {
      if q >= 0 {
        assert false;
      } else if q <= -2 {
        assert false;
      }
    }
  }

  const MinInt64: int := -0x8000_0000_0000_0000
  const MaxInt64: int := 0x7fff_ffff_ffff_ffff
  const MaxUint64: int := 0xffff_ffff_ffff_ffff

  /** What `strconv.ParseInt(s, 10, 64)` returns on success. */
  type Int64Value = x: int | MinInt64 <= x <= MaxInt64
  /** What `strconv.ParseUint(s, 10, 64)` returns on success. */
  type Uint64Value = x: int | 0 <= x <= MaxUint64

  /**
   * The signed target types of `ParseInt`: the five predeclared ones, and a
   * named type such as `type Level int8` declared over another signed type,
   * which the constraint `~int8` admits as well.
   */
  datatype SignedType = Int | Int8 | Int16 | Int32 | Int64 | NamedInt(base: SignedType) {
    /** A type switch case `int8` matches the type itself, never a named type. */
    predicate Predeclared() {
      !NamedInt?
    }

    /** The predeclared type beneath a chain of named types. */
    function Underlying(): (u: SignedType)
      ensures u.Predeclared() && u.Bits() == Bits()
      ensures Predeclared() ==> u == this
    {
      match this
      case NamedInt(b) => b.Underlying()
      case _ => this
    }

    /** The width of the underlying type. */
    function Bits(): (n: nat)
      ensures n == 8 || n == 16 || n == 32 || n == 64
    {
      match this
      case Int8 => 8
      case Int16 => 16
      case Int32 => 32
      case NamedInt(b) => b.Bits()
      case _ => 64
    }

    /** The two's complement range of `Bits()` bits: `math.MinInt8` and so on. */
    function Min(): int {
      match Bits()
      case 8 => -0x80
      case 16 => -0x8000
      case 32 => -0x8000_0000
      case _ => MinInt64
    }

    function Max(): int {
      match Bits()
      case 8 => 0x7f
      case 16 => 0x7fff
      case 32 => 0x7fff_ffff
      case _ => MaxInt64
    }

    /** The number of values of the type, 2^Bits(). */
    function Modulus(): int {
      Max() - Min() + 1
    }

    /**
     * The conversion `T(v)`: the one value in range that agrees with `v`
     * modulo 2^Bits(), so a value already in range is kept.
     */
    function Convert(v: int): (r: int)
      ensures Min() <= r <= Max()
      ensures (v - r) % Modulus() == 0
      ensures Min() <= v <= Max() ==> r == v
    {
      EuclideanMod(v, Modulus());
      var m := v % Modulus();
      if m <= Max() then m else m - Modulus()
    }
  }

  /** The unsigned target types of `ParseUint`, named types included. */
  datatype UnsignedType = Uint | Uint8 | Uint16 | Uint32 | Uint64 | NamedUint(base: UnsignedType) {
    /** A type switch case `uint8` matches the type itself, never a named type. */
    predicate Predeclared() {
      !NamedUint?
    }

    /** The predeclared type beneath a chain of named types. */
    function Underlying(): (u: UnsignedType)
      ensures u.Predeclared() && u.Bits() == Bits()
      ensures Predeclared() ==> u == this
    {
      match this
      case NamedUint(b) => b.Underlying()
      case _ => this
    }

    /** The width of the underlying type. */
    function Bits(): (n: nat)
      ensures n == 8 || n == 16 || n == 32 || n == 64
    {
      match this
      case Uint8 => 8
      case Uint16 => 16
      case Uint32 => 32
      case NamedUint(b) => b.Bits()
      case _ => 64
    }

    /** The largest value of `Bits()` bits: `math.MaxUint8` and so on. */
    function Max(): int {
      match Bits()
      case 8 => 0xff
      case 16 => 0xffff
      case 32 => 0xffff_ffff
      case _ => MaxUint64
    }

    /** The number of values of the type, 2^Bits(). */
    function Modulus(): int {
      Max() + 1
    }

    /** The conversion `T(v)`: `v` modulo 2^Bits(), so a value in range is kept. */
    function Convert(v: nat): (r: nat)
      ensures r <= Max()
      ensures (v - r) % Modulus() == 0
      ensures v <= Max() ==> r == v
    {
      EuclideanMod(v, Modulus());
      v % Modulus()
    }
  }

  /**
   * `OverflowInt[T]`: the range check of each predeclared type. The type
   * switch matches no named type, which falls through to `return false`.
   */
  function OverflowInt(t: SignedType, v: Int64Value): (r: bool)
    ensures r <==> t.Predeclared() && (v < t.Min() || t.Max() < v)
  {
    match t
    case Int => v > MaxInt64 || v < MinInt64
    case Int8 => v > 0x7f || v < -0x80
    case Int16 => v > 0x7fff || v < -0x8000
    case Int32 => v > 0x7fff_ffff || v < -0x8000_0000
    case Int64 => v > MaxInt64 || v < MinInt64
    case NamedInt(_) => false
  }

  /** `OverflowUint[T]`: as `OverflowInt`; `uint64` and named types never overflow. */
  function OverflowUint(t: UnsignedType, v: Uint64Value): (r: bool)
    ensures r <==> t.Predeclared() && t.Max() < v
  {
    match t
    case Uint => v > MaxUint64
    case Uint8 => v > 0xff
    case Uint16 => v > 0xffff
    case Uint32 => v > 0xffff_ffff
    case Uint64 => false
    case NamedUint(_) => false
  }

  /**
   * `ParseInt[T]`: a number token whose text parses and passes the range
   * check, converted to T. A non-number kind, the parser's own error
   * (passed on unchanged) and an out-of-range value are the three ways to
   * fail. For a named T nothing is out of range and the conversion wraps.
   */
  function ParseInt(t: SignedType, parse64: string -> Result<Int64Value, Error>, token: string, k: Kind)
    : (r: Result<int, Error>)
    ensures r.Ok? <==> k == NumberKind && parse64(token).Ok?
                       && (t.Predeclared() ==> t.Min() <= parse64(token).value <= t.Max())
    ensures r.Ok? ==> r.value == t.Convert(parse64(token).value)
    ensures r.Ok? && t.Predeclared() ==> r.value == parse64(token).value
    ensures k != NumberKind ==> r == Err(Complaint(NumberFormat, token))
    ensures k == NumberKind && parse64(token).Err? ==> r == Err(parse64(token).error)
    ensures k == NumberKind && parse64(token).Ok? && r.Err? ==> r == Err(Complaint(IntRangeFormat, token))
  {
    if k != NumberKind then Err(Complaint(NumberFormat, token))
    else match parse64(token)
      case Err(e) => Err(e)
      case Ok(v) => if OverflowInt(t, v) then Err(Complaint(IntRangeFormat, token)) else Ok(t.Convert(v))
  }

  /** `ParseIntKey[T]`: `ParseInt` on the text alone, whatever the token's kind. */
  function ParseIntKey(t: SignedType, parse64: string -> Result<Int64Value, Error>, token: string, k: Kind)
    : (r: Result<int, Error>)
    ensures r == ParseInt(t, parse64, token, NumberKind)
  {
    match parse64(token)
    case Err(e) => Err(e)
    case Ok(v) => if OverflowInt(t, v) then Err(Complaint(IntRangeFormat, token)) else Ok(t.Convert(v))
  }

  /** `ParseUint[T]`: as `ParseInt`, with the unsigned range and its message. */
  function ParseUint(t: UnsignedType, parse64: string -> Result<Uint64Value, Error>, token: string, k: Kind)
    : (r: Result<int, Error>)
    ensures r.Ok? <==> k == NumberKind && parse64(token).Ok?
                       && (t.Predeclared() ==> parse64(token).value <= t.Max())
    ensures r.Ok? ==> 0 <= r.value && r.value == t.Convert(parse64(token).value)
    ensures r.Ok? && t.Predeclared() ==> r.value == parse64(token).value
    ensures k != NumberKind ==> r == Err(Complaint(NumberFormat, token))
    ensures k == NumberKind && parse64(token).Err? ==> r == Err(parse64(token).error)
    ensures k == NumberKind && parse64(token).Ok? && r.Err? ==> r == Err(Complaint(UintRangeFormat, token))
  {
    if k != NumberKind then Err(Complaint(NumberFormat, token))
    else match parse64(token)
      case Err(e) => Err(e)
      case Ok(v) => if OverflowUint(t, v) then Err(Complaint(UintRangeFormat, token)) else Ok(t.Convert(v))
  }

  /**
   * `ParseUintKey[T]`: `ParseUint` on the text alone, except that its range
   * error is the signed one, without the closing backtick.
   */
  function ParseUintKey(t: UnsignedType, parse64: string -> Result<Uint64Value, Error>, token: string, k: Kind)
    : (r: Result<int, Error>)
    ensures ParseUint(t, parse64, token, NumberKind).Ok? ==> r == ParseUint(t, parse64, token, NumberKind)
    ensures parse64(token).Err? ==> r == Err(parse64(token).error)
    ensures parse64(token).Ok? && r.Err? ==> r == Err(Complaint(IntRangeFormat, token))
    ensures r.Ok? <==> ParseUint(t, parse64, token, NumberKind).Ok?
  {
    match parse64(token)
    case Err(e) => Err(e)
    case Ok(v) => if OverflowUint(t, v) then Err(Complaint(IntRangeFormat, token)) else Ok(t.Convert(v))
  }

  /**
   * The range check that `OverflowInt`'s doc comment promises for every T
   * its constraint admits: `ParseInt` at T's underlying predeclared type.
   * It fails on a value outside T's range and otherwise keeps the value.
   */
  function CheckedParseInt(t: SignedType, parse64: string -> Result<Int64Value, Error>, token: string, k: Kind)
    : (r: Result<int, Error>)
    ensures r.Ok? <==> k == NumberKind && parse64(token).Ok? && t.Min() <= parse64(token).value <= t.Max()
    ensures r.Ok? ==> r.value == parse64(token).value
    ensures k != NumberKind ==> r == Err(Complaint(NumberFormat, token))
    ensures k == NumberKind && parse64(token).Err? ==> r == Err(parse64(token).error)
    ensures k == NumberKind && parse64(token).Ok? && r.Err? ==> r == Err(Complaint(IntRangeFormat, token))
    ensures t.Predeclared() ==> r == ParseInt(t, parse64, token, k)
  {
    ParseInt(t.Underlying(), parse64, token, k)
  }

  /** The checked `ParseIntKey[T]`: `ParseIntKey` at T's underlying type. */
  function CheckedParseIntKey(t: SignedType, parse64: string -> Result<Int64Value, Error>, token: string, k: Kind)
    : (r: Result<int, Error>)
    ensures r == CheckedParseInt(t, parse64, token, NumberKind)
    ensures t.Predeclared() ==> r == ParseIntKey(t, parse64, token, k)
  {
    ParseIntKey(t.Underlying(), parse64, token, k)
  }

  /** The checked `ParseUint[T]`: `ParseUint` at T's underlying predeclared type. */
  function CheckedParseUint(t: UnsignedType, parse64: string -> Result<Uint64Value, Error>, token: string, k: Kind)
    : (r: Result<int, Error>)
    ensures r.Ok? <==> k == NumberKind && parse64(token).Ok? && parse64(token).value <= t.Max()
    ensures r.Ok? ==> r.value == parse64(token).value
    ensures k != NumberKind ==> r == Err(Complaint(NumberFormat, token))
    ensures k == NumberKind && parse64(token).Err? ==> r == Err(parse64(token).error)
    ensures k == NumberKind && parse64(token).Ok? && r.Err? ==> r == Err(Complaint(UintRangeFormat, token))
    ensures t.Predeclared() ==> r == ParseUint(t, parse64, token, k)
  {
    ParseUint(t.Underlying(), parse64, token, k)
  }

  /** The checked `ParseUintKey[T]`: `ParseUintKey` at T's underlying type. */
  function CheckedParseUintKey(t: UnsignedType, parse64: string -> Result<Uint64Value, Error>, token: string, k: Kind)
    : (r: Result<int, Error>)
    ensures r.Ok? <==> CheckedParseUint(t, parse64, token, NumberKind).Ok?
    ensures r.Ok? ==> r == CheckedParseUint(t, parse64, token, NumberKind)
    ensures parse64(token).Err? ==> r == Err(parse64(token).error)
    ensures parse64(token).Ok? && r.Err? ==> r == Err(Complaint(IntRangeFormat, token))
    ensures t.Predeclared() ==> r == ParseUintKey(t, parse64, token, k)
  {
    ParseUintKey(t.Underlying(), parse64, token, k)
  }

  // ---------------------------------------------------------------------
  // Combinators, as functions on streams

  /** The stream after reading one token, whether or not one was left. */
  function Skip(s: Stream): Stream {
    Read(s).rest
  }

  /** A successful reply to a pointer-valued decode: the value, boxed. */
  function Boxed<T>(r: Reply<T>): (b: Reply<Option<T>>)
    ensures b.rest == r.rest && (b.result.Ok? <==> r.result.Ok?)
    ensures r.result.Ok? ==> b.result.value == Some(r.result.value)
    ensures r.result.Err? ==> b.result.error == r.result.error
  {
    match r.result
    case Err(e) => Reply(Err(e), r.rest)
    case Ok(v) => Reply(Ok(Some(v)), r.rest)
  }

  /**
   * `DecodeValue(parseFn, errFormat)(d)`: reads exactly one token, if any;
   * a scalar token goes to the parser, any other (null included) is a
   * format error, and a read error is passed on.
   */
  function ValueReply<T>(parse: ScalarFn<T>, format: Format, s: Stream): (r: Reply<T>)
    ensures s.tokens == [] ==> r == Reply(Err(s.tail), s)
    ensures s.tokens != [] ==> r.rest == Stream(s.tokens[1..], s.tail)
    ensures s.tokens != [] && IsScalar(s.tokens[0].kind) ==> r.result == parse(s.tokens[0].text, s.tokens[0].kind)
    ensures s.tokens != [] && !IsScalar(s.tokens[0].kind) ==> r.result == Err(Complaint(format, s.tokens[0].text))
  {
    match Read(s)
    case Reply(Err(e), rest) => Reply(Err(e), rest)
    case Reply(Ok(token), rest) =>
      if token.kind == NullKind then Reply(Err(Complaint(format, token.text)), rest)
      else if IsScalar(token.kind) then Reply(parse(token.text, token.kind), rest)
      else Reply(Err(Complaint(format, token.text)), rest)
  }

  /**
   * `DecodeValuePtr(parseFn, errFormat)(d)`: null gives a nil pointer and no
   * error; on any other input it is `DecodeValue` with its value boxed.
   */
  function ValuePtrReply<T>(parse: ScalarFn<T>, format: Format, s: Stream): (r: Reply<Option<T>>)
    ensures r.result == Ok(None) <==> s.tokens != [] && s.tokens[0].kind == NullKind
    ensures Peek(s) == NullKind ==> r.rest == Stream(s.tokens[1..], s.tail)
    ensures Peek(s) != NullKind ==> r == Boxed(ValueReply(parse, format, s))
  {
    match Read(s)
    case Reply(Err(e), rest) => Reply(Err(e), rest)
    case Reply(Ok(token), rest) =>
      if token.kind == NullKind then Reply(Ok(None), rest)
      else if IsScalar(token.kind) then
        match parse(token.text, token.kind)
        case Err(e) => Reply(Err(e), rest)
        case Ok(v) => Reply(Ok(Some(v)), rest)
      else Reply(Err(Complaint(format, token.text)), rest)
  }

  /** `DecodeObjectBegin` and `DecodeObjectEnd`: one token, which must be of kind `k`. */
  function DelimiterReply(k: Kind, format: Format, s: Stream): (r: Reply<()>)
    ensures r.rest == Skip(s)
    ensures r.result.Ok? <==> s.tokens != [] && s.tokens[0].kind == k
    ensures s.tokens == [] ==> r.result == Err(s.tail)
    ensures s.tokens != [] && s.tokens[0].kind != k ==> r.result == Err(Complaint(format, s.tokens[0].text))
  {
    match Read(s)
    case Reply(Err(e), rest) => Reply(Err(e), rest)
    case Reply(Ok(token), rest) =>
      if token.kind != k then Reply(Err(Complaint(format, token.text)), rest) else Reply(Ok(()), rest)
  }

  /** The error of a combinator whose first token is neither null nor its opening token. */
  function Unexpected<T>(format: Format, s: Stream): (r: Reply<T>)
    ensures r.rest == Skip(s)
    ensures s.tokens == [] ==> r.result == Err(s.tail)
    ensures s.tokens != [] ==> r.result == Err(Complaint(format, s.tokens[0].text))
  {
    match Read(s)
    case Reply(Err(e), rest) => Reply(Err(e), rest)
    case Reply(Ok(token), rest) => Reply(Err(Complaint(format, token.text)), rest)
  }

  /**
   * `DecodeObject(newFn)(d)`: null gives the zero value; an opening brace
   * hands the decoder, brace included, to the object's `DecodeJSON`; anything
   * else is an "expected `{`" error.
   */
  function ObjectReply<T>(decodeJson: Parser<T>, s: Stream): (r: Reply<Option<T>>)
    ensures r.result == Ok(None) <==> Peek(s) == NullKind
    ensures r.result.Ok? && r.result.value.Some? ==> Peek(s) == ObjectBeginKind && decodeJson(s).result == Ok(r.result.value.value)
    ensures Peek(s) == ObjectBeginKind ==> r == Boxed(decodeJson(s))
    ensures Peek(s) != NullKind && Peek(s) != ObjectBeginKind ==> r == Unexpected(ExpectObjectFormat, s)
    ensures Advances(s, r.rest) && (r.result.Ok? ==> |r.rest.tokens| < |s.tokens|)
  {
    var k := Peek(s);
    if k == NullKind then Reply(Ok(None), Skip(s))
    else if k == ObjectBeginKind then Boxed(decodeJson(s))
    else Unexpected(ExpectObjectFormat, s)
  }

  /**
   * The loop of `DecodeArray` from stream `s`, with `acc` decoded so far:
   * stops at the closing bracket (consuming it) or at the first element
   * error. Whatever it returns extends `acc`.
   */
  function ElementsReply<T>(elem: Parser<T>, s: Stream, acc: seq<T>): (r: Reply<seq<T>>)
    ensures Advances(s, r.rest) && (r.result.Ok? ==> |r.rest.tokens| < |s.tokens|)
    ensures r.result.Ok? ==> |acc| <= |r.result.value| && r.result.value[..|acc|] == acc
    decreases |s.tokens|
  {
    if Peek(s) == ArrayEndKind then Reply(Ok(acc), Skip(s))
    else
      var r := elem(s);
      match r.result
      case Err(e) => Reply(Err(e), r.rest)
      case Ok(v) => ElementsReply(elem, r.rest, acc + [v])
  }

  /**
   * `DecodeArray(parseFn)(d)`: null gives a nil slice; an opening bracket
   * gives the elements in order, a non-nil slice even when empty, or the
   * first element error and no slice; anything else is an "expected `[`"
   * error.
   */
  function ArrayReply<T>(elem: Parser<T>, s: Stream): (r: Reply<Option<seq<T>>>)
    ensures r.result == Ok(None) <==> Peek(s) == NullKind
    ensures r.result.Ok? && r.result.value.Some? <==> Peek(s) == ArrayBeginKind && ElementsReply(elem, Skip(s), []).result.Ok?
    ensures Peek(s) == ArrayBeginKind ==> r == Boxed(ElementsReply(elem, Skip(s), []))
    ensures Peek(s) != NullKind && Peek(s) != ArrayBeginKind ==> r == Unexpected(ExpectArrayFormat, s)
    ensures Advances(s, r.rest) && (r.result.Ok? ==> |r.rest.tokens| < |s.tokens|)
  {
    var k := Peek(s);
    if k == NullKind then Reply(Ok(None), Skip(s))
    else if k == ArrayBeginKind then
      var elements := ElementsReply(elem, Skip(s), []);
      AdvancesTransitive(s, Skip(s), elements.rest);
      Boxed(elements)
    else Unexpected(ExpectArrayFormat, s)
  }

  /**
   * The loop of `DecodeMap` from stream `s`, with `acc` decoded so far: a key,
   * then its value, then `m[key] = val`, until the closing brace (consumed)
   * or the first key or value error. Whatever it returns holds every key of
   * `acc`.
   */
  function EntriesReply<K, V>(key: Parser<K>, val: Parser<V>, s: Stream, acc: map<K, V>): (r: Reply<map<K, V>>)
    ensures Advances(s, r.rest) && (r.result.Ok? ==> |r.rest.tokens| < |s.tokens|)
    ensures r.result.Ok? ==> acc.Keys <= r.result.value.Keys
    decreases |s.tokens|
  {
    if Peek(s) == ObjectEndKind then Reply(Ok(acc), Skip(s))
    else
      var rk := key(s);
      match rk.result
      case Err(e) => Reply(Err(e), rk.rest)
      case Ok(k) =>
        var rv := val(rk.rest);
        match rv.result
        case Err(e) => Reply(Err(e), rv.rest)
        case Ok(v) => EntriesReply(key, val, rv.rest, acc[k := v])
  }

  /** `DecodeMap(parseKeyFn, parseValFn)(d)`: as `DecodeArray`, for objects. */
  function MapReply<K, V>(key: Parser<K>, val: Parser<V>, s: Stream): (r: Reply<Option<map<K, V>>>)
    ensures r.result == Ok(None) <==> Peek(s) == NullKind
    ensures r.result.Ok? && r.result.value.Some? <==> Peek(s) == ObjectBeginKind && EntriesReply(key, val, Skip(s), map[]).result.Ok?
    ensures Peek(s) == ObjectBeginKind ==> r == Boxed(EntriesReply(key, val, Skip(s), map[]))
    ensures Peek(s) != NullKind && Peek(s) != ObjectBeginKind ==> r == Unexpected(ExpectObjectFormat, s)
    ensures Advances(s, r.rest) && (r.result.Ok? ==> |r.rest.tokens| < |s.tokens|)
  {
    var k := Peek(s);
    if k == NullKind then Reply(Ok(None), Skip(s))
    else if k == ObjectBeginKind then
      var entries := EntriesReply(key, val, Skip(s), map[]);
      AdvancesTransitive(s, Skip(s), entries.rest);
      Boxed(entries)
    else Unexpected(ExpectObjectFormat, s)
  }

  // ---------------------------------------------------------------------
  // The closures the combinators return

  function ValueParser<T>(parse: ScalarFn<T>, format: Format): Parser<T> {
    (s: Stream) => ValueReply(parse, format, s)
  }

  function ValuePtrParser<T>(parse: ScalarFn<T>, format: Format): Parser<Option<T>> {
    (s: Stream) => ValuePtrReply(parse, format, s)
  }

  function ObjectParser<T>(decodeJson: Parser<T>): Parser<Option<T>> {
    (s: Stream) => ObjectReply(decodeJson, s)
  }

  function ArrayParser<T>(elem: Parser<T>): Parser<Option<seq<T>>> {
    (s: Stream) => ArrayReply(elem, s)
  }

  function MapParser<K, V>(key: Parser<K>, val: Parser<V>): Parser<Option<map<K, V>>> {
    (s: Stream) => MapReply(key, val, s)
  }

  // ---------------------------------------------------------------------
  // Combinators, as methods on a decoder

  method DecodeValue<T>(d: Decoder, parse: ScalarFn<T>, format: Format) returns (r: Result<T, Error>)
    modifies d
    ensures Reply(r, d.Remaining()) == ValueReply(parse, format, old(d.Remaining()))
  {
    var token := d.ReadToken();
    if token.Err? {
      return Err(token.error);
    }
    var t := token.value;
    if t.kind == NullKind {
      return Err(Complaint(format, t.text));
    } else if IsScalar(t.kind) {
      return parse(t.text, t.kind);
    }
    return Err(Complaint(format, t.text));
  }

  method DecodeValuePtr<T>(d: Decoder, parse: ScalarFn<T>, format: Format) returns (r: Result<Option<T>, Error>)
    modifies d
    ensures Reply(r, d.Remaining()) == ValuePtrReply(parse, format, old(d.Remaining()))
  {
    var token := d.ReadToken();
    if token.Err? {
      return Err(token.error);
    }
    var t := token.value;
    if t.kind == NullKind {
      return Ok(None);
    } else if IsScalar(t.kind) {
      var v := parse(t.text, t.kind);
      if v.Err? {
        return Err(v.error);
      }
      return Ok(Some(v.value));
    }
    return Err(Complaint(format, t.text));
  }

  method DecodeObjectBegin(d: Decoder) returns (err: Option<Error>)
    modifies d
    ensures var r := DelimiterReply(ObjectBeginKind, ObjectBeginFormat, old(d.Remaining()));
            d.Remaining() == r.rest && (err.None? <==> r.result.Ok?) && (err.Some? ==> r.result == Err(err.value))
  {
    var token := d.ReadToken();
    if token.Err? {
      return Some(token.error);
    }
    if token.value.kind != ObjectBeginKind {
      return Some(Complaint(ObjectBeginFormat, token.value.text));
    }
    return None;
  }

  method DecodeObjectEnd(d: Decoder) returns (err: Option<Error>)
    modifies d
    ensures var r := DelimiterReply(ObjectEndKind, ObjectEndFormat, old(d.Remaining()));
            d.Remaining() == r.rest && (err.None? <==> r.result.Ok?) && (err.Some? ==> r.result == Err(err.value))
  {
    var token := d.ReadToken();
    if token.Err? {
      return Some(token.error);
    }
    if token.value.kind != ObjectEndKind {
      return Some(Complaint(ObjectEndFormat, token.value.text));
    }
    return None;
  }

  method DecodeObject<T>(d: Decoder, decodeJson: Parser<T>) returns (r: Result<Option<T>, Error>)
    modifies d
    ensures Reply(r, d.Remaining()) == ObjectReply(decodeJson, old(d.Remaining()))
  {
    var k := d.PeekKind();
    if k == NullKind {
      var _ := d.ReadToken();
      return Ok(None);
    } else if k == ObjectBeginKind {
      var v := d.Apply(decodeJson);
      if v.Err? {
        return Err(v.error);
      }
      return Ok(Some(v.value));
    }
    var token := d.ReadToken();
    if token.Err? {
      return Err(token.error);
    }
    return Err(Complaint(ExpectObjectFormat, token.value.text));
  }

  method DecodeArray<T>(d: Decoder, elem: Parser<T>) returns (r: Result<Option<seq<T>>, Error>)
    modifies d
    ensures Reply(r, d.Remaining()) == ArrayReply(elem, old(d.Remaining()))
  {
    var k := d.PeekKind();
    if k == NullKind {
      var _ := d.ReadToken();
      return Ok(None);
    } else if k == ArrayBeginKind {
      var _ := d.ReadToken();
      ghost var start := d.Remaining();
      var v: seq<T> := [];
      while true
        invariant ElementsReply(elem, d.Remaining(), v) == ElementsReply(elem, start, [])
        decreases |d.tokens|
      {
        k := d.PeekKind();
        if k == ArrayEndKind {
          break;
        }
        var i := d.Apply(elem);
        if i.Err? {
          return Err(i.error);
        }
        v := v + [i.value];
      }
      var _ := d.ReadToken();
      return Ok(Some(v));
    }
    var token := d.ReadToken();
    if token.Err? {
      return Err(token.error);
    }
    return Err(Complaint(ExpectArrayFormat, token.value.text));
  }

  method DecodeMap<K, V>(d: Decoder, key: Parser<K>, val: Parser<V>) returns (r: Result<Option<map<K, V>>, Error>)
    modifies d
    ensures Reply(r, d.Remaining()) == MapReply(key, val, old(d.Remaining()))
  {
    var k := d.PeekKind();
    if k == NullKind {
      var _ := d.ReadToken();
      return Ok(None);
    } else if k == ObjectBeginKind {
      var _ := d.ReadToken();
      ghost var start := d.Remaining();
      var m: map<K, V> := map[];
      while true
        invariant EntriesReply(key, val, d.Remaining(), m) == EntriesReply(key, val, start, map[])
        decreases |d.tokens|
      {
        k := d.PeekKind();
        if k == ObjectEndKind {
          break;
        }
        var kr := d.Apply(key);
        if kr.Err? {
          return Err(kr.error);
        }
        var vr := d.Apply(val);
        if vr.Err? {
          return Err(vr.error);
        }
        m := m[kr.value := vr.value];
      }
      var _ := d.ReadToken();
      return Ok(Some(m));
    }
    var token := d.ReadToken();
    if token.Err? {
      return Err(token.error);
    }
    return Err(Complaint(ExpectObjectFormat, token.value.text));
  }
}
