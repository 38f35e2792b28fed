/**
 * What the jsonflow combinators (jsonflow/decode.go) promise over whole
 * inputs: arrays and maps of scalars decode to the per-token parses, in
 * order, with later map keys overwriting earlier ones; integer targets have
 * their Go ranges; and the error texts are the ones the package's tests pin.
 */
module JsonFlowProperties {
  import opened Wrappers
  import opened JsonStream
  import opened JsonFlow

  // ---------------------------------------------------------------------
  // Integer ranges

  /** The ranges of the signed targets are those of Go's `math` package. */
  lemma SignedRanges()
    ensures Int8.Min() == -128 && Int8.Max() == 127
    ensures Int16.Min() == -32768 && Int16.Max() == 32767
    ensures Int32.Min() == -2147483648 && Int32.Max() == 2147483647
    ensures Int64.Min() == MinInt64 && Int64.Max() == MaxInt64
    ensures Int.Min() == MinInt64 && Int.Max() == MaxInt64
  {
  }

  /** Every signed type, named or not, ranges over -2^(n-1) .. 2^(n-1)-1 for its width n. */
  lemma SignedPowers(t: SignedType)
    ensures t.Min() == -(Pow2(t.Bits() - 1) as int) && t.Max() == Pow2(t.Bits() - 1) - 1
    ensures t.Modulus() == Pow2(t.Bits())
  {
    Pow2Values();
  }

  /** The ranges of the unsigned targets; no 64-bit value overflows `uint64` or `uint`. */
  lemma UnsignedRanges()
    ensures Uint8.Max() == 255 && Uint16.Max() == 65535 && Uint32.Max() == 4294967295
    ensures Uint64.Max() == MaxUint64 && Uint.Max() == MaxUint64
    ensures forall v: Uint64Value :: !OverflowUint(Uint64, v) && !OverflowUint(Uint, v)
  {
  }

  /** Every unsigned type, named or not, ranges over 0 .. 2^n-1 for its width n. */
  lemma UnsignedPowers(t: UnsignedType)
    ensures t.Max() == Pow2(t.Bits()) - 1 && t.Modulus() == Pow2(t.Bits())
  {
    Pow2Values();
  }

  /** Powers of two grow with the exponent: a wider type has the larger bounds. */
  lemma {:induction false} Pow2Monotone(a: nat, b: nat)
    requires a <= b
    ensures Pow2(a) <= Pow2(b)
    decreases b
  {
    if a < b {
      Pow2Monotone(a, b - 1);
    }
  }

  /**
   * A value that overflows a signed type lies outside the range of every
   * narrower one, and so overflows it when it is predeclared.
   */
  lemma OverflowIntNarrower(t: SignedType, u: SignedType, v: Int64Value)
    requires t.Bits() <= u.Bits()
    ensures OverflowInt(u, v) ==> v < t.Min() || t.Max() < v
    ensures OverflowInt(u, v) && t.Predeclared() ==> OverflowInt(t, v)
  {
  }

  /** The conversion `T(v)` takes one past the maximum round to the minimum. */
  lemma ConvertWrapsAtMax(t: SignedType)
    ensures t.Convert(t.Max() + 1) == t.Min()
  {
    EuclideanMod(t.Max() + 1, t.Modulus());
  }

  /**
   * The boundary values of every signed type parse. One past the maximum is
   * the range error for a predeclared type and for the checked parser, but
   * wraps to the minimum for a named type.
   */
  lemma ParseIntBoundaries(t: SignedType, parse64: string -> Result<Int64Value, Error>, token: string)
    requires parse64(token).Ok?
    ensures parse64(token).value == t.Min() ==> ParseInt(t, parse64, token, NumberKind) == Ok(t.Min())
    ensures parse64(token).value == t.Max() ==> ParseInt(t, parse64, token, NumberKind) == Ok(t.Max())
    ensures parse64(token).value == t.Max() + 1 && t.Predeclared()
            ==> ParseInt(t, parse64, token, NumberKind) == Err(Complaint(IntRangeFormat, token))
    ensures parse64(token).value == t.Max() + 1 && !t.Predeclared()
            ==> ParseInt(t, parse64, token, NumberKind) == Ok(t.Min())
    ensures parse64(token).value == t.Max() + 1
            ==> CheckedParseInt(t, parse64, token, NumberKind) == Err(Complaint(IntRangeFormat, token))
  {
    ConvertWrapsAtMax(t);
  }

  /**
   * `type Level int8` meets `ParseInt`'s constraint `~int8`, but no case of
   * `OverflowInt`'s type switch matches it: "300" becomes `Level(44)`,
   * where `int8` and the checked parser report the range error.
   */
  lemma NamedIntWraps(parse64: string -> Result<Int64Value, Error>)
    requires parse64("300") == Ok(300)
    ensures ParseInt(NamedInt(Int8), parse64, "300", NumberKind) == Ok(44)
    ensures ParseIntKey(NamedInt(Int8), parse64, "300", StringKind) == Ok(44)
    ensures ParseInt(Int8, parse64, "300", NumberKind) == Err(Complaint(IntRangeFormat, "300"))
    ensures CheckedParseInt(NamedInt(Int8), parse64, "300", NumberKind) == Err(Complaint(IntRangeFormat, "300"))
    ensures CheckedParseIntKey(NamedInt(Int8), parse64, "300", StringKind) == Err(Complaint(IntRangeFormat, "300"))
  {
    assert NamedInt(Int8).Bits() == 8 && !OverflowInt(NamedInt(Int8), 300) && OverflowInt(Int8, 300);
    assert NamedInt(Int8).Convert(300) == 44;
  }

  /** The unsigned counterpart: `type Flags uint8` on "300" becomes `Flags(44)`. */
  lemma NamedUintWraps(parse64: string -> Result<Uint64Value, Error>)
    requires parse64("300") == Ok(300)
    ensures ParseUint(NamedUint(Uint8), parse64, "300", NumberKind) == Ok(44)
    ensures ParseUintKey(NamedUint(Uint8), parse64, "300", StringKind) == Ok(44)
    ensures ParseUint(Uint8, parse64, "300", NumberKind) == Err(Complaint(UintRangeFormat, "300"))
    ensures CheckedParseUint(NamedUint(Uint8), parse64, "300", NumberKind) == Err(Complaint(UintRangeFormat, "300"))
    ensures CheckedParseUintKey(NamedUint(Uint8), parse64, "300", StringKind) == Err(Complaint(IntRangeFormat, "300"))
  {
    assert NamedUint(Uint8).Bits() == 8 && !OverflowUint(NamedUint(Uint8), 300) && OverflowUint(Uint8, 300);
    assert NamedUint(Uint8).Convert(300) == 44;
  }

  // ---------------------------------------------------------------------
  // Arrays of scalars

  /** The parses of `ts` in order, or the first error: a reference for `DecodeArray`. */
  function ParseAll<T>(parse: ScalarFn<T>, ts: seq<Token>): (r: Result<seq<T>, Error>)
    ensures r.Ok? <==> forall i :: 0 <= i < |ts| ==> parse(ts[i].text, ts[i].kind).Ok?
    ensures r.Ok? ==> |r.value| == |ts| && forall i :: 0 <= i < |ts| ==> parse(ts[i].text, ts[i].kind) == Ok(r.value[i])
    decreases |ts|
  {
    if ts == [] then Ok([])
    else match parse(ts[0].text, ts[0].kind)
      case Err(e) => Err(e)
      case Ok(v) =>
        match ParseAll(parse, ts[1..])
        case Err(e) => Err(e)
        case Ok(vs) => Ok([v] + vs)
  }

  predicate AllScalar(ts: seq<Token>) {
    forall i :: 0 <= i < |ts| ==> IsScalar(ts[i].kind)
  }

  /** The array loop over scalar tokens and a closing bracket. */
  lemma {:induction false} ElementsOfScalars<T>(parse: ScalarFn<T>, format: Format, ts: seq<Token>, close: Token,
                                                 more: seq<Token>, tail: Error, acc: seq<T>)
    requires AllScalar(ts) && close.kind == ArrayEndKind
    ensures var r := ElementsReply(ValueParser(parse, format), Stream(ts + [close] + more, tail), acc);
            && (ParseAll(parse, ts).Ok? ==> r == Reply(Ok(acc + ParseAll(parse, ts).value), Stream(more, tail)))
            && (ParseAll(parse, ts).Err? ==> r.result == Err(ParseAll(parse, ts).error))
    decreases |ts|
  {
    var s := Stream(ts + [close] + more, tail);
    if ts == [] {
      assert s.tokens == [close] + more;
      assert Skip(s) == Stream(more, tail);
      assert Peek(s) == ArrayEndKind;
      assert ElementsReply(ValueParser(parse, format), s, acc) == Reply(Ok(acc), Stream(more, tail));
      assert acc + ParseAll(parse, ts).value == acc;
    } else {
      var elem := ValueParser(parse, format);
      var s1 := Stream(ts[1..] + [close] + more, tail);
      assert s.tokens[0] == ts[0];
      assert s.tokens[1..] == s1.tokens;
      assert Peek(s) != ArrayEndKind;
      var r := elem(s);
      assert r == ValueReply(parse, format, s);
      assert r.rest == s1 && r.result == parse(ts[0].text, ts[0].kind);
      match parse(ts[0].text, ts[0].kind)
      case Err(e) =>
        assert ElementsReply(elem, s, acc) == Reply(Err(e), s1);
      case Ok(v) =>
        assert ElementsReply(elem, s, acc) == ElementsReply(elem, s1, acc + [v]);
        ElementsOfScalars(parse, format, ts[1..], close, more, tail, acc + [v]);
        if ParseAll(parse, ts).Ok? {
          assert acc + [v] + ParseAll(parse, ts[1..]).value == acc + ParseAll(parse, ts).value;
        }
    }
  }

  /**
   * `DecodeArray(DecodeValue(...))` on `[t1, ..., tn]`: the parses of the
   * elements in source order, in a non-nil slice (empty for `[]`), or the
   * first element's error and no slice.
   */
  lemma ArrayOfScalars<T>(parse: ScalarFn<T>, format: Format, open: Token, ts: seq<Token>, close: Token,
                          more: seq<Token>, tail: Error)
    requires open.kind == ArrayBeginKind && AllScalar(ts) && close.kind == ArrayEndKind
    ensures var r := ArrayReply(ValueParser(parse, format), Stream([open] + ts + [close] + more, tail));
            && (ParseAll(parse, ts).Ok? ==> r == Reply(Ok(Some(ParseAll(parse, ts).value)), Stream(more, tail)))
            && (ParseAll(parse, ts).Err? ==> r.result == Err(ParseAll(parse, ts).error))
  {
    var s := Stream([open] + ts + [close] + more, tail);
    assert Skip(s) == Stream(ts + [close] + more, tail);
    ElementsOfScalars(parse, format, ts, close, more, tail, []);
  }

  /** `null` decodes to a nil slice or map, and the next token is untouched. */
  lemma NullCollections<T, K, V>(elem: Parser<T>, key: Parser<K>, val: Parser<V>, nullToken: Token, more: seq<Token>,
                                 tail: Error)
    requires nullToken.kind == NullKind
    ensures ArrayReply(elem, Stream([nullToken] + more, tail)) == Reply(Ok(None), Stream(more, tail))
    ensures MapReply(key, val, Stream([nullToken] + more, tail)) == Reply(Ok(None), Stream(more, tail))
  {
    assert ([nullToken] + more)[1..] == more;
  }

  /** `[]` decodes to an empty, non-nil slice and leaves what follows it. */
  lemma EmptyArray<T>(elem: Parser<T>, rest: seq<Token>, tail: Error)
    ensures ArrayReply(elem, Stream([Token("[", ArrayBeginKind), Token("]", ArrayEndKind)] + rest, tail))
            == Reply(Ok(Some([])), Stream(rest, tail))
  {
    var ts := [Token("[", ArrayBeginKind), Token("]", ArrayEndKind)] + rest;
    assert ts[1..][1..] == rest;
  }

  /** A `[]` element of an array of arrays: the loop appends an empty slice and goes on. */
  lemma EmptyElement<T>(elem: Parser<T>, rest: seq<Token>, tail: Error, acc: seq<Option<seq<T>>>)
    ensures ElementsReply(ArrayParser(elem), Stream([Token("[", ArrayBeginKind), Token("]", ArrayEndKind)] + rest, tail), acc)
            == ElementsReply(ArrayParser(elem), Stream(rest, tail), acc + [Some([])])
  {
    EmptyArray(elem, rest, tail);
  }

  /** `DecodeArray(DecodeArray(...))` on `[[], [], []]`: three empty, non-nil inner slices. */
  lemma NestedEmptyArrays<T>(elem: Parser<T>, tail: Error)
    ensures var open := Token("[", ArrayBeginKind);
            var close := Token("]", ArrayEndKind);
            ArrayReply(ArrayParser(elem), Stream([open, open, close, open, close, open, close, close], tail))
            == Reply(Ok(Some([Some([]), Some([]), Some([])])), Stream([], tail))
  {
    var open := Token("[", ArrayBeginKind);
    var close := Token("]", ArrayEndKind);
    var ts := [open, open, close, open, close, open, close, close];
    var first := ts[1..];
    var e3: seq<Option<seq<T>>> := [Some([]), Some([]), Some([])];
    ThreeEmptyElements(elem, tail);
    assert first == [open, close, open, close, open, close, close];
    assert Skip(Stream(ts, tail)) == Stream(first, tail);
    assert ElementsReply(ArrayParser(elem), Stream(first, tail), []) == Reply(Ok(e3), Stream([], tail));
  }

  /** The loop of the outer `DecodeArray` over `[], [], []]`. */
  lemma ThreeEmptyElements<T>(elem: Parser<T>, tail: Error)
    ensures var open := Token("[", ArrayBeginKind);
            var close := Token("]", ArrayEndKind);
            ElementsReply(ArrayParser(elem), Stream([open, close, open, close, open, close, close], tail), [])
            == Reply(Ok([Some([]), Some([]), Some([])]), Stream([], tail))
  {
    var open := Token("[", ArrayBeginKind);
    var close := Token("]", ArrayEndKind);
    var inner := ArrayParser(elem);
    var last := [close];
    var third := [open, close] + last;
    var second := [open, close] + third;
    var first := [open, close] + second;
    var a0: seq<Option<seq<T>>> := [];
    var a1 := a0 + [Some([])];
    var a2 := a1 + [Some([])];
    var a3 := a2 + [Some([])];
    calc {
      ElementsReply(inner, Stream(first, tail), a0);
      { EmptyElement(elem, second, tail, a0); }
      ElementsReply(inner, Stream(second, tail), a1);
      { EmptyElement(elem, third, tail, a1); }
      ElementsReply(inner, Stream(third, tail), a2);
      { EmptyElement(elem, last, tail, a2); }
      ElementsReply(inner, Stream(last, tail), a3);
      { assert last[1..] == []; }
      Reply(Ok(a3), Stream([], tail));
    }
    assert a3 == [Some([]), Some([]), Some([])];
    assert first == [open, close, open, close, open, close, close];
  }

  /**
   * An array loop that fails returns the error of an element parser, called
   * at a later position of the input whose next token was not `]`, and stops
   * where that parser stopped.
   */
  lemma {:induction false} ElementErrorPropagates<T>(elem: Parser<T>, s: Stream, acc: seq<T>)
    ensures var r := ElementsReply(elem, s, acc);
            r.result.Err? ==>
              exists t :: Advances(s, t) && Peek(t) != ArrayEndKind && elem(t) == Reply(Err(r.result.error), r.rest)
    decreases |s.tokens|
  {
    var r := ElementsReply(elem, s, acc);
    if Peek(s) != ArrayEndKind {
      var r0 := elem(s);
      if r0.result.Err? {
        assert Advances(s, s);
      } else {
        ElementErrorPropagates(elem, r0.rest, acc + [r0.result.value]);
        if r.result.Err? {
          var t :| Advances(r0.rest, t) && Peek(t) != ArrayEndKind && elem(t) == Reply(Err(r.result.error), r.rest);
          AdvancesTransitive(s, r0.rest, t);
        }
      }
    }
  }

  /**
   * `DecodeArray`, `DecodeMap` and `DecodeObject` on any first token other
   * than null and their opening bracket: one token consumed and the
   * "expected" error quoting that token.
   */
  lemma UnexpectedStarts<T, K, V, O>(elem: Parser<T>, key: Parser<K>, val: Parser<V>, decodeJson: Parser<O>,
                                     t: Token, more: seq<Token>, tail: Error)
    requires t.kind != NullKind && t.kind != ArrayBeginKind && t.kind != ObjectBeginKind
    ensures ArrayReply(elem, Stream([t] + more, tail))
            == Reply(Err(Complaint(ExpectArrayFormat, t.text)), Stream(more, tail))
    ensures MapReply(key, val, Stream([t] + more, tail))
            == Reply(Err(Complaint(ExpectObjectFormat, t.text)), Stream(more, tail))
    ensures ObjectReply(decodeJson, Stream([t] + more, tail))
            == Reply(Err(Complaint(ExpectObjectFormat, t.text)), Stream(more, tail))
  {
    assert ([t] + more)[1..] == more;
  }

  // ---------------------------------------------------------------------
  // Maps of scalars

  /** One member of a JSON object: a key token and a value token. */
  datatype Member = Member(key: Token, value: Token)

  /** The tokens of the members, key before value. */
  function Flatten(ms: seq<Member>): (ts: seq<Token>)
    ensures |ts| == 2 * |ms|
  {
    if ms == [] then [] else [ms[0].key, ms[0].value] + Flatten(ms[1..])
  }

  /** The parses of every key and value, in source order, or the first error. */
  function ParseMembers<K, V>(pk: ScalarFn<K>, pv: ScalarFn<V>, ms: seq<Member>): (r: Result<seq<(K, V)>, Error>)
    ensures r.Ok? ==> |r.value| == |ms|
    ensures r.Ok? ==> forall i :: 0 <= i < |ms| ==>
                        (pk(ms[i].key.text, ms[i].key.kind) == Ok(r.value[i].0)
                         && pv(ms[i].value.text, ms[i].value.kind) == Ok(r.value[i].1))
    decreases |ms|
  {
    if ms == [] then Ok([])
    else match pk(ms[0].key.text, ms[0].key.kind)
      case Err(e) => Err(e)
      case Ok(k) =>
        match pv(ms[0].value.text, ms[0].value.kind)
        case Err(e) => Err(e)
        case Ok(v) =>
          match ParseMembers(pk, pv, ms[1..])
          case Err(e) => Err(e)
          case Ok(kvs) => Ok([(k, v)] + kvs)
  }

  /** `acc` with the pairs assigned in order, defined by the last assignment. */
  function FromPairs<K, V>(acc: map<K, V>, kvs: seq<(K, V)>): map<K, V>
    decreases |kvs|
  {
    if kvs == [] then acc
    else FromPairs(acc, kvs[..|kvs| - 1])[kvs[|kvs| - 1].0 := kvs[|kvs| - 1].1]
  }

  /** Assigning one pair first is the same as starting from the updated map. */
  lemma {:induction false} FromPairsCons<K, V>(acc: map<K, V>, k: K, v: V, kvs: seq<(K, V)>)
    ensures FromPairs(acc[k := v], kvs) == FromPairs(acc, [(k, v)] + kvs)
    decreases |kvs|
  {
    var all := [(k, v)] + kvs;
    if kvs == [] {
      assert all[..0] == [];
    } else {
      var n := |kvs|;
      assert all[..|all| - 1] == [(k, v)] + kvs[..n - 1];
      assert all[|all| - 1] == kvs[n - 1];
      FromPairsCons(acc, k, v, kvs[..n - 1]);
    }
  }

  /**
   * A later duplicate key overwrites: a key is present exactly when it was
   * present before or is assigned, and it holds the value of its last
   * assignment, or its old value when never assigned.
   */
  lemma {:induction false} LastWins<K, V>(acc: map<K, V>, kvs: seq<(K, V)>, k: K)
    ensures k in FromPairs(acc, kvs) <==> k in acc || exists i :: 0 <= i < |kvs| && kvs[i].0 == k
    ensures forall i :: 0 <= i < |kvs| && kvs[i].0 == k && (forall j :: i < j < |kvs| ==> kvs[j].0 != k)
                        ==> FromPairs(acc, kvs)[k] == kvs[i].1
    ensures k in acc && (forall i :: 0 <= i < |kvs| ==> kvs[i].0 != k) ==> FromPairs(acc, kvs)[k] == acc[k]
    decreases |kvs|
  {
    if kvs != [] {
      var n := |kvs|;
      var init := kvs[..n - 1];
      LastWins(acc, init, k);
      assert forall i :: 0 <= i < n - 1 ==> init[i] == kvs[i];
      if (exists i :: 0 <= i < n && kvs[i].0 == k) && kvs[n - 1].0 != k {
        var i :| 0 <= i < n && kvs[i].0 == k;
        assert init[i].0 == k;
      }
    }
  }

  /** The map loop over scalar members and a closing brace. */
  lemma {:induction false} EntriesOfScalars<K, V>(pk: ScalarFn<K>, fk: Format, pv: ScalarFn<V>, fv: Format,
                                                  ms: seq<Member>, close: Token, more: seq<Token>, tail: Error,
                                                  acc: map<K, V>)
    requires AllScalar(Flatten(ms)) && close.kind == ObjectEndKind
    ensures var r := EntriesReply(ValueParser(pk, fk), ValueParser(pv, fv), Stream(Flatten(ms) + [close] + more, tail), acc);
            && (ParseMembers(pk, pv, ms).Ok? ==> r == Reply(Ok(FromPairs(acc, ParseMembers(pk, pv, ms).value)), Stream(more, tail)))
            && (ParseMembers(pk, pv, ms).Err? ==> r.result == Err(ParseMembers(pk, pv, ms).error))
    decreases |ms|
  {
    var s := Stream(Flatten(ms) + [close] + more, tail);
    if ms == [] {
      assert s.tokens == [close] + more;
      assert Skip(s) == Stream(more, tail);
    } else {
      var m := ms[0];
      var rest := Flatten(ms[1..]) + [close] + more;
      assert s.tokens == [m.key, m.value] + rest;
      assert Flatten(ms)[0] == m.key && Flatten(ms)[1] == m.value;
      assert AllScalar(Flatten(ms[1..])) by {
        forall i | 0 <= i < |Flatten(ms[1..])|
          ensures IsScalar(Flatten(ms[1..])[i].kind)
        {
          assert Flatten(ms[1..])[i] == Flatten(ms)[i + 2];
        }
      }
      var rk := ValueParser(pk, fk)(s);
      assert rk == ValueReply(pk, fk, s);
      assert s.tokens[1..] == [m.value] + rest;
      var s1 := Stream([m.value] + rest, tail);
      var rv := ValueParser(pv, fv)(s1);
      assert rv == ValueReply(pv, fv, s1);
      assert s1.tokens[1..] == rest;
      match pk(m.key.text, m.key.kind)
      case Err(e) =>
      case Ok(k) =>
        match pv(m.value.text, m.value.kind)
        case Err(e) =>
        case Ok(v) =>
          EntriesOfScalars(pk, fk, pv, fv, ms[1..], close, more, tail, acc[k := v]);
          if ParseMembers(pk, pv, ms).Ok? {
            FromPairsCons(acc, k, v, ParseMembers(pk, pv, ms[1..]).value);
          }
    }
  }

  /**
   * `DecodeMap(DecodeValue(...), DecodeValue(...))` on `{k1: v1, ...}`: the
   * map assigning each parsed key its parsed value in source order (so a
   * later duplicate wins), a non-nil map even for `{}`, or the first key or
   * value error and no map.
   */
  lemma MapOfScalars<K, V>(pk: ScalarFn<K>, fk: Format, pv: ScalarFn<V>, fv: Format, open: Token,
                           ms: seq<Member>, close: Token, more: seq<Token>, tail: Error)
    requires open.kind == ObjectBeginKind && AllScalar(Flatten(ms)) && close.kind == ObjectEndKind
    ensures var r := MapReply(ValueParser(pk, fk), ValueParser(pv, fv), Stream([open] + Flatten(ms) + [close] + more, tail));
            && (ParseMembers(pk, pv, ms).Ok? ==> r == Reply(Ok(Some(FromPairs(map[], ParseMembers(pk, pv, ms).value))), Stream(more, tail)))
            && (ParseMembers(pk, pv, ms).Err? ==> r.result == Err(ParseMembers(pk, pv, ms).error))
  {
    var s := Stream([open] + Flatten(ms) + [close] + more, tail);
    assert Skip(s) == Stream(Flatten(ms) + [close] + more, tail);
    EntriesOfScalars(pk, fk, pv, fv, ms, close, more, tail, map[]);
  }

  /**
   * A map loop that fails returns the error of the key parser, or of the
   * value parser right after a key that parsed, called at a later position
   * whose next token was not `}`, and stops where that parser stopped.
   */
  lemma {:induction false} EntryErrorPropagates<K, V>(key: Parser<K>, val: Parser<V>, s: Stream, acc: map<K, V>)
    ensures var r := EntriesReply(key, val, s, acc);
            r.result.Err? ==>
              exists t :: Advances(s, t) && Peek(t) != ObjectEndKind
                          && (key(t) == Reply(Err(r.result.error), r.rest)
                              || (key(t).result.Ok? && val(key(t).rest) == Reply(Err(r.result.error), r.rest)))
    decreases |s.tokens|
  {
    var r := EntriesReply(key, val, s, acc);
    if Peek(s) != ObjectEndKind {
      var rk := key(s);
      if rk.result.Err? {
        assert Advances(s, s);
      } else {
        var rv := val(rk.rest);
        if rv.result.Err? {
          assert Advances(s, s);
        } else {
          AdvancesTransitive(s, rk.rest, rv.rest);
          EntryErrorPropagates(key, val, rv.rest, acc[rk.result.value := rv.result.value]);
          if r.result.Err? {
            var t :| Advances(rv.rest, t) && Peek(t) != ObjectEndKind
                     && (key(t) == Reply(Err(r.result.error), r.rest)
                         || (key(t).result.Ok? && val(key(t).rest) == Reply(Err(r.result.error), r.rest)));
            AdvancesTransitive(s, rv.rest, t);
          }
        }
      }
    }
  }

  // ---------------------------------------------------------------------
  // Error texts

  /** `DecodeBool` on `null` and on a string. */
  lemma BoolMessages(tail: Error)
    ensures ValueReply(ParseBool, BooleanFormat, Stream([Token("null", NullKind)], tail)).result.error.text
            == "invalid JSON: expected boolean but got `null`"
    ensures ValueReply(ParseBool, BooleanFormat, Stream([Token("invalid", StringKind)], tail)).result.error.text
            == "invalid JSON: expected boolean but got `invalid`"
  {
  }

  /** `DecodeInt[int8]` on 32767: the message has no closing backtick. */
  lemma IntRangeMessage(parse64: string -> Result<Int64Value, Error>, tail: Error)
    requires parse64("32767") == Ok(32767)
    ensures var decodeInt8 := (token: string, k: Kind) => ParseInt(Int8, parse64, token, k);
            ValueReply(decodeInt8, NumberFormat, Stream([Token("32767", NumberKind)], tail)).result.error.text
            == "invalid JSON: number out of range, got `32767"
  {
    SignedRanges();
  }

  /** `DecodeIntKey[int8]` on the string "32767": the same message, without the backtick. */
  lemma IntKeyRangeMessage(parse64: string -> Result<Int64Value, Error>, tail: Error)
    requires parse64("32767") == Ok(32767)
    ensures var decodeKey := (token: string, k: Kind) => ParseIntKey(Int8, parse64, token, k);
            ValueReply(decodeKey, NumberFormat, Stream([Token("32767", StringKind)], tail)).result.error.text
            == "invalid JSON: number out of range, got `32767"
  {
    SignedRanges();
  }

  /** `DecodeUint[uint8]` on 65535: the message has the closing backtick. */
  lemma UintRangeMessage(parse64: string -> Result<Uint64Value, Error>, tail: Error)
    requires parse64("65535") == Ok(65535)
    ensures var decodeUint8 := (token: string, k: Kind) => ParseUint(Uint8, parse64, token, k);
            ValueReply(decodeUint8, NumberFormat, Stream([Token("65535", NumberKind)], tail)).result.error.text
            == "invalid JSON: number out of range, got `65535`"
  {
    UnsignedRanges();
  }

  /** `DecodeArray` and `DecodeMap` on a number: "expected" with backticks. */
  lemma CollectionMessages<T, K, V>(elem: Parser<T>, key: Parser<K>, val: Parser<V>, tail: Error)
    ensures ArrayReply(elem, Stream([Token("123", NumberKind)], tail)).result.error.text
            == "invalid JSON: expected `[` but got `123`"
    ensures MapReply(key, val, Stream([Token("123", NumberKind)], tail)).result.error.text
            == "invalid JSON: expected `{` but got `123`"
  {
  }

  /** `DecodeObjectBegin` on a number and `DecodeObjectEnd` on `]`: no backticks. */
  lemma DelimiterMessages(tail: Error)
    ensures DelimiterReply(ObjectBeginKind, ObjectBeginFormat, Stream([Token("123", NumberKind)], tail)).result.error.text
            == "invalid JSON: expected `{` but got 123"
    ensures DelimiterReply(ObjectEndKind, ObjectEndFormat, Stream([Token("]", ArrayEndKind)], tail)).result.error.text
            == "invalid JSON: expected `}` but got ]"
  {
  }

  /** With nothing left to read, every combinator returns the decoder's own error. */
  lemma EmptyInput<T, K, V>(parse: ScalarFn<T>, format: Format, elem: Parser<T>, key: Parser<K>, val: Parser<V>,
                            decodeJson: Parser<T>, tail: Error)
    ensures ValueReply(parse, format, Stream([], tail)).result == Err(tail)
    ensures ValuePtrReply(parse, format, Stream([], tail)).result == Err(tail)
    ensures ArrayReply(elem, Stream([], tail)).result == Err(tail)
    ensures MapReply(key, val, Stream([], tail)).result == Err(tail)
    ensures ObjectReply(decodeJson, Stream([], tail)).result == Err(tail)
    ensures DelimiterReply(ObjectBeginKind, ObjectBeginFormat, Stream([], tail)).result == Err(tail)
  {
  }
}
