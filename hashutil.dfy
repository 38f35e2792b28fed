/**
 * The 64-bit FNV-1a hash (hashutil/hashutil.go).
 *
 * A Go string is a sequence of bytes, so the input is `seq<bv8>`; `bv64`
 * arithmetic wraps modulo 2^64 exactly as Go's `uint64` does.
 */
module HashUtil {

  /** The FNV-1a 64-bit offset basis. */
  const Offset: bv64 := 14695981039346656037
  /** The FNV 64-bit prime. */
  const Prime: bv64 := 1099511628211

  /** One round: xor the byte into the state, then multiply by the prime (mod 2^64). */
  function Mix(h: bv64, b: bv8): bv64 {
    (h ^ (b as bv64)) * Prime
  }

  /** Feeding the bytes of `s`, first to last, into the state `h`. */
  function Fold(h: bv64, s: seq<bv8>): bv64
    decreases |s|
  {
    if s == [] then h else Fold(Mix(h, s[0]), s[1..])
  }

  /** The hash of `s`: the fold started from the offset basis. */
  function Hash(s: seq<bv8>): bv64 {
    Fold(Offset, s)
  }

  /** `FNV1a64`: the byte loop of the source, proved to compute `Hash`. */
  method Fnv1a64(s: seq<bv8>) returns (h: bv64)
    ensures h == Hash(s)
  {
    h := Offset;
    var i := 0;
    while i < |s|
      invariant 0 <= i <= |s|
      invariant Fold(h, s[i..]) == Hash(s)
    {
      assert s[i..][1..] == s[i + 1..];
      h := Mix(h, s[i]);
      i := i + 1;
    }
  }

  /** The hash of the empty input is the offset basis. */
  lemma HashEmpty()
    ensures Hash([]) == 14695981039346656037
  {
  }

  /** Fold law: hashing one more byte is one more xor-then-multiply round. */
  lemma {:induction false} FoldSnoc(h: bv64, s: seq<bv8>, b: bv8)
    ensures Fold(h, s + [b]) == Mix(Fold(h, s), b)
    decreases |s|
  {
    if s == [] {
      assert s + [b] == [b];
    } else {
      assert (s + [b])[1..] == s[1..] + [b];
      FoldSnoc(Mix(h, s[0]), s[1..], b);
    }
  }

  /** Hashing a concatenation resumes from the state the first part left. */
  lemma {:induction false} FoldConcat(h: bv64, a: seq<bv8>, b: seq<bv8>)
    ensures Fold(h, a + b) == Fold(Fold(h, a), b)
    decreases |a|
  {
    if a == [] {
      assert a + b == b;
    } else {
      assert (a + b)[1..] == a[1..] + b;
      FoldConcat(Mix(h, a[0]), a[1..], b);
    }
  }

  /** `FNV1a64(s ++ [b])` is one more round, `(FNV1a64(s) ^ b) * prime`, on `FNV1a64(s)`. */
  lemma HashSnoc(s: seq<bv8>, b: bv8)
    ensures Hash(s + [b]) == Mix(Hash(s), b)
  {
    FoldSnoc(Offset, s, b);
  }

  /**
   * The byte is xor-ed in before the multiplication (FNV-1a): on the input
   * "a" the other order (FNV-1) would give a different hash.
   */
  lemma XorBeforeMultiply()
    ensures Hash([0x61]) == 0xaf63dc4c8601ec8c
    ensures Hash([0x61]) != (Offset * Prime) ^ 0x61
  {
  }

  /** The byte whose value is `n`, built by counting up from zero. */
  function ByteOf(n: nat): (b: bv8)
    requires n < 256
    ensures b as int == n
  {
    if n == 0 then 0 else ByteOf(n - 1) + 1
  }

  /** The UTF-8 byte of one ASCII character. */
  function AsciiByte(c: char): (b: bv8)
    requires c < 128 as char
    ensures b as int == c as int
  {
    ByteOf(c as int)
  }

  /** The UTF-8 bytes of a string of ASCII characters: one byte per character. */
  function AsciiBytes(s: string): (r: seq<bv8>)
    requires forall i :: 0 <= i < |s| ==> s[i] < 128 as char
    ensures |r| == |s| && forall i :: 0 <= i < |s| ==> r[i] as int == s[i] as int
  {
    seq(|s|, i requires 0 <= i < |s| => AsciiByte(s[i]))
  }

  /** Test vectors of the package tests, on ASCII input. */
  lemma KnownHashes()
    ensures Hash(AsciiBytes("a")) == 0xaf63dc4c8601ec8c
    ensures Hash(AsciiBytes("ab")) == 0x089c4407b545986a
    ensures Hash(AsciiBytes("hello")) == 0xa430d84680aabd0b
  {
    assert AsciiBytes("a") == [0x61];
    assert AsciiBytes("ab") == [0x61, 0x62];
    assert AsciiBytes("hello") == [0x68, 0x65, 0x6c, 0x6c, 0x6f];
  }

  /** Field-dispatch constant of the object decoder in the jsonflow tests: `HashKey("Int")`. */
  lemma DispatchHashInt()
    ensures Hash(AsciiBytes("Int")) == 0x41a91f19c98dd49e
  {
    assert AsciiBytes("Int") == [0x49, 0x6e, 0x74];
  }

  /** `HashKey("IntPtr")`, computed by resuming from the state `HashKey("Int")` left. */
  lemma DispatchHashIntPtr()
    ensures Hash(AsciiBytes("IntPtr")) == 0x3305f2829a12fcb8
  {
    assert AsciiBytes("IntPtr") == [0x49, 0x6e, 0x74] + [0x50, 0x74, 0x72];
    FoldConcat(Offset, [0x49, 0x6e, 0x74], [0x50, 0x74, 0x72]);
    assert Fold(Offset, [0x49, 0x6e, 0x74]) == 0x41a91f19c98dd49e;
  }
}
