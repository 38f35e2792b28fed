/**
 * The context-scoped, write-once, typed cache (ctxcache/ctxcache.go).
 *
 * A cache is bound to a context by `Init`. Keys are a name together with a
 * type; each key is declared, then set at most once, then read any number of
 * times. The first teardown (`Cache.Clear`) marks the cache cleared and drops
 * every entry whose key was not marked with `KeepAlive`; afterwards every
 * `Get` and `Set` fails.
 *
 * The abstract state and one function per operation come first; the `Cache`
 * class and the package-level methods below are proved to follow them. The
 * mutex of the source only makes each operation atomic, so each operation is
 * one method here.
 */
module CtxCache {
  import opened Wrappers
  import ErrUtil

  /** A Go type, named by its `%T` rendering ("int", "string", ...). */
  type TypeName = string

  /** `TypeKey[T]{Key: name}`: two keys are equal only if name and type agree. */
  datatype TypeKey = TypeKey(name: string, typ: TypeName)

  /** `Key[T](name)`. */
  function Key(typ: TypeName, name: string): (k: TypeKey)
    ensures k.name == name && k.typ == typ
  {
    TypeKey(name, typ)
  }

  /** `TypeKey.String()`: "name(type)", the prefix of every error message. */
  function KeyString(k: TypeKey): (r: string)
    ensures |r| == |k.name| + |k.typ| + 2
    ensures r[..|k.name|] == k.name && r[|k.name|] == '('
    ensures r[|k.name| + 1..|r| - 1] == k.typ && r[|r| - 1] == ')'
  {
    k.name + "(" + k.typ + ")"
  }

  /** The six sentinel errors of the package. */
  datatype ErrorKind =
    | CacheNotInitialized
    | CacheAlreadyCleared
    | KeyNotDeclared
    | KeyTypeMismatch
    | ValueNotSet
    | ValueAlreadySet
  {
    function Text(): string {
      match this
      case CacheNotInitialized => "cache not initialized"
      case CacheAlreadyCleared => "cache already cleared"
      case KeyNotDeclared => "key not declared"
      case KeyTypeMismatch => "key type mismatch"
      case ValueNotSet => "value not set"
      case ValueAlreadySet => "value already set"
    }
  }

  /** `errors.New(kind.Text())`: the sentinel value callers test with `errors.Is`. */
  function Sentinel(kind: ErrorKind): ErrUtil.Error {
    ErrUtil.Plain(kind.Text())
  }

  /** A failed `Get` or `Set`: the key it was called with and the reason. */
  datatype CacheError = CacheError(key: TypeKey, kind: ErrorKind)

  /** The Go error value `fmt.Errorf("%s: %w", k, ErrX)`. */
  function AsError(e: CacheError): ErrUtil.Error {
    ErrUtil.Explain(Some(Sentinel(e.kind)), KeyString(e.key))
  }

  /**
   * Every error reads "name(type): reason", matches its own sentinel with
   * `errors.Is`, and matches no other sentinel.
   */
  lemma ErrorShape(e: CacheError)
    ensures AsError(e).text == KeyString(e.key) + ": " + e.kind.Text()
    ensures ErrUtil.Is(AsError(e), Sentinel(e.kind))
    ensures forall other: ErrorKind :: other != e.kind ==> !ErrUtil.Is(AsError(e), Sentinel(other))
  {
    forall other: ErrorKind | other != e.kind
      ensures !ErrUtil.Is(AsError(e), Sentinel(other))
    {
      assert other.Text() != e.kind.Text();
    }
  }

  /**
   * `TypeValue[T]` stored under a key: declared but unset, or set with a
   * value. `tag` is the `T` of the stored box, which the type assertion in
   * `Get` and `Set` compares with the key's type.
   */
  datatype Entry<V> = Declared(tag: TypeName) | Assigned(tag: TypeName, value: V)

  /** The fields of a `Cache`, as a value. */
  datatype State<V> = State(values: map<TypeKey, Entry<V>>, keepAlive: set<TypeKey>, cleared: bool)

  /** The cache `Init` allocates. */
  function Fresh<V>(): State<V> {
    State(map[], {}, false)
  }

  /** Every box is stored under a key of its own type. */
  ghost predicate WellTyped<V>(s: State<V>) {
    forall k :: k in s.values ==> s.values[k].tag == k.typ
  }

  /**
   * The checks `Get` and `Set` share, in the source's order: a bound cache,
   * not cleared, a declared key, a box of the key's type.
   */
  function Lookup<V>(b: Option<State<V>>, k: TypeKey): (r: Result<Entry<V>, CacheError>)
    ensures r.Err? ==> r.error.key == k
    ensures r.Ok? <==> b.Some? && !b.value.cleared && k in b.value.values && b.value.values[k].tag == k.typ
    ensures r.Ok? ==> r.value == b.value.values[k]
    ensures r.Err? && r.error.kind == CacheNotInitialized <==> b.None?
    ensures r.Err? && r.error.kind == CacheAlreadyCleared <==> b.Some? && b.value.cleared
    ensures r.Err? && r.error.kind == KeyNotDeclared <==>
            b.Some? && !b.value.cleared && k !in b.value.values
    ensures r.Err? && r.error.kind == KeyTypeMismatch <==>
            b.Some? && !b.value.cleared && k in b.value.values && b.value.values[k].tag != k.typ
  {
    if b.None? then Err(CacheError(k, CacheNotInitialized))
    else if b.value.cleared then Err(CacheError(k, CacheAlreadyCleared))
    else if k !in b.value.values then Err(CacheError(k, KeyNotDeclared))
    else if b.value.values[k].tag != k.typ then Err(CacheError(k, KeyTypeMismatch))
    else Ok(b.value.values[k])
  }

  /**
   * `Get`: the stored value exactly when the cache is bound, not cleared, and
   * the key is declared with its own type and set; `ValueNotSet` comes last.
   */
  function GetSpec<V>(b: Option<State<V>>, k: TypeKey): (r: Result<V, CacheError>)
    ensures r.Ok? <==> b.Some? && !b.value.cleared && k in b.value.values
                       && b.value.values[k].Assigned? && b.value.values[k].tag == k.typ
    ensures r.Ok? ==> b.value.values[k] == Assigned(k.typ, r.value)
    ensures r.Err? ==> r.error.key == k
    ensures r.Err? && r.error.kind == ValueNotSet <==> Lookup(b, k).Ok? && Lookup(b, k).value.Declared?
    ensures r.Err? && r.error.kind != ValueNotSet ==> Lookup(b, k) == Err(r.error)
  {
    match Lookup(b, k)
    case Err(e) => Err(e)
    case Ok(entry) => if entry.Declared? then Err(CacheError(k, ValueNotSet)) else Ok(entry.value)
  }

  /**
   * The error `Set` reports, if any: the shared checks, then
   * `ValueAlreadySet` last. It succeeds exactly on a declared, unset key.
   */
  function SetError<V>(b: Option<State<V>>, k: TypeKey): (r: Option<CacheError>)
    ensures r.None? <==> b.Some? && !b.value.cleared && k in b.value.values
                         && b.value.values[k] == Declared(k.typ)
    ensures r.Some? ==> r.value.key == k
    ensures r.Some? && r.value.kind == ValueAlreadySet <==> Lookup(b, k).Ok? && Lookup(b, k).value.Assigned?
    ensures r.Some? && r.value.kind != ValueAlreadySet ==> Lookup(b, k) == Err(r.value)
  {
    match Lookup(b, k)
    case Err(e) => Some(e)
    case Ok(entry) => if entry.Assigned? then Some(CacheError(k, ValueAlreadySet)) else None
  }

  /**
   * The state after `Set(k, v)` on a bound cache: on any error nothing
   * changes; on success only the entry of `k` changes, to set-with-`v`.
   */
  function SetState<V>(s: State<V>, k: TypeKey, v: V): (r: State<V>)
    ensures SetError(Some(s), k).Some? ==> r == s
    ensures SetError(Some(s), k).None? ==> r.values == s.values[k := Assigned(k.typ, v)]
    ensures r.keepAlive == s.keepAlive && r.cleared == s.cleared && r.values.Keys == s.values.Keys
  {
    if SetError(Some(s), k).None? then s.(values := s.values[k := Assigned(k.typ, v)]) else s
  }

  /** `values` after `Declare(keys)`: an unset box for each listed key not yet present. */
  function WithDeclared<V>(m: map<TypeKey, Entry<V>>, keys: seq<TypeKey>): (r: map<TypeKey, Entry<V>>)
    ensures forall k :: k in r <==> k in m || k in keys
    ensures forall k :: k in m ==> r[k] == m[k]
    ensures forall k :: k in r && k !in m ==> r[k] == Declared(k.typ)
  {
    m + map k | k in keys && k !in m :: Declared(k.typ)
  }

  /** Declaring one more key inserts it only if it is absent. */
  lemma WithDeclaredSnoc<V>(m: map<TypeKey, Entry<V>>, keys: seq<TypeKey>, k: TypeKey)
    ensures var w := WithDeclared(m, keys);
            WithDeclared(m, keys + [k]) == if k in w then w else w[k := Declared(k.typ)]
  {
    var w := WithDeclared(m, keys);
    var w' := WithDeclared(m, keys + [k]);
    var expected := if k in w then w else w[k := Declared(k.typ)];
    assert forall j :: j in w' <==> j in expected;
    assert w'.Keys == expected.Keys;
  }

  /** `Declare(keys)` on a bound cache: a no-op once cleared. */
  function DeclareState<V>(s: State<V>, keys: seq<TypeKey>): (r: State<V>)
    ensures r.keepAlive == s.keepAlive && r.cleared == s.cleared
    ensures s.cleared ==> r.values == s.values
    ensures !s.cleared ==> forall k :: k in r.values <==> k in s.values || k in keys
    ensures forall k :: k in s.values ==> k in r.values && r.values[k] == s.values[k]
    ensures forall k :: k in r.values && k !in s.values ==> r.values[k] == Declared(k.typ)
  {
    if s.cleared then s else s.(values := WithDeclared(s.values, keys))
  }

  /** `KeepAlive(k)` on a bound cache: marks the key; a no-op once cleared. */
  function KeepAliveState<V>(s: State<V>, k: TypeKey): (r: State<V>)
    ensures r.values == s.values && r.cleared == s.cleared
    ensures r.keepAlive == if s.cleared then s.keepAlive else s.keepAlive + {k}
  {
    if s.cleared then s else s.(keepAlive := s.keepAlive + {k})
  }

  /**
   * `Clear`: the first call marks the cache cleared, keeps exactly the
   * entries whose key is kept alive, and empties the keep-alive set; any
   * later call changes nothing.
   */
  function ClearState<V>(s: State<V>): (r: State<V>)
    ensures r.cleared && r.keepAlive == (if s.cleared then s.keepAlive else {})
    ensures s.cleared ==> r == s
    ensures !s.cleared ==> forall k :: k in r.values <==> k in s.values && k in s.keepAlive
    ensures forall k :: k in r.values ==> k in s.values && r.values[k] == s.values[k]
  {
    if s.cleared then s
    else State(map k | k in s.values && k in s.keepAlive :: s.values[k], {}, true)
  }

  /** A teardown is idempotent. */
  lemma ClearIdempotent<V>(s: State<V>)
    ensures ClearState(ClearState(s)) == ClearState(s)
  {
  }

  /**
   * After teardown every `Get` and `Set` fails with `CacheAlreadyCleared`,
   * even on a key kept alive, whose entry survives in `values` unchanged.
   */
  lemma KeptAliveButCleared<V>(s: State<V>, k: TypeKey)
    requires !s.cleared && k in s.values && k in s.keepAlive
    ensures k in ClearState(s).values && ClearState(s).values[k] == s.values[k]
    ensures GetSpec(Some(ClearState(s)), k) == Err(CacheError(k, CacheAlreadyCleared))
    ensures SetError(Some(ClearState(s)), k) == Some(CacheError(k, CacheAlreadyCleared))
  {
  }

  /** Re-declaring the same keys changes nothing, including keys already set. */
  lemma DeclareIdempotent<V>(s: State<V>, keys: seq<TypeKey>)
    ensures DeclareState(DeclareState(s, keys), keys) == DeclareState(s, keys)
  {
    if !s.cleared {
      var once := WithDeclared(s.values, keys);
      assert WithDeclared(once, keys) == once;
    }
  }

  /** A Go object holding the cache's fields; its methods run under the mutex. */
  class Cache<V> {
    var values: map<TypeKey, Entry<V>>
    var keepAlive: set<TypeKey>
    var cleared: bool

    /** The fields as a `State` value. */
    function View(): State<V>
      reads this
    {
      State(values, keepAlive, cleared)
    }

    /** `&Cache{values: make(...), keepAlive: make(...)}`. */
    constructor ()
      ensures View() == Fresh()
    {
      values := map[];
      keepAlive := {};
      cleared := false;
    }

    /** `Cache.Clear`, the cancel function `Init` returns. */
    method Clear()
      modifies this
      ensures View() == ClearState(old(View()))
    {
      if cleared {
        return;
      }
      cleared := true;
      ghost var before := values;
      var pending := values.Keys;
      while pending != {}
        invariant pending <= before.Keys
        invariant values == map k | k in before && (k in pending || k in keepAlive) :: before[k]
        invariant keepAlive == old(keepAlive) && cleared
        decreases pending
      {
        var k :| k in pending;
        if k !in keepAlive {
          values := values - {k};
        }
        pending := pending - {k};
      }
      keepAlive := {};
    }
  }

  /**
   * A `context.Context` as far as this package sees it: the cache bound to
   * it, if any. Every other value a context may carry is left out.
   */
  datatype Context<V> = Context(cache: Option<Cache<V>>)

  /** The objects an operation on `ctx` may change. */
  function Footprint<V>(ctx: Context<V>): set<object> {
    if ctx.cache.Some? then {ctx.cache.value} else {}
  }

  /** `getCache(ctx)` followed by reading the cache's fields. */
  function Bound<V>(ctx: Context<V>): (b: Option<State<V>>)
    reads Footprint(ctx)
    ensures b.Some? <==> ctx.cache.Some?
  {
    match ctx.cache
    case None => None
    case Some(c) => Some(c.View())
  }

  /**
   * `Init`: a context that already carries a cache is returned as it is,
   * with that cache's `Clear`; otherwise a fresh, empty cache is bound to a
   * derived context.
   */
  method Init<V>(ctx: Context<V>) returns (r: Context<V>, cancel: Cache<V>)
    ensures ctx.cache.Some? ==> r == ctx && cancel == ctx.cache.value
    ensures ctx.cache.None? ==> fresh(cancel) && r == Context(Some(cancel)) && cancel.View() == Fresh()
  {
    if ctx.cache.Some? {
      return ctx, ctx.cache.value;
    }
    var m := new Cache<V>();
    return Context(Some(m)), m;
  }

  /** `KeepAlive(ctx, k)`: silently ignored when unbound or cleared. */
  method KeepAlive<V>(ctx: Context<V>, k: TypeKey)
    modifies Footprint(ctx)
    ensures ctx.cache.Some? ==> ctx.cache.value.View() == KeepAliveState(old(ctx.cache.value.View()), k)
  {
    if ctx.cache.None? {
      return;
    }
    var cache := ctx.cache.value;
    if cache.cleared {
      return;
    }
    cache.keepAlive := cache.keepAlive + {k};
  }

  /** `Declare(ctx, keys...)`: silently ignored when unbound or cleared. */
  method Declare<V>(ctx: Context<V>, keys: seq<TypeKey>)
    modifies Footprint(ctx)
    ensures ctx.cache.Some? ==> ctx.cache.value.View() == DeclareState(old(ctx.cache.value.View()), keys)
  {
    if ctx.cache.None? {
      return;
    }
    var cache := ctx.cache.value;
    if cache.cleared {
      return;
    }
    var i := 0;
    while i < |keys|
      invariant 0 <= i <= |keys|
      invariant cache.values == WithDeclared(old(cache.values), keys[..i])
      invariant cache.keepAlive == old(cache.keepAlive) && cache.cleared == old(cache.cleared)
    {
      var k := keys[i];
      assert keys[..i + 1] == keys[..i] + [k];
      WithDeclaredSnoc(old(cache.values), keys[..i], k);
      if k !in cache.values {
        cache.values := cache.values[k := Declared(k.typ)];
      }
      i := i + 1;
    }
    assert keys[..i] == keys;
  }

  /** `Get(ctx, k)`: reads the cache and changes nothing. */
  method Get<V>(ctx: Context<V>, k: TypeKey) returns (r: Result<V, CacheError>)
    ensures r == GetSpec(Bound(ctx), k)
  {
    if ctx.cache.None? {
      return Err(CacheError(k, CacheNotInitialized));
    }
    var cache := ctx.cache.value;
    if cache.cleared {
      return Err(CacheError(k, CacheAlreadyCleared));
    }
    if k !in cache.values {
      return Err(CacheError(k, KeyNotDeclared));
    }
    var x := cache.values[k];
    if x.tag != k.typ {
      return Err(CacheError(k, KeyTypeMismatch));
    }
    if x.Declared? {
      return Err(CacheError(k, ValueNotSet));
    }
    return Ok(x.value);
  }

  /** `Set(ctx, k, v)`: the error it returns, and the cache after it. */
  method Set<V>(ctx: Context<V>, k: TypeKey, v: V) returns (err: Option<CacheError>)
    modifies Footprint(ctx)
    ensures err == SetError(old(Bound(ctx)), k)
    ensures ctx.cache.Some? ==> ctx.cache.value.View() == SetState(old(ctx.cache.value.View()), k, v)
  {
    if ctx.cache.None? {
      return Some(CacheError(k, CacheNotInitialized));
    }
    var cache := ctx.cache.value;
    if cache.cleared {
      return Some(CacheError(k, CacheAlreadyCleared));
    }
    if k !in cache.values {
      return Some(CacheError(k, KeyNotDeclared));
    }
    var x := cache.values[k];
    if x.tag != k.typ {
      return Some(CacheError(k, KeyTypeMismatch));
    }
    if x.Assigned? {
      return Some(CacheError(k, ValueAlreadySet));
    }
    cache.values := cache.values[k := Assigned(k.typ, v)];
    return None;
  }
}
