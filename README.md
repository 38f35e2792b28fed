# golib core, modelled in Dafny

This project models four packages of the Go library `golib`:

- **ctxcache** is a cache bound to a `context.Context`. It is typed and write-once. A key is a name together with a Go type. A key is declared, set at most once, then read any number of times. The cache is torn down once by the cancel function that `Init` returns. Teardown drops every entry except those marked with `KeepAlive`. After teardown every `Get` and `Set` fails.
- **jsonflow** holds streaming decode combinators over a token decoder. Scalar parsers handle bool, signed and unsigned integers of each width, and strings. On top of them sit `DecodeValue`, `DecodeValuePtr`, `DecodeObject`, `DecodeArray`, `DecodeMap` and the object delimiters.
- **hashutil** computes the 64-bit FNV-1a hash.
- **errutil** provides `Explain` and `Stack`. Both wrap an error with a message and keep the cause reachable for `errors.Is`.

Layout, by module:

- `errutil.dfy` (`ErrUtil`): Go errors as values. Covers `errors.Unwrap` and `errors.Is`, then `Explain` and `Stack` with their text and chain properties.
- `hashutil.dfy` (`HashUtil`): FNV-1a as a fold over bytes in `bv64` arithmetic, which wraps modulo 2^64 like `uint64`. The byte loop is a method proved equal to that fold.
- `ctxcache.dfy` (`CtxCache`):
  - One function per operation on an abstract `State`: the map of entries, the keep-alive set and the cleared flag.
  - The class `Cache`, whose `Clear` deletes entries in place in a loop.
  - The package-level `Init`, `KeepAlive`, `Declare`, `Get` and `Set`, each proved to follow its state function.
- `ctxcache_traces.dfy` (`CtxCacheTraces`): properties of arbitrary runs of calls. These are write-once, cleared-is-terminal, the type tag of every entry, and key independence. It also replays, on the methods, the package example, its keep-alive example, and the package test in two halves, before and after teardown.
- `json_stream.dfy` (`JsonStream`): the decoder interface. It is a stream of tokens ending in the decoder's error, and the class `Decoder` holds the cursor. A `func(d Decoder) (T, error)` is a `Parser`, a function on streams that only reads forward.
- `jsonflow_decode.dfy` (`JsonFlow`): the scalar parsers and each combinator. A combinator is both a function on streams (`...Reply`) and a method on a `Decoder`. The method's loops are proved to compute that function.
- `jsonflow_properties.dfy` (`JsonFlowProperties`):
  - integer ranges;
  - arrays and maps of scalars against independent reference definitions, with last-assignment-wins for duplicate map keys;
  - null and empty input;
  - the exact error messages of the package tests.

Some behaviour of the code is worth knowing:

- A key marked with `KeepAlive` keeps its entry through teardown (`ctxcache/ctxcache.go:98-102`). `Get` and `Set` still check the cleared flag first, though (`ctxcache/ctxcache.go:261-263`, `301-303`). So a kept-alive value can never be read after teardown. The comment in `ctxcache/example/example.go:113-114` suggests otherwise. That example's `Get` in fact runs before `cancel()`, because of its sleeps. The model follows the code; see `CtxCache.KeptAliveButCleared` and `CtxCacheTraces.ExampleKeepAlive`.
- The range checks `OverflowInt` and `OverflowUint` switch on the target type (`jsonflow/decode.go:60-72`, `123-133`). A case such as `int8` matches only the predeclared type, but the constraint `~int8` also admits named types such as `type Level int8`. For those no case matches, nothing counts as out of range, and `T(v)` then wraps the value. See "## Findings".
- The signed range error has no closing backtick: "number out of range, got `32767" (`jsonflow/decode.go:86`). So do `ParseIntKey` and `ParseUintKey`. The unsigned value error `ParseUint` has one. The `DecodeObjectBegin` and `DecodeObjectEnd` messages put no backticks around the token at all. The model keeps each message as written, and the package tests assert these exact strings.
- `KeyTypeMismatch` cannot be produced through the package's own operations (`CtxCacheTraces.MismatchUnreachable`). Every box is stored under a key of its own type.

## Model

| member | source | states |
|---|---|---|
| ErrUtil.Chain | errutil/errutil.go:76-82 | the chain `errors.Is` walks: it starts at the error itself, each element unwraps to the next, and the last unwraps to nothing |
| ErrUtil.IsIffOnChain | errutil/errutil.go:76-82 | `errors.Is(e, target)` holds exactly when target is on e's unwrap chain |
| ErrUtil.IsTransitive | errutil/errutil.go:76-82 | if a is b and b is c then a is c |
| ErrUtil.Explain | errutil/errutil.go:76-82 | with no cause the text is the message and nothing is wrapped; otherwise the text is `msg: cause` and `Unwrap` gives the cause |
| ErrUtil.Stack | errutil/errutil.go:109-115 | with no cause the text is the message; otherwise the text is `msg >> cause` and `Unwrap` gives the cause |
| ErrUtil.WrappingKeepsIs | errutil/errutil.go:76-115 | an error wrapped by Explain or Stack still `Is` its cause and everything its cause `Is` |
| ErrUtil.ExplainAllComposes | errutil/errutil_test.go:57-71 | nested Explain puts the outermost message first, each joined by ": ", and the result still `Is` the base error |
| ErrUtil.StackAllComposes | errutil/errutil_test.go:107-121 | nested Stack puts the outermost message first, each joined by " >> ", and the result still `Is` the base error |
| ErrUtil.NestedExplainExample | errutil/errutil_test.go:57-71 | "level 2: level 1: base error", matching the base and unwrapping to the inner error |
| ErrUtil.NestedStackExample | errutil/errutil_test.go:107-121 | "layer 2 >> layer 1 >> base error", matching the base and unwrapping to the inner error |
| HashUtil.Fnv1a64 | hashutil/hashutil.go:21-32 | the byte loop (xor, then multiply by the prime, mod 2^64) returns the FNV-1a fold from the offset basis |
| HashUtil.HashEmpty | hashutil/hashutil_test.go:31 | the empty string hashes to the offset basis 14695981039346656037 |
| HashUtil.FoldSnoc | hashutil/hashutil.go:27-30 | feeding one more byte is one more xor-then-multiply round on the previous state |
| HashUtil.FoldConcat | hashutil/hashutil.go:27-30 | hashing a concatenation resumes from the state the first part left |
| HashUtil.HashSnoc | hashutil/hashutil.go:23-30 | FNV1a64(s + b) == (FNV1a64(s) ^ b) * prime |
| HashUtil.XorBeforeMultiply | hashutil/hashutil.go:28-29 | the byte is xor-ed before the multiplication: "a" hashes to 0xaf63dc4c8601ec8c, not the FNV-1 value |
| HashUtil.AsciiBytes | hashutil/hashutil.go:21 | the bytes of an ASCII Go string are its characters, one byte each |
| HashUtil.KnownHashes | hashutil/hashutil_test.go:31-57 | "a", "ab" and "hello" hash to the values of the standard FNV-1a |
| HashUtil.DispatchHashInt | jsonflow/decode_test.go:835 | the field-dispatch constant for "Int" is FNV1a64("Int") |
| HashUtil.DispatchHashIntPtr | jsonflow/decode_test.go:836 | the field-dispatch constant for "IntPtr" is FNV1a64("IntPtr") |
| CtxCache.Key | ctxcache/ctxcache.go:195-202 | `Key[T](name)` is the key of that name and that type |
| CtxCache.KeyString | ctxcache/ctxcache.go:204-207 | the rendering is the name, then `(`, then the type name, then `)` |
| CtxCache.ErrorShape | ctxcache/ctxcache.go:53-60 | every cache error reads "name(type): reason", `Is` its own sentinel and no other sentinel |
| CtxCache.Lookup | ctxcache/ctxcache.go:253-273 | the shared checks in order: not initialized iff unbound, already cleared iff cleared, not declared iff the key is absent, type mismatch iff the box has another type; success returns the stored box |
| CtxCache.GetSpec | ctxcache/ctxcache.go:250-280 | Get succeeds iff the cache is bound and active and the key is declared with its own type and set, and then returns the stored value; `ValueNotSet` iff the shared checks pass on an unset box |
| CtxCache.SetError | ctxcache/ctxcache.go:292-317 | Set succeeds iff the key is declared, of its own type and unset on an active bound cache; `ValueAlreadySet` iff the shared checks pass on a set box |
| CtxCache.SetState | ctxcache/ctxcache.go:292-321 | a failed Set changes nothing; a successful one changes only the key's entry, to set-with-value; keep-alive, cleared flag and key set are unchanged |
| CtxCache.WithDeclared | ctxcache/ctxcache.go:233-237 | Declare adds an unset box of the key's type for each listed key not present, and keeps every present entry, including set ones |
| CtxCache.WithDeclaredSnoc | ctxcache/ctxcache.go:233-237 | one more loop iteration inserts the key only when it is absent |
| CtxCache.DeclareState | ctxcache/ctxcache.go:220-238 | Declare never changes keep-alive or the cleared flag and never changes an existing entry; once cleared it adds nothing, otherwise it adds exactly the listed keys, each as an unset box of its own type |
| CtxCache.KeepAliveState | ctxcache/ctxcache.go:165-179 | KeepAlive only adds the key to the keep-alive set, never touches values, and is a no-op once cleared |
| CtxCache.ClearState | ctxcache/ctxcache.go:89-105 | the first teardown sets cleared, keeps exactly the entries whose key is kept alive (unchanged) and empties the keep-alive set; a later one changes nothing |
| CtxCache.ClearIdempotent | ctxcache/ctxcache.go:93-95 | tearing down twice is tearing down once |
| CtxCache.KeptAliveButCleared | ctxcache/ctxcache.go:98-102 | a kept-alive entry survives teardown unchanged, yet Get and Set on it report `CacheAlreadyCleared` |
| CtxCache.DeclareIdempotent | ctxcache/ctxcache.go:233-237 | re-declaring the same keys changes nothing, including keys already set |
| CtxCache.Cache.constructor | ctxcache/ctxcache.go:140-143 | a new cache has no entries, no keep-alive keys and is not cleared |
| CtxCache.Cache.Clear | ctxcache/ctxcache.go:89-105 | the in-place delete loop leaves the fields equal to `ClearState` of the old fields |
| CtxCache.Bound | ctxcache/ctxcache.go:108-111 | a context carries a cache exactly when `getCache` finds one |
| CtxCache.Init | ctxcache/ctxcache.go:135-146 | a context already carrying a cache is returned with that cache's Clear; otherwise a fresh, empty cache is bound |
| CtxCache.KeepAlive | ctxcache/ctxcache.go:165-179 | the bound cache's fields become `KeepAliveState` of the old fields |
| CtxCache.Declare | ctxcache/ctxcache.go:220-238 | the insertion loop leaves the bound cache equal to `DeclareState` of the old fields |
| CtxCache.Get | ctxcache/ctxcache.go:250-280 | returns `GetSpec` of the bound cache and changes nothing |
| CtxCache.Set | ctxcache/ctxcache.go:292-321 | returns `SetError` of the old cache and leaves it equal to `SetState` of the old fields |
| CtxCacheTraces.ClearedIsTerminal | ctxcache/ctxcache.go:89-105 | once cleared, no sequence of calls changes the cache at all |
| CtxCacheTraces.ActiveWithoutClear | ctxcache/ctxcache.go:89-105 | only a teardown sets the cleared flag |
| CtxCacheTraces.StepKeepsHolds | ctxcache/ctxcache.go:315-319 | no single call overwrites or removes a set value while the cache is active |
| CtxCacheTraces.RunKeepsHolds | ctxcache/ctxcache.go:315-319 | no sequence of calls overwrites or removes a set value while the cache is active |
| CtxCacheTraces.WriteOnce | ctxcache/ctxcache.go:292-321 | after a successful Set(k, v), whatever follows, Get(k) returns v or `CacheAlreadyCleared`, and Set(k, _) fails with `ValueAlreadySet` or `CacheAlreadyCleared`; without teardown Get(k) returns v and Set(k, _) fails with `ValueAlreadySet` |
| CtxCacheTraces.StepKeepsWellTyped | ctxcache/ctxcache.go:233-237 | no call stores a box under a key of another type |
| CtxCacheTraces.RunKeepsWellTyped | ctxcache/ctxcache.go:233-237 | no sequence of calls stores a box under a key of another type |
| CtxCacheTraces.MismatchUnreachable | ctxcache/ctxcache.go:265-268 | on a cache created by Init and changed only by these calls, `KeyTypeMismatch` is never reported by Get or Set |
| CtxCacheTraces.OtherKeysUnaffected | ctxcache/ctxcache.go:195-197 | a call that does not mention a key leaves what Get and Set report for it unchanged |
| CtxCacheTraces.SameNameDifferentTypes | ctxcache/ctxcache.go:195-202 | keys with the same name and different types are declared and set independently; each Get returns its own value |
| CtxCacheTraces.UserIdMessage | ctxcache/ctxcache.go:204-207 | every error about `user_id` of type int starts with "user_id(int): " |
| CtxCacheTraces.ExampleNotInitializedMessage | ctxcache/example/example.go:181 | "user_id(int): cache not initialized" |
| CtxCacheTraces.ExampleNotDeclaredMessage | ctxcache/example/example.go:182 | "user_id(int): key not declared" |
| CtxCacheTraces.ExampleNotSetMessage | ctxcache/example/example.go:183 | "user_id(int): value not set" |
| CtxCacheTraces.ExampleAlreadySetMessage | ctxcache/example/example.go:185 | "user_id(int): value already set" |
| CtxCacheTraces.ExampleErrors | ctxcache/example/example.go:136-186 | run on the methods, the example reports not initialized, not declared, not set and already set for `user_id(int)`, in that order, and reads back 42 |
| CtxCacheTraces.ExampleKeepAlive | ctxcache/example/example.go:85-132 | run on the methods in the order the sleeps impose, the kept-alive `task_id` reads back "task-12345" before teardown and is still stored after it, yet a Get after teardown reports `CacheAlreadyCleared` |
| CtxCacheTraces.TestBeforeCancel | ctxcache/ctxcache_test.go:24-81 | run on the methods with both keys declared: Set and Get on an unbound context report `CacheNotInitialized`; a repeated Init returns the same context and cache; the string key is unset, then set once to "value", and a second Set reports `ValueAlreadySet`; the int key under the same name is set to 42 independently |
| CtxCacheTraces.TestAfterCancel | ctxcache/ctxcache_test.go:84-103 | after cancel, and after a second cancel through the repeated Init, Get and Set on either key report `CacheAlreadyCleared` |
| JsonStream.ReadAdvances | jsonflow/internal/json/json.go:52-62 | reading consumes one token when one is left and otherwise returns the decoder's error in place |
| JsonStream.Decoder.constructor | jsonflow/internal/json/json.go:52-62 | a decoder over a stream has that stream left |
| JsonStream.Decoder.PeekKind | jsonflow/internal/json/json.go:53-54 | the kind of the next token, `InvalidKind` when none is left, without consuming it |
| JsonStream.Decoder.ReadToken | jsonflow/internal/json/json.go:55-56 | the next token, consumed; past the last token, the decoder's error |
| JsonStream.Decoder.Apply | jsonflow/internal/json/json.go:52-62 | handing the decoder to a parser leaves it where that parser stops |
| JsonFlow.ParseBool | jsonflow/decode.go:39-44 | succeeds iff the kind is true or false, with value true iff the kind is 't'; otherwise "expected boolean but got `token`" |
| JsonFlow.ParseString | jsonflow/decode.go:214-219 | succeeds iff the token is a string, returning its text; otherwise "expected string but got `token`" |
| JsonFlow.Pow2Values | jsonflow/decode.go:58-73 | the powers of two behind the bounds of Go's `math` package |
| JsonFlow.OverflowInt | jsonflow/decode.go:58-73 | true exactly when the target is a predeclared type and the value lies outside its two's complement range; never for a named type, which no case of the type switch matches |
| JsonFlow.OverflowUint | jsonflow/decode.go:121-134 | true exactly when the target is a predeclared type and the value exceeds its maximum; never for uint64 or a named type |
| JsonFlow.SignedType.Convert | jsonflow/decode.go:88 | the conversion `T(v)` gives the one value in T's range congruent to v modulo 2^bits, and keeps a value already in range |
| JsonFlow.UnsignedType.Convert | jsonflow/decode.go:148 | the conversion `T(v)` gives the one value up to T's maximum congruent to v modulo 2^bits, and keeps a value already in range |
| JsonFlow.ParseInt | jsonflow/decode.go:77-89 | succeeds iff the token is a number, its text parses and, for a predeclared T, the value is in range; the result is `T(v)`, which is the value itself for a predeclared T; otherwise the number error, the parser's own error unchanged, or the range error |
| JsonFlow.ParseIntKey | jsonflow/decode.go:104-113 | `ParseInt` on the text alone, whatever the token's kind |
| JsonFlow.ParseUint | jsonflow/decode.go:137-149 | as ParseInt with the unsigned range and a non-negative result; the range error has the closing backtick |
| JsonFlow.ParseUintKey | jsonflow/decode.go:162-171 | succeeds exactly when `ParseUint` on a number token does, with the same value; the range error is the signed one without the closing backtick |
| JsonFlow.CheckedParseInt | jsonflow/decode.go:57 | the range check the doc comment promises for every T: succeeds iff the token is a number, its text parses and the value lies in T's range, returning the value unchanged; the same as `ParseInt` on a predeclared T |
| JsonFlow.CheckedParseIntKey | jsonflow/decode.go:104-113 | the checked parser on the text alone; the same as `ParseIntKey` on a predeclared T |
| JsonFlow.CheckedParseUint | jsonflow/decode.go:120 | succeeds iff the token is a number, its text parses and the value is at most T's maximum, returning the value unchanged; the same as `ParseUint` on a predeclared T |
| JsonFlow.CheckedParseUintKey | jsonflow/decode.go:162-171 | succeeds exactly when the checked `ParseUint` does, with its value, and with the signed range message otherwise; the same as `ParseUintKey` on a predeclared T |
| JsonFlow.ValueReply | jsonflow/decode.go:292-311 | reads exactly one token, if any; a scalar goes to the parser, anything else (null included) is the format error, and a read error is passed on |
| JsonFlow.ValuePtrReply | jsonflow/decode.go:315-338 | null gives nil and no error, consuming one token; any other input gives `DecodeValue`'s reply with the value boxed |
| JsonFlow.DelimiterReply | jsonflow/decode.go:252-274 | reads one token; succeeds iff it is the expected delimiter; otherwise the read error or the "expected" error with the token |
| JsonFlow.Unexpected | jsonflow/decode.go:394-399 | consumes one token; fails with the decoder's error when none is left, otherwise with the "expected" error quoting that token |
| JsonFlow.ObjectReply | jsonflow/decode.go:343-366 | null gives the zero value; on an opening brace the reply is the object's DecodeJSON reply (value or error, and where it stopped); any other start is the "expected `{`" error; the stream only moves forward |
| JsonFlow.ElementsReply | jsonflow/decode.go:380-393 | the array loop only moves forward, consumes at least the closing bracket on success, and extends what was decoded so far |
| JsonFlow.ArrayReply | jsonflow/decode.go:371-402 | null gives a nil slice; on an opening bracket the reply is the element loop's, after the bracket, with its slice or its error; any other start is the "expected `[`" error; the stream only moves forward |
| JsonFlow.EntriesReply | jsonflow/decode.go:417-434 | the map loop only moves forward, consumes at least the closing brace on success, and keeps every key decoded so far |
| JsonFlow.MapReply | jsonflow/decode.go:407-443 | null gives a nil map; on an opening brace the reply is the entry loop's, after the brace, with its map or its error; any other start is the "expected `{`" error; the stream only moves forward |
| JsonFlow.DecodeValue | jsonflow/decode.go:292-311 | the result and the decoder afterwards are `ValueReply` of the decoder before |
| JsonFlow.DecodeValuePtr | jsonflow/decode.go:315-338 | the result and the decoder afterwards are `ValuePtrReply` of the decoder before |
| JsonFlow.DecodeObjectBegin | jsonflow/decode.go:252-261 | returns no error exactly when `DelimiterReply` for `{` succeeds, otherwise its error, and leaves the decoder where it stops |
| JsonFlow.DecodeObjectEnd | jsonflow/decode.go:265-274 | returns no error exactly when `DelimiterReply` for `}` succeeds, otherwise its error, and leaves the decoder where it stops |
| JsonFlow.DecodeObject | jsonflow/decode.go:343-366 | the result and the decoder afterwards are `ObjectReply` of the decoder before |
| JsonFlow.DecodeArray | jsonflow/decode.go:371-402 | the element loop's result and the decoder afterwards are `ArrayReply` of the decoder before |
| JsonFlow.DecodeMap | jsonflow/decode.go:407-443 | the entry loop's result and the decoder afterwards are `MapReply` of the decoder before |
| JsonFlowProperties.SignedRanges | jsonflow/decode.go:58-73 | int8, int16, int32, int64 and int range over exactly the bounds of Go's `math` package |
| JsonFlowProperties.UnsignedRanges | jsonflow/decode.go:121-134 | uint8, uint16, uint32, uint64 and uint have the maxima of Go's `math` package; no 64-bit value overflows uint64 or uint |
| JsonFlowProperties.SignedPowers | jsonflow/decode.go:58-73 | every signed type, named or not, ranges over -2^(n-1) .. 2^(n-1)-1 for its width n, and `T(v)` works modulo 2^n |
| JsonFlowProperties.UnsignedPowers | jsonflow/decode.go:121-134 | every unsigned type, named or not, ranges over 0 .. 2^n-1 for its width n, and `T(v)` works modulo 2^n |
| JsonFlowProperties.Pow2Monotone | jsonflow/decode.go:58-73 | 2^a is at most 2^b when a is at most b, so with `SignedPowers` a wider type's range encloses a narrower one's |
| JsonFlowProperties.OverflowIntNarrower | jsonflow/decode.go:58-73 | a value that overflows a signed type lies outside the range of every narrower one, and overflows it when it is predeclared |
| JsonFlowProperties.ConvertWrapsAtMax | jsonflow/decode.go:88 | the conversion `T(v)` takes one past T's maximum round to T's minimum |
| JsonFlowProperties.ParseIntBoundaries | jsonflow/decode_test.go:89-157 | the minimum and maximum of every signed type decode; one past the maximum is the range error for a predeclared type and for the checked parser, and wraps to the minimum for a named type |
| JsonFlowProperties.NamedIntWraps | jsonflow/decode.go:72 | for `type Level int8`, "300" decodes to 44 through `ParseInt` and `ParseIntKey`, where `int8` and the checked parsers give the range error |
| JsonFlowProperties.NamedUintWraps | jsonflow/decode.go:133 | for `type Flags uint8`, "300" decodes to 44 through `ParseUint` and `ParseUintKey`, where `uint8` and the checked parsers give the range error |
| JsonFlowProperties.ParseAll | jsonflow/decode.go:371-402 | reference for arrays: succeeds iff every token parses, and then holds each parse in order |
| JsonFlowProperties.ElementsOfScalars | jsonflow/decode.go:380-393 | the array loop over scalar tokens and a closing bracket returns exactly the reference parses after what was decoded, or the first error |
| JsonFlowProperties.ArrayOfScalars | jsonflow/decode_test.go:564-591 | `[t1, ..., tn]` of scalars decodes to exactly the reference parses, a non-nil slice even when empty, and leaves the next token; otherwise the first element error |
| JsonFlowProperties.NullCollections | jsonflow/decode_test.go:593-598 | null decodes to a nil slice or a nil map, and the next token is untouched |
| JsonFlowProperties.EmptyArray | jsonflow/decode.go:371-402 | `[]` decodes to an empty, non-nil slice and leaves what follows it |
| JsonFlowProperties.EmptyElement | jsonflow/decode.go:380-393 | a `[]` element of an array of arrays appends an empty slice and the loop goes on after it |
| JsonFlowProperties.ThreeEmptyElements | jsonflow/decode_test.go:621-626 | the outer loop over `[], [], []]` returns three empty slices and consumes every token |
| JsonFlowProperties.NestedEmptyArrays | jsonflow/decode_test.go:621-626 | `[[], [], []]` decodes to three empty, non-nil inner slices |
| JsonFlowProperties.ElementErrorPropagates | jsonflow/decode.go:386-389 | a failing array loop returns the error of the element parser, called at a later position not starting with `]`, and stops where that parser stopped |
| JsonFlowProperties.UnexpectedStarts | jsonflow/decode.go:394-399 | on any first token but null and `[`/`{`, DecodeArray, DecodeMap and DecodeObject consume it and fail with "expected `[`" or "expected `{`" quoting it |
| JsonFlowProperties.Flatten | jsonflow/decode.go:417-434 | an object's members are two tokens each, key before value |
| JsonFlowProperties.ParseMembers | jsonflow/decode.go:417-434 | reference for maps: the parse of every key and value, in source order |
| JsonFlowProperties.FromPairsCons | jsonflow/decode.go:431 | assigning one pair first is the same as starting from the updated map |
| JsonFlowProperties.LastWins | jsonflow/decode.go:431 | a key is in the map iff it was there or assigned; its value is the last assignment's |
| JsonFlowProperties.EntriesOfScalars | jsonflow/decode.go:417-434 | the map loop over scalar members and a closing brace returns the reference pairs assigned in order, or the first key or value error |
| JsonFlowProperties.EntryErrorPropagates | jsonflow/decode.go:423-430 | a failing map loop returns the error of the key parser, or of the value parser after a parsed key, called at a later position not starting with `}`, and stops where that parser stopped |
| JsonFlowProperties.MapOfScalars | jsonflow/decode_test.go:654-674 | `{k1: v1, ...}` of scalars decodes to the pairs assigned in order (a duplicate key keeps its last value), a non-nil map even when empty; otherwise the first error |
| JsonFlowProperties.BoolMessages | jsonflow/decode_test.go:50-60 | "expected boolean but got `null`" and "… `invalid`" |
| JsonFlowProperties.IntRangeMessage | jsonflow/decode_test.go:177-181 | int8 on 32767 gives "number out of range, got `32767", without the closing backtick |
| JsonFlowProperties.IntKeyRangeMessage | jsonflow/decode_test.go:240-244 | the int8 key on "32767" gives the same message |
| JsonFlowProperties.UintRangeMessage | jsonflow/decode_test.go:301-305 | uint8 on 65535 gives "number out of range, got `65535`", with the closing backtick |
| JsonFlowProperties.CollectionMessages | jsonflow/decode_test.go:635-639 | an array or map on 123 gives "expected `[` but got `123`" or "expected `{` but got `123`" |
| JsonFlowProperties.DelimiterMessages | jsonflow/decode_test.go:754-786 | the delimiters on 123 and on `]` give "expected `{` but got 123" and "expected `}` but got ]" |
| JsonFlowProperties.EmptyInput | jsonflow/decode_test.go:206-210 | with nothing left to read, every combinator returns the decoder's own error |

## Findings

| source | as written | input that shows it | evidently intended | confidence | as-written member | corrected member |
|---|---|---|---|---|---|---|
| jsonflow/decode.go:57-89 | `OverflowInt`'s type switch matches no named type and returns false, so `ParseInt` and `ParseIntKey` return the wrapped `T(v)` | `type Level int8`; `ParseInt[Level]` on the number token "300" returns 44 and no error | the range error "number out of range, got `300", as for `int8`, per the doc comment "exceeds the bounds of the target integer type T" | high, not executed | JsonFlowProperties.NamedIntWraps | JsonFlow.CheckedParseInt |
| jsonflow/decode.go:120-171 | `OverflowUint`'s type switch matches no named type and returns false, so `ParseUint` and `ParseUintKey` return the wrapped `T(v)` | `type Flags uint8`; `ParseUint[Flags]` on the number token "300" returns 44 and no error | the range error "number out of range, got `300`", as for `uint8` | high, not executed | JsonFlowProperties.NamedUintWraps | JsonFlow.CheckedParseUint |

`JsonFlow.ParseInt`, `ParseIntKey`, `ParseUint` and `ParseUintKey` model the code as written, named types included. The checked parsers run the same code at the underlying predeclared type, and agree with the as-written ones on every predeclared type. The combinators take their scalar parser as a parameter, so they hold for either.

## Left out

- The mutex of `Cache` is not modelled, nor concurrent callers. Each operation runs under the lock in the source, so each is one atomic method here.
- `context.Context` is reduced to the cache bound to it, if any. Other context values, deadlines and cancellation are not modelled, and neither is the private context key.
- Go types are their `%T` names. `any` is a type parameter of the model, and the type assertion in `Get` and `Set` is a comparison of type names.
- CtxCache.TypeKey: a key's type is identified by its `%T` name. Distinct Go types that print the same name share one entry in the model, while Go's `map[any]any` keeps them apart. Examples are `error` and `any`, which both print `<nil>`, and same-named types from two packages. So `CtxCacheTraces.SameNameDifferentTypes` and `CtxCacheTraces.OtherKeysUnaffected` separate keys by type name, not by Go type.
- The values `Get` returns alongside an error (Go zero values) are not modelled. The model returns only the error.
- `errors.Is` compares by pointer identity in Go. The model compares error values structurally, so two separately created errors with equal text are the same error here.
- `fmt` formatting is not modelled. Messages are taken already formatted, with one `%s` split into the text before and after it.
- `strconv.ParseInt` and `strconv.ParseUint` are parameters. The model states what the decoders do with any result they return, not how decimal text is parsed.
- Go `int` and `uint` are taken to be 64 bits wide.
- `ParseFloat`, `OverflowFloat` and the float decoders use floating point and are not modelled. `ParseBytes`/`DecodeBytes` (base64) and `DecodeAny` are not modelled either.
- `DecodeBool`, `DecodeInt`, `DecodeString` and the other one-line wrappers are not modelled separately. Each is `DecodeValue` or `DecodeValuePtr` applied to the matching parser and format, and both are modelled.
- JsonFlow.ObjectReply: on an error from the object's `DecodeJSON`, the Go function still returns the partly filled object. The model returns only the error.
- The tokenizer behind `Decoder` is not part of this model. A syntax error in the middle of the input is modelled only as the error that ends the token stream. String tokens are taken already unescaped.
- An object's own `DecodeJSON`, and the element parsers given to `DecodeArray` and `DecodeMap`, are taken to read forward and to consume at least one token when they succeed. An element parser that succeeds without reading would make the Go loop run forever. The model excludes such parsers by the type `Parser`.
- HashUtil: the test comparison with the standard library's `hash/fnv` is covered only by the known vectors on ASCII inputs. The multi-byte UTF-8 inputs of the tests are not evaluated.
- JsonFlow.ElementsReply: states progress and the accumulated prefix. The element-by-element value is stated for scalar elements by `JsonFlowProperties.ElementsOfScalars` only.
- JsonFlow.EntriesReply: states progress and key retention. The values are stated for scalar members by `JsonFlowProperties.EntriesOfScalars` only.
- `ctxcache/ctxcache_test.go` calls `Set` and `Get` with plain string keys and sentinel names (`ErrKeyNotSet`, `ErrKeyAlreadySet`) that `ctxcache/ctxcache.go` does not define. The model follows `ctxcache/ctxcache.go`. `CtxCacheTraces.TestBeforeCancel` and `TestAfterCancel` replay the test with the typed keys `Key[string]("key")` and `Key[int]("key")`, declared first, and with `ValueNotSet` and `ValueAlreadySet` in place of the undefined sentinels.
- The `httputil`, `iterutil` and `funcutil` packages, `jsonflow/encode.go` and the jsonv2 adapters are not part of this model.
