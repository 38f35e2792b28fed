/**
 * Error wrapping helpers (errutil/errutil.go).
 *
 * Two wrapping styles are offered: `Explain` joins the message and the cause
 * with ": " (what the failure means), `Stack` joins them with " >> " (where
 * the failure passed through). Both keep the cause reachable through
 * `Unwrap`, so `Is` still finds it. The message is taken already formatted:
 * the `fmt` verbs and arguments of the Go functions are not modelled.
 */
module ErrUtil {
  import opened Wrappers

  /**
   * A Go error value. `Plain` is what `errors.New` or `fmt.Errorf` without
   * `%w` produce; `Wrapped` is what `fmt.Errorf` with one `%w` produces: the
   * full text is fixed when the error is built, and the cause is kept.
   */
  datatype Error = Plain(text: string) | Wrapped(text: string, inner: Error)

  /** `errors.Unwrap`: the cause of a wrapped error, nothing for a plain one. */
  function Unwrap(e: Error): Option<Error> {
    match e
    case Plain(_) => None
    case Wrapped(_, inner) => Some(inner)
  }

  /** The chain `e, Unwrap(e), Unwrap(Unwrap(e)), ...` that `errors.Is` walks. */
  function Chain(e: Error): (c: seq<Error>)
    ensures |c| >= 1 && c[0] == e
    ensures forall i :: 0 <= i < |c| - 1 ==> Unwrap(c[i]) == Some(c[i + 1])
    ensures Unwrap(c[|c| - 1]).None?
  {
    match e
    case Plain(_) => [e]
    case Wrapped(_, inner) => [e] + Chain(inner)
  }

  /** `errors.Is` for errors without their own `Is` method: compare, then unwrap. */
  predicate Is(e: Error, target: Error) {
    e == target || (e.Wrapped? && Is(e.inner, target))
  }

  /** `errors.Is` finds exactly the errors on the unwrap chain. */
  lemma {:induction false} IsIffOnChain(e: Error, target: Error)
    ensures Is(e, target) <==> target in Chain(e)
  {
    match e
    case Plain(_) =>
    case Wrapped(_, inner) =>
      IsIffOnChain(inner, target);
      assert Chain(e) == [e] + Chain(inner);
  }

  /** Following the chain twice is following it once: `Is` is transitive. */
  lemma {:induction false} IsTransitive(a: Error, b: Error, c: Error)
    requires Is(a, b) && Is(b, c)
    ensures Is(a, c)
  {
    if a != b {
      IsTransitive(a.inner, b, c);
    }
  }

  /**
   * `Explain(err, msg)`: with no cause, an error whose text is exactly the
   * message; otherwise `msg + ": " + err.Error()`, wrapping `err`.
   */
  function Explain(cause: Option<Error>, msg: string): (r: Error)
    ensures cause.None? ==> r.text == msg && Unwrap(r).None?
    ensures cause.Some? ==> r.text == msg + ": " + cause.value.text && Unwrap(r) == cause
  {
    match cause
    case None => Plain(msg)
    case Some(e) => Wrapped(msg + ": " + e.text, e)
  }

  /**
   * `Stack(err, msg)`: with no cause, an error whose text is exactly the
   * message; otherwise `msg + " >> " + err.Error()`, wrapping `err`.
   */
  function Stack(cause: Option<Error>, msg: string): (r: Error)
    ensures cause.None? ==> r.text == msg && Unwrap(r).None?
    ensures cause.Some? ==> r.text == msg + " >> " + cause.value.text && Unwrap(r) == cause
  {
    match cause
    case None => Plain(msg)
    case Some(e) => Wrapped(msg + " >> " + e.text, e)
  }

  /** Wrapping keeps every error the cause already matched, and the cause itself. */
  lemma WrappingKeepsIs(e: Error, target: Error, msg: string)
    requires Is(e, target)
    ensures Is(Explain(Some(e), msg), target) && Is(Explain(Some(e), msg), e)
    ensures Is(Stack(Some(e), msg), target) && Is(Stack(Some(e), msg), e)
  {
  }

  /** Explaining `base` with `msgs[0]`, then `msgs[1]`, ... in that order. */
  function ExplainAll(base: Error, msgs: seq<string>): Error
    decreases |msgs|
  {
    if msgs == [] then base else Explain(Some(ExplainAll(base, msgs[..|msgs| - 1])), msgs[|msgs| - 1])
  }

  /** Stacking `base` with `msgs[0]`, then `msgs[1]`, ... in that order. */
  function StackAll(base: Error, msgs: seq<string>): Error
    decreases |msgs|
  {
    if msgs == [] then base else Stack(Some(StackAll(base, msgs[..|msgs| - 1])), msgs[|msgs| - 1])
  }

  /**
   * The text that nesting puts in front of the base text: the last message
   * first, each followed by the separator.
   */
  function Prefix(msgs: seq<string>, sep: string): string
    decreases |msgs|
  {
    if msgs == [] then "" else msgs[|msgs| - 1] + sep + Prefix(msgs[..|msgs| - 1], sep)
  }

  /**
   * Nested `Explain` composes: the outermost message comes first, each
   * separated by ": ", and the result still `Is` the base error.
   */
  lemma {:induction false} ExplainAllComposes(base: Error, msgs: seq<string>)
    ensures ExplainAll(base, msgs).text == Prefix(msgs, ": ") + base.text
    ensures Is(ExplainAll(base, msgs), base)
    decreases |msgs|
  {
    if msgs != [] {
      var init := msgs[..|msgs| - 1];
      ExplainAllComposes(base, init);
      assert ExplainAll(base, msgs).text
          == msgs[|msgs| - 1] + ": " + (Prefix(init, ": ") + base.text);
    }
  }

  /**
   * Nested `Stack` composes the same way: the outermost message comes first,
   * each separated by " >> ", and the result still `Is` the base error.
   */
  lemma {:induction false} StackAllComposes(base: Error, msgs: seq<string>)
    ensures StackAll(base, msgs).text == Prefix(msgs, " >> ") + base.text
    ensures Is(StackAll(base, msgs), base)
    decreases |msgs|
  {
    if msgs != [] {
      var init := msgs[..|msgs| - 1];
      StackAllComposes(base, init);
      assert StackAll(base, msgs).text
          == msgs[|msgs| - 1] + " >> " + (Prefix(init, " >> ") + base.text);
    }
  }

  /** The nested-explain case of the package tests, rendered and matched. */
  lemma NestedExplainExample()
    ensures var base := Plain("base error");
            var wrapped := Explain(Some(base), "level 1");
            var final := Explain(Some(wrapped), "level 2");
            && final.text == "level 2: level 1: base error"
            && Is(final, base)
            && Unwrap(final) == Some(wrapped)
  {
  }

  /** The nested-stack case of the package tests, rendered and matched. */
  lemma NestedStackExample()
    ensures var base := Plain("base error");
            var wrapped := Stack(Some(base), "layer 1");
            var final := Stack(Some(wrapped), "layer 2");
            && final.text == "layer 2 >> layer 1 >> base error"
            && Is(final, base)
            && Unwrap(final) == Some(wrapped)
  {
  }
}
