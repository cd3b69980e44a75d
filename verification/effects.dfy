/**
 Shared vocabulary of the front end: optional values (JavaScript's `null` and
 `undefined`), the two ways a promise settles, JavaScript truthiness of
 strings, and the `Step` record every view transition returns.
 */
module Effects {

  /** A value that may be absent (`null` / `undefined` in the source). */
  datatype Option<+T> = None | Some(value: T) {

    /** The value, or `default` when absent. */
    function GetOr(default: T): T {
      match this
      case Some(v) => v
      case None => default
    }
  }

  /** How an awaited promise settles: with a value, or by throwing. */
  datatype Settled<+T> = Fulfilled(value: T) | Rejected

  /** `Promise.all` over two promises: fulfilled with both values exactly when
      both are fulfilled; a rejection of either rejects the whole. */
  function Both<A, B>(a: Settled<A>, b: Settled<B>): (r: Settled<(A, B)>)
    ensures r.Fulfilled? <==> a.Fulfilled? && b.Fulfilled?
    ensures r.Fulfilled? ==> r.value.0 == a.value && r.value.1 == b.value
  {
    if a.Fulfilled? && b.Fulfilled? then Fulfilled((a.value, b.value)) else Rejected
  }

  /** JavaScript truthiness of a `string | null | undefined`: only a present,
      non-empty string is truthy. */
  predicate Truthy(s: Option<string>) {
    s.Some? && s.value != ""
  }

  /** The JavaScript expression `s || fallback` for an optional string. */
  function OrElse(s: Option<string>, fallback: string): (r: string)
    ensures Truthy(s) ==> r == s.value
    ensures !Truthy(s) ==> r == fallback
    ensures fallback != "" ==> r != ""
  {
    if Truthy(s) then s.value else fallback
  }

  /** A template literal `${s}` of an optional string: an undefined value is
      rendered as the text "undefined". */
  function Interpolate(s: Option<string>): (r: string)
    ensures s.Some? ==> r == s.value
    ensures s.None? ==> r == "undefined"
  {
    s.GetOr("undefined")
  }

  /** The state a handler leaves behind, together with the outbound calls it
      issued, in issue order. */
  datatype Step<S, E> = Step(state: S, calls: seq<E>)
}
