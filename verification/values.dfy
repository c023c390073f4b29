/** Python-level values the client passes around: optional strings with
    Python truthiness, the `or` operator on them, and the values that appear
    in the query-parameter and post-argument dictionaries. */
module Values {

  /** `None` or a present value. */
  datatype Option<+T> = None | Some(value: T) {
    /** The value, or `default` when absent (the `if x is None: x = default` idiom). */
    function GetOr(default: T): (v: T) {
      if Some? then value else default
    }
  }

  /** Python truthiness of an optional string: `None` and `""` are false. */
  predicate Truthy(s: Option<string>) {
    s.Some? && s.value != ""
  }

  /** Python's `x or y` on optional strings: the left operand when it is
      truthy, otherwise the right one, whatever the right one is. */
  function Or(x: Option<string>, y: Option<string>): (r: Option<string>)
    ensures Truthy(x) ==> r == x
    ensures !Truthy(x) ==> r == y
    ensures Truthy(r) <==> Truthy(x) || Truthy(y)
  {
    if Truthy(x) then x else y
  }

  /** A value stored in a request dictionary (query parameters, post
      arguments, form data). `Null` is Python's `None`. */
  datatype Value =
    | Null
    | Bool(b: bool)
    | Int(i: int)
    | Str(s: string)
    | StrList(items: seq<string>)

  /** An optional string as a dictionary value: `None` becomes `Null`. */
  function FromOption(o: Option<string>): (v: Value)
    ensures o.None? <==> v == Null
    ensures o.Some? ==> v == Str(o.value)
  {
    if o.Some? then Str(o.value) else Null
  }
}
