/** tracery.go: `ModifierFn`, a plain function used as a modifier. Go's
    nil function value is `None`. */
module Modifiers {
  import opened Outcomes

  /** A modifier function: the current value and the parameter strings in,
      the new value out. */
  type ModFunc = (string, seq<string>) -> string

  datatype ModifierFn = ModifierFn(fn: Option<ModFunc>) {

    /** A nil function leaves the value alone; otherwise the function
        decides. */
    function Modify(value: string, params: seq<string>): (r: string)
      ensures fn.None? ==> r == value
      ensures fn.Some? ==> r == fn.value(value, params)
    {
      match fn
      case None => value
      case Some(f) => f(value, params)
    }
  }

  /** A nil modifier ignores its parameters entirely. */
  lemma NilIgnoresParams(value: string, params: seq<string>, others: seq<string>)
    ensures ModifierFn(None).Modify(value, params) == ModifierFn(None).Modify(value, others) == value
  {
  }
}
