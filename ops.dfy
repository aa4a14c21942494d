/** The operation tree of the exec package: a closed sum type, one variant per
    `Operation` implementation, and the modifier call a Symbol carries. */
module Ops {

  datatype Op =
    | Literal(text: string)                  // exec/literal.go
    | Concat(rules: seq<Op>)                 // exec/concat.go
    | Push(key: string, rule: Op)            // exec/push.go
    | Pop(key: string)                       // exec/pop.go
    | Select(alts: seq<Op>)                  // exec/select.go
    | Symbol(key: string, mods: seq<ModCall>) // exec/symbol.go

  /** A modifier name with its parameter operations; `NewModCallZero`
      gives the empty parameter list. */
  datatype ModCall = ModCall(key: string, params: seq<Op>)

  /** Every Select in the tree offers at least two alternatives, as every
      Select the parser builds does. */
  predicate SelectsWide(op: Op)
    decreases op
  {
    match op
    case Literal(_) => true
    case Concat(rules) => forall r :: r in rules ==> SelectsWide(r)
    case Push(_, rule) => SelectsWide(rule)
    case Pop(_) => true
    case Select(alts) => |alts| >= 2 && forall a :: a in alts ==> SelectsWide(a)
    case Symbol(_, mods) => forall m :: m in mods ==> ParamsWide(m)
  }

  predicate ParamsWide(m: ModCall)
    decreases m
  {
    forall p :: p in m.params ==> SelectsWide(p)
  }
}
