/** Resolution of the operation tree against a context (the exec package).

    `Eval` is the specification: what resolving an operation returns and how
    it leaves the grammar's stacks, given the modifiers and the random
    source, which resolution never changes. The `Resolve...` methods are the
    `Resolve` methods of the six operation types, working on a `Grammar` in
    place, each proved to agree with `Eval`.

    Two things the Go code does not bound are bounded here: `fuel` is spent
    once per bound symbol lookup, and running out of it is `OutOfFuel`; a
    random draw outside `[0, n)` (including a Select with no alternatives) is
    the index panic `IndexPanic`. */
module Exec {
  import opened Outcomes
  import opened GoStrings
  import opened Ops
  import opened Modifiers
  import opened Context

  /** The text an operation resolved to, and the stacks afterwards. */
  datatype Res = Res(out: Outcome<string>, store: Store)

  /** The texts a list of operations resolved to, and the stacks afterwards. */
  datatype ResList = ResList(out: Outcome<seq<string>>, store: Store)

  /** What an unbound symbol resolves to. */
  function Unbound(key: string): string
  {
    "((" + key + "))"
  }

  /** What an unregistered modifier appends to the value. */
  function UnknownModifier(key: string): string
  {
    "((." + key + "))"
  }

  /** Texts already resolved, put in front of the texts still to come. */
  function PrependAll(done: seq<string>, r: ResList): ResList
  {
    if r.out.Fail? then r else ResList(Ok(done + r.out.value), r.store)
  }

  function Eval(op: Op, st: Store, env: Env, fuel: nat): (r: Res)
    requires StacksNonEmpty(st)
    ensures StacksNonEmpty(r.store)
    ensures st.Keys <= r.store.Keys
    decreases fuel, op
  {
    match op
    case Literal(text) => Res(Ok(text), st)
    case Concat(rules) =>
      var rl := EvalList(rules, st, env, fuel);
      if rl.out.Fail? then Res(Fail(rl.out.fault), rl.store)
      else Res(Ok(Join(rl.out.value)), rl.store)
    case Push(key, rule) =>
      var r := Eval(rule, st, env, fuel);
      if r.out.Fail? then r
      else
        PushedFacts(r.store, key, Literal(r.out.value));
        Res(Ok([]), Pushed(r.store, key, Literal(r.out.value)))
    case Pop(key) =>
      PoppedFacts(st, key);
      Res(Ok([]), Popped(st, key))
    case Select(alts) =>
      var i := env.rand(|alts|);
      if 0 <= i < |alts| then Eval(alts[i], st, env, fuel)
      else Res(Fail(IndexPanic), st)
    case Symbol(key, mods) =>
      match Top(st, key)
      case None => Res(Ok(Unbound(key)), st)
      case Some(rule) =>
        if fuel == 0 then Res(Fail(OutOfFuel), st)
        else
          var r := Eval(rule, st, env, fuel - 1);
          if r.out.Fail? then r
          else EvalMods(mods, r.out.value, r.store, env, fuel)
  }

  /** Resolves the operations left to right, each seeing the stacks the
      previous one left; the first failure stops the rest. */
  function EvalList(ops: seq<Op>, st: Store, env: Env, fuel: nat): (r: ResList)
    requires StacksNonEmpty(st)
    ensures StacksNonEmpty(r.store)
    ensures st.Keys <= r.store.Keys
    ensures r.out.Ok? ==> |r.out.value| == |ops|
    decreases fuel, ops
  {
    if ops == [] then ResList(Ok([]), st)
    else
      var r := Eval(ops[0], st, env, fuel);
      if r.out.Fail? then ResList(Fail(r.out.fault), r.store)
      else PrependAll([r.out.value], EvalList(ops[1..], r.store, env, fuel))
  }

  /** Applies the modifier calls in order to `value`: an unregistered name
      appends a marker and skips its parameters; a registered one gets its
      parameters resolved left to right and replaces the value. */
  function EvalMods(mods: seq<ModCall>, value: string, st: Store, env: Env, fuel: nat): (r: Res)
    requires StacksNonEmpty(st)
    ensures StacksNonEmpty(r.store)
    ensures st.Keys <= r.store.Keys
    decreases fuel, mods
  {
    if mods == [] then Res(Ok(value), st)
    else
      var m := mods[0];
      if m.key !in env.modifiers then
        EvalMods(mods[1..], value + UnknownModifier(m.key), st, env, fuel)
      else
        var ps := EvalList(m.params, st, env, fuel);
        if ps.out.Fail? then Res(Fail(ps.out.fault), ps.store)
        else EvalMods(mods[1..], env.modifiers[m.key].Modify(value, ps.out.value), ps.store, env, fuel)
  }

  lemma PrependAllTwice(a: seq<string>, b: seq<string>, r: ResList)
    ensures PrependAll(a, PrependAll(b, r)) == PrependAll(a + b, r)
  {
    if r.out.Ok? {
      assert a + (b + r.out.value) == (a + b) + r.out.value;
    }
  }

  lemma PrependNothing(r: ResList)
    ensures PrependAll([], r) == r
  {
    if r.out.Ok? {
      assert [] + r.out.value == r.out.value;
    }
  }

  /** One step of `EvalList`, read from the front of `ops[i..]`. */
  lemma EvalListStep(ops: seq<Op>, i: nat, st: Store, env: Env, fuel: nat)
    requires i < |ops| && StacksNonEmpty(st)
    ensures EvalList(ops[i..], st, env, fuel) ==
      var r := Eval(ops[i], st, env, fuel);
      if r.out.Fail? then ResList(Fail(r.out.fault), r.store)
      else PrependAll([r.out.value], EvalList(ops[i + 1..], r.store, env, fuel))
  {
    assert ops[i..][0] == ops[i];
    assert ops[i..][1..] == ops[i + 1..];
  }

  /** The dispatch of `Operation.Resolve` over the six operation types. */
  method Resolve(op: Op, g: Grammar, fuel: nat) returns (out: Outcome<string>)
    requires g.Valid()
    modifies g`value
    ensures g.Valid()
    ensures Res(out, g.value) == Eval(op, old(g.value), g.Environment(), fuel)
    decreases fuel, op, 1
  {
    match op {
      case Literal(text) =>
        var s := ResolveLiteral(text, g);
        out := Ok(s);
      case Concat(rules) =>
        out := ResolveConcat(rules, g, fuel);
      case Push(key, rule) =>
        out := ResolvePush(key, rule, g, fuel);
      case Pop(key) =>
        out := ResolvePop(key, g);
      case Select(alts) =>
        out := ResolveSelect(alts, g, fuel);
      case Symbol(key, mods) =>
        out := ResolveSymbol(key, mods, g, fuel);
    }
  }

  /** A literal resolves to its own text and touches nothing. */
  method ResolveLiteral(text: string, g: Grammar) returns (out: string)
    ensures out == text
  {
    out := text;
  }

  /** Resolves each rule in order and joins the results. */
  method ResolveConcat(rules: seq<Op>, g: Grammar, fuel: nat) returns (out: Outcome<string>)
    requires g.Valid()
    modifies g`value
    ensures g.Valid()
    ensures Res(out, g.value) == Eval(Concat(rules), old(g.value), g.Environment(), fuel)
    decreases fuel, rules, 0
  {
    var parts: seq<string> := [];
    var i := 0;
    assert rules[i..] == rules;
    PrependNothing(EvalList(rules, g.value, g.Environment(), fuel));
    while i < |rules|
      invariant 0 <= i <= |rules| && g.Valid()
      invariant EvalList(rules, old(g.value), g.Environment(), fuel)
        == PrependAll(parts, EvalList(rules[i..], g.value, g.Environment(), fuel))
    {
      ghost var before := g.value;
      EvalListStep(rules, i, before, g.Environment(), fuel);
      var s := Resolve(rules[i], g, fuel);
      if s.Fail? {
        assert EvalList(rules, old(g.value), g.Environment(), fuel) == ResList(Fail(s.fault), g.value);
        return Fail(s.fault);
      }
      PrependAllTwice(parts, [s.value], EvalList(rules[i + 1..], g.value, g.Environment(), fuel));
      parts := parts + [s.value];
      i := i + 1;
    }
    assert rules[i..] == [];
    assert parts + [] == parts;
    out := Ok(Join(parts));
  }

  /** Resolves the value now, and pushes the text it gave as a literal. */
  method ResolvePush(key: string, rule: Op, g: Grammar, fuel: nat) returns (out: Outcome<string>)
    requires g.Valid()
    modifies g`value
    ensures g.Valid()
    ensures Res(out, g.value) == Eval(Push(key, rule), old(g.value), g.Environment(), fuel)
    decreases fuel, rule, 2
  {
    var result := Resolve(rule, g, fuel);
    if result.Fail? {
      return result;
    }
    g.Push(key, Literal(result.value));
    out := Ok("");
  }

  method ResolvePop(key: string, g: Grammar) returns (out: Outcome<string>)
    requires g.Valid()
    modifies g`value
    ensures g.Valid()
    ensures out == Ok("") && g.value == Popped(old(g.value), key)
  {
    g.Pop(key);
    out := Ok("");
  }

  /** Draws one index and resolves only that alternative. */
  method ResolveSelect(alts: seq<Op>, g: Grammar, fuel: nat) returns (out: Outcome<string>)
    requires g.Valid()
    modifies g`value
    ensures g.Valid()
    ensures Res(out, g.value) == Eval(Select(alts), old(g.value), g.Environment(), fuel)
    decreases fuel, alts, 0
  {
    var i := g.Intn(|alts|);
    if !(0 <= i < |alts|) {
      return Fail(IndexPanic);
    }
    out := Resolve(alts[i], g, fuel);
  }

  /** Looks the key up, resolves its top rule, then applies the modifiers. */
  method ResolveSymbol(key: string, mods: seq<ModCall>, g: Grammar, fuel: nat) returns (out: Outcome<string>)
    requires g.Valid()
    modifies g`value
    ensures g.Valid()
    ensures Res(out, g.value) == Eval(Symbol(key, mods), old(g.value), g.Environment(), fuel)
    decreases fuel, mods, 0
  {
    var value := g.Lookup(key);
    if value.None? {
      return Ok(Unbound(key));
    }
    if fuel == 0 {
      return Fail(OutOfFuel);
    }
    var first := Resolve(value.value, g, fuel - 1);
    if first.Fail? {
      return first;
    }
    var acc := first.value;
    var i := 0;
    while i < |mods|
      invariant 0 <= i <= |mods| && g.Valid()
      invariant Eval(Symbol(key, mods), old(g.value), g.Environment(), fuel)
        == EvalMods(mods[i..], acc, g.value, g.Environment(), fuel)
    {
      var mod := mods[i];
      assert mods[i..][0] == mod && mods[i..][1..] == mods[i + 1..];
      var m := g.LookupModifier(mod.key);
      if m.None? {
        acc := acc + UnknownModifier(mod.key);
        i := i + 1;
        continue;
      }
      var params: seq<string> := [];
      var j := 0;
      ghost var before := g.value;
      assert mod.params[j..] == mod.params;
      PrependNothing(EvalList(mod.params, g.value, g.Environment(), fuel));
      while j < |mod.params|
        invariant 0 <= j <= |mod.params| && g.Valid()
        invariant EvalList(mod.params, before, g.Environment(), fuel)
          == PrependAll(params, EvalList(mod.params[j..], g.value, g.Environment(), fuel))
      {
        EvalListStep(mod.params, j, g.value, g.Environment(), fuel);
        assert mod.params[j] < mod;
        var p := Resolve(mod.params[j], g, fuel);
        if p.Fail? {
          return Fail(p.fault);
        }
        PrependAllTwice(params, [p.value], EvalList(mod.params[j + 1..], g.value, g.Environment(), fuel));
        params := params + [p.value];
        j := j + 1;
      }
      assert mod.params[j..] == [];
      assert params + [] == params;
      assert EvalList(mod.params, before, g.Environment(), fuel) == ResList(Ok(params), g.value);
      acc := m.value.Modify(acc, params);
      i := i + 1;
    }
    assert mods[i..] == [];
    out := Ok(acc);
  }
}
