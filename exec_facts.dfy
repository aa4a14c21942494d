/** What resolution promises: left-to-right evaluation with visible side
    effects, push-time evaluation of pushed values, the pop floor, the
    independence of a Select from the alternatives it does not draw, the
    fallbacks for unbound symbols and unregistered modifiers, stability
    under more fuel, and the absence of index panics for the trees the
    parser builds. */
module ExecFacts {
  import opened Outcomes
  import opened GoStrings
  import opened Ops
  import opened Modifiers
  import opened Context
  import opened Exec

  /** Resolving `a + b` resolves `a`, then `b` against the stacks `a` left;
      a failure in `a` stops everything. */
  lemma {:induction false} EvalListAppend(a: seq<Op>, b: seq<Op>, st: Store, env: Env, fuel: nat)
    requires StacksNonEmpty(st)
    ensures var ra := EvalList(a, st, env, fuel);
      EvalList(a + b, st, env, fuel) ==
        if ra.out.Fail? then ra else PrependAll(ra.out.value, EvalList(b, ra.store, env, fuel))
    decreases a
  {
    if a == [] {
      assert a + b == b;
      PrependNothing(EvalList(b, st, env, fuel));
    } else {
      assert (a + b)[0] == a[0];
      assert (a + b)[1..] == a[1..] + b;
      var r := Eval(a[0], st, env, fuel);
      if r.out.Ok? {
        EvalListAppend(a[1..], b, r.store, env, fuel);
        var rest := EvalList(a[1..], r.store, env, fuel);
        if rest.out.Ok? {
          PrependAllTwice([r.out.value], rest.out.value, EvalList(b, rest.store, env, fuel));
        }
      }
    }
  }

  /** A Concat of `a + b` outputs the text of `a` followed by the text of
      `b`, the latter resolved against the stacks `a` left. */
  lemma ConcatSequential(a: seq<Op>, b: seq<Op>, st: Store, env: Env, fuel: nat)
    requires StacksNonEmpty(st)
    requires Eval(Concat(a), st, env, fuel).out.Ok?
    requires Eval(Concat(b), Eval(Concat(a), st, env, fuel).store, env, fuel).out.Ok?
    ensures var ra := Eval(Concat(a), st, env, fuel);
      var rb := Eval(Concat(b), ra.store, env, fuel);
      Eval(Concat(a + b), st, env, fuel) == Res(Ok(ra.out.value + rb.out.value), rb.store)
  {
    EvalListAppend(a, b, st, env, fuel);
    var la := EvalList(a, st, env, fuel);
    var lb := EvalList(b, la.store, env, fuel);
    JoinConcat(la.out.value, lb.out.value);
  }

  /** A symbol whose top is a literal reads back that literal's text and
      changes nothing, whatever the random source. */
  lemma ReadLiteral(key: string, text: string, st: Store, env: Env, fuel: nat)
    requires StacksNonEmpty(st) && fuel >= 1
    requires Top(st, key) == Some(Literal(text))
    ensures Eval(Symbol(key, []), st, env, fuel) == Res(Ok(text), st)
  {
  }

  /** A pushed value is resolved once, at push time: reading the key twice
      afterwards gives the same text twice, even when the value draws at
      random. */
  lemma {:induction false} PushThenReadTwice(key: string, rule: Op, st: Store, env: Env, fuel: nat)
    requires StacksNonEmpty(st) && fuel >= 1
    requires Eval(rule, st, env, fuel).out.Ok?
    ensures var r := Eval(rule, st, env, fuel);
      Eval(Concat([Push(key, rule), Symbol(key, []), Symbol(key, [])]), st, env, fuel)
        == Res(Ok(r.out.value + r.out.value), Pushed(r.store, key, Literal(r.out.value)))
  {
    var r := Eval(rule, st, env, fuel);
    var t := r.out.value;
    var s1 := Pushed(r.store, key, Literal(t));
    PushedFacts(r.store, key, Literal(t));
    var ops := [Push(key, rule), Symbol(key, []), Symbol(key, [])];
    assert Eval(ops[0], st, env, fuel) == Res(Ok([]), s1);
    ReadLiteral(key, t, s1, env, fuel);
    var last := [Symbol(key, [])];
    assert last[0] == Symbol(key, []) && last[1..] == [];
    assert [t] + [] == [t];
    assert EvalList(last, s1, env, fuel) == ResList(Ok([t]), s1);
    assert ops[1..][0] == Symbol(key, []) && ops[1..][1..] == last;
    assert EvalList(ops[1..], s1, env, fuel) == ResList(Ok([t] + [t]), s1);
    assert [[]] + ([t] + [t]) == [[], t, t];
    assert EvalList(ops, st, env, fuel) == ResList(Ok([[], t, t]), s1);
    assert [t, t][1..] == [t] && [t][1..] == [];
    assert [[], t, t][1..] == [t, t];
    assert Join([t]) == t + [] == t;
    assert Join([t, t]) == t + Join([t]);
    var e: string := [];
    assert [[], t, t] == [e, t, t];
    assert Join([e, t, t]) == e + Join([t, t]) == t + t;
  }

  /** Pushing onto a bound key and popping it again leaves exactly the
      stacks that resolving the pushed value left. */
  lemma PushThenPop(key: string, rule: Op, st: Store, env: Env, fuel: nat)
    requires StacksNonEmpty(st) && key in st
    requires Eval(rule, st, env, fuel).out.Ok?
    ensures Eval(Concat([Push(key, rule), Pop(key)]), st, env, fuel)
      == Res(Ok([]), Eval(rule, st, env, fuel).store)
  {
    var r := Eval(rule, st, env, fuel);
    PopAfterPush(r.store, key, Literal(r.out.value));
    var s1 := Pushed(r.store, key, Literal(r.out.value));
    var ops := [Push(key, rule), Pop(key)];
    assert Eval(ops[0], st, env, fuel) == Res(Ok([]), s1);
    assert ops[1..][0] == Pop(key) && ops[1..][1..] == [];
    var e: string := [];
    assert [e] + [] == [e];
    assert EvalList(ops[1..], s1, env, fuel) == ResList(Ok([e]), r.store);
    assert [e] + [e] == [e, e];
    assert EvalList(ops, st, env, fuel) == ResList(Ok([e, e]), r.store);
    assert [e, e][1..] == [e] && [e][1..] == [];
    assert Join([e]) == e + [] == [];
    assert Join([e, e]) == e + Join([e]) == [];
  }

  /** Pop never removes the last entry of a stack, nor binds a key. */
  lemma PopFloor(key: string, st: Store, env: Env, fuel: nat)
    requires StacksNonEmpty(st)
    requires key !in st || |st[key]| == 1
    ensures Eval(Pop(key), st, env, fuel) == Res(Ok([]), st)
  {
  }

  /** A Select resolves only the alternative drawn: alternatives it does
      not draw make no difference. A draw outside the alternatives panics
      and changes nothing. */
  lemma SelectDraw(alts: seq<Op>, others: seq<Op>, st: Store, env: Env, fuel: nat)
    requires StacksNonEmpty(st) && |alts| == |others|
    ensures var i := env.rand(|alts|);
      0 <= i < |alts| && alts[i] == others[i] ==>
        Eval(Select(alts), st, env, fuel) == Eval(Select(others), st, env, fuel)
    ensures var i := env.rand(|alts|);
      !(0 <= i < |alts|) ==> Eval(Select(alts), st, env, fuel) == Res(Fail(IndexPanic), st)
  {
  }

  /** An unbound symbol gives its wrapped name, whatever its modifiers, and
      resolves nothing. */
  lemma UnboundSymbol(key: string, mods: seq<ModCall>, st: Store, env: Env, fuel: nat)
    requires StacksNonEmpty(st) && key !in st
    ensures Eval(Symbol(key, mods), st, env, fuel) == Res(Ok("((" + key + "))"), st)
  {
  }

  /** An unregistered modifier appends its marker and never resolves its
      parameters. */
  lemma UnknownModifierSkipsParams(key: string, params: seq<Op>, mods: seq<ModCall>, value: string,
                                   st: Store, env: Env, fuel: nat)
    requires StacksNonEmpty(st) && key !in env.modifiers
    ensures EvalMods([ModCall(key, params)] + mods, value, st, env, fuel)
      == EvalMods(mods, value + "((." + key + "))", st, env, fuel)
  {
    assert ([ModCall(key, params)] + mods)[1..] == mods;
    assert value + "((." + key + "))" == value + UnknownModifier(key);
  }

  predicate AllLiteral(ops: seq<Op>)
  {
    forall op :: op in ops ==> op.Literal?
  }

  function Texts(ops: seq<Op>): (r: seq<string>)
    requires AllLiteral(ops)
    ensures |r| == |ops|
    ensures forall i :: 0 <= i < |ops| ==> r[i] == ops[i].text
  {
    if ops == [] then [] else [ops[0].text] + Texts(ops[1..])
  }

  /** The modifier chain as a fold over the calls: markers for unknown
      names, `Modify` with the literal parameters for registered ones. */
  function Chain(mods: seq<ModCall>, value: string, modifiers: map<string, ModifierFn>): string
    requires forall m :: m in mods ==> AllLiteral(m.params)
  {
    if mods == [] then value
    else
      var m := mods[0];
      var next := if m.key in modifiers then modifiers[m.key].Modify(value, Texts(m.params))
                  else value + UnknownModifier(m.key);
      Chain(mods[1..], next, modifiers)
  }

  /** Literal parameters resolve to their texts and change nothing. */
  lemma {:induction false} EvalListLiterals(ops: seq<Op>, st: Store, env: Env, fuel: nat)
    requires StacksNonEmpty(st) && AllLiteral(ops)
    ensures EvalList(ops, st, env, fuel) == ResList(Ok(Texts(ops)), st)
    decreases ops
  {
    if ops != [] {
      EvalListLiterals(ops[1..], st, env, fuel);
    }
  }

  /** With literal parameters, applying the modifiers is the fold `Chain`,
      and the stacks stay as they were. */
  lemma {:induction false} ModifiersFold(mods: seq<ModCall>, value: string, st: Store, env: Env, fuel: nat)
    requires StacksNonEmpty(st)
    requires forall m :: m in mods ==> AllLiteral(m.params)
    ensures EvalMods(mods, value, st, env, fuel) == Res(Ok(Chain(mods, value, env.modifiers)), st)
    decreases mods
  {
    if mods != [] {
      if mods[0].key in env.modifiers {
        EvalListLiterals(mods[0].params, st, env, fuel);
        ModifiersFold(mods[1..], env.modifiers[mods[0].key].Modify(value, Texts(mods[0].params)), st, env, fuel);
      } else {
        ModifiersFold(mods[1..], value + UnknownModifier(mods[0].key), st, env, fuel);
      }
    }
  }

  /** A result that did not run out of fuel is the result for any larger
      fuel. */
  lemma {:induction false} EvalFuel(op: Op, st: Store, env: Env, fuel: nat, more: nat)
    requires StacksNonEmpty(st) && fuel <= more
    requires Eval(op, st, env, fuel).out != Fail(OutOfFuel)
    ensures Eval(op, st, env, more) == Eval(op, st, env, fuel)
    decreases fuel, op
  {
    match op
    case Literal(_) =>
    case Concat(rules) =>
      EvalListFuel(rules, st, env, fuel, more);
    case Push(key, rule) =>
      EvalFuel(rule, st, env, fuel, more);
    case Pop(_) =>
    case Select(alts) =>
      var i := env.rand(|alts|);
      if 0 <= i < |alts| {
        EvalFuel(alts[i], st, env, fuel, more);
      }
    case Symbol(key, mods) =>
      if Top(st, key).Some? {
        var rule := Top(st, key).value;
        var r := Eval(rule, st, env, fuel - 1);
        EvalFuel(rule, st, env, fuel - 1, more - 1);
        if r.out.Ok? {
          EvalModsFuel(mods, r.out.value, r.store, env, fuel, more);
        }
      }
  }

  lemma {:induction false} EvalListFuel(ops: seq<Op>, st: Store, env: Env, fuel: nat, more: nat)
    requires StacksNonEmpty(st) && fuel <= more
    requires EvalList(ops, st, env, fuel).out != Fail(OutOfFuel)
    ensures EvalList(ops, st, env, more) == EvalList(ops, st, env, fuel)
    decreases fuel, ops
  {
    if ops != [] {
      var r := Eval(ops[0], st, env, fuel);
      EvalFuel(ops[0], st, env, fuel, more);
      if r.out.Ok? {
        EvalListFuel(ops[1..], r.store, env, fuel, more);
      }
    }
  }

  lemma {:induction false} EvalModsFuel(mods: seq<ModCall>, value: string, st: Store, env: Env, fuel: nat, more: nat)
    requires StacksNonEmpty(st) && fuel <= more
    requires EvalMods(mods, value, st, env, fuel).out != Fail(OutOfFuel)
    ensures EvalMods(mods, value, st, env, more) == EvalMods(mods, value, st, env, fuel)
    decreases fuel, mods
  {
    if mods != [] {
      var m := mods[0];
      if m.key !in env.modifiers {
        EvalModsFuel(mods[1..], value + UnknownModifier(m.key), st, env, fuel, more);
      } else {
        var ps := EvalList(m.params, st, env, fuel);
        EvalListFuel(m.params, st, env, fuel, more);
        if ps.out.Ok? {
          EvalModsFuel(mods[1..], env.modifiers[m.key].Modify(value, ps.out.value), ps.store, env, fuel, more);
        }
      }
    }
  }

  /** The random source draws inside `[0, n)` for every positive `n`, as
      `rand.Intn` does. */
  ghost predicate RandInRange(rand: int -> int)
  {
    forall n: int :: n > 0 ==> 0 <= rand(n) < n
  }

  /** Every operation on every stack has only wide Selects. */
  predicate StoreWide(st: Store)
  {
    forall k :: k in st ==> forall op :: op in st[k] ==> SelectsWide(op)
  }

  lemma PushedWide(st: Store, key: string, text: string)
    requires StoreWide(st)
    ensures StoreWide(Pushed(st, key, Literal(text)))
  {
  }

  /** With a random source that stays in range, trees whose Selects are
      wide never panic, and the stacks keep only such trees. */
  lemma {:induction false} EvalNoPanic(op: Op, st: Store, env: Env, fuel: nat)
    requires StacksNonEmpty(st) && StoreWide(st) && SelectsWide(op) && RandInRange(env.rand)
    ensures Eval(op, st, env, fuel).out != Fail(IndexPanic)
    ensures StoreWide(Eval(op, st, env, fuel).store)
    decreases fuel, op
  {
    match op
    case Literal(_) =>
    case Concat(rules) =>
      EvalListNoPanic(rules, st, env, fuel);
    case Push(key, rule) =>
      EvalNoPanic(rule, st, env, fuel);
      var r := Eval(rule, st, env, fuel);
      if r.out.Ok? {
        PushedWide(r.store, key, r.out.value);
      }
    case Pop(key) =>
      PoppedFacts(st, key);
      var p := Popped(st, key);
      forall k | k in p
        ensures forall o :: o in p[k] ==> SelectsWide(o)
      {
        if k == key && key in st && |st[key]| > 1 {
          forall o | o in p[k] ensures SelectsWide(o) {
            assert o in st[key];
          }
        }
      }
    case Select(alts) =>
      var i := env.rand(|alts|);
      assert 0 <= i < |alts|;
      EvalNoPanic(alts[i], st, env, fuel);
    case Symbol(key, mods) =>
      if Top(st, key).Some? && fuel > 0 {
        var rule := Top(st, key).value;
        assert rule in st[key];
        EvalNoPanic(rule, st, env, fuel - 1);
        var r := Eval(rule, st, env, fuel - 1);
        if r.out.Ok? {
          EvalModsNoPanic(mods, r.out.value, r.store, env, fuel);
        }
      }
  }

  lemma {:induction false} EvalListNoPanic(ops: seq<Op>, st: Store, env: Env, fuel: nat)
    requires StacksNonEmpty(st) && StoreWide(st) && RandInRange(env.rand)
    requires forall op :: op in ops ==> SelectsWide(op)
    ensures EvalList(ops, st, env, fuel).out != Fail(IndexPanic)
    ensures StoreWide(EvalList(ops, st, env, fuel).store)
    decreases fuel, ops
  {
    if ops != [] {
      EvalNoPanic(ops[0], st, env, fuel);
      var r := Eval(ops[0], st, env, fuel);
      if r.out.Ok? {
        EvalListNoPanic(ops[1..], r.store, env, fuel);
      }
    }
  }

  lemma {:induction false} EvalModsNoPanic(mods: seq<ModCall>, value: string, st: Store, env: Env, fuel: nat)
    requires StacksNonEmpty(st) && StoreWide(st) && RandInRange(env.rand)
    requires forall m :: m in mods ==> ParamsWide(m)
    ensures EvalMods(mods, value, st, env, fuel).out != Fail(IndexPanic)
    ensures StoreWide(EvalMods(mods, value, st, env, fuel).store)
    decreases fuel, mods
  {
    if mods != [] {
      var m := mods[0];
      if m.key !in env.modifiers {
        EvalModsNoPanic(mods[1..], value + UnknownModifier(m.key), st, env, fuel);
      } else {
        assert ParamsWide(m);
        EvalListNoPanic(m.params, st, env, fuel);
        var ps := EvalList(m.params, st, env, fuel);
        if ps.out.Ok? {
          EvalModsNoPanic(mods[1..], env.modifiers[m.key].Modify(value, ps.out.value), ps.store, env, fuel);
        }
      }
    }
  }
}
