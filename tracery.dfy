/** The grammar's entry points (grammar.go): `Flatten` parses a template and
    resolves it against the grammar; `PushRules` parses rules one by one and
    pushes each onto a symbol's stack.

    `Render` and `PushAll` are the specification the two methods are proved
    against. A template the parser cannot finish (`Fail(Unterminated)`, a
    Go loop that never ends) is reported instead of resolved. */
module Tracery {
  import opened Outcomes
  import opened Scan
  import opened Ops
  import opened Context
  import opened Exec
  import opened ExecFacts
  import opened Parse
  import opened ParseFacts

  /** What `Flatten` returns for `input`, and the stacks it leaves. */
  function Render(input: string, st: Store, env: Env, fuel: nat): (r: Res)
    requires StacksNonEmpty(st)
    ensures StacksNonEmpty(r.store) && st.Keys <= r.store.Keys
    ensures ParseDoc(input).Fail? ==> r == Res(Fail(Unterminated), st)
  {
    match ParseDoc(input)
    case Fail(f) => Res(Fail(f), st)
    case Ok(tree) => Eval(tree, st, env, fuel)
  }

  /** Pushes the rules in order onto `key`'s stack. */
  function PushAll(st: Store, key: string, ops: seq<Op>): (r: Store)
    requires StacksNonEmpty(st)
    ensures StacksNonEmpty(r)
    decreases |ops|
  {
    if ops == [] then st
    else
      var before := PushAll(st, key, ops[..|ops| - 1]);
      PushedFacts(before, key, ops[|ops| - 1]);
      Pushed(before, key, ops[|ops| - 1])
  }

  /** After pushing `ops`, the key's stack is the old one with `ops` on top
      and the last of them is what a lookup sees; no other key changes. */
  lemma {:induction false} PushAllFacts(st: Store, key: string, ops: seq<Op>)
    requires StacksNonEmpty(st)
    ensures ops == [] ==> PushAll(st, key, ops) == st
    ensures ops != [] ==> PushAll(st, key, ops)[key] == (if key in st then st[key] else []) + ops
    ensures ops != [] ==> Top(PushAll(st, key, ops), key) == Some(ops[|ops| - 1])
    ensures PushAll(st, key, ops).Keys == if ops == [] then st.Keys else st.Keys + {key}
    ensures forall k :: k in st && k != key ==> PushAll(st, key, ops)[k] == st[k]
    decreases |ops|
  {
    if ops != [] {
      var init := ops[..|ops| - 1];
      var before := PushAll(st, key, init);
      PushAllFacts(st, key, init);
      PushedFacts(before, key, ops[|ops| - 1]);
      assert init + [ops[|ops| - 1]] == ops;
      if init == [] {
        assert (if key in st then st[key] else []) + [ops[|ops| - 1]]
          == (if key in st then st[key] else []) + ops;
      } else {
        assert ((if key in st then st[key] else []) + init) + [ops[|ops| - 1]]
          == (if key in st then st[key] else []) + ops;
      }
    }
  }

  /** Pushing parsed rules keeps every stored Select with at least two
      alternatives. */
  lemma {:induction false} PushAllWide(st: Store, key: string, ops: seq<Op>)
    requires StacksNonEmpty(st) && StoreWide(st) && AllWide(ops)
    ensures StoreWide(PushAll(st, key, ops))
    decreases |ops|
  {
    if ops != [] {
      var init := ops[..|ops| - 1];
      assert forall op :: op in init ==> op in ops;
      PushAllWide(st, key, init);
      assert ops[|ops| - 1] in ops;
      var before := PushAll(st, key, init);
      var after := Pushed(before, key, ops[|ops| - 1]);
      forall k | k in after
        ensures forall op :: op in after[k] ==> SelectsWide(op)
      {
        if k == key && key in before {
          assert after[k] == before[k] + [ops[|ops| - 1]];
        }
      }
    }
  }

  /** The parses of the inputs before the first that fails. */
  function ParsedPrefix(inputs: seq<string>): (r: seq<Op>)
    ensures |r| <= |inputs|
    ensures AllWide(r)
  {
    if inputs == [] then []
    else
      match ParseDoc(inputs[0])
      case Fail(_) => []
      case Ok(op) => [op] + ParsedPrefix(inputs[1..])
  }

  /** The prefix holds the parses of the inputs in order, stops at the
      first input that fails, and is everything `ParseAll` returns when
      none does. */
  lemma {:induction false} ParsedPrefixFacts(inputs: seq<string>)
    ensures var r := ParsedPrefix(inputs);
      && (forall i :: 0 <= i < |r| ==> ParseDoc(inputs[i]) == Ok(r[i]))
      && (|r| < |inputs| ==> ParseDoc(inputs[|r|]).Fail?)
      && (ParseAll(inputs).Ok? <==> |r| == |inputs|)
      && (ParseAll(inputs).Ok? ==> r == ParseAll(inputs).value)
      && (|r| < |inputs| ==> ParseAll(inputs) == Fail(ParseDoc(inputs[|r|]).fault))
    decreases |inputs|
  {
    if inputs != [] {
      ParseAllStep(inputs);
      if ParseDoc(inputs[0]).Ok? {
        var tail := inputs[1..];
        ParsedPrefixFacts(tail);
        var r := ParsedPrefix(inputs);
        assert r == [ParseDoc(inputs[0]).value] + ParsedPrefix(tail);
        forall i | 0 <= i < |r|
          ensures ParseDoc(inputs[i]) == Ok(r[i])
        {
          if i > 0 {
            assert inputs[i] == tail[i - 1] && r[i] == ParsedPrefix(tail)[i - 1];
          }
        }
        if |r| < |inputs| {
          assert inputs[|r|] == tail[|ParsedPrefix(tail)|];
        }
      }
    }
  }

  /** `Flatten`: parse the template, then resolve the tree in place. */
  method Flatten(g: Grammar, input: string, fuel: nat) returns (out: Outcome<string>)
    requires g.Valid()
    modifies g`value
    ensures g.Valid()
    ensures Res(out, g.value) == Render(input, old(g.value), g.Environment(), fuel)
  {
    var tree := String(input);
    if tree.Fail? {
      return Fail(tree.fault);
    }
    out := Resolve(tree.value, g, fuel);
  }

  /** `PushAll` one rule at a time. */
  lemma PushAllSnoc(st: Store, key: string, ops: seq<Op>, op: Op)
    requires StacksNonEmpty(st)
    ensures PushAll(st, key, ops + [op]) == Pushed(PushAll(st, key, ops), key, op)
  {
    assert (ops + [op])[..|ops|] == ops;
  }

  /** `ParsedPrefix` read from the front of `inputs[i..]`. */
  lemma ParseStep(inputs: seq<string>, i: nat, done: seq<Op>)
    requires i < |inputs|
    ensures ParseDoc(inputs[i]).Fail? ==> done + ParsedPrefix(inputs[i..]) == done
    ensures ParseDoc(inputs[i]).Ok? ==>
      done + ParsedPrefix(inputs[i..]) == (done + [ParseDoc(inputs[i]).value]) + ParsedPrefix(inputs[i + 1..])
  {
    var rest := inputs[i..];
    assert rest[0] == inputs[i] && rest[1..] == inputs[i + 1..];
    if ParseDoc(inputs[i]).Fail? {
      assert done + [] == done;
    } else {
      var d := ParseDoc(inputs[i]).value;
      assert done + ([d] + ParsedPrefix(inputs[i + 1..])) == (done + [d]) + ParsedPrefix(inputs[i + 1..]);
    }
  }

  /** `PushRules`: each input parsed and pushed in turn. An input that
      cannot be parsed stops the run, the ones before it pushed. */
  method PushRules(g: Grammar, key: string, inputs: seq<string>) returns (err: Option<Fault>)
    requires g.Valid()
    modifies g`value
    ensures g.Valid()
    ensures g.value == PushAll(old(g.value), key, ParsedPrefix(inputs))
    ensures err.None? <==> ParseAll(inputs).Ok?
    ensures err.Some? ==> ParseAll(inputs) == Fail(err.value)
  {
    ParsedPrefixFacts(inputs);
    var i := 0;
    ghost var done: seq<Op> := [];
    assert inputs[i..] == inputs;
    assert done + ParsedPrefix(inputs) == ParsedPrefix(inputs);
    while i < |inputs|
      invariant 0 <= i <= |inputs| && g.Valid() && |done| == i
      invariant g.value == PushAll(old(g.value), key, done)
      invariant ParsedPrefix(inputs) == done + ParsedPrefix(inputs[i..])
    {
      ParseStep(inputs, i, done);
      var rule := String(inputs[i]);
      if rule.Fail? {
        return Some(rule.fault);
      }
      PushAllSnoc(old(g.value), key, done, rule.value);
      g.Push(key, rule.value);
      done := done + [rule.value];
      i := i + 1;
    }
    assert inputs[i..] == [] && done + [] == done;
    return None;
  }

  /** A template without `[`, `#` or a backslash is its own output and
      leaves the stacks alone. */
  lemma PlainTemplate(input: string, st: Store, env: Env, fuel: nat)
    requires StacksNonEmpty(st)
    requires '[' !in input && '#' !in input && Backslash !in input
    ensures Render(input, st, env, fuel) == Res(Ok(input), st)
  {
    PlainTextIsLiteral(input);
  }

  /** With a random source that stays in range and rules that came from the
      parser, flattening never indexes out of range, and the stacks it
      leaves keep that property. */
  lemma RenderNoPanic(input: string, st: Store, env: Env, fuel: nat)
    requires StacksNonEmpty(st) && StoreWide(st) && RandInRange(env.rand)
    ensures Render(input, st, env, fuel).out != Fail(IndexPanic)
    ensures StoreWide(Render(input, st, env, fuel).store)
  {
    if ParseDoc(input).Ok? {
      EvalNoPanic(ParseDoc(input).value, st, env, fuel);
    }
  }

  /** A result reached without running out of fuel is the result. */
  lemma RenderFuel(input: string, st: Store, env: Env, fuel: nat, more: nat)
    requires StacksNonEmpty(st) && fuel <= more
    requires Render(input, st, env, fuel).out != Fail(OutOfFuel)
    ensures Render(input, st, env, more) == Render(input, st, env, fuel)
  {
    if ParseDoc(input).Ok? {
      EvalFuel(ParseDoc(input).value, st, env, fuel, more);
    }
  }

  /** A grammar whose rules all came through `PushRules` never panics when
      flattened with an in-range random source. */
  lemma PushedRulesNoPanic(st: Store, key: string, inputs: seq<string>, input: string, env: Env, fuel: nat)
    requires StacksNonEmpty(st) && StoreWide(st) && RandInRange(env.rand)
    ensures Render(input, PushAll(st, key, ParsedPrefix(inputs)), env, fuel).out != Fail(IndexPanic)
  {
    PushAllWide(st, key, ParsedPrefix(inputs));
    RenderNoPanic(input, PushAll(st, key, ParsedPrefix(inputs)), env, fuel);
  }

  /** After `PushRules` succeeds on a non-empty list, a lookup of the key
      sees the parse of the last input. */
  lemma PushRulesTop(st: Store, key: string, inputs: seq<string>)
    requires StacksNonEmpty(st) && inputs != [] && ParseAll(inputs).Ok?
    ensures ParseDoc(inputs[|inputs| - 1]).Ok?
    ensures Top(PushAll(st, key, ParsedPrefix(inputs)), key) == Some(ParseDoc(inputs[|inputs| - 1]).value)
  {
    ParsedPrefixFacts(inputs);
    assert |ParsedPrefix(inputs)| == |inputs|;
    assert ParseDoc(inputs[|inputs| - 1]) == Ok(ParsedPrefix(inputs)[|inputs| - 1]);
    PushAllFacts(st, key, ParsedPrefix(inputs));
  }
}
