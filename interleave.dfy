/** The interleaving test of grammar_test.go: `y` is `[y:#x#]#x#`, `x` is
    `[x:1]#y#[x:2]`, and `#y##y##x#` flattens to `212`. Each read sees the
    stacks exactly as the pushes before it, however deeply nested, left
    them. Stated for any distinct plain keys and plain texts, then for the
    test's own strings. */
module Interleaving {
  import opened Outcomes
  import opened GoStrings
  import opened Scan
  import opened Ops
  import opened Context
  import opened Exec
  import opened ExecFacts
  import opened Parse
  import opened ParseFacts
  import opened Tracery
  import opened Scenarios

  /** `[y:#x#]#x#` as the parser builds it. */
  function RuleY(x: string, y: string): Op
  {
    Concat([Push(y, Symbol(x, [])), Symbol(x, [])])
  }

  /** `[x:one]#y#[x:two]` as the parser builds it. */
  function RuleX(x: string, y: string, one: string, two: string): Op
  {
    Concat([Push(x, Literal(one)), Symbol(y, []), Push(x, Literal(two))])
  }

  function TextY(x: string, y: string): string
  {
    "[" + (y + (":" + (("#" + x + "#") + ("]" + ("#" + x + "#")))))
  }

  function TextX(x: string, y: string, one: string, two: string): string
  {
    TemplateText([Assign(x, one), Read(y), Assign(x, two)])
  }

  /** A symbol without modifiers resolves its top rule with one unit of
      fuel less. */
  lemma ReadRule(key: string, rule: Op, t: string, st: Store, st': Store, env: Env, fuel: nat)
    requires StacksNonEmpty(st) && fuel >= 1 && Top(st, key) == Some(rule)
    requires Eval(rule, st, env, fuel - 1) == Res(Ok(t), st')
    ensures Eval(Symbol(key, []), st, env, fuel) == Res(Ok(t), st')
  {
  }

  /** A push resolves its value and pushes the text as a literal. */
  lemma PushText(key: string, rule: Op, t: string, st: Store, st': Store, env: Env, fuel: nat)
    requires StacksNonEmpty(st)
    requires Eval(rule, st, env, fuel) == Res(Ok(t), st')
    ensures StacksNonEmpty(Pushed(st', key, Literal(t)))
    ensures Eval(Push(key, rule), st, env, fuel) == Res(Ok([]), Pushed(st', key, Literal(t)))
  {
    PushedFacts(st', key, Literal(t));
  }

  /** One operation resolved in front of a list. */
  lemma EvalListCons(a: Op, more: seq<Op>, ta: string, ts: seq<string>,
                     st: Store, s1: Store, s2: Store, env: Env, fuel: nat)
    requires StacksNonEmpty(st) && StacksNonEmpty(s1)
    requires Eval(a, st, env, fuel) == Res(Ok(ta), s1)
    requires EvalList(more, s1, env, fuel) == ResList(Ok(ts), s2)
    ensures EvalList([a] + more, st, env, fuel) == ResList(Ok([ta] + ts), s2)
  {
    assert ([a] + more)[0] == a && ([a] + more)[1..] == more;
  }

  lemma EvalPair(a: Op, b: Op, ta: string, tb: string, st: Store, s1: Store, s2: Store, env: Env, fuel: nat)
    requires StacksNonEmpty(st) && StacksNonEmpty(s1)
    requires Eval(a, st, env, fuel) == Res(Ok(ta), s1)
    requires Eval(b, s1, env, fuel) == Res(Ok(tb), s2)
    ensures Eval(Concat([a, b]), st, env, fuel) == Res(Ok(ta + tb), s2)
  {
    var none: seq<Op> := [];
    var e: seq<string> := [];
    EvalListCons(b, none, tb, e, s1, s2, s2, env, fuel);
    EvalListCons(a, [b] + none, ta, [tb] + e, st, s1, s2, env, fuel);
    assert [a, b] == [a] + ([b] + none);
    JoinCons(tb, e);
    JoinCons(ta, [tb] + e);
    assert tb + [] == tb;
  }

  lemma EvalTriple(a: Op, b: Op, c: Op, ta: string, tb: string, tc: string,
                   st: Store, s1: Store, s2: Store, s3: Store, env: Env, fuel: nat)
    requires StacksNonEmpty(st) && StacksNonEmpty(s1) && StacksNonEmpty(s2)
    requires Eval(a, st, env, fuel) == Res(Ok(ta), s1)
    requires Eval(b, s1, env, fuel) == Res(Ok(tb), s2)
    requires Eval(c, s2, env, fuel) == Res(Ok(tc), s3)
    ensures Eval(Concat([a, b, c]), st, env, fuel) == Res(Ok(ta + tb + tc), s3)
  {
    var none: seq<Op> := [];
    var e: seq<string> := [];
    EvalListCons(c, none, tc, e, s2, s3, s3, env, fuel);
    EvalListCons(b, [c] + none, tb, [tc] + e, s1, s2, s3, env, fuel);
    EvalListCons(a, [b] + ([c] + none), ta, [tb] + ([tc] + e), st, s1, s3, env, fuel);
    assert [a, b, c] == [a] + ([b] + ([c] + none));
    JoinCons(tc, e);
    JoinCons(tb, [tc] + e);
    JoinCons(ta, [tb] + ([tc] + e));
    assert tc + [] == tc;
    Concat3(ta, tb, tc);
  }

  /** The operations of a template read from the front. */
  lemma OpsCons(p: Piece, ps: seq<Piece>)
    ensures TemplateOps([p] + ps) == [PieceOp(p)] + TemplateOps(ps)
  {
    assert ([p] + ps)[0] == p && ([p] + ps)[1..] == ps;
  }

  /** The text of a token list read from the front. */
  lemma TokensCons(t: Token, ts: seq<Token>)
    ensures Text([t] + ts) == t.value + Text(ts)
  {
    assert ([t] + ts)[0] == t && ([t] + ts)[1..] == ts;
  }

  /** The inner `y`: with `x` reading `one`, `[y:#x#]#x#` pushes `one` onto
      `y` and outputs `one`. */
  lemma InnerY(x: string, y: string, one: string, st: Store, env: Env, fuel: nat)
    requires x != y && StacksNonEmpty(st) && fuel >= 1
    requires Top(st, x) == Some(Literal(one))
    ensures StacksNonEmpty(Pushed(st, y, Literal(one)))
    ensures Eval(RuleY(x, y), st, env, fuel) == Res(Ok(one), Pushed(st, y, Literal(one)))
  {
    var s1 := Pushed(st, y, Literal(one));
    ReadLiteral(x, one, st, env, fuel);
    PushText(y, Symbol(x, []), one, st, st, env, fuel);
    PushedFacts(st, y, Literal(one));
    ReadLiteral(x, one, s1, env, fuel);
    EvalPair(Push(y, Symbol(x, [])), Symbol(x, []), [], one, st, s1, s1, env, fuel);
    assert [] + one == one;
  }

  /** The stacks after `x`'s rule has run once from `st`. */
  function AfterX(x: string, y: string, one: string, two: string, st: Store): Store
  {
    Pushed(Pushed(Pushed(st, x, Literal(one)), y, Literal(one)), x, Literal(two))
  }

  /** `x`'s rule: pushes `one` onto `x`, reads `y` (whose rule reads `x`
      and so sees `one`), then pushes `two` onto `x`; it outputs `one`. */
  lemma RunX(x: string, y: string, one: string, two: string, st: Store, env: Env, fuel: nat)
    requires x != y && StacksNonEmpty(st) && fuel >= 2
    requires Top(st, y) == Some(RuleY(x, y))
    ensures StacksNonEmpty(AfterX(x, y, one, two, st))
    ensures Eval(RuleX(x, y, one, two), st, env, fuel) == Res(Ok(one), AfterX(x, y, one, two, st))
  {
    var s1 := Pushed(st, x, Literal(one));
    PushText(x, Literal(one), one, st, st, env, fuel);
    PushedFacts(st, x, Literal(one));
    var s2 := Pushed(s1, y, Literal(one));
    InnerY(x, y, one, s1, env, fuel - 1);
    ReadRule(y, RuleY(x, y), one, s1, s2, env, fuel);
    PushText(x, Literal(two), two, s2, s2, env, fuel);
    var s3 := Pushed(s2, x, Literal(two));
    EvalTriple(Push(x, Literal(one)), Symbol(y, []), Push(x, Literal(two)), [], one, [],
               st, s1, s2, s3, env, fuel);
    assert [] + one + [] == one;
  }

  /** The outer `y`: reading `x` runs `x`'s rule, which outputs `one`, so
      `one` is pushed onto `y`; the final read of `x` then sees `two`. */
  lemma OuterY(x: string, y: string, one: string, two: string, st: Store, env: Env, fuel: nat)
    requires x != y && StacksNonEmpty(st) && fuel >= 3
    requires Top(st, y) == Some(RuleY(x, y)) && Top(st, x) == Some(RuleX(x, y, one, two))
    ensures StacksNonEmpty(Pushed(AfterX(x, y, one, two, st), y, Literal(one)))
    ensures Eval(RuleY(x, y), st, env, fuel)
      == Res(Ok(two), Pushed(AfterX(x, y, one, two, st), y, Literal(one)))
  {
    var s3 := AfterX(x, y, one, two, st);
    RunX(x, y, one, two, st, env, fuel - 1);
    ReadRule(x, RuleX(x, y, one, two), one, st, s3, env, fuel);
    PushText(y, Symbol(x, []), one, st, s3, env, fuel);
    var s4 := Pushed(s3, y, Literal(one));
    PushedFacts(s3, y, Literal(one));
    ReadLiteral(x, two, s4, env, fuel);
    EvalPair(Push(y, Symbol(x, [])), Symbol(x, []), [], two, st, s4, s4, env, fuel);
    assert [] + two == two;
  }

  /** With `y` holding `[y:#x#]#x#` and `x` holding `[x:one]#y#[x:two]`,
      `#y##y##x#` outputs `two`, `one`, `two`: the first read of `y` pushes
      `one` onto `y` and leaves `two` on top of `x`. */
  lemma InterleavedEval(x: string, y: string, one: string, two: string, env: Env, fuel: nat)
    requires x != y && fuel >= 4
    ensures var st := map[y := [RuleY(x, y)], x := [RuleX(x, y, one, two)]];
      StacksNonEmpty(st) &&
      Eval(Concat([Symbol(y, []), Symbol(y, []), Symbol(x, [])]), st, env, fuel).out
        == Ok(two + one + two)
  {
    var st := map[y := [RuleY(x, y)], x := [RuleX(x, y, one, two)]];
    assert StacksNonEmpty(st);
    var s4 := Pushed(AfterX(x, y, one, two, st), y, Literal(one));
    OuterY(x, y, one, two, st, env, fuel - 1);
    ReadRule(y, RuleY(x, y), two, st, s4, env, fuel);
    ReadLiteral(y, one, s4, env, fuel);
    ReadLiteral(x, two, s4, env, fuel);
    EvalTriple(Symbol(y, []), Symbol(y, []), Symbol(x, []), two, one, two, st, s4, s4, s4, env, fuel);
  }

  /** `[x:one]#y#[x:two]` parses to `x`'s rule. */
  lemma ParseX(x: string, y: string, one: string, two: string)
    requires PlainWord(x) && PlainWord(y) && PlainWord(one) && PlainWord(two)
    requires one != "POP" && two != "POP"
    ensures ParseDoc(TextX(x, y, one, two)) == Ok(RuleX(x, y, one, two))
  {
    var ps := [Assign(x, one), Read(y), Assign(x, two)];
    var none: seq<Piece> := [];
    assert ps == [Assign(x, one)] + ([Read(y)] + ([Assign(x, two)] + none));
    TextCons(Assign(x, two), none);
    TextCons(Read(y), [Assign(x, two)] + none);
    TextCons(Assign(x, one), [Read(y)] + ([Assign(x, two)] + none));
    assert TemplateOk(ps);
    ParseTemplate(ps);
    OpsCons(Assign(x, two), none);
    OpsCons(Read(y), [Assign(x, two)] + none);
    OpsCons(Assign(x, one), [Read(y)] + ([Assign(x, two)] + none));
    assert TemplateOps(ps) == [Push(x, Literal(one)), Symbol(y, []), Push(x, Literal(two))];
  }

  /** `#x#` on its own parses to a read of `x`. */
  lemma ParseRead(x: string)
    requires PlainWord(x)
    ensures TemplateText([Read(x)]) == "#" + x + "#"
    ensures ParseDoc("#" + x + "#") == Ok(Symbol(x, []))
  {
    var none: seq<Piece> := [];
    TextCons(Read(x), none);
    assert [Read(x)] == [Read(x)] + none;
    ParseTemplate([Read(x)]);
  }

  lemma LexTagAlone(x: string)
    requires PlainWord(x)
    ensures Lex("#" + x + "#") == [Octo1, W(x), Octo1]
  {
    var e: string := [];
    assert "#" + x + "#" + e == "#" + x + "#";
    LexTag(x, e);
    LexEmpty();
  }

  /** The tokens of `]#x##`, the end of `[y:#x#]#x#`. */
  lemma LexCloseTag(x: string)
    requires PlainWord(x)
    ensures Lex("]" + ("#" + x + "#")) == [RB, Octo1, W(x), Octo1]
  {
    LexTagAlone(x);
    LexControlThen(']', "#" + x + "#");
  }

  lemma LexTwoTags(x: string)
    requires PlainWord(x)
    ensures Lex(("#" + x + "#") + ("]" + ("#" + x + "#"))) == [Octo1, W(x), Octo1, RB, Octo1, W(x), Octo1]
  {
    var r3 := "]" + ("#" + x + "#");
    LexCloseTag(x);
    LexTag(x, r3);
  }

  /** The tokens of `[y:#x#]#x#`. */
  lemma LexY(x: string, y: string)
    requires PlainWord(x) && PlainWord(y)
    ensures Lex(TextY(x, y)) == [LB, W(y), Colon1, Octo1, W(x), Octo1, RB, Octo1, W(x), Octo1]
  {
    var r2 := ("#" + x + "#") + ("]" + ("#" + x + "#"));
    LexTwoTags(x);
    Concat3(y, ":", r2);
    LexWordThen(y, ':', r2);
    LexControlThen('[', y + (":" + r2));
  }

  /** The action `[y:#x#]` in front of `#x#`: its value's tokens are
      gathered and parsed again on their own, to a read of `x`. */
  lemma ActionY(x: string, y: string)
    requires PlainWord(x) && PlainWord(y) && x != "POP"
    ensures var ts := [LB, W(y), Colon1, Octo1, W(x), Octo1, RB, Octo1, W(x), Octo1];
      WellFormedStream(ts) &&
      ActionOf(ts) == Ok(Parsed(Push(y, Symbol(x, [])), [Octo1, W(x), Octo1]))
  {
    var vs := [Octo1, W(x), Octo1];
    var rest := vs + [];
    assert [LB, W(y), Colon1] + vs + [RB] + rest
      == [LB, W(y), Colon1, Octo1, W(x), Octo1, RB, Octo1, W(x), Octo1];
    PlainWordToken(x);
    PlainWordToken(y);
    assert Text(vs) == "#" + x + "#" by {
      var none: seq<Token> := [];
      assert vs == [Octo1] + ([W(x)] + ([Octo1] + none));
      TokensCons(Octo1, none);
      TokensCons(W(x), [Octo1] + none);
      TokensCons(Octo1, [W(x)] + ([Octo1] + none));
    }
    ParseRead(x);
    SimpleAction(W(y), vs, rest);
    var ts := [LB, W(y), Colon1] + vs + [RB] + rest;
    assert ActionOf(ts) == Ok(Parsed(Push(W(y).value, ParseDoc(Text(vs)).value), rest));
    assert ParseDoc(Text(vs)).value == Symbol(x, []);
    assert rest == [Octo1, W(x), Octo1];
  }

  /** The token loop over `y`'s rule first collects the push. */
  lemma DocPushY(x: string, y: string)
    requires PlainWord(x) && PlainWord(y) && x != "POP"
    requires WellFormedToken(W(x)) && WellFormedToken(W(y))
    ensures DocLoop([LB, W(y), Colon1, Octo1, W(x), Octo1, RB, Octo1, W(x), Octo1], [])
      == DocLoop([Octo1, W(x), Octo1], [Push(y, Symbol(x, []))])
  {
    ActionY(x, y);
    var rest := [Octo1, W(x), Octo1];
    var ts := [LB, W(y), Colon1, Octo1, W(x), Octo1, RB] + rest;
    var e: seq<Op> := [];
    assert ts == [LB, W(y), Colon1, Octo1, W(x), Octo1, RB, Octo1, W(x), Octo1];
    PlainWordToken(x);
    DocStep(ts, e, Push(y, Symbol(x, [])), rest);
    assert e + [Push(y, Symbol(x, []))] == [Push(y, Symbol(x, []))];
  }

  /** Then the read of `x`, which ends the loop. */
  lemma DocReadY(x: string, y: string)
    requires PlainWord(x) && PlainWord(y) && x != "POP"
    requires WellFormedToken(W(x)) && WellFormedToken(W(y))
    ensures DocLoop([Octo1, W(x), Octo1], [Push(y, Symbol(x, []))])
      == Ok([Push(y, Symbol(x, [])), Symbol(x, [])])
  {
    var push := Push(y, Symbol(x, []));
    PlainWordToken(x);
    assert PieceTokens(Read(x)) + [] == [Octo1, W(x), Octo1];
    assert AllWide([push]);
    DocRead(x, [], [push]);
    var done := [push] + [Symbol(x, [])];
    assert DocLoop([], done) == Ok(done);
    assert done == [push, Symbol(x, [])];
  }

  /** `[y:#x#]#x#` parses to `y`'s rule. */
  lemma ParseY(x: string, y: string)
    requires PlainWord(x) && PlainWord(y) && x != "POP"
    ensures ParseDoc(TextY(x, y)) == Ok(RuleY(x, y))
  {
    LexY(x, y);
    PlainWordToken(x);
    PlainWordToken(y);
    DocPushY(x, y);
    DocReadY(x, y);
  }

  /** The parses of a single rule that parses. */
  lemma SinglePrefix(s: string, op: Op)
    requires ParseDoc(s) == Ok(op)
    ensures ParsedPrefix([s]) == [op]
  {
    var e: seq<Op> := [];
    ParseStep([s], 0, e);
    assert [s][0..] == [s] && [s][1..] == [];
  }

  /** The test's grammar: a fresh grammar, `y`'s rule pushed, then `x`'s. */
  lemma InterleavedStore(x: string, y: string, one: string, two: string)
    requires PlainWord(x) && PlainWord(y) && PlainWord(one) && PlainWord(two)
    requires x != y && x != "POP" && one != "POP" && two != "POP"
    ensures PushAll(PushAll(map[], y, ParsedPrefix([TextY(x, y)])), x, ParsedPrefix([TextX(x, y, one, two)]))
      == map[y := [RuleY(x, y)], x := [RuleX(x, y, one, two)]]
  {
    ParseY(x, y);
    ParseX(x, y, one, two);
    SinglePrefix(TextY(x, y), RuleY(x, y));
    SinglePrefix(TextX(x, y, one, two), RuleX(x, y, one, two));
    var empty: Store := map[];
    PushAllFacts(empty, y, [RuleY(x, y)]);
    var s1 := PushAll(empty, y, [RuleY(x, y)]);
    assert s1 == map[y := [RuleY(x, y)]];
    PushAllFacts(s1, x, [RuleX(x, y, one, two)]);
    var s2 := PushAll(s1, x, [RuleX(x, y, one, two)]);
    assert s2.Keys == {y, x};
    assert s2[y] == [RuleY(x, y)] && s2[x] == [RuleX(x, y, one, two)];
    assert s2 == map[y := [RuleY(x, y)], x := [RuleX(x, y, one, two)]];
  }

  /** The test end to end for any distinct plain keys and plain texts: after
      `PushRules(y, "[y:#x#]#x#")` and `PushRules(x, "[x:one]#y#[x:two]")`
      on a fresh grammar, `#y##y##x#` flattens to `two`, `one`, `two`. */
  lemma InterleavedRules(x: string, y: string, one: string, two: string, env: Env, fuel: nat)
    requires PlainWord(x) && PlainWord(y) && PlainWord(one) && PlainWord(two)
    requires x != y && x != "POP" && one != "POP" && two != "POP" && fuel >= 4
    ensures var st := PushAll(PushAll(map[], y, ParsedPrefix([TextY(x, y)])), x, ParsedPrefix([TextX(x, y, one, two)]));
      Render(TemplateText([Read(y), Read(y), Read(x)]), st, env, fuel).out == Ok(two + one + two)
  {
    InterleavedStore(x, y, one, two);
    var ps := [Read(y), Read(y), Read(x)];
    assert TemplateOk(ps);
    ParseTemplate(ps);
    var none: seq<Piece> := [];
    assert ps == [Read(y)] + ([Read(y)] + ([Read(x)] + none));
    OpsCons(Read(x), none);
    OpsCons(Read(y), [Read(x)] + none);
    OpsCons(Read(y), [Read(y)] + ([Read(x)] + none));
    assert TemplateOps(ps) == [Symbol(y, []), Symbol(y, []), Symbol(x, [])];
    InterleavedEval(x, y, one, two, env, fuel);
  }

  /** The test's rule for `y`, written out. */
  lemma TextYLiteral()
    ensures TextY("x", "y") == "[y:#x#]#x#"
  {
    assert "#" + "x" + "#" == "#x#";
    assert "]" + "#x#" == "]#x#";
    assert "#x#" + "]#x#" == "#x#]#x#";
    assert ":" + "#x#]#x#" == ":#x#]#x#";
    assert "y" + ":#x#]#x#" == "y:#x#]#x#";
    assert "[" + "y:#x#]#x#" == "[y:#x#]#x#";
  }

  /** The test's rule for `x`, written out. */
  lemma TextXLiteral()
    ensures TextX("x", "y", "1", "2") == "[x:1]#y#[x:2]"
  {
    var none: seq<Piece> := [];
    TextCons(Assign("x", "2"), none);
    TextCons(Read("y"), [Assign("x", "2")] + none);
    TextCons(Assign("x", "1"), [Read("y")] + ([Assign("x", "2")] + none));
    assert [Assign("x", "1"), Read("y"), Assign("x", "2")]
      == [Assign("x", "1")] + ([Read("y")] + ([Assign("x", "2")] + none));
    assert "[" + "x" + ":" + "1" + "]" == "[x:1]";
    assert "[" + "x" + ":" + "2" + "]" == "[x:2]";
    assert "#" + "y" + "#" == "#y#";
    assert "[x:2]" + [] == "[x:2]";
    assert "#y#" + "[x:2]" == "#y#[x:2]";
    assert "[x:1]" + "#y#[x:2]" == "[x:1]#y#[x:2]";
  }

  /** The test's template, written out. */
  lemma TemplateLiteral()
    ensures TemplateText([Read("y"), Read("y"), Read("x")]) == "#y##y##x#"
  {
    var none: seq<Piece> := [];
    TextCons(Read("x"), none);
    TextCons(Read("y"), [Read("x")] + none);
    TextCons(Read("y"), [Read("y")] + ([Read("x")] + none));
    assert [Read("y"), Read("y"), Read("x")] == [Read("y")] + ([Read("y")] + ([Read("x")] + none));
    assert "#" + "y" + "#" == "#y#";
    assert "#" + "x" + "#" == "#x#";
    assert "#x#" + [] == "#x#";
    assert "#y#" + "#x#" == "#y##x#";
    assert "#y#" + "#y##x#" == "#y##y##x#";
  }

  /** The expected output, spelled as one string. */
  lemma Digits()
    ensures "2" + "1" + "2" == "212"
  {
    assert "2" + "1" == "21";
  }

  /** The test with its own strings: `212`. */
  lemma InterleavingTest(env: Env, fuel: nat)
    requires fuel >= 4
    ensures var st := PushAll(PushAll(map[], "y", ParsedPrefix(["[y:#x#]#x#"])), "x", ParsedPrefix(["[x:1]#y#[x:2]"]));
      Render("#y##y##x#", st, env, fuel).out == Ok("212")
  {
    assert PlainWord("x") && PlainWord("y") && PlainWord("1") && PlainWord("2");
    TextYLiteral();
    TextXLiteral();
    TemplateLiteral();
    InterleavedRules("x", "y", "1", "2", env, fuel);
    var ty, tx, tt := TextY("x", "y"), TextX("x", "y", "1", "2"), TemplateText([Read("y"), Read("y"), Read("x")]);
    var st := PushAll(PushAll(map[], "y", ParsedPrefix([ty])), "x", ParsedPrefix([tx]));
    assert Render(tt, st, env, fuel).out == Ok("2" + "1" + "2");
    Digits();
    assert [ty] == ["[y:#x#]#x#"] && [tx] == ["[x:1]#y#[x:2]"];
  }
}
