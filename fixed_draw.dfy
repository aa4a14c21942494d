/** The rule-select test of grammar_test.go: `x` holds `[y:a,b,c]`, and
    `#x##y#` flattens to the alternative the random source picks when `x`
    is read. The draw happens once, at push time, and the grammar keeps its
    stacks from one `Flatten` to the next. Stated for any plain words and
    any in-range draws, then for the test's `Rand` of 0 and then 2. */
module FixedDraw {
  import opened Outcomes
  import opened GoStrings
  import opened Scan
  import opened ScanFacts
  import opened Ops
  import opened Context
  import opened Exec
  import opened ExecFacts
  import opened Parse
  import opened ParseFacts
  import opened Tracery
  import opened Scenarios
  import opened Interleaving

  /** `[y:a,b,c]`: an action with three plain alternatives. */
  function ChoiceText(y: string, a: string, b: string, c: string): string
  {
    "[" + (y + (":" + (a + ("," + (b + ("," + (c + "]")))))))
  }

  /** The alternatives' tokens: three Words with a Comma between each. */
  function AltTokens(a: string, b: string, c: string): seq<Token>
  {
    [W(a), Comma1, W(b), Comma1, W(c)]
  }

  function ChoiceTokens(y: string, a: string, b: string, c: string): seq<Token>
  {
    [LB, W(y), Colon1] + AltTokens(a, b, c) + [RB]
  }

  /** The three alternatives as the parser builds them. */
  function Alts(a: string, b: string, c: string): seq<Op>
  {
    [Literal(a), Literal(b), Literal(c)]
  }

  /** A plain word followed by a control character, as the text nests. */
  lemma LexWordBefore(w: string, c: char, rest: string)
    requires PlainWord(w) && Classify(c) != Word && c != Backslash
    ensures Lex(w + ([c] + rest)) == [W(w), Token(Classify(c), [c])] + Lex(rest)
  {
    LexWordThen(w, c, rest);
    Concat3(w, [c], rest);
  }

  /** `a,b,c]` scans to the alternatives' tokens and the closing bracket. */
  lemma LexAlternatives(a: string, b: string, c: string)
    requires PlainWord(a) && PlainWord(b) && PlainWord(c)
    ensures Lex(a + ("," + (b + ("," + (c + "]"))))) == AltTokens(a, b, c) + [RB]
  {
    var e: string := [];
    LexEmpty();
    LexWordBefore(c, ']', e);
    assert "]" + e == "]";
    LexWordBefore(b, ',', c + "]");
    LexWordBefore(a, ',', b + ("," + (c + "]")));
    assert [W(a), Comma1] + ([W(b), Comma1] + ([W(c), RB] + [])) == AltTokens(a, b, c) + [RB];
  }

  /** `[y:a,b,c]` scans to nine tokens, the commas among them. */
  lemma LexChoice(y: string, a: string, b: string, c: string)
    requires PlainWord(y) && PlainWord(a) && PlainWord(b) && PlainWord(c)
    ensures Lex(ChoiceText(y, a, b, c)) == ChoiceTokens(y, a, b, c)
  {
    var r1 := a + ("," + (b + ("," + (c + "]"))));
    LexAlternatives(a, b, c);
    LexWordBefore(y, ':', r1);
    LexControlThen('[', y + (":" + r1));
    Concat3([LB], [W(y), Colon1], AltTokens(a, b, c) + [RB]);
    Concat3([LB, W(y), Colon1], AltTokens(a, b, c), [RB]);
  }

  /** A plain word, parsed on its own, is its literal. */
  lemma PlainLiteral(w: string)
    requires PlainWord(w)
    ensures ParseDoc(w) == Ok(Literal(w))
  {
    PlainIsEscaped(w);
    assert '[' !in w && '#' !in w by {
      assert forall i :: 0 <= i < |w| ==> Classify(w[i]) == Word;
    }
    PlainTextIsLiteral(w);
  }

  /** The three alternatives parse, in order, to their literals. */
  lemma ParseChoices(a: string, b: string, c: string)
    requires PlainWord(a) && PlainWord(b) && PlainWord(c)
    ensures ParseAll([a, b, c]) == Ok(Alts(a, b, c))
  {
    PlainLiteral(a);
    PlainLiteral(b);
    PlainLiteral(c);
    var none: seq<string> := [];
    ParseAllCons(c, none);
    ParseAllCons(b, [c] + none);
    ParseAllCons(a, [b] + ([c] + none));
    assert [a, b, c] == [a] + ([b] + ([c] + none));
    assert [Literal(c)] + [] == [Literal(c)];
    assert [Literal(a)] + ([Literal(b)] + [Literal(c)]) == Alts(a, b, c);
  }

  /** A one-token text. */
  lemma TextOne(w: string)
    ensures Text([W(w)]) == w
  {
    assert [W(w)][1..] == [] && w + [] == w;
  }

  /** The tokens between `:` and `]`, one alternative each, and their texts. */
  lemma ChoiceAlternatives(a: string, b: string, c: string)
    ensures var vss := [[W(a)], [W(b)], [W(c)]];
      && Alternatives(vss) == AltTokens(a, b, c)
      && AltTexts(vss) == [a, b, c]
  {
    var vss := [[W(a)], [W(b)], [W(c)]];
    assert vss[1..] == [[W(b)], [W(c)]] && vss[1..][1..] == [[W(c)]];
    assert Alternatives(vss[1..][1..]) == [W(c)];
    assert Alternatives(vss[1..]) == [W(b), Comma1, W(c)];
    TextOne(a);
    TextOne(b);
    TextOne(c);
    assert AltTexts(vss[1..][1..]) == [c];
    assert AltTexts(vss[1..]) == [b, c];
  }

  /** The action `[y:a,b,c]`: a push of a Select of the three literals in
      source order, with nothing left over. */
  lemma ActionChoice(y: string, a: string, b: string, c: string)
    requires PlainWord(a) && PlainWord(b) && PlainWord(c)
    requires a != "POP" && b != "POP" && c != "POP"
    requires WellFormedToken(W(y)) && WellFormedToken(W(a)) && WellFormedToken(W(b)) && WellFormedToken(W(c))
    ensures WellFormedStream(ChoiceTokens(y, a, b, c))
    ensures ActionOf(ChoiceTokens(y, a, b, c)) == Ok(Parsed(Push(y, Select(Alts(a, b, c))), []))
  {
    var vss := [[W(a)], [W(b)], [W(c)]];
    assert PlainAlternatives(vss);
    ChoiceAlternatives(a, b, c);
    ParseChoices(a, b, c);
    var none: seq<Token> := [];
    ActionWithAlternatives(W(y), vss, none);
    assert ChoiceTokens(y, a, b, c) + none == ChoiceTokens(y, a, b, c);
  }

  /** `[y:a,b,c]` parses to a push onto `y` of a Select of `a`, `b`, `c`. */
  lemma ParseChoice(y: string, a: string, b: string, c: string)
    requires PlainWord(y) && PlainWord(a) && PlainWord(b) && PlainWord(c)
    requires a != "POP" && b != "POP" && c != "POP"
    ensures ParseDoc(ChoiceText(y, a, b, c)) == Ok(Push(y, Select(Alts(a, b, c))))
  {
    LexChoice(y, a, b, c);
    PlainWordToken(y);
    PlainWordToken(a);
    PlainWordToken(b);
    PlainWordToken(c);
    ActionChoice(y, a, b, c);
    var push := Push(y, Select(Alts(a, b, c)));
    var none: seq<Token> := [];
    var e: seq<Op> := [];
    DocStep(ChoiceTokens(y, a, b, c), e, push, none);
    assert e + [push] == [push];
    assert DocLoop(none, [push]) == Ok([push]);
  }

  /** `PushRules(x, "[y:a,b,c]")` on a fresh grammar stacks the push under `x`. */
  lemma ChoiceStore(x: string, y: string, a: string, b: string, c: string)
    requires PlainWord(y) && PlainWord(a) && PlainWord(b) && PlainWord(c)
    requires a != "POP" && b != "POP" && c != "POP"
    ensures PushAll(map[], x, ParsedPrefix([ChoiceText(y, a, b, c)])) == map[x := [Push(y, Select(Alts(a, b, c)))]]
  {
    var push := Push(y, Select(Alts(a, b, c)));
    ParseChoice(y, a, b, c);
    SinglePrefix(ChoiceText(y, a, b, c), push);
    var empty: Store := map[];
    PushAllFacts(empty, x, [push]);
    assert PushAll(empty, x, [push]) == map[x := [push]];
  }

  /** `#x##y#` parses to the two reads. */
  lemma ReadPair(x: string, y: string)
    requires PlainWord(x) && PlainWord(y)
    ensures ParseDoc(TemplateText([Read(x), Read(y)])) == Ok(Concat([Symbol(x, []), Symbol(y, [])]))
  {
    var ps := [Read(x), Read(y)];
    assert TemplateOk(ps);
    ParseTemplate(ps);
    var none: seq<Piece> := [];
    assert ps == [Read(x)] + ([Read(y)] + none);
    OpsCons(Read(y), none);
    OpsCons(Read(x), [Read(y)] + none);
    assert TemplateOps(ps) == [Symbol(x, []), Symbol(y, [])];
  }

  /** Reading `x`, whose rule is a push of a Select onto `y`, draws one
      alternative, pushes its text onto `y` and outputs nothing; reading `y`
      then gives the drawn text. `x`'s rule stays as it was. */
  lemma DrawThenRead(x: string, y: string, alts: seq<Op>, t: string, st: Store, env: Env, fuel: nat)
    requires x != y && StacksNonEmpty(st) && fuel >= 1
    requires Top(st, x) == Some(Push(y, Select(alts)))
    requires 0 <= env.rand(|alts|) < |alts| && alts[env.rand(|alts|)] == Literal(t)
    ensures StacksNonEmpty(Pushed(st, y, Literal(t)))
    ensures Top(Pushed(st, y, Literal(t)), x) == Top(st, x)
    ensures Eval(Concat([Symbol(x, []), Symbol(y, [])]), st, env, fuel) == Res(Ok(t), Pushed(st, y, Literal(t)))
  {
    var s1 := Pushed(st, y, Literal(t));
    assert Eval(Select(alts), st, env, fuel - 1) == Res(Ok(t), st);
    PushText(y, Select(alts), t, st, st, env, fuel - 1);
    ReadRule(x, Push(y, Select(alts)), [], st, s1, env, fuel);
    PushedFacts(st, y, Literal(t));
    ReadLiteral(y, t, s1, env, fuel);
    EvalPair(Symbol(x, []), Symbol(y, []), [], t, st, s1, s1, env, fuel);
    assert [] + t == t;
  }

  /** For any distinct plain keys and plain alternatives: the first
      `Flatten("#x##y#")` outputs the alternative the first draw picks, and
      a second one, on the stacks the first left, outputs the one the second
      draw picks. */
  lemma DrawnAtPush(x: string, y: string, a: string, b: string, c: string, env1: Env, env2: Env, fuel: nat)
    requires PlainWord(x) && PlainWord(y) && PlainWord(a) && PlainWord(b) && PlainWord(c)
    requires x != y && a != "POP" && b != "POP" && c != "POP" && fuel >= 1
    requires 0 <= env1.rand(3) < 3 && 0 <= env2.rand(3) < 3
    ensures var st := PushAll(map[], x, ParsedPrefix([ChoiceText(y, a, b, c)]));
      var first := Render(TemplateText([Read(x), Read(y)]), st, env1, fuel);
      && first.out == Ok([a, b, c][env1.rand(3)])
      && Render(TemplateText([Read(x), Read(y)]), first.store, env2, fuel).out == Ok([a, b, c][env2.rand(3)])
  {
    ChoiceStore(x, y, a, b, c);
    var alts := Alts(a, b, c);
    var st := map[x := [Push(y, Select(alts))]];
    assert StacksNonEmpty(st) && Top(st, x) == Some(Push(y, Select(alts)));
    var t1 := [a, b, c][env1.rand(3)];
    assert alts[env1.rand(3)] == Literal(t1);
    RenderDraw(x, y, alts, t1, st, env1, fuel);
    var s1 := Pushed(st, y, Literal(t1));
    var t2 := [a, b, c][env2.rand(3)];
    assert alts[env2.rand(3)] == Literal(t2);
    RenderDraw(x, y, alts, t2, s1, env2, fuel);
  }

  /** `#x##y#` rendered on stacks where `x`'s rule pushes a Select onto `y`:
      the drawn text, with that text pushed onto `y` and `x`'s rule kept. */
  lemma RenderDraw(x: string, y: string, alts: seq<Op>, t: string, st: Store, env: Env, fuel: nat)
    requires PlainWord(x) && PlainWord(y)
    requires x != y && StacksNonEmpty(st) && fuel >= 1
    requires Top(st, x) == Some(Push(y, Select(alts)))
    requires 0 <= env.rand(|alts|) < |alts| && alts[env.rand(|alts|)] == Literal(t)
    ensures StacksNonEmpty(Pushed(st, y, Literal(t)))
    ensures Top(Pushed(st, y, Literal(t)), x) == Top(st, x)
    ensures Render(TemplateText([Read(x), Read(y)]), st, env, fuel) == Res(Ok(t), Pushed(st, y, Literal(t)))
  {
    ReadPair(x, y);
    DrawThenRead(x, y, alts, t, st, env, fuel);
  }

  /** The test's rule, written out. */
  lemma ChoiceLiteral()
    ensures ChoiceText("y", "a", "b", "c") == "[y:a,b,c]"
  {
    assert "c" + "]" == "c]";
    assert "," + "c]" == ",c]";
    assert "b" + ",c]" == "b,c]";
    assert "," + "b,c]" == ",b,c]";
    assert "a" + ",b,c]" == "a,b,c]";
    assert ":" + "a,b,c]" == ":a,b,c]";
    assert "y" + ":a,b,c]" == "y:a,b,c]";
    assert "[" + "y:a,b,c]" == "[y:a,b,c]";
  }

  /** The test's template, written out. */
  lemma PairLiteral()
    ensures TemplateText([Read("x"), Read("y")]) == "#x##y#"
  {
    var none: seq<Piece> := [];
    TextCons(Read("y"), none);
    TextCons(Read("x"), [Read("y")] + none);
    assert [Read("x"), Read("y")] == [Read("x")] + ([Read("y")] + none);
    assert "#" + "x" + "#" == "#x#";
    assert "#" + "y" + "#" == "#y#";
    assert "#y#" + [] == "#y#";
    assert "#x#" + "#y#" == "#x##y#";
  }

  /** The test with its own strings: with `Rand` giving 0, `#x##y#` is `a`;
      then, with `Rand` giving 2, it is `c`. */
  lemma RuleSelectTest(env1: Env, env2: Env, fuel: nat)
    requires fuel >= 1 && env1.rand(3) == 0 && env2.rand(3) == 2
    ensures var st := PushAll(map[], "x", ParsedPrefix(["[y:a,b,c]"]));
      var first := Render("#x##y#", st, env1, fuel);
      && first.out == Ok("a")
      && Render("#x##y#", first.store, env2, fuel).out == Ok("c")
  {
    assert PlainWord("x") && PlainWord("y") && PlainWord("a") && PlainWord("b") && PlainWord("c");
    ChoiceLiteral();
    PairLiteral();
    DrawnAtPush("x", "y", "a", "b", "c", env1, env2, fuel);
    assert ["a", "b", "c"][0] == "a" && ["a", "b", "c"][2] == "c";
  }
}
