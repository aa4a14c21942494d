/** The modifier tests of parse_test.go carried through scanning and
    parsing: `#k.m(p,q)#` is a Symbol of `k` with one call of `m` whose
    two parameters are the literals `p` and `q`, and `#k.a.b(p,q)#` keeps
    its two calls in source order. Stated for any plain words, then for
    the test's own `#sym.mod(par,am)#`. */
module ParamTag {
  import opened Outcomes
  import opened Scan
  import opened ScanFacts
  import opened Ops
  import opened Parse
  import opened ParseFacts
  import opened Scenarios
  import opened FixedDraw
  import opened TagFacts

  /** `p,q)#`: two parameters, the closing parenthesis and the closing `#`. */
  function ParamsText(p: string, q: string): string
  {
    p + ("," + (q + ")#"))
  }

  /** `#k.m(p,q)#` */
  function CallText(k: string, m: string, p: string, q: string): string
  {
    "#" + (k + ("." + (m + ("(" + ParamsText(p, q)))))
  }

  /** `#k.a.b(p,q)#` */
  function ChainText(k: string, a: string, b: string, p: string, q: string): string
  {
    "#" + (k + ("." + (a + ("." + (b + ("(" + ParamsText(p, q)))))))
  }

  function ParamsTokens(p: string, q: string): seq<Token>
  {
    [W(p), Separator1, W(q), RightParen1, Hash1]
  }

  /** `p,q)#` scans to the two Words around a Comma, `)` and `#`. */
  lemma LexParams(p: string, q: string)
    requires PlainWord(p) && PlainWord(q)
    ensures Lex(ParamsText(p, q)) == ParamsTokens(p, q)
  {
    LexSingle('#');
    assert Classify('#') == Octo && Classify(')') == RightParen && Classify(',') == Comma;
    LexWordBefore(q, ')', "#");
    assert q + ")#" == q + ([')'] + "#");
    LexWordBefore(p, ',', q + ")#");
  }

  /** `m(p,q)#` scans to the name, `(` and the parameters' tokens. */
  lemma LexModCall(m: string, p: string, q: string)
    requires PlainWord(m) && PlainWord(p) && PlainWord(q)
    ensures Lex(m + ("(" + ParamsText(p, q))) == [W(m), LeftParen1] + ParamsTokens(p, q)
  {
    LexParams(p, q);
    assert Classify('(') == LeftParen;
    LexWordBefore(m, '(', ParamsText(p, q));
  }

  /** A plain word and `.` in front of the rest. */
  lemma LexDotted(w: string, rest: string)
    requires PlainWord(w)
    ensures Lex(w + ("." + rest)) == [W(w), Period1] + Lex(rest)
  {
    assert Classify('.') == Period;
    LexWordBefore(w, '.', rest);
  }

  /** `#k.` in front of the rest. */
  lemma LexKey(k: string, rest: string)
    requires PlainWord(k)
    ensures Lex("#" + (k + ("." + rest))) == [Hash1, W(k), Period1] + Lex(rest)
  {
    assert Classify('#') == Octo;
    LexDotted(k, rest);
    LexControlThen('#', k + ("." + rest));
  }

  /** `#k.m(p,q)#` scans to its ten tokens. */
  lemma LexCall(k: string, m: string, p: string, q: string)
    requires PlainWord(k) && PlainWord(m) && PlainWord(p) && PlainWord(q)
    ensures Lex(CallText(k, m, p, q)) == [Hash1, W(k), Period1, W(m), LeftParen1] + ParamsTokens(p, q)
  {
    LexModCall(m, p, q);
    LexKey(k, m + ("(" + ParamsText(p, q)));
  }

  /** `#k.a.b(p,q)#` scans to its twelve tokens. */
  lemma LexChain(k: string, a: string, b: string, p: string, q: string)
    requires PlainWord(k) && PlainWord(a) && PlainWord(b) && PlainWord(p) && PlainWord(q)
    ensures Lex(ChainText(k, a, b, p, q))
         == [Hash1, W(k), Period1, W(a), Period1, W(b), LeftParen1] + ParamsTokens(p, q)
  {
    var r3 := b + ("(" + ParamsText(p, q));
    LexModCall(b, p, q);
    LexDotted(a, r3);
    LexKey(k, a + ("." + r3));
  }

  /** Two plain words as a parameter list: its tokens and its texts. */
  lemma TwoParams(p: string, q: string)
    requires PlainWord(p) && PlainWord(q)
    ensures PlainParams([[W(p)], [W(q)]])
    ensures Alternatives([[W(p)], [W(q)]]) == [W(p), Separator1, W(q)]
    ensures AltTexts([[W(p)], [W(q)]]) == [p, q]
  {
    var vss := [[W(p)], [W(q)]];
    PlainWordToken(p);
    PlainWordToken(q);
    assert vss[1..] == [[W(q)]];
    TextOne(p);
    TextOne(q);
    assert AltTexts(vss[1..]) == [q];
  }

  /** Two plain words parse to their two literals. */
  lemma TwoLiterals(p: string, q: string)
    requires PlainWord(p) && PlainWord(q)
    ensures ParseAll([p, q]) == Ok([Literal(p), Literal(q)])
  {
    PlainLiteral(p);
    PlainLiteral(q);
    var none: seq<string> := [];
    ParseAllCons(q, none);
    ParseAllCons(p, [q] + none);
    assert [p, q] == [p] + ([q] + none);
    assert [Literal(q)] + [] == [Literal(q)];
    assert [Literal(p)] + [Literal(q)] == [Literal(p), Literal(q)];
  }

  /** The call `m(p,q)` as tag syntax, and what it parses to. */
  lemma ParamCall(m: string, p: string, q: string)
    requires PlainWord(m) && PlainWord(p) && PlainWord(q)
    ensures CallSyntaxOk(WithParams(W(m), [[W(p)], [W(q)]]))
    ensures CallTokens(WithParams(W(m), [[W(p)], [W(q)]])) == [Period1, W(m), LeftParen1, W(p), Separator1, W(q), RightParen1]
    ensures CallOf(WithParams(W(m), [[W(p)], [W(q)]])) == Ok(ModCall(m, [Literal(p), Literal(q)]))
  {
    PlainWordToken(m);
    TwoParams(p, q);
    TwoLiterals(p, q);
  }

  /** A tag whose tokens are closed and collect to `op` is the whole
      template's operation. */
  lemma DocOfTag(ts: seq<Token>, op: Op)
    requires WellFormedStream(ts) && ts != [] && ts[0].kind == Octo
    requires TagOf(ts) == Ok(Parsed(op, []))
    ensures DocLoop(ts, []) == Ok([op])
  {
    var e: seq<Op> := [];
    var none: seq<Token> := [];
    DocStep(ts, e, op, none);
    assert e + [op] == [op];
  }

  /** `#k.m(p,q)#` parses to a Symbol of `k` calling `m` with the literals
      `p` and `q`, in that order. */
  lemma ParseCall(k: string, m: string, p: string, q: string)
    requires PlainWord(k) && PlainWord(m) && PlainWord(p) && PlainWord(q)
    ensures ParseDoc(CallText(k, m, p, q)) == Ok(Symbol(k, [ModCall(m, [Literal(p), Literal(q)])]))
  {
    var c := WithParams(W(m), [[W(p)], [W(q)]]);
    var call := ModCall(m, [Literal(p), Literal(q)]);
    ParamCall(m, p, q);
    PlainWordToken(k);
    var e: seq<CallSyntax> := [];
    ChainCons(c, e);
    var cs := [c] + e;
    assert CallTokens(c) + [] == CallTokens(c);
    assert [call] + [] == [call];
    var none: seq<Token> := [];
    TagWithModifiers(W(k), cs, none);
    var ts := [Hash1, W(k)] + (ChainTokens(cs) + ([Hash1] + none));
    LexCall(k, m, p, q);
    assert ts == Lex(CallText(k, m, p, q));
    var mods: seq<ModCall> := [];
    assert mods + [call] == [call];
    DocOfTag(ts, Symbol(k, [call]));
  }

  /** The chain `.a.b(p,q)` as tag syntax, its tokens and its calls. */
  lemma DottedChain(a: string, b: string, p: string, q: string)
    requires PlainWord(a) && PlainWord(b) && PlainWord(p) && PlainWord(q)
    ensures var cs := [Bare(W(a)), WithParams(W(b), [[W(p)], [W(q)]])];
      && ChainOk(cs)
      && ChainTokens(cs) == [Period1, W(a), Period1, W(b), LeftParen1, W(p), Separator1, W(q), RightParen1]
      && CallsOf(cs) == Ok([ModCall(a, []), ModCall(b, [Literal(p), Literal(q)])])
  {
    var c := WithParams(W(b), [[W(p)], [W(q)]]);
    var calls := [ModCall(a, []), ModCall(b, [Literal(p), Literal(q)])];
    ParamCall(b, p, q);
    PlainWordToken(a);
    var e: seq<CallSyntax> := [];
    ChainCons(c, e);
    assert CallTokens(c) + [] == CallTokens(c);
    assert [calls[1]] + [] == [calls[1]];
    assert CallSyntaxOk(Bare(W(a)));
    ChainCons(Bare(W(a)), [c] + e);
    assert [Bare(W(a))] + ([c] + e) == [Bare(W(a)), c];
    assert [calls[0]] + [calls[1]] == calls;
  }

  /** The chain's tokens closed by `#` are what `#k.a.b(p,q)#` scans to. */
  lemma ChainLex(k: string, a: string, b: string, p: string, q: string, chain: seq<Token>)
    requires PlainWord(k) && PlainWord(a) && PlainWord(b) && PlainWord(p) && PlainWord(q)
    requires chain == [Period1, W(a), Period1, W(b), LeftParen1, W(p), Separator1, W(q), RightParen1]
    ensures [Hash1, W(k)] + (chain + ([Hash1] + [])) == Lex(ChainText(k, a, b, p, q))
  {
    LexChain(k, a, b, p, q);
  }

  /** `#k.a.b(p,q)#` parses to a Symbol of `k` with a call of `a` without
      parameters, then a call of `b` with the literals `p` and `q`. */
  lemma ParseChain(k: string, a: string, b: string, p: string, q: string)
    requires PlainWord(k) && PlainWord(a) && PlainWord(b) && PlainWord(p) && PlainWord(q)
    ensures ParseDoc(ChainText(k, a, b, p, q))
         == Ok(Symbol(k, [ModCall(a, []), ModCall(b, [Literal(p), Literal(q)])]))
  {
    var cs := [Bare(W(a)), WithParams(W(b), [[W(p)], [W(q)]])];
    var calls := [ModCall(a, []), ModCall(b, [Literal(p), Literal(q)])];
    DottedChain(a, b, p, q);
    PlainWordToken(k);
    var none: seq<Token> := [];
    TagWithModifiers(W(k), cs, none);
    var ts := [Hash1, W(k)] + (ChainTokens(cs) + ([Hash1] + none));
    ChainLex(k, a, b, p, q, ChainTokens(cs));
    var mods: seq<ModCall> := [];
    assert mods + calls == calls;
    DocOfTag(ts, Symbol(k, calls));
  }

  /** The test's template, written out. */
  lemma CallLiteral()
    ensures CallText("sym", "mod", "par", "am") == "#sym.mod(par,am)#"
  {
    assert "am" + ")#" == "am)#";
    assert "," + "am)#" == ",am)#";
    assert "par" + ",am)#" == "par,am)#";
    assert "(" + "par,am)#" == "(par,am)#";
    assert "mod" + "(par,am)#" == "mod(par,am)#";
    assert "." + "mod(par,am)#" == ".mod(par,am)#";
    assert "sym" + ".mod(par,am)#" == "sym.mod(par,am)#";
    assert "#" + "sym.mod(par,am)#" == "#sym.mod(par,am)#";
  }

  /** parse_test.go: `#sym.mod(par,am)#` is a Symbol of `sym` calling
      `mod` with the literals `par` and `am`. */
  lemma ParamsTest()
    ensures ParseDoc("#sym.mod(par,am)#") == Ok(Symbol("sym", [ModCall("mod", [Literal("par"), Literal("am")])]))
  {
    assert PlainWord("sym") && PlainWord("mod") && PlainWord("par") && PlainWord("am");
    CallLiteral();
    ParseCall("sym", "mod", "par", "am");
  }
}
