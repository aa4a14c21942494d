/** An escaped comma inside an action value, as in parse_test.go's
    `[act:lit\,eral]`: the scanner folds `\,` into the surrounding Word
    and drops the backslash, so the action sees one alternative, and the
    value's text `lit,eral`, parsed again, is a single literal. */
module EscapedComma {
  import opened Outcomes
  import opened GoStrings
  import opened Scan
  import opened ScanFacts
  import opened Ops
  import opened Parse
  import opened ParseFacts
  import opened Scenarios

  /** `a\,b`: two plain words around an escaped comma. */
  function EscapedValue(a: string, b: string): string
  {
    a + [Backslash, ','] + b
  }

  /** Plain text in front of escaped text keeps it escaped, and losing the
      backslashes leaves the plain text alone. */
  lemma {:induction false} PlainThenEscaped(w: string, rest: string)
    requires forall i :: 0 <= i < |w| ==> Classify(w[i]) == Word
    requires EscapedText(rest)
    ensures EscapedText(w + rest)
    ensures ReplaceAll(w + rest, [Backslash], []) == w + ReplaceAll(rest, [Backslash], [])
    decreases |w|
  {
    if w != [] {
      var s := w + rest;
      assert s[0] == w[0] && s[1..] == w[1..] + rest;
      assert Classify(w[0]) == Word && Classify(Backslash) == BackStroke;
      assert s[0] != Backslash;
      PlainThenEscaped(w[1..], rest);
      assert EscapedText(s[1..]);
      assert !([Backslash] <= s);
      assert ReplaceAll(s, [Backslash], []) == [s[0]] + ReplaceAll(s[1..], [Backslash], []);
      assert w == [w[0]] + w[1..];
    } else {
      assert w + rest == rest;
    }
  }

  /** `a\,b` is escaped text, and its Word is `a,b`. */
  lemma EscapedValueText(a: string, b: string)
    requires PlainWord(a) && PlainWord(b)
    ensures EscapedText(EscapedValue(a, b))
    ensures ReplaceAll(EscapedValue(a, b), [Backslash], []) == a + "," + b
  {
    var tail := [Backslash, ','] + b;
    PlainIsEscaped(b);
    assert tail[2..] == b && tail[1..] == [','] + b;
    assert EscapedText(tail);
    ReplaceCharByNothing(b, Backslash);
    assert ([','] + b)[1..] == b;
    assert ReplaceAll([','] + b, [Backslash], []) == [','] + b;
    assert ReplaceAll(tail, [Backslash], []) == [','] + b;
    PlainThenEscaped(a, tail);
    Concat3(a, [Backslash, ','], b);
    Concat3(a, [','], b);
  }

  /** `[k:a\,b]` scans to five tokens: the escaped comma is not a Comma
      token but part of the value's Word. */
  lemma LexEscaped(k: string, a: string, b: string)
    requires PlainWord(k) && PlainWord(a) && PlainWord(b)
    ensures Lex("[" + k + ":" + EscapedValue(a, b) + "]") == [LB, W(k), Colon1, W(a + "," + b), RB]
  {
    var v := EscapedValue(a, b);
    var e: string := [];
    assert "[" + k + ":" + v + "]" == ['['] + (k + [':'] + (v + [']'] + e));
    EscapedValueText(a, b);
    LexRunThen(v, ']', e);
    assert v + [']'] + e == v + [']'];
    LexEmpty();
    LexWordThen(k, ':', v + [']'] + e);
    LexControlThen('[', k + [':'] + (v + [']'] + e));
  }

  /** The value's Word `a,b` is action text (not `]`, `,` or `POP`), and
      parsed on its own it is one literal. */
  lemma JoinedValue(a: string, b: string)
    requires PlainWord(a) && PlainWord(b)
    ensures WellFormedToken(W(a + "," + b)) && ActionText(W(a + "," + b))
    ensures ParseDoc(a + "," + b) == Ok(Literal(a + "," + b))
  {
    var u := a + "," + b;
    PlainIsEscaped(a);
    PlainIsEscaped(b);
    assert u[|a|] == ',' && ',' !in "POP";
    assert '[' !in u && '#' !in u && Backslash !in u by {
      assert forall i :: 0 <= i < |a| ==> Classify(a[i]) == Word;
      assert forall i :: 0 <= i < |b| ==> Classify(b[i]) == Word;
    }
    PlainTextIsLiteral(u);
  }

  /** The action `[k:a,b]` whose comma came from an escape: one push of the
      literal, with nothing left over. */
  lemma ActionEscaped(k: string, a: string, b: string)
    requires PlainWord(k) && PlainWord(a) && PlainWord(b)
    requires WellFormedToken(W(k)) && WellFormedToken(W(a + "," + b))
    ensures WellFormedStream([LB, W(k), Colon1, W(a + "," + b), RB])
    ensures ActionOf([LB, W(k), Colon1, W(a + "," + b), RB]) == Ok(Parsed(Push(k, Literal(a + "," + b)), []))
  {
    var u := a + "," + b;
    JoinedValue(a, b);
    var vs := [W(u)];
    assert Text(vs) == u + Text(vs[1..]) && vs[1..] == [] && u + [] == u;
    assert WellFormedStream(vs) && forall t :: t in vs ==> ActionText(t);
    var none: seq<Token> := [];
    SimpleAction(W(k), vs, none);
    assert [LB, W(k), Colon1] + vs + [RB] + none == [LB, W(k), Colon1, W(u), RB];
  }

  /** `[k:a\,b]` parses to a push of the single literal `a,b`, where an
      unescaped comma would have made a Select of `a` and `b`. */
  lemma ParseEscaped(k: string, a: string, b: string)
    requires PlainWord(k) && PlainWord(a) && PlainWord(b)
    ensures ParseDoc("[" + k + ":" + EscapedValue(a, b) + "]") == Ok(Push(k, Literal(a + "," + b)))
  {
    var u := a + "," + b;
    LexEscaped(k, a, b);
    PlainWordToken(k);
    JoinedValue(a, b);
    ActionEscaped(k, a, b);
    var ts := [LB, W(k), Colon1, W(u), RB];
    var none: seq<Token> := [];
    var push := Push(k, Literal(u));
    var e: seq<Op> := [];
    DocStep(ts, e, push, none);
    assert e + [push] == [push];
    assert DocLoop(none, [push]) == Ok([push]);
  }

  /** The test's input, built from its parts. */
  lemma TestInput()
    ensures "[" + "act" + ":" + EscapedValue("lit", "eral") + "]" == "[act:lit\\,eral]"
  {
    assert "lit" + [Backslash, ','] == "lit\\,";
    assert "lit\\," + "eral" == "lit\\,eral";
    assert "[" + "act" == "[act";
    assert "[act" + ":" == "[act:";
    assert "[act:" + "lit\\,eral" == "[act:lit\\,eral";
    assert "[act:lit\\,eral" + "]" == "[act:lit\\,eral]";
  }

  /** The test's expected literal, built from its parts. */
  lemma TestValue()
    ensures "lit" + "," + "eral" == "lit,eral"
  {
    assert "lit" + "," == "lit,";
  }

  /** The test's own case: `[act:lit\,eral]` is a push of `lit,eral`. */
  lemma EscapedCommaTest()
    ensures ParseDoc("[act:lit\\,eral]") == Ok(Push("act", Literal("lit,eral")))
  {
    assert PlainWord("act") && PlainWord("lit") && PlainWord("eral");
    ParseEscaped("act", "lit", "eral");
    TestInput();
    TestValue();
  }
}
