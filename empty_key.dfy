/** An action with no key, as in parse_test.go's `[:lit]`. `parseAction`
    takes the token after `[` as the key and drops the token after that as
    the colon without looking at either, so in `[:v]` the colon becomes the
    key, the value word is dropped, and the value is the empty literal. */
module EmptyKey {
  import opened Outcomes
  import opened GoStrings
  import opened Scan
  import opened ScanFacts
  import opened Ops
  import opened Parse
  import opened ParseFacts
  import opened Scenarios
  import opened FixedDraw

  /** `[:v]` */
  function KeylessText(v: string): string
  {
    "[" + (":" + (v + "]"))
  }

  /** `[:v]` scans to `[`, `:`, the Word `v` and `]`. */
  lemma LexKeyless(v: string)
    requires PlainWord(v)
    ensures Lex(KeylessText(v)) == [LB, Colon1, W(v), RB]
  {
    assert Classify('[') == LeftBracket && Classify(':') == Colon && Classify(']') == RightBracket;
    LexEmpty();
    LexWordBefore(v, ']', []);
    assert v + ([']'] + []) == v + "]";
    LexControlThen(':', v + "]");
    LexControlThen('[', ":" + (v + "]"));
  }

  /** The action over those tokens: `:` is the key, `v` is consumed as the
      colon, and `]` closes an empty value. */
  lemma ActionKeyless(v: string)
    requires PlainWord(v)
    ensures WellFormedStream([LB, Colon1, W(v), RB])
    ensures ActionOf([LB, Colon1, W(v), RB]) == Ok(Parsed(Push(":", Literal("")), []))
  {
    var ts := [LB, Colon1, W(v), RB];
    PlainWordToken(v);
    assert Classify('[') == LeftBracket && Classify(':') == Colon && Classify(']') == RightBracket;
    assert WellFormedStream(ts);
    assert Tail(ts) == [Colon1, W(v), RB];
    assert Head(Tail(ts)) == Colon1;
    assert Tail(Tail(ts)) == [W(v), RB];
    assert Tail(Tail(Tail(ts))) == [RB];
    var none: seq<Op> := [];
    var parts: seq<string> := [];
    CloseStep([RB], ":", none, parts);
    ParseEmpty();
    assert Join(parts) == [];
    assert none + [Literal([])] == [Literal([])];
  }

  /** For any plain word `v`, `[:v]` parses to a Push onto the key `:` of
      the empty literal. */
  lemma ParseKeyless(v: string)
    requires PlainWord(v)
    ensures ParseDoc(KeylessText(v)) == Ok(Push(":", Literal("")))
  {
    var ts := [LB, Colon1, W(v), RB];
    var op := Push(":", Literal(""));
    LexKeyless(v);
    ActionKeyless(v);
    var e: seq<Op> := [];
    var none: seq<Token> := [];
    DocStep(ts, e, op, none);
    assert e + [op] == [op];
  }

  /** parse_test.go:118 expects `Push("", Literal("lit"))` for `[:lit]`; the
      code gives a Push onto the key `:` of the empty literal. */
  lemma KeylessTest()
    ensures ParseDoc("[:lit]") == Ok(Push(":", Literal("")))
  {
    assert PlainWord("lit");
    assert KeylessText("lit") == "[:lit]";
    ParseKeyless("lit");
  }
}
