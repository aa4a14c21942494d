/** What the parser promises about the shapes it recognises: literal runs
    keep every token up to `[` or `#`, plain text parses to itself, an
    action with alternatives becomes a Push of their parses (a Select when
    there are several), a `POP` token makes a Pop, a tag collects its
    modifiers in order, and `()` gives a single empty parameter. */
module ParseFacts {
  import opened Outcomes
  import opened GoStrings
  import opened Scan
  import opened ScanFacts
  import opened Ops
  import opened Parse

  lemma WellFormedAppend(a: seq<Token>, b: seq<Token>)
    ensures WellFormedStream(a + b) <==> WellFormedStream(a) && WellFormedStream(b)
  {
    if WellFormedStream(a) && WellFormedStream(b) {
      forall t | t in a + b ensures WellFormedToken(t) {
        assert t in a || t in b;
      }
    }
    if WellFormedStream(a + b) {
      forall t | t in a ensures WellFormedToken(t) {
        assert t in a + b;
      }
      forall t | t in b ensures WellFormedToken(t) {
        assert t in a + b;
      }
    }
  }

  /** Every code point of a token's value appears in the stream's text. */
  lemma {:induction false} ValueInText(ts: seq<Token>, t: Token, c: char)
    requires t in ts && c in t.value
    ensures c in Text(ts)
    decreases |ts|
  {
    if ts[0] != t {
      assert t in ts[1..];
      ValueInText(ts[1..], t, c);
    }
  }

  /** A literal run takes every token up to the first that ends it. */
  lemma {:induction false} LiteralRun(vs: seq<Token>, rest: seq<Token>, texts: seq<string>)
    requires WellFormedStream(vs) && WellFormedStream(rest)
    requires forall t :: t in vs ==> !EndsLiteral(t.kind)
    requires EndsLiteral(Head(rest).kind)
    ensures LiteralLoop(vs + rest, texts) == Parsed(Literal(Join(texts) + Text(vs)), rest)
    decreases |vs|
  {
    WellFormedAppend(vs, rest);
    if vs == [] {
      assert vs + rest == rest;
      assert Join(texts) + [] == Join(texts);
    } else {
      assert vs[0] in vs;
      assert (vs + rest)[0] == vs[0];
      assert (vs + rest)[1..] == vs[1..] + rest;
      WellFormedAppend([vs[0]], vs[1..]);
      assert [vs[0]] + vs[1..] == vs;
      LiteralRun(vs[1..], rest, texts + [vs[0].value]);
      JoinAppend(texts, vs[0].value);
      assert Join(texts) + vs[0].value + Text(vs[1..]) == Join(texts) + (vs[0].value + Text(vs[1..]));
    }
  }

  lemma LexEmpty()
    ensures Lex([]) == []
  {
    assert ReplaceAll([], [Backslash], []) == [];
  }

  lemma ParseEmpty()
    ensures ParseDoc([]) == Ok(Literal([]))
  {
    LexEmpty();
  }

  /** A stream with no `[` or `#` token is one literal run. */
  lemma DocOfLiteralRun(ts: seq<Token>)
    requires WellFormedStream(ts) && ts != []
    requires forall t :: t in ts ==> !EndsLiteral(t.kind)
    ensures DocLoop(ts, []) == Ok([Literal(Text(ts))])
  {
    assert ts + [] == ts;
    LiteralRun(ts, [], []);
    var e: seq<string> := [];
    assert Join(e) + Text(ts) == Text(ts);
    assert ts[0] in ts;
    var lit := LiteralOf(ts);
    assert lit == Parsed(Literal(Text(ts)), []);
    assert !EndsLiteral(ts[0].kind) && Head(ts) == ts[0];
    var none: seq<Op> := [];
    assert none + [Literal(Text(ts))] == [Literal(Text(ts))];
    assert DocLoop([], [Literal(Text(ts))]) == Ok([Literal(Text(ts))]);
    assert DocLoop(ts, []) == DocLoop([], none + [Literal(Text(ts))]);
  }

  /** The tokens of text without `[` and `#` include neither. */
  lemma NoStopTokens(s: string)
    requires '[' !in s && '#' !in s && Backslash !in s
    ensures forall t :: t in Lex(s) ==> !EndsLiteral(t.kind)
  {
    var ts := Lex(s);
    LexWellFormed(s);
    LexRoundTrip(s);
    forall t | t in ts ensures !EndsLiteral(t.kind) {
      assert WellFormedToken(t);
      if t.kind == LeftBracket || t.kind == Octo {
        assert t.value[0] in t.value;
        ValueInText(ts, t, t.value[0]);
      }
    }
  }

  /** Text without `[`, `#` or a backslash parses to one literal holding
      exactly that text. */
  lemma PlainTextIsLiteral(s: string)
    requires '[' !in s && '#' !in s && Backslash !in s
    ensures ParseDoc(s) == Ok(Literal(s))
  {
    var ts := Lex(s);
    LexWellFormed(s);
    LexRoundTrip(s);
    NoStopTokens(s);
    if ts != [] {
      DocOfLiteralRun(ts);
    }
  }

  /** A token that neither ends an action's alternative nor is `POP`. */
  predicate ActionText(t: Token)
  {
    t.kind != RightBracket && t.kind != Comma && t.value != "POP"
  }

  /** An action's loop depends on the parts gathered so far only through
      their joined text. */
  lemma {:induction false} ActionLoopJoin(ts: seq<Token>, key: string, ops: seq<Op>, p: seq<string>, q: seq<string>)
    requires WellFormedStream(ts) && AllWide(ops) && Join(p) == Join(q)
    ensures ActionLoop(ts, key, ops, p) == ActionLoop(ts, key, ops, q)
    decreases |ts|
  {
    TailFacts(ts);
    if ts != [] && ts[0].kind != RightBracket && ts[0].value != "POP" && ts[0].kind != Comma {
      JoinAppend(p, ts[0].value);
      JoinAppend(q, ts[0].value);
      ActionLoopJoin(ts[1..], key, ops, p + [ts[0].value], q + [ts[0].value]);
    }
  }

  /** One ordinary token inside an action joins the gathered parts. */
  lemma ActionLoopCons(t: Token, ts: seq<Token>, key: string, ops: seq<Op>, parts: seq<string>)
    requires WellFormedToken(t) && WellFormedStream(ts) && AllWide(ops) && ActionText(t)
    ensures WellFormedStream([t] + ts)
    ensures ActionLoop([t] + ts, key, ops, parts) == ActionLoop(ts, key, ops, parts + [t.value])
  {
    WellFormedAppend([t], ts);
    assert ([t] + ts)[0] == t && ([t] + ts)[1..] == ts;
  }

  /** The action loop over `vs + rest` gathers all of `vs` as text. */
  predicate RunGathered(vs: seq<Token>, rest: seq<Token>, key: string, ops: seq<Op>, parts: seq<string>)
  {
    && WellFormedStream(vs + rest) && WellFormedStream(rest) && AllWide(ops)
    && ActionLoop(vs + rest, key, ops, parts) == ActionLoop(rest, key, ops, [Join(parts) + Text(vs)])
  }

  lemma RunGatheredStep(vs: seq<Token>, rest: seq<Token>, key: string, ops: seq<Op>, parts: seq<string>)
    requires vs != [] && WellFormedStream(vs) && WellFormedStream(rest) && AllWide(ops) && ActionText(vs[0])
    requires RunGathered(vs[1..], rest, key, ops, parts + [vs[0].value])
    ensures RunGathered(vs, rest, key, ops, parts)
  {
    WellFormedAppend(vs, rest);
    assert vs[0] in vs;
    assert vs + rest == [vs[0]] + (vs[1..] + rest);
    ActionLoopCons(vs[0], vs[1..] + rest, key, ops, parts);
    JoinAppend(parts, vs[0].value);
    Concat3(Join(parts), vs[0].value, Text(vs[1..]));
  }

  lemma {:induction false} RunGatheredAll(vs: seq<Token>, rest: seq<Token>, key: string, ops: seq<Op>, parts: seq<string>)
    requires WellFormedStream(vs) && WellFormedStream(rest) && AllWide(ops)
    requires forall t :: t in vs ==> ActionText(t)
    ensures RunGathered(vs, rest, key, ops, parts)
    decreases |vs|
  {
    WellFormedAppend(vs, rest);
    if vs == [] {
      assert vs + rest == rest;
      assert Join([Join(parts) + []]) == Join(parts) + [] + [];
      ActionLoopJoin(rest, key, ops, parts, [Join(parts) + Text(vs)]);
    } else {
      assert vs[0] in vs;
      WellFormedAppend([vs[0]], vs[1..]);
      assert [vs[0]] + vs[1..] == vs;
      forall t | t in vs[1..] ensures ActionText(t) {
        assert t in vs;
      }
      RunGatheredAll(vs[1..], rest, key, ops, parts + [vs[0].value]);
      RunGatheredStep(vs, rest, key, ops, parts);
    }
  }

  /** Ordinary tokens inside an action are gathered as text. */
  lemma ActionRun(vs: seq<Token>, rest: seq<Token>, key: string, ops: seq<Op>, parts: seq<string>)
    requires WellFormedStream(vs) && WellFormedStream(rest) && AllWide(ops)
    requires forall t :: t in vs ==> ActionText(t)
    ensures WellFormedStream(vs + rest)
    ensures ActionLoop(vs + rest, key, ops, parts) == ActionLoop(rest, key, ops, [Join(parts) + Text(vs)])
  {
    RunGatheredAll(vs, rest, key, ops, parts);
  }

  /** Alternatives separated by commas. */
  function Alternatives(vss: seq<seq<Token>>): seq<Token>
    requires |vss| >= 1
  {
    if |vss| == 1 then vss[0] else vss[0] + [Token(Comma, ",")] + Alternatives(vss[1..])
  }

  /** The texts of the alternatives. */
  function AltTexts(vss: seq<seq<Token>>): (r: seq<string>)
    ensures |r| == |vss|
  {
    if vss == [] then [] else [Text(vss[0])] + AltTexts(vss[1..])
  }

  predicate PlainAlternatives(vss: seq<seq<Token>>)
  {
    forall i :: 0 <= i < |vss| ==> WellFormedStream(vss[i]) && forall t :: t in vss[i] ==> ActionText(t)
  }

  lemma {:induction false} AlternativesWellFormed(vss: seq<seq<Token>>)
    requires |vss| >= 1 && PlainAlternatives(vss)
    ensures WellFormedStream(Alternatives(vss))
    decreases |vss|
  {
    if |vss| > 1 {
      AlternativesWellFormed(vss[1..]);
      WellFormedAppend(vss[0], [Token(Comma, ",")]);
      WellFormedAppend(vss[0] + [Token(Comma, ",")], Alternatives(vss[1..]));
    }
  }

  /** `]` ends the action with the alternative gathered so far. */
  lemma CloseStep(ts: seq<Token>, key: string, ops: seq<Op>, parts: seq<string>)
    requires WellFormedStream(ts) && AllWide(ops) && ts != [] && ts[0].kind == RightBracket
    ensures ActionLoop(ts, key, ops, parts)
        == if ParseDoc(Join(parts)).Fail? then Fail(ParseDoc(Join(parts)).fault)
           else Ok(Parsed(Push(key, Choice(ops + [ParseDoc(Join(parts)).value])), ts[1..]))
  {
  }

  /** `,` ends one alternative and starts the next. */
  lemma CommaStep(ts: seq<Token>, key: string, ops: seq<Op>, parts: seq<string>)
    requires WellFormedStream(ts) && AllWide(ops) && ts != [] && ts[0] == Token(Comma, ",")
    ensures ParseDoc(Join(parts)).Ok? ==> AllWide(ops + [ParseDoc(Join(parts)).value])
    ensures ActionLoop(ts, key, ops, parts)
        == if ParseDoc(Join(parts)).Fail? then Fail(ParseDoc(Join(parts)).fault)
           else ActionLoop(ts[1..], key, ops + [ParseDoc(Join(parts)).value], [])
  {
    if ParseDoc(Join(parts)).Ok? {
      assert forall o :: o in ops + [ParseDoc(Join(parts)).value] ==> o in ops || o == ParseDoc(Join(parts)).value;
    }
  }

  /** The one-element list of a text joins to that text. */
  lemma JoinSingle(s: string)
    ensures Join([s]) == s
  {
    var e: seq<string> := [];
    assert [s] == e + [s];
    JoinAppend(e, s);
  }

  /** One alternative closed by `]`. */
  lemma LastAlternative(v: seq<Token>, rest: seq<Token>, key: string, ops: seq<Op>)
    requires WellFormedStream(v) && WellFormedStream(rest) && AllWide(ops)
    requires forall t :: t in v ==> ActionText(t)
    ensures WellFormedStream(v + ([Token(RightBracket, "]")] + rest))
    ensures ActionLoop(v + ([Token(RightBracket, "]")] + rest), key, ops, [])
        == if ParseDoc(Text(v)).Fail? then Fail(ParseDoc(Text(v)).fault)
           else Ok(Parsed(Push(key, Choice(ops + [ParseDoc(Text(v)).value])), rest))
  {
    var close := [Token(RightBracket, "]")] + rest;
    WellFormedAppend([Token(RightBracket, "]")], rest);
    WellFormedAppend(v, close);
    var e: seq<string> := [];
    ActionRun(v, close, key, ops, e);
    assert Join(e) + Text(v) == Text(v);
    JoinSingle(Text(v));
    CloseStep(close, key, ops, [Text(v)]);
    assert close[1..] == rest;
  }

  /** One alternative followed by `,`. */
  lemma NextAlternative(v: seq<Token>, more: seq<Token>, key: string, ops: seq<Op>)
    requires WellFormedStream(v) && WellFormedStream(more) && AllWide(ops)
    requires forall t :: t in v ==> ActionText(t)
    ensures WellFormedStream(v + ([Token(Comma, ",")] + more))
    ensures ParseDoc(Text(v)).Ok? ==> AllWide(ops + [ParseDoc(Text(v)).value])
    ensures ActionLoop(v + ([Token(Comma, ",")] + more), key, ops, [])
        == if ParseDoc(Text(v)).Fail? then Fail(ParseDoc(Text(v)).fault)
           else ActionLoop(more, key, ops + [ParseDoc(Text(v)).value], [])
  {
    var comma := [Token(Comma, ",")] + more;
    WellFormedAppend([Token(Comma, ",")], more);
    WellFormedAppend(v, comma);
    var e: seq<string> := [];
    ActionRun(v, comma, key, ops, e);
    assert Join(e) + Text(v) == Text(v);
    JoinSingle(Text(v));
    CommaStep(comma, key, ops, [Text(v)]);
    assert comma[1..] == more;
  }

  /** `ParseAll` read one input at a time. */
  lemma ParseAllStep(inputs: seq<string>)
    requires inputs != []
    ensures ParseDoc(inputs[0]).Fail? ==> ParseAll(inputs) == Fail(ParseDoc(inputs[0]).fault)
    ensures ParseDoc(inputs[0]).Ok? && ParseAll(inputs[1..]).Fail? ==>
      ParseAll(inputs) == Fail(ParseAll(inputs[1..]).fault)
    ensures ParseDoc(inputs[0]).Ok? && ParseAll(inputs[1..]).Ok? ==>
      ParseAll(inputs) == Ok([ParseDoc(inputs[0]).value] + ParseAll(inputs[1..]).value)
  {
  }

  /** What an action whose alternatives parsed to `found` returns. */
  function PushOutcome(key: string, ops: seq<Op>, found: Outcome<seq<Op>>, rest: seq<Token>): Outcome<Parsed<Op>>
  {
    if found.Fail? then Fail(found.fault) else Ok(Parsed(Push(key, Choice(ops + found.value)), rest))
  }

  /** The last alternative. */
  lemma AlternativesBase(v: seq<Token>, rest: seq<Token>, key: string, ops: seq<Op>)
    requires WellFormedStream(v) && WellFormedStream(rest) && AllWide(ops)
    requires forall t :: t in v ==> ActionText(t)
    ensures WellFormedStream(v + ([Token(RightBracket, "]")] + rest))
    ensures ActionLoop(v + ([Token(RightBracket, "]")] + rest), key, ops, [])
      == PushOutcome(key, ops, ParseAll([Text(v)]), rest)
  {
    LastAlternative(v, rest, key, ops);
    var texts := [Text(v)];
    ParseAllStep(texts);
    assert texts[0] == Text(v) && texts[1..] == [] && ParseAll(texts[1..]) == Ok([]);
    if ParseDoc(Text(v)).Ok? {
      var op := ParseDoc(Text(v)).value;
      assert [op] + [] == [op];
    }
  }

  /** One parse in front of a list of parses. */
  function ConsOutcome(d: Outcome<Op>, found: Outcome<seq<Op>>): Outcome<seq<Op>>
  {
    if d.Fail? then Fail(d.fault)
    else if found.Fail? then Fail(found.fault)
    else Ok([d.value] + found.value)
  }

  lemma ParseAllCons(s: string, texts: seq<string>)
    ensures ParseAll([s] + texts) == ConsOutcome(ParseDoc(s), ParseAll(texts))
  {
    ParseAllStep([s] + texts);
    assert ([s] + texts)[0] == s && ([s] + texts)[1..] == texts;
  }

  /** Pushing the parses of the alternatives one at a time. */
  lemma PushOutcomeCons(key: string, ops: seq<Op>, d: Outcome<Op>, found: Outcome<seq<Op>>, rest: seq<Token>)
    ensures d.Ok? ==>
      PushOutcome(key, ops, ConsOutcome(d, found), rest) == PushOutcome(key, ops + [d.value], found, rest)
    ensures d.Fail? ==> PushOutcome(key, ops, ConsOutcome(d, found), rest) == Fail(d.fault)
  {
    if d.Ok? && found.Ok? {
      assert ops + [d.value] + found.value == ops + ([d.value] + found.value);
    }
  }

  /** One alternative in front of the others. */
  lemma AlternativesStep(v: seq<Token>, more: seq<Token>, texts: seq<string>, rest: seq<Token>, key: string, ops: seq<Op>)
    requires WellFormedStream(v) && WellFormedStream(more + ([Token(RightBracket, "]")] + rest)) && AllWide(ops)
    requires forall t :: t in v ==> ActionText(t)
    requires ParseDoc(Text(v)).Ok? ==>
      ActionLoop(more + ([Token(RightBracket, "]")] + rest), key, ops + [ParseDoc(Text(v)).value], [])
        == PushOutcome(key, ops + [ParseDoc(Text(v)).value], ParseAll(texts), rest)
    ensures WellFormedStream(v + ([Token(Comma, ",")] + (more + ([Token(RightBracket, "]")] + rest))))
    ensures ActionLoop(v + ([Token(Comma, ",")] + (more + ([Token(RightBracket, "]")] + rest))), key, ops, [])
      == PushOutcome(key, ops, ParseAll([Text(v)] + texts), rest)
  {
    var close := [Token(RightBracket, "]")] + rest;
    NextAlternative(v, more + close, key, ops);
    ParseAllCons(Text(v), texts);
    PushOutcomeCons(key, ops, ParseDoc(Text(v)), ParseAll(texts), rest);
  }

  /** An action's alternatives up to `]` become a Push of the parses of
      their texts, taken in order: one alternative alone, several as a
      Select. */
  lemma {:induction false} ActionAlternatives(vss: seq<seq<Token>>, rest: seq<Token>, key: string, ops: seq<Op>)
    requires |vss| >= 1 && PlainAlternatives(vss) && WellFormedStream(rest) && AllWide(ops)
    ensures WellFormedStream(Alternatives(vss) + ([Token(RightBracket, "]")] + rest))
    ensures ActionLoop(Alternatives(vss) + ([Token(RightBracket, "]")] + rest), key, ops, [])
      == PushOutcome(key, ops, ParseAll(AltTexts(vss)), rest)
    decreases |vss|
  {
    var close := [Token(RightBracket, "]")] + rest;
    var v := vss[0];
    assert WellFormedStream(v) && forall t :: t in v ==> ActionText(t);
    if |vss| == 1 {
      assert AltTexts(vss) == [Text(v)];
      AlternativesBase(v, rest, key, ops);
    } else {
      assert PlainAlternatives(vss[1..]);
      var more := Alternatives(vss[1..]);
      assert Alternatives(vss) + close == v + ([Token(Comma, ",")] + (more + close));
      assert AltTexts(vss) == [Text(v)] + AltTexts(vss[1..]);
      if ParseDoc(Text(v)).Ok? {
        ActionAlternatives(vss[1..], rest, key, ops + [ParseDoc(Text(v)).value]);
      } else {
        ActionAlternatives(vss[1..], rest, key, ops);
      }
      AlternativesStep(v, more, AltTexts(vss[1..]), rest, key, ops);
    }
  }

  /** After `[`, the key token and `:`, an action is its loop. */
  lemma ActionOfHead(keyToken: Token, body: seq<Token>)
    requires WellFormedToken(keyToken) && WellFormedStream(body)
    ensures var ts := [Token(LeftBracket, "["), keyToken, Token(Colon, ":")] + body;
      WellFormedStream(ts) && ActionOf(ts) == ActionLoop(body, keyToken.value, [], [])
  {
    var head := [Token(LeftBracket, "["), keyToken, Token(Colon, ":")];
    WellFormedAppend(head, body);
    var ts := head + body;
    assert Tail(ts) == [keyToken, Token(Colon, ":")] + body;
    assert Head(Tail(ts)) == keyToken;
    assert Tail(Tail(ts)) == [Token(Colon, ":")] + body;
    assert Tail(Tail(Tail(ts))) == body;
  }

  /** `[key:v]` is a Push of the parse of `v`'s text. */
  lemma SimpleAction(keyToken: Token, vs: seq<Token>, rest: seq<Token>)
    requires WellFormedToken(keyToken) && WellFormedStream(vs) && WellFormedStream(rest)
    requires forall t :: t in vs ==> ActionText(t)
    requires ParseDoc(Text(vs)).Ok?
    ensures var ts := [Token(LeftBracket, "["), keyToken, Token(Colon, ":")] + vs + [Token(RightBracket, "]")] + rest;
      WellFormedStream(ts) &&
      ActionOf(ts) == Ok(Parsed(Push(keyToken.value, ParseDoc(Text(vs)).value), rest))
  {
    var close := [Token(RightBracket, "]")] + rest;
    LastAlternative(vs, rest, keyToken.value, []);
    ActionOfHead(keyToken, vs + close);
    Concat4([Token(LeftBracket, "["), keyToken, Token(Colon, ":")], vs, [Token(RightBracket, "]")], rest);
    var none: seq<Op> := [];
    assert none + [ParseDoc(Text(vs)).value] == [ParseDoc(Text(vs)).value];
  }

  /** A whole action with comma-separated alternatives: a Push of their
      parses, a Select of them when there are two or more. */
  lemma ActionWithAlternatives(keyToken: Token, vss: seq<seq<Token>>, rest: seq<Token>)
    requires WellFormedToken(keyToken) && |vss| >= 1 && PlainAlternatives(vss) && WellFormedStream(rest)
    ensures var ts := [Token(LeftBracket, "["), keyToken, Token(Colon, ":")] + Alternatives(vss) + [Token(RightBracket, "]")] + rest;
      && WellFormedStream(ts)
      && ActionOf(ts) == PushOutcome(keyToken.value, [], ParseAll(AltTexts(vss)), rest)
      && (|vss| >= 2 && ParseAll(AltTexts(vss)).Ok? ==>
            ActionOf(ts) == Ok(Parsed(Push(keyToken.value, Select(ParseAll(AltTexts(vss)).value)), rest)))
  {
    var close := [Token(RightBracket, "]")] + rest;
    var body := Alternatives(vss) + close;
    var found := ParseAll(AltTexts(vss));
    ActionAlternatives(vss, rest, keyToken.value, []);
    assert ActionLoop(body, keyToken.value, [], []) == PushOutcome(keyToken.value, [], found, rest);
    ActionOfHead(keyToken, body);
    var ts := [Token(LeftBracket, "["), keyToken, Token(Colon, ":")] + Alternatives(vss) + [Token(RightBracket, "]")] + rest;
    Concat4([Token(LeftBracket, "["), keyToken, Token(Colon, ":")], Alternatives(vss), [Token(RightBracket, "]")], rest);
    assert ActionOf(ts) == PushOutcome(keyToken.value, [], found, rest);
    if found.Ok? {
      var none: seq<Op> := [];
      assert none + found.value == found.value;
    }
  }

  /** A `POP` token after ordinary tokens makes the action a Pop of its key
      and consumes the token after it. */
  lemma PopAction(keyToken: Token, vs: seq<Token>, rest: seq<Token>)
    requires WellFormedToken(keyToken) && WellFormedStream(vs) && WellFormedStream(rest)
    requires forall t :: t in vs ==> ActionText(t)
    ensures var ts := [Token(LeftBracket, "["), keyToken, Token(Colon, ":")] + vs + [Token(Word, "POP")] + rest;
      WellFormedStream(ts) &&
      ActionOf(ts) == Ok(Parsed(Pop(keyToken.value), Tail(rest)))
  {
    var pop := [Token(Word, "POP")] + rest;
    WellFormedAppend([Token(Word, "POP")], rest);
    WellFormedAppend(vs, pop);
    ActionOfHead(keyToken, vs + pop);
    assert [Token(LeftBracket, "["), keyToken, Token(Colon, ":")] + vs + [Token(Word, "POP")] + rest
      == [Token(LeftBracket, "["), keyToken, Token(Colon, ":")] + (vs + pop);
    ActionRun(vs, pop, keyToken.value, [], []);
    assert pop[0].value == "POP" && pop[0].kind == Word && pop[1..] == rest;
  }

  /** A token that neither closes a tag nor starts a modifier. */
  predicate TagFiller(t: Token)
  {
    t.kind != Octo && t.kind != Period
  }

  /** Inside a tag, tokens other than `#` and `.` are skipped. */
  lemma {:induction false} TagSkips(vs: seq<Token>, rest: seq<Token>, key: string, mods: seq<ModCall>)
    requires WellFormedStream(vs) && WellFormedStream(rest)
    requires forall m :: m in mods ==> ParamsWide(m)
    requires forall t :: t in vs ==> TagFiller(t)
    ensures WellFormedStream(vs + rest)
    ensures TagLoop(vs + rest, key, mods) == TagLoop(rest, key, mods)
    decreases |vs|
  {
    WellFormedAppend(vs, rest);
    if vs == [] {
      assert vs + rest == rest;
    } else {
      assert vs[0] in vs;
      assert (vs + rest)[0] == vs[0];
      assert (vs + rest)[1..] == vs[1..] + rest;
      WellFormedAppend([vs[0]], vs[1..]);
      assert [vs[0]] + vs[1..] == vs;
      TagSkips(vs[1..], rest, key, mods);
    }
  }

  /** `#key#` with filler in between is a Symbol with no modifiers. */
  lemma SimpleTag(keyToken: Token, vs: seq<Token>, rest: seq<Token>)
    requires WellFormedToken(keyToken) && WellFormedStream(vs) && WellFormedStream(rest)
    requires forall t :: t in vs ==> TagFiller(t)
    ensures var ts := [Token(Octo, "#"), keyToken] + vs + [Token(Octo, "#")] + rest;
      WellFormedStream(ts) && TagOf(ts) == Ok(Parsed(Symbol(keyToken.value, []), rest))
  {
    var head := [Token(Octo, "#"), keyToken];
    var close := [Token(Octo, "#")] + rest;
    var ts := head + vs + [Token(Octo, "#")] + rest;
    assert ts == head + (vs + close);
    WellFormedAppend([Token(Octo, "#")], rest);
    WellFormedAppend(vs, close);
    WellFormedAppend(head, vs + close);
    assert Tail(Tail(ts)) == vs + close;
    TagSkips(vs, close, keyToken.value, []);
    assert close[0].kind == Octo && close[1..] == rest;
  }

  /** A `.name` not followed by `(` adds a modifier call without
      parameters and the tag goes on after the name. */
  lemma ModifierWithoutParams(nameToken: Token, rest: seq<Token>, key: string, mods: seq<ModCall>)
    requires WellFormedToken(nameToken) && WellFormedStream(rest)
    requires forall m :: m in mods ==> ParamsWide(m)
    requires Head(rest).kind != LeftParen
    ensures var ts := [Token(Period, "."), nameToken] + rest;
      WellFormedStream(ts) &&
      TagLoop(ts, key, mods) == TagLoop(rest, key, mods + [ModCall(nameToken.value, [])])
  {
    var ts := [Token(Period, "."), nameToken] + rest;
    WellFormedAppend([Token(Period, "."), nameToken], rest);
    assert ts[0].kind == Period && ts[1..] == [nameToken] + rest;
    assert ([nameToken] + rest)[1..] == rest;
    assert ModifierOf([nameToken] + rest) == Ok(Parsed(ModCall(nameToken.value, []), rest));
  }

  /** `name()` has exactly one parameter, the empty literal. */
  lemma EmptyParens(nameToken: Token, rest: seq<Token>)
    requires WellFormedToken(nameToken) && WellFormedStream(rest)
    ensures var ts := [nameToken, Token(LeftParen, "("), Token(RightParen, ")")] + rest;
      WellFormedStream(ts) &&
      ModifierOf(ts) == Ok(Parsed(ModCall(nameToken.value, [Literal([])]), rest))
  {
    var ts := [nameToken, Token(LeftParen, "("), Token(RightParen, ")")] + rest;
    WellFormedAppend([nameToken, Token(LeftParen, "("), Token(RightParen, ")")], rest);
    assert Tail(ts)[0].kind == LeftParen;
    assert Tail(Tail(ts)) == [Token(RightParen, ")")] + rest;
    assert ([Token(RightParen, ")")] + rest)[1..] == rest;
    ParseEmpty();
    var e: seq<string> := [];
    assert Join(e) == [];
    var none: seq<Op> := [];
    assert none + [Literal([])] == [Literal([])];
  }

  /** The inputs of `Strings` become one operation: the empty literal for
      none, the parse itself for one, a Select of the parses for more. */
  lemma StringsShape(inputs: seq<string>)
    ensures StringsOf(inputs).Fail? <==> ParseAll(inputs).Fail?
    ensures |inputs| == 0 ==> StringsOf(inputs) == Ok(Literal([]))
    ensures |inputs| == 1 ==> StringsOf(inputs) == ParseDoc(inputs[0])
    ensures |inputs| >= 2 && ParseAll(inputs).Ok? ==>
      && StringsOf(inputs).value.Select?
      && |StringsOf(inputs).value.alts| == |inputs|
      && forall i :: 0 <= i < |inputs| ==> ParseDoc(inputs[i]) == Ok(StringsOf(inputs).value.alts[i])
  {
  }
}
