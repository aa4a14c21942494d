/** What the parser promises about a tag's modifier calls: a parameter
    list `(p1,...,pn)` gives one parameter per comma-separated part, each
    the parse of that part's text, in source order; and a tag
    `#k.m1.m2(...)#` collects its calls in source order. */
module TagFacts {
  import opened Outcomes
  import opened GoStrings
  import opened Scan
  import opened ScanFacts
  import opened Ops
  import opened Parse
  import opened ParseFacts

  const Period1 := Token(Period, ".")
  const LeftParen1 := Token(LeftParen, "(")
  const RightParen1 := Token(RightParen, ")")
  const Hash1 := Token(Octo, "#")
  const Separator1 := Token(Comma, ",")

  /** A token that neither closes a parameter list nor separates two
      parameters. */
  predicate ParamText(t: Token)
  {
    t.kind != RightParen && t.kind != Comma
  }

  predicate PlainParams(vss: seq<seq<Token>>)
  {
    forall i :: 0 <= i < |vss| ==> WellFormedStream(vss[i]) && forall t :: t in vss[i] ==> ParamText(t)
  }

  /** The parameter loop depends on the parts gathered so far only
      through their joined text. */
  lemma {:induction false} ParenLoopJoin(ts: seq<Token>, key: string, ops: seq<Op>, p: seq<string>, q: seq<string>)
    requires WellFormedStream(ts) && AllWide(ops) && Join(p) == Join(q)
    ensures ParenLoop(ts, key, ops, p) == ParenLoop(ts, key, ops, q)
    decreases |ts|
  {
    TailFacts(ts);
    if ts != [] && ts[0].kind != RightParen && ts[0].kind != Comma {
      JoinAppend(p, ts[0].value);
      JoinAppend(q, ts[0].value);
      ParenLoopJoin(ts[1..], key, ops, p + [ts[0].value], q + [ts[0].value]);
    }
  }

  /** One ordinary token inside a parameter list is added to the parts. */
  lemma ParenLoopCons(t: Token, ts: seq<Token>, key: string, ops: seq<Op>, parts: seq<string>)
    requires WellFormedToken(t) && WellFormedStream(ts) && AllWide(ops) && ParamText(t)
    ensures WellFormedStream([t] + ts)
    ensures ParenLoop([t] + ts, key, ops, parts) == ParenLoop(ts, key, ops, parts + [t.value])
  {
    WellFormedAppend([t], ts);
    assert ([t] + ts)[0] == t && ([t] + ts)[1..] == ts;
  }

  /** Ordinary tokens inside a parameter list are gathered as text. */
  lemma {:induction false} ParamRun(vs: seq<Token>, rest: seq<Token>, key: string, ops: seq<Op>, parts: seq<string>)
    requires WellFormedStream(vs) && WellFormedStream(rest) && AllWide(ops)
    requires forall t :: t in vs ==> ParamText(t)
    ensures WellFormedStream(vs + rest)
    ensures ParenLoop(vs + rest, key, ops, parts) == ParenLoop(rest, key, ops, [Join(parts) + Text(vs)])
    decreases |vs|
  {
    WellFormedAppend(vs, rest);
    if vs == [] {
      assert vs + rest == rest;
      JoinSingle(Join(parts));
      assert Join(parts) + Text(vs) == Join(parts);
      ParenLoopJoin(rest, key, ops, parts, [Join(parts)]);
    } else {
      var t := vs[0];
      assert t in vs;
      WellFormedAppend([t], vs[1..]);
      forall u | u in vs[1..] ensures ParamText(u) {
        assert u in vs;
      }
      assert vs + rest == [t] + (vs[1..] + rest);
      ParenLoopCons(t, vs[1..] + rest, key, ops, parts);
      ParamRun(vs[1..], rest, key, ops, parts + [t.value]);
      JoinAppend(parts, t.value);
      Concat3(Join(parts), t.value, Text(vs[1..]));
    }
  }

  /** What a parameter list whose parts parsed to `found` returns. */
  function CallOutcome(key: string, ops: seq<Op>, found: Outcome<seq<Op>>, rest: seq<Token>): Outcome<Parsed<ModCall>>
  {
    if found.Fail? then Fail(found.fault) else Ok(Parsed(ModCall(key, ops + found.value), rest))
  }

  /** The last parameter, closed by `)`. */
  lemma ParamsBase(v: seq<Token>, rest: seq<Token>, key: string, ops: seq<Op>)
    requires WellFormedStream(v) && WellFormedStream(rest) && AllWide(ops)
    requires forall t :: t in v ==> ParamText(t)
    ensures WellFormedStream(v + ([RightParen1] + rest))
    ensures ParenLoop(v + ([RightParen1] + rest), key, ops, []) == CallOutcome(key, ops, ParseAll([Text(v)]), rest)
  {
    var close := [RightParen1] + rest;
    WellFormedAppend([RightParen1], rest);
    var e: seq<string> := [];
    ParamRun(v, close, key, ops, e);
    assert Join(e) + Text(v) == Text(v);
    JoinSingle(Text(v));
    assert close[0].kind == RightParen && close[1..] == rest;
    ParseAllCons(Text(v), []);
    assert [Text(v)] + [] == [Text(v)];
    if ParseDoc(Text(v)).Ok? {
      var op := ParseDoc(Text(v)).value;
      assert [op] + [] == [op];
    }
  }

  /** `,` ends one parameter and starts the next. */
  lemma ParamComma(v: seq<Token>, more: seq<Token>, key: string, ops: seq<Op>)
    requires WellFormedStream(v) && WellFormedStream(more) && AllWide(ops)
    requires forall t :: t in v ==> ParamText(t)
    ensures WellFormedStream(v + ([Separator1] + more))
    ensures ParseDoc(Text(v)).Ok? ==> AllWide(ops + [ParseDoc(Text(v)).value])
    ensures ParenLoop(v + ([Separator1] + more), key, ops, [])
        == if ParseDoc(Text(v)).Fail? then Fail(ParseDoc(Text(v)).fault)
           else ParenLoop(more, key, ops + [ParseDoc(Text(v)).value], [])
  {
    var comma := [Separator1] + more;
    WellFormedAppend([Separator1], more);
    var e: seq<string> := [];
    ParamRun(v, comma, key, ops, e);
    assert Join(e) + Text(v) == Text(v);
    JoinSingle(Text(v));
    assert comma[0].kind == Comma && comma[1..] == more;
    if ParseDoc(Text(v)).Ok? {
      var op := ParseDoc(Text(v)).value;
      assert forall o :: o in ops + [op] ==> o in ops || o == op;
    }
  }

  /** Gathering the parameters' parses one at a time. */
  lemma CallOutcomeCons(key: string, ops: seq<Op>, d: Outcome<Op>, found: Outcome<seq<Op>>, rest: seq<Token>)
    ensures d.Ok? ==>
      CallOutcome(key, ops, ConsOutcome(d, found), rest) == CallOutcome(key, ops + [d.value], found, rest)
    ensures d.Fail? ==> CallOutcome(key, ops, ConsOutcome(d, found), rest) == Fail(d.fault)
  {
    if d.Ok? && found.Ok? {
      assert ops + [d.value] + found.value == ops + ([d.value] + found.value);
    }
  }

  /** One parameter followed by `,` and the others. */
  lemma ParamsStep(v: seq<Token>, more: seq<Token>, texts: seq<string>, rest: seq<Token>, key: string, ops: seq<Op>)
    requires WellFormedStream(v) && WellFormedStream(more) && AllWide(ops)
    requires forall t :: t in v ==> ParamText(t)
    requires ParseDoc(Text(v)).Ok? ==>
      ParenLoop(more, key, ops + [ParseDoc(Text(v)).value], []) == CallOutcome(key, ops + [ParseDoc(Text(v)).value], ParseAll(texts), rest)
    ensures WellFormedStream(v + ([Separator1] + more))
    ensures ParenLoop(v + ([Separator1] + more), key, ops, []) == CallOutcome(key, ops, ParseAll([Text(v)] + texts), rest)
  {
    ParamComma(v, more, key, ops);
    ParseAllCons(Text(v), texts);
    CallOutcomeCons(key, ops, ParseDoc(Text(v)), ParseAll(texts), rest);
  }

  /** A parameter list up to `)` is a call with one parameter per
      comma-separated part, each the parse of that part's text, in order. */
  lemma {:induction false} ParenParams(vss: seq<seq<Token>>, rest: seq<Token>, key: string, ops: seq<Op>)
    requires |vss| >= 1 && PlainParams(vss) && WellFormedStream(rest) && AllWide(ops)
    ensures WellFormedStream(Alternatives(vss) + ([RightParen1] + rest))
    ensures ParenLoop(Alternatives(vss) + ([RightParen1] + rest), key, ops, [])
      == CallOutcome(key, ops, ParseAll(AltTexts(vss)), rest)
    decreases |vss|
  {
    var close := [RightParen1] + rest;
    WellFormedAppend([RightParen1], rest);
    var v := vss[0];
    assert WellFormedStream(v) && forall t :: t in v ==> ParamText(t);
    if |vss| == 1 {
      assert AltTexts(vss) == [Text(v)];
      ParamsBase(v, rest, key, ops);
    } else {
      assert PlainParams(vss[1..]);
      var more := Alternatives(vss[1..]);
      assert Alternatives(vss) + close == v + ([Separator1] + (more + close));
      assert AltTexts(vss) == [Text(v)] + AltTexts(vss[1..]);
      if ParseDoc(Text(v)).Ok? {
        ParenParams(vss[1..], rest, key, ops + [ParseDoc(Text(v)).value]);
      } else {
        ParenParams(vss[1..], rest, key, ops);
      }
      WellFormedAppend(v, [Separator1] + (more + close));
      ParamsStep(v, more + close, AltTexts(vss[1..]), rest, key, ops);
    }
  }

  /** After the name and `(`, a modifier call is its parameter loop. */
  lemma ModifierOfHead(nameToken: Token, body: seq<Token>)
    requires WellFormedToken(nameToken) && WellFormedStream(body)
    ensures WellFormedStream([nameToken, LeftParen1] + body)
    ensures ModifierOf([nameToken, LeftParen1] + body) == ParenLoop(body, nameToken.value, [], [])
  {
    ControlTokensWellFormed(nameToken);
    assert WellFormedStream([nameToken, LeftParen1]);
    WellFormedAppend([nameToken, LeftParen1], body);
    var ts := [nameToken, LeftParen1] + body;
    assert Tail(ts) == [LeftParen1] + body && Head(Tail(ts)) == LeftParen1;
    assert Tail(Tail(ts)) == body;
  }

  /** The parameters of a call that parsed are the parses of the parts'
      texts, one per part, in source order. */
  lemma CallParams(key: string, vss: seq<seq<Token>>, rest: seq<Token>)
    ensures var r := CallOutcome(key, [], ParseAll(AltTexts(vss)), rest);
      r.Ok? ==>
        && r.value.value.key == key
        && |r.value.value.params| == |vss|
        && forall i :: 0 <= i < |vss| ==> ParseDoc(AltTexts(vss)[i]) == Ok(r.value.value.params[i])
  {
    var found := ParseAll(AltTexts(vss));
    ParseAllEach(AltTexts(vss));
    if found.Ok? {
      var none: seq<Op> := [];
      assert none + found.value == found.value;
    }
  }

  /** `name(p1,...,pn)`: a call of `name` whose parameters are the parses
      of the parts' texts, as many as there are parts, in source order. */
  lemma ModifierWithParams(nameToken: Token, vss: seq<seq<Token>>, rest: seq<Token>)
    requires WellFormedToken(nameToken) && |vss| >= 1 && PlainParams(vss) && WellFormedStream(rest)
    ensures var ts := [nameToken, LeftParen1] + (Alternatives(vss) + ([RightParen1] + rest));
      && WellFormedStream(ts)
      && ModifierOf(ts) == CallOutcome(nameToken.value, [], ParseAll(AltTexts(vss)), rest)
      && (ModifierOf(ts).Ok? ==>
            && ModifierOf(ts).value.value.key == nameToken.value
            && |ModifierOf(ts).value.value.params| == |vss|
            && forall i :: 0 <= i < |vss| ==>
                 ParseDoc(AltTexts(vss)[i]) == Ok(ModifierOf(ts).value.value.params[i]))
  {
    var body := Alternatives(vss) + ([RightParen1] + rest);
    ParenParams(vss, rest, nameToken.value, []);
    ModifierOfHead(nameToken, body);
    CallParams(nameToken.value, vss, rest);
  }

  /** Every parameter of a call that parses is a parse, so its Selects are
      wide. */
  lemma CallOfWide(c: CallSyntax)
    ensures CallOf(c).Ok? ==> ParamsWide(CallOf(c).value)
  {
    if c.WithParams? && ParseAll(AltTexts(c.params)).Ok? {
      var texts := AltTexts(c.params);
      var ps := ParseAll(texts).value;
      ParseAllEach(texts);
      forall p | p in ps ensures SelectsWide(p) {
        var i :| 0 <= i < |ps| && ps[i] == p;
        assert ParseDoc(texts[i]) == Ok(p);
      }
    }
  }

  /** One modifier call as written in a tag: `.name` or `.name(p1,...,pn)`. */
  datatype CallSyntax = Bare(name: Token) | WithParams(name: Token, params: seq<seq<Token>>)

  predicate CallSyntaxOk(c: CallSyntax)
  {
    WellFormedToken(c.name) && (c.WithParams? ==> |c.params| >= 1 && PlainParams(c.params))
  }

  predicate ChainOk(cs: seq<CallSyntax>)
  {
    forall i :: 0 <= i < |cs| ==> CallSyntaxOk(cs[i])
  }

  function CallTokens(c: CallSyntax): seq<Token>
    requires CallSyntaxOk(c)
  {
    match c
    case Bare(n) => [Period1, n]
    case WithParams(n, vss) => [Period1, n, LeftParen1] + Alternatives(vss) + [RightParen1]
  }

  function ChainTokens(cs: seq<CallSyntax>): seq<Token>
    requires ChainOk(cs)
  {
    if cs == [] then [] else CallTokens(cs[0]) + ChainTokens(cs[1..])
  }

  /** The call a piece of modifier syntax stands for, or the fault of the
      first parameter that does not parse. */
  function CallOf(c: CallSyntax): Outcome<ModCall>
  {
    match c
    case Bare(n) => Ok(ModCall(n.value, []))
    case WithParams(n, vss) =>
      match ParseAll(AltTexts(vss))
      case Fail(f) => Fail(f)
      case Ok(ps) => Ok(ModCall(n.value, ps))
  }

  /** One call in front of the calls after it, or the first fault. */
  function ConsCalls(d: Outcome<ModCall>, found: Outcome<seq<ModCall>>): Outcome<seq<ModCall>>
  {
    if d.Fail? then Fail(d.fault)
    else if found.Fail? then Fail(found.fault)
    else Ok([d.value] + found.value)
  }

  function CallsOf(cs: seq<CallSyntax>): Outcome<seq<ModCall>>
  {
    if cs == [] then Ok([]) else ConsCalls(CallOf(cs[0]), CallsOf(cs[1..]))
  }

  /** A chain with one more call in front. */
  lemma ChainCons(c: CallSyntax, cs: seq<CallSyntax>)
    requires CallSyntaxOk(c) && ChainOk(cs)
    ensures ChainOk([c] + cs)
    ensures ChainTokens([c] + cs) == CallTokens(c) + ChainTokens(cs)
    ensures CallsOf([c] + cs) == ConsCalls(CallOf(c), CallsOf(cs))
  {
    assert ([c] + cs)[0] == c && ([c] + cs)[1..] == cs;
  }

  /** What a tag whose modifier chain gave `found` returns. */
  function SymbolOutcome(key: string, mods: seq<ModCall>, found: Outcome<seq<ModCall>>, rest: seq<Token>): Outcome<Parsed<Op>>
  {
    if found.Fail? then Fail(found.fault) else Ok(Parsed(Symbol(key, mods + found.value), rest))
  }

  lemma {:induction false} ParamsWellFormed(vss: seq<seq<Token>>)
    requires |vss| >= 1 && PlainParams(vss)
    ensures WellFormedStream(Alternatives(vss))
    decreases |vss|
  {
    if |vss| > 1 {
      assert PlainParams(vss[1..]);
      ParamsWellFormed(vss[1..]);
      WellFormedAppend(vss[0], [Separator1]);
      WellFormedAppend(vss[0] + [Separator1], Alternatives(vss[1..]));
    }
  }

  lemma ControlTokensWellFormed(n: Token)
    requires WellFormedToken(n)
    ensures WellFormedStream([Period1, n]) && WellFormedStream([Period1, n, LeftParen1])
    ensures WellFormedStream([RightParen1]) && WellFormedStream([Hash1]) && WellFormedStream([Hash1, n])
  {
    assert Classify('.') == Period && Classify('(') == LeftParen;
    assert Classify(')') == RightParen && Classify('#') == Octo;
  }

  lemma CallTokensWellFormed(c: CallSyntax)
    requires CallSyntaxOk(c)
    ensures WellFormedStream(CallTokens(c))
  {
    ControlTokensWellFormed(c.name);
    match c
    case Bare(n) =>
    case WithParams(n, vss) =>
      ParamsWellFormed(vss);
      var head := [Period1, n, LeftParen1];
      WellFormedAppend(head, Alternatives(vss));
      WellFormedAppend(head + Alternatives(vss), [RightParen1]);
  }

  lemma {:induction false} ChainWellFormed(cs: seq<CallSyntax>)
    requires ChainOk(cs)
    ensures WellFormedStream(ChainTokens(cs))
    decreases |cs|
  {
    if cs != [] {
      assert ChainOk(cs[1..]);
      ChainWellFormed(cs[1..]);
      CallTokensWellFormed(cs[0]);
      WellFormedAppend(CallTokens(cs[0]), ChainTokens(cs[1..]));
    }
  }

  /** A modifier chain closed by `#` is well formed and is never followed
      by `(`: it starts with `.` or is the closing `#` itself. */
  lemma ChainTokensFacts(cs: seq<CallSyntax>, rest: seq<Token>)
    requires ChainOk(cs) && WellFormedStream(rest)
    ensures WellFormedStream(ChainTokens(cs) + ([Hash1] + rest))
    ensures Head(ChainTokens(cs) + ([Hash1] + rest)).kind != LeftParen
  {
    ControlTokensWellFormed(Hash1);
    WellFormedAppend([Hash1], rest);
    ChainWellFormed(cs);
    WellFormedAppend(ChainTokens(cs), [Hash1] + rest);
    if cs == [] {
      assert ChainTokens(cs) + ([Hash1] + rest) == [Hash1] + rest;
    } else {
      assert ChainOk(cs[1..]);
      assert CallTokens(cs[0])[0] == Period1;
      assert (ChainTokens(cs) + ([Hash1] + rest))[0] == Period1;
    }
  }

  /** `.name(p1,...,pn)` at the front of the tag's loop adds the call
      with the parameters' parses. */
  lemma ParamsCallStep(n: Token, vss: seq<seq<Token>>, after: seq<Token>, key: string, mods: seq<ModCall>)
    requires WellFormedToken(n) && |vss| >= 1 && PlainParams(vss) && WellFormedStream(after)
    requires forall m :: m in mods ==> ParamsWide(m)
    ensures var ts := [Period1] + ([n, LeftParen1] + (Alternatives(vss) + ([RightParen1] + after)));
      var found := ParseAll(AltTexts(vss));
      && WellFormedStream(ts)
      && (found.Fail? ==> TagLoop(ts, key, mods) == Fail(found.fault))
      && (found.Ok? ==>
            && ParamsWide(ModCall(n.value, found.value))
            && TagLoop(ts, key, mods) == TagLoop(after, key, mods + [ModCall(n.value, found.value)]))
  {
    var call := [n, LeftParen1] + (Alternatives(vss) + ([RightParen1] + after));
    ModifierWithParams(n, vss, after);
    ControlTokensWellFormed(n);
    WellFormedAppend([Period1], call);
    var ts := [Period1] + call;
    assert ts[0].kind == Period && ts[1..] == call;
    var found := ParseAll(AltTexts(vss));
    if found.Ok? {
      var none: seq<Op> := [];
      assert none + found.value == found.value;
      assert ModifierOf(call) == Ok(Parsed(ModCall(n.value, found.value), after));
    }
  }

  /** One modifier call at the front of the tag's loop. */
  lemma ChainStep(c: CallSyntax, after: seq<Token>, key: string, mods: seq<ModCall>)
    requires CallSyntaxOk(c) && WellFormedStream(after) && Head(after).kind != LeftParen
    requires forall m :: m in mods ==> ParamsWide(m)
    ensures WellFormedStream(CallTokens(c) + after)
    ensures CallOf(c).Fail? ==> TagLoop(CallTokens(c) + after, key, mods) == Fail(CallOf(c).fault)
    ensures CallOf(c).Ok? ==>
      && ParamsWide(CallOf(c).value)
      && TagLoop(CallTokens(c) + after, key, mods) == TagLoop(after, key, mods + [CallOf(c).value])
  {
    match c
    case Bare(n) =>
      ModifierWithoutParams(n, after, key, mods);
    case WithParams(n, vss) =>
      ParamsCallStep(n, vss, after, key, mods);
      WithParamsTokens(n, vss, after);
  }

  /** The tokens of `.name(p1,...,pn)` in front of the rest, regrouped. */
  lemma WithParamsTokens(n: Token, vss: seq<seq<Token>>, after: seq<Token>)
    requires CallSyntaxOk(WithParams(n, vss))
    ensures CallTokens(WithParams(n, vss)) + after
         == [Period1] + ([n, LeftParen1] + (Alternatives(vss) + ([RightParen1] + after)))
  {
    Concat4([Period1, n, LeftParen1], Alternatives(vss), [RightParen1], after);
    assert [Period1, n, LeftParen1] + (Alternatives(vss) + ([RightParen1] + after))
        == [Period1] + ([n, LeftParen1] + (Alternatives(vss) + ([RightParen1] + after)));
  }

  /** The closing `#` ends the tag with the calls gathered so far. */
  lemma ChainEnd(rest: seq<Token>, key: string, mods: seq<ModCall>)
    requires WellFormedStream(rest)
    requires forall m :: m in mods ==> ParamsWide(m)
    ensures WellFormedStream([Hash1] + rest)
    ensures TagLoop([Hash1] + rest, key, mods) == SymbolOutcome(key, mods, Ok([]), rest)
  {
    ControlTokensWellFormed(Hash1);
    WellFormedAppend([Hash1], rest);
    assert ([Hash1] + rest)[0].kind == Octo && ([Hash1] + rest)[1..] == rest;
    assert mods + [] == mods;
  }

  /** A call gathered before the others are. */
  lemma SymbolOutcomeCons(key: string, mods: seq<ModCall>, m: ModCall, found: Outcome<seq<ModCall>>, rest: seq<Token>)
    ensures SymbolOutcome(key, mods + [m], found, rest) == SymbolOutcome(key, mods, ConsCalls(Ok(m), found), rest)
  {
    if found.Ok? {
      assert mods + [m] + found.value == mods + ([m] + found.value);
    }
  }

  /** One call in front of the rest of the tag. */
  lemma PrefixCall(c: CallSyntax, after: seq<Token>, key: string, mods: seq<ModCall>, found: Outcome<seq<ModCall>>, rest: seq<Token>)
    requires CallSyntaxOk(c) && WellFormedStream(after) && Head(after).kind != LeftParen
    requires forall m :: m in mods ==> ParamsWide(m)
    requires CallOf(c).Ok? ==>
      && (forall m :: m in mods + [CallOf(c).value] ==> ParamsWide(m))
      && TagLoop(after, key, mods + [CallOf(c).value]) == SymbolOutcome(key, mods + [CallOf(c).value], found, rest)
    ensures WellFormedStream(CallTokens(c) + after)
    ensures TagLoop(CallTokens(c) + after, key, mods) == SymbolOutcome(key, mods, ConsCalls(CallOf(c), found), rest)
  {
    ChainStep(c, after, key, mods);
    if CallOf(c).Ok? {
      SymbolOutcomeCons(key, mods, CallOf(c).value, found, rest);
    }
  }

  /** The tag's loop over a chain of modifier calls and the closing `#`. */
  lemma {:induction false} ChainLoop(cs: seq<CallSyntax>, rest: seq<Token>, key: string, mods: seq<ModCall>)
    requires ChainOk(cs) && WellFormedStream(rest)
    requires forall m :: m in mods ==> ParamsWide(m)
    ensures WellFormedStream(ChainTokens(cs) + ([Hash1] + rest))
    ensures TagLoop(ChainTokens(cs) + ([Hash1] + rest), key, mods) == SymbolOutcome(key, mods, CallsOf(cs), rest)
    decreases |cs|
  {
    if cs == [] {
      assert ChainTokens(cs) + ([Hash1] + rest) == [Hash1] + rest;
      ChainEnd(rest, key, mods);
    } else {
      assert ChainOk(cs[1..]);
      var after := ChainTokens(cs[1..]) + ([Hash1] + rest);
      ChainTokensFacts(cs[1..], rest);
      var c := CallOf(cs[0]);
      if c.Ok? {
        CallOfWide(cs[0]);
        assert forall x :: x in mods + [c.value] ==> x in mods || x == c.value;
        ChainLoop(cs[1..], rest, key, mods + [c.value]);
      }
      assert ChainTokens(cs) + ([Hash1] + rest) == CallTokens(cs[0]) + after;
      PrefixCall(cs[0], after, key, mods, CallsOf(cs[1..]), rest);
    }
  }

  /** `#k.m1.m2(...)...#`: a Symbol of `k` with the calls in source
      order, each with the parses of its parameters; or the fault of the
      first parameter that does not parse. */
  lemma TagWithModifiers(keyToken: Token, cs: seq<CallSyntax>, rest: seq<Token>)
    requires WellFormedToken(keyToken) && ChainOk(cs) && WellFormedStream(rest)
    ensures var ts := [Hash1, keyToken] + (ChainTokens(cs) + ([Hash1] + rest));
      && WellFormedStream(ts)
      && TagOf(ts) == SymbolOutcome(keyToken.value, [], CallsOf(cs), rest)
  {
    var body := ChainTokens(cs) + ([Hash1] + rest);
    ChainLoop(cs, rest, keyToken.value, []);
    WellFormedAppend([Hash1, keyToken], body);
    var ts := [Hash1, keyToken] + body;
    assert Tail(ts) == [keyToken] + body && Head(Tail(ts)) == keyToken;
    assert Tail(Tail(ts)) == body;
    var found := CallsOf(cs);
    if found.Ok? {
      var none: seq<ModCall> := [];
      assert none + found.value == found.value;
    }
  }

  /** Every call of a chain that parses is there, in order: the i-th
      call is the i-th piece of syntax. */
  lemma {:induction false} CallsInOrder(cs: seq<CallSyntax>)
    ensures CallsOf(cs).Ok? ==>
      && |CallsOf(cs).value| == |cs|
      && forall i :: 0 <= i < |cs| ==> CallOf(cs[i]) == Ok(CallsOf(cs).value[i])
    decreases |cs|
  {
    if cs != [] && CallsOf(cs).Ok? {
      CallsInOrder(cs[1..]);
      forall i | 0 <= i < |cs|
        ensures CallOf(cs[i]) == Ok(CallsOf(cs).value[i])
      {
        if i > 0 {
          assert cs[i] == cs[1..][i - 1];
        }
      }
    }
  }
}
