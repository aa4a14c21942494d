/** The parser of parse/parse.go: templates to operation trees.

    The functions `ParseDoc`, `ActionOf`, `TagOf`, `ModifierOf` and
    `LiteralOf` are the specification, written over the token stream a
    scanner hands out (`Scan.Lex`). Each returns what it parsed and the
    stream left after it. The methods `String`, `Strings`, `ParseAction`,
    `ParseTag`, `ParseModifier` and `ParseLiteral` are the Go functions,
    reading tokens from a `Scanner` one by one; each is proved to agree with
    its specification.

    The loops of the action, tag and parameter parsers have no exit for the
    end of input: `Next` keeps returning EOF and the Go loop never ends.
    That outcome is `Fail(Unterminated)` here. */
module Parse {
  import opened Outcomes
  import opened GoStrings
  import opened Scan
  import opened ScanFacts
  import opened Ops

  /** A parsed value and the tokens left after it. */
  datatype Parsed<T> = Parsed(value: T, rest: seq<Token>)

  function Detach<T>(r: Outcome<Parsed<T>>): Outcome<T>
  {
    match r
    case Ok(p) => Ok(p.value)
    case Fail(f) => Fail(f)
  }

  predicate AllWide(ops: seq<Op>)
  {
    forall op :: op in ops ==> SelectsWide(op)
  }

  /** How `String` wraps what it collected: nothing is the empty literal,
      one operation stands alone, more are concatenated. */
  function Sequence(ops: seq<Op>): (r: Op)
    ensures AllWide(ops) ==> SelectsWide(r)
  {
    if |ops| == 0 then Literal([])
    else if |ops| == 1 then (assert ops[0] in ops; ops[0])
    else Concat(ops)
  }

  /** How `Strings` and an action wrap alternatives: nothing is the empty
      literal, one stands alone, more become a Select. */
  function Choice(ops: seq<Op>): (r: Op)
    ensures AllWide(ops) ==> SelectsWide(r)
  {
    if |ops| == 0 then Literal([])
    else if |ops| == 1 then (assert ops[0] in ops; ops[0])
    else Select(ops)
  }

  /** Taking a token off the front keeps the stream well formed and makes
      its text shorter. */
  lemma TailFacts(ts: seq<Token>)
    requires WellFormedStream(ts)
    ensures WellFormedStream(Tail(ts))
    ensures |Text(Tail(ts))| <= |Text(ts)|
    ensures ts != [] ==> |Text(Tail(ts))| < |Text(ts)|
    ensures ts != [] ==> Tail(ts) == ts[1..] && Text(ts) == ts[0].value + Text(ts[1..])
    ensures ts != [] ==> WellFormedToken(ts[0])
    ensures Head(ts).kind == EOF <==> ts == []
  {
    if ts != [] {
      assert ts[0] in ts;
      forall t | t in ts[1..] ensures WellFormedToken(t) {
        assert t in ts;
      }
    }
  }

  /** `String`: the whole template. */
  function ParseDoc(input: string): (r: Outcome<Op>)
    ensures r.Ok? ==> SelectsWide(r.value)
    ensures r.Fail? ==> r.fault == Unterminated
    decreases |input|, 3, 0
  {
    LexWellFormed(input);
    LexTextLength(input);
    match DocLoop(Lex(input), [])
    case Ok(ops) => Ok(Sequence(ops))
    case Fail(f) => Fail(f)
  }

  /** The loop of `String`: one action, tag or literal at a time until the
      tokens run out. */
  function DocLoop(ts: seq<Token>, ops: seq<Op>): (r: Outcome<seq<Op>>)
    requires WellFormedStream(ts) && AllWide(ops)
    ensures r.Ok? ==> AllWide(r.value)
    ensures r.Fail? ==> r.fault == Unterminated
    decreases |Text(ts)|, 2, |ts|
  {
    TailFacts(ts);
    var token := Head(ts);
    if token.kind == EOF then Ok(ops)
    else
      var p := if token.kind == LeftBracket then ActionOf(ts)
               else if token.kind == Octo then TagOf(ts)
               else Ok(LiteralOf(ts));
      match p
      case Fail(f) => Fail(f)
      case Ok(Parsed(op, rest)) => DocLoop(rest, ops + [op])
  }

  /** `parseAction`: `[`, a key, `:`, then alternatives up to `]`; a token
      `POP` anywhere among them makes it a Pop and consumes one more
      token. Each alternative is the text of its tokens, parsed again. */
  function ActionOf(ts: seq<Token>): (r: Outcome<Parsed<Op>>)
    requires WellFormedStream(ts)
    ensures r.Ok? ==> WellFormedStream(r.value.rest) && |Text(r.value.rest)| < |Text(ts)|
    ensures r.Ok? ==> SelectsWide(r.value.value)
    ensures r.Fail? ==> r.fault == Unterminated
    decreases |Text(ts)|, 1, 0
  {
    TailFacts(ts);
    var afterBracket := Tail(ts);
    TailFacts(afterBracket);
    var key := Head(afterBracket).value;
    var afterKey := Tail(afterBracket);
    TailFacts(afterKey);
    ActionLoop(Tail(afterKey), key, [], [])
  }

  function ActionLoop(ts: seq<Token>, key: string, ops: seq<Op>, parts: seq<string>): (r: Outcome<Parsed<Op>>)
    requires WellFormedStream(ts) && AllWide(ops)
    ensures r.Ok? ==> WellFormedStream(r.value.rest) && |Text(r.value.rest)| < |Text(ts)|
    ensures r.Ok? ==> SelectsWide(r.value.value)
    ensures r.Fail? ==> r.fault == Unterminated
    decreases |Text(ts)| + |Join(parts)|, 0, |ts|
  {
    TailFacts(ts);
    if ts == [] then Fail(Unterminated)
    else
      var raw := ts[0];
      var rest := ts[1..];
      if raw.kind == RightBracket then
        match ParseDoc(Join(parts))
        case Fail(f) => Fail(f)
        case Ok(op) => Ok(Parsed(Push(key, Choice(ops + [op])), rest))
      else if raw.value == "POP" then
        TailFacts(rest);
        Ok(Parsed(Pop(key), Tail(rest)))
      else if raw.kind == Comma then
        match ParseDoc(Join(parts))
        case Fail(f) => Fail(f)
        case Ok(op) => ActionLoop(rest, key, ops + [op], [])
      else
        JoinAppend(parts, raw.value);
        ActionLoop(rest, key, ops, parts + [raw.value])
  }

  /** `parseTag`: `#`, a key, then modifiers after each `.` up to the
      closing `#`; any other token is skipped. */
  function TagOf(ts: seq<Token>): (r: Outcome<Parsed<Op>>)
    requires WellFormedStream(ts)
    ensures r.Ok? ==> WellFormedStream(r.value.rest) && |Text(r.value.rest)| < |Text(ts)|
    ensures r.Ok? ==> SelectsWide(r.value.value)
    ensures r.Fail? ==> r.fault == Unterminated
    decreases |Text(ts)|, 1, 0
  {
    TailFacts(ts);
    var afterOcto := Tail(ts);
    TailFacts(afterOcto);
    TagLoop(Tail(afterOcto), Head(afterOcto).value, [])
  }

  function TagLoop(ts: seq<Token>, key: string, mods: seq<ModCall>): (r: Outcome<Parsed<Op>>)
    requires WellFormedStream(ts)
    requires forall m :: m in mods ==> ParamsWide(m)
    ensures r.Ok? ==> WellFormedStream(r.value.rest) && |Text(r.value.rest)| < |Text(ts)|
    ensures r.Ok? ==> SelectsWide(r.value.value)
    ensures r.Fail? ==> r.fault == Unterminated
    decreases |Text(ts)|, 0, |ts|
  {
    TailFacts(ts);
    if ts == [] then Fail(Unterminated)
    else
      var raw := ts[0];
      var rest := ts[1..];
      if raw.kind == Octo then Ok(Parsed(Symbol(key, mods), rest))
      else if raw.kind == Period then
        match ModifierOf(rest)
        case Fail(f) => Fail(f)
        case Ok(Parsed(mod, after)) => TagLoop(after, key, mods + [mod])
      else TagLoop(rest, key, mods)
  }

  /** `parseModifier`: a name, then, only if `(` follows, parameters
      separated by `,` up to `)`, each parsed again from its text. */
  function ModifierOf(ts: seq<Token>): (r: Outcome<Parsed<ModCall>>)
    requires WellFormedStream(ts)
    ensures r.Ok? ==> WellFormedStream(r.value.rest) && |Text(r.value.rest)| <= |Text(ts)|
    ensures r.Ok? ==> ParamsWide(r.value.value)
    ensures r.Fail? ==> r.fault == Unterminated
    decreases |Text(ts)|, 1, 0
  {
    TailFacts(ts);
    var key := Head(ts).value;
    var afterKey := Tail(ts);
    TailFacts(afterKey);
    if Head(afterKey).kind != LeftParen then Ok(Parsed(ModCall(key, []), afterKey))
    else ParenLoop(Tail(afterKey), key, [], [])
  }

  function ParenLoop(ts: seq<Token>, key: string, ops: seq<Op>, parts: seq<string>): (r: Outcome<Parsed<ModCall>>)
    requires WellFormedStream(ts) && AllWide(ops)
    ensures r.Ok? ==> WellFormedStream(r.value.rest) && |Text(r.value.rest)| < |Text(ts)|
    ensures r.Ok? ==> ParamsWide(r.value.value)
    ensures r.Fail? ==> r.fault == Unterminated
    decreases |Text(ts)| + |Join(parts)|, 0, |ts|
  {
    TailFacts(ts);
    if ts == [] then Fail(Unterminated)
    else
      var raw := ts[0];
      var rest := ts[1..];
      if raw.kind == RightParen then
        match ParseDoc(Join(parts))
        case Fail(f) => Fail(f)
        case Ok(op) => Ok(Parsed(ModCall(key, ops + [op]), rest))
      else if raw.kind == Comma then
        match ParseDoc(Join(parts))
        case Fail(f) => Fail(f)
        case Ok(op) => ParenLoop(rest, key, ops + [op], [])
      else
        JoinAppend(parts, raw.value);
        ParenLoop(rest, key, ops, parts + [raw.value])
  }

  /** The token types a literal run stops at. */
  predicate EndsLiteral(k: TokenType)
  {
    k == LeftBracket || k == Octo || k == EOF || k == Error
  }

  /** `parseLiteral`: every token up to `[`, `#` or the end, values joined. */
  function LiteralOf(ts: seq<Token>): (r: Parsed<Op>)
    requires WellFormedStream(ts)
    ensures WellFormedStream(r.rest) && |Text(r.rest)| <= |Text(ts)|
    ensures !EndsLiteral(Head(ts).kind) ==> |Text(r.rest)| < |Text(ts)|
    ensures r.value.Literal?
  {
    LiteralLoop(ts, [])
  }

  function LiteralLoop(ts: seq<Token>, texts: seq<string>): (r: Parsed<Op>)
    requires WellFormedStream(ts)
    ensures WellFormedStream(r.rest) && |Text(r.rest)| <= |Text(ts)|
    ensures !EndsLiteral(Head(ts).kind) ==> |Text(r.rest)| < |Text(ts)|
    ensures r.value.Literal?
    decreases |ts|
  {
    TailFacts(ts);
    var token := Head(ts);
    if EndsLiteral(token.kind) then Parsed(Literal(Join(texts)), ts)
    else LiteralLoop(ts[1..], texts + [token.value])
  }

  /** `Strings`: every input parsed, in order. */
  function ParseAll(inputs: seq<string>): (r: Outcome<seq<Op>>)
    ensures r.Ok? ==> |r.value| == |inputs|
  {
    if inputs == [] then Ok([])
    else
      match ParseDoc(inputs[0])
      case Fail(f) => Fail(f)
      case Ok(op) =>
        match ParseAll(inputs[1..])
        case Fail(f) => Fail(f)
        case Ok(ops) => Ok([op] + ops)
  }

  function StringsOf(inputs: seq<string>): Outcome<Op>
  {
    match ParseAll(inputs)
    case Ok(ops) => Ok(Choice(ops))
    case Fail(f) => Fail(f)
  }

  /** Parsed operations in front of the ones still to come. */
  function PrependOps(done: seq<Op>, r: Outcome<seq<Op>>): Outcome<seq<Op>>
  {
    match r
    case Ok(ops) => Ok(done + ops)
    case Fail(f) => Fail(f)
  }

  method String(input: string) returns (r: Outcome<Op>)
    ensures r == ParseDoc(input)
    decreases |input|, 3, 0
  {
    LexWellFormed(input);
    LexTextLength(input);
    var ops: seq<Op> := [];
    var scanner := new Scanner(input);
    while true
      invariant scanner.Valid() && WellFormedStream(scanner.Stream())
      invariant |Text(scanner.Stream())| <= |input|
      invariant AllWide(ops)
      invariant DocLoop(scanner.Stream(), ops) == DocLoop(Lex(input), [])
      decreases |Text(scanner.Stream())|, |scanner.Stream()|
    {
      ghost var ts := scanner.Stream();
      TailFacts(ts);
      var token := scanner.Peek();
      if token.kind == EOF {
        break;
      }
      var op: Outcome<Op>;
      if token.kind == LeftBracket {
        op := ParseAction(scanner);
      } else if token.kind == Octo {
        op := ParseTag(scanner);
      } else {
        var literal := ParseLiteral(scanner);
        op := Ok(literal);
      }
      if op.Fail? {
        return Fail(op.fault);
      }
      ops := ops + [op.value];
    }
    if |ops| == 0 {
      return Ok(Literal(""));
    }
    if |ops| == 1 {
      return Ok(ops[0]);
    }
    return Ok(Concat(ops));
  }

  /** Every parse `ParseAll` returns is the parse of the input at its
      place. */
  lemma {:induction false} ParseAllEach(inputs: seq<string>)
    ensures ParseAll(inputs).Ok? ==>
      forall i :: 0 <= i < |inputs| ==> ParseDoc(inputs[i]) == Ok(ParseAll(inputs).value[i])
  {
    if inputs != [] && ParseAll(inputs).Ok? {
      ParseAllEach(inputs[1..]);
      forall i | 0 <= i < |inputs|
        ensures ParseDoc(inputs[i]) == Ok(ParseAll(inputs).value[i])
      {
        if i > 0 {
          assert inputs[i] == inputs[1..][i - 1];
        }
      }
    }
  }

  /** `ParseAll` over `inputs[i..]`, one input taken off the front. */
  lemma PrependStep(inputs: seq<string>, i: nat, ops: seq<Op>)
    requires i < |inputs|
    ensures ParseDoc(inputs[i]).Fail? ==>
      PrependOps(ops, ParseAll(inputs[i..])) == Fail(ParseDoc(inputs[i]).fault)
    ensures ParseDoc(inputs[i]).Ok? ==>
      PrependOps(ops, ParseAll(inputs[i..]))
        == PrependOps(ops + [ParseDoc(inputs[i]).value], ParseAll(inputs[i + 1..]))
  {
    assert inputs[i..][0] == inputs[i] && inputs[i..][1..] == inputs[i + 1..];
    if ParseDoc(inputs[i]).Ok? && ParseAll(inputs[i + 1..]).Ok? {
      Concat3(ops, [ParseDoc(inputs[i]).value], ParseAll(inputs[i + 1..]).value);
    }
  }

  method Strings(inputs: seq<string>) returns (r: Outcome<Op>)
    ensures r == StringsOf(inputs)
  {
    var ops: seq<Op> := [];
    var i := 0;
    assert inputs[i..] == inputs;
    match ParseAll(inputs) {
      case Ok(all) => assert ops + all == all;
      case Fail(_) =>
    }
    while i < |inputs|
      invariant 0 <= i <= |inputs|
      invariant ParseAll(inputs) == PrependOps(ops, ParseAll(inputs[i..]))
    {
      PrependStep(inputs, i, ops);
      var op := String(inputs[i]);
      if op.Fail? {
        return Fail(op.fault);
      }
      ops := ops + [op.value];
      i := i + 1;
    }
    assert inputs[i..] == [] && ops + [] == ops;
    if |ops| == 0 {
      return Ok(Literal(""));
    }
    if |ops| == 1 {
      return Ok(ops[0]);
    }
    return Ok(Select(ops));
  }

  method ParseAction(s: Scanner) returns (r: Outcome<Op>)
    requires s.Valid() && WellFormedStream(s.Stream())
    modifies s
    ensures s.Valid() && WellFormedStream(s.Stream())
    ensures r == Detach(ActionOf(old(s.Stream())))
    ensures r.Ok? ==> s.Stream() == ActionOf(old(s.Stream())).value.rest
    decreases |Text(s.Stream())|, 1, 0
  {
    ghost var ts := s.Stream();
    TailFacts(ts);
    var bracket := s.Next();
    TailFacts(s.Stream());
    var keyToken := s.Next();
    var key := keyToken.value;
    TailFacts(s.Stream());
    var colon := s.Next();
    var ops: seq<Op> := [];
    var ruleParts: seq<string> := [];
    while true
      invariant s.Valid() && WellFormedStream(s.Stream())
      invariant AllWide(ops)
      invariant |Text(s.Stream())| + |Join(ruleParts)| <= |Text(ts)|
      invariant ActionLoop(s.Stream(), key, ops, ruleParts) == ActionOf(ts)
      decreases |Text(s.Stream())| + |Join(ruleParts)|, |s.Stream()|
    {
      ghost var cur := s.Stream();
      TailFacts(cur);
      var rawValue := s.Next();
      if rawValue.kind == EOF {
        // Next keeps returning EOF: the Go loop never ends.
        return Fail(Unterminated);
      }
      if rawValue.kind == RightBracket {
        var op := String(Join(ruleParts));
        if op.Fail? {
          return Fail(op.fault);
        }
        ops := ops + [op.value];
        break;
      }
      if rawValue.value == "POP" {
        TailFacts(s.Stream());
        var closing := s.Next();
        return Ok(Pop(key));
      }
      if rawValue.kind == Comma {
        var op := String(Join(ruleParts));
        if op.Fail? {
          return Fail(op.fault);
        }
        ops := ops + [op.value];
        ruleParts := [];
        continue;
      }
      JoinAppend(ruleParts, rawValue.value);
      ruleParts := ruleParts + [rawValue.value];
    }
    if |ops| == 0 {
      return Ok(Push(key, Literal("")));
    }
    if |ops| == 1 {
      return Ok(Push(key, ops[0]));
    }
    return Ok(Push(key, Select(ops)));
  }

  method ParseTag(s: Scanner) returns (r: Outcome<Op>)
    requires s.Valid() && WellFormedStream(s.Stream())
    modifies s
    ensures s.Valid() && WellFormedStream(s.Stream())
    ensures r == Detach(TagOf(old(s.Stream())))
    ensures r.Ok? ==> s.Stream() == TagOf(old(s.Stream())).value.rest
    decreases |Text(s.Stream())|, 1, 0
  {
    ghost var ts := s.Stream();
    TailFacts(ts);
    var octo := s.Next();
    TailFacts(s.Stream());
    var keyToken := s.Next();
    var key := keyToken.value;
    var mods: seq<ModCall> := [];
    var ruleParts: seq<string> := [];
    while true
      invariant s.Valid() && WellFormedStream(s.Stream())
      invariant forall m :: m in mods ==> ParamsWide(m)
      invariant |Text(s.Stream())| <= |Text(ts)|
      invariant TagLoop(s.Stream(), key, mods) == TagOf(ts)
      decreases |Text(s.Stream())|, |s.Stream()|
    {
      ghost var cur := s.Stream();
      TailFacts(cur);
      var rawValue := s.Next();
      if rawValue.kind == EOF {
        // Next keeps returning EOF: the Go loop never ends.
        return Fail(Unterminated);
      }
      if rawValue.kind == Octo {
        break;
      }
      if rawValue.kind == Period {
        var mod := ParseModifier(s);
        if mod.Fail? {
          return Fail(mod.fault);
        }
        mods := mods + [mod.value];
        continue;
      }
      ruleParts := ruleParts + [rawValue.value];
    }
    return Ok(Symbol(key, mods));
  }

  method ParseModifier(s: Scanner) returns (r: Outcome<ModCall>)
    requires s.Valid() && WellFormedStream(s.Stream())
    modifies s
    ensures s.Valid() && WellFormedStream(s.Stream())
    ensures r == Detach(ModifierOf(old(s.Stream())))
    ensures r.Ok? ==> s.Stream() == ModifierOf(old(s.Stream())).value.rest
    decreases |Text(s.Stream())|, 1, 0
  {
    ghost var ts := s.Stream();
    TailFacts(ts);
    var keyToken := s.Next();
    var key := keyToken.value;
    TailFacts(s.Stream());
    var next := s.Peek();
    if next.kind != LeftParen {
      return Ok(ModCall(key, []));
    }
    var paren := s.Next();
    var ops: seq<Op> := [];
    var ruleParts: seq<string> := [];
    while true
      invariant s.Valid() && WellFormedStream(s.Stream())
      invariant AllWide(ops)
      invariant |Text(s.Stream())| + |Join(ruleParts)| < |Text(ts)|
      invariant ParenLoop(s.Stream(), key, ops, ruleParts) == ModifierOf(ts)
      decreases |Text(s.Stream())| + |Join(ruleParts)|, |s.Stream()|
    {
      ghost var cur := s.Stream();
      TailFacts(cur);
      var rawValue := s.Next();
      if rawValue.kind == EOF {
        // Next keeps returning EOF: the Go loop never ends.
        return Fail(Unterminated);
      }
      if rawValue.kind == RightParen {
        var op := String(Join(ruleParts));
        if op.Fail? {
          return Fail(op.fault);
        }
        ops := ops + [op.value];
        break;
      }
      if rawValue.kind == Comma {
        var op := String(Join(ruleParts));
        if op.Fail? {
          return Fail(op.fault);
        }
        ops := ops + [op.value];
        ruleParts := [];
        continue;
      }
      JoinAppend(ruleParts, rawValue.value);
      ruleParts := ruleParts + [rawValue.value];
    }
    return Ok(ModCall(key, ops));
  }

  method ParseLiteral(s: Scanner) returns (op: Op)
    requires s.Valid() && WellFormedStream(s.Stream())
    modifies s
    ensures s.Valid() && WellFormedStream(s.Stream())
    ensures Parsed(op, s.Stream()) == LiteralOf(old(s.Stream()))
  {
    var texts: seq<string> := [];
    while true
      invariant s.Valid() && WellFormedStream(s.Stream())
      invariant LiteralLoop(s.Stream(), texts) == LiteralOf(old(s.Stream()))
      decreases |s.Stream()|
    {
      TailFacts(s.Stream());
      var token := s.Peek();
      if EndsLiteral(token.kind) {
        break;
      }
      var t := s.Next();
      texts := texts + [t.value];
    }
    op := Literal(Join(texts));
  }
}
