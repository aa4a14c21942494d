/** Templates from the grammar's own test suite (grammar_test.go), carried
    through the whole model: scanned, parsed, and flattened against the
    stacks the test sets up. */
module Scenarios {
  import opened Outcomes
  import opened GoStrings
  import opened Scan
  import opened ScanFacts
  import opened Ops
  import opened Context
  import opened Exec
  import opened Parse
  import opened ParseFacts
  import opened Tracery

  /** A run of ordinary code points, scanned as one Word. */
  predicate PlainWord(w: string)
  {
    w != [] && forall i :: 0 <= i < |w| ==> Classify(w[i]) == Word
  }

  /** A control character is a token of its own. */
  lemma LexControlThen(c: char, rest: string)
    requires Classify(c) != Word && c != Backslash
    ensures Lex([c] + rest) == [Token(Classify(c), [c])] + Lex(rest)
  {
    var e: string := [];
    LexRunThen(e, c, rest);
    assert e + [c] + rest == [c] + rest;
    assert ReplaceAll(e, [Backslash], []) == [];
    assert Emitted(Word, e) == [];
  }

  /** A plain word, then a control character. */
  lemma LexWordThen(w: string, c: char, rest: string)
    requires PlainWord(w) && Classify(c) != Word && c != Backslash
    ensures Lex(w + [c] + rest) == [Token(Word, w), Token(Classify(c), [c])] + Lex(rest)
  {
    PlainIsEscaped(w);
    LexRunThen(w, c, rest);
    ReplaceCharByNothing(w, Backslash);
  }

  function W(s: string): Token { Token(Word, s) }

  const LB := Token(LeftBracket, "[")
  const RB := Token(RightBracket, "]")
  const Colon1 := Token(Colon, ":")
  const Comma1 := Token(Comma, ",")
  const Octo1 := Token(Octo, "#")

  /** `[k:v]` scans as five tokens. */
  lemma LexAction(k: string, v: string, rest: string)
    requires PlainWord(k) && PlainWord(v)
    ensures Lex("[" + k + ":" + v + "]" + rest) == [LB, W(k), Colon1, W(v), RB] + Lex(rest)
  {
    var s := "[" + k + ":" + v + "]" + rest;
    assert s == ['['] + (k + [':'] + (v + [']'] + rest));
    LexControlThen('[', k + [':'] + (v + [']'] + rest));
    LexWordThen(k, ':', v + [']'] + rest);
    LexWordThen(v, ']', rest);
  }

  /** `#k#` scans as three tokens. */
  lemma LexTag(k: string, rest: string)
    requires PlainWord(k)
    ensures Lex("#" + k + "#" + rest) == [Octo1, W(k), Octo1] + Lex(rest)
  {
    var s := "#" + k + "#" + rest;
    assert s == ['#'] + (k + ['#'] + rest);
    LexControlThen('#', k + ['#'] + rest);
    LexWordThen(k, '#', rest);
  }

  /** A template piece of the simple kinds the tests use: `[k:v]`,
      `[k:POP]` and `#k#`, with plain words for keys and values. */
  datatype Piece = Assign(key: string, value: string) | Drop(key: string) | Read(key: string)

  predicate PieceOk(p: Piece)
  {
    PlainWord(p.key) && (p.Assign? ==> PlainWord(p.value) && p.value != "POP")
  }

  function PieceText(p: Piece): string
  {
    match p
    case Assign(k, v) => "[" + k + ":" + v + "]"
    case Drop(k) => "[" + k + ":" + "POP" + "]"
    case Read(k) => "#" + k + "#"
  }

  function PieceTokens(p: Piece): seq<Token>
  {
    match p
    case Assign(k, v) => [LB, W(k), Colon1, W(v), RB]
    case Drop(k) => [LB, W(k), Colon1, W("POP"), RB]
    case Read(k) => [Octo1, W(k), Octo1]
  }

  /** The operation a piece stands for. */
  function PieceOp(p: Piece): Op
  {
    match p
    case Assign(k, v) => Push(k, Literal(v))
    case Drop(k) => Pop(k)
    case Read(k) => Symbol(k, [])
  }

  function TemplateText(ps: seq<Piece>): string
  {
    if ps == [] then [] else PieceText(ps[0]) + TemplateText(ps[1..])
  }

  function TemplateTokens(ps: seq<Piece>): seq<Token>
  {
    if ps == [] then [] else PieceTokens(ps[0]) + TemplateTokens(ps[1..])
  }

  function TemplateOps(ps: seq<Piece>): (r: seq<Op>)
    ensures |r| == |ps|
  {
    if ps == [] then [] else [PieceOp(ps[0])] + TemplateOps(ps[1..])
  }

  predicate TemplateOk(ps: seq<Piece>)
  {
    forall i :: 0 <= i < |ps| ==> PieceOk(ps[i])
  }

  lemma PlainWordToken(w: string)
    requires PlainWord(w)
    ensures WellFormedToken(W(w))
  {
    PlainIsEscaped(w);
  }

  lemma LexPiece(p: Piece, rest: string)
    requires PieceOk(p)
    ensures Lex(PieceText(p) + rest) == PieceTokens(p) + Lex(rest)
  {
    match p
    case Assign(k, v) =>
      LexAction(k, v, rest);
    case Drop(k) =>
      assert PlainWord("POP");
      LexAction(k, "POP", rest);
    case Read(k) =>
      LexTag(k, rest);
  }

  /** A template of simple pieces scans to their tokens, one after another. */
  lemma {:induction false} LexTemplate(ps: seq<Piece>)
    requires TemplateOk(ps)
    ensures Lex(TemplateText(ps)) == TemplateTokens(ps)
    ensures WellFormedStream(TemplateTokens(ps))
    decreases |ps|
  {
    if ps == [] {
      LexEmpty();
    } else {
      assert TemplateOk(ps[1..]) by {
        forall i | 0 <= i < |ps[1..]| ensures PieceOk(ps[1..][i]) {
          assert ps[1..][i] == ps[i + 1];
        }
      }
      assert PieceOk(ps[0]);
      LexTemplate(ps[1..]);
      LexPiece(ps[0], TemplateText(ps[1..]));
      LexWellFormed(TemplateText(ps));
    }
  }

  /** An action or a tag at the front of the parser's main loop adds its
      operation and the loop goes on after it. */
  lemma DocStep(ts: seq<Token>, ops: seq<Op>, op: Op, rest: seq<Token>)
    requires WellFormedStream(ts) && AllWide(ops) && ts != []
    requires || (ts[0].kind == LeftBracket && ActionOf(ts) == Ok(Parsed(op, rest)))
             || (ts[0].kind == Octo && TagOf(ts) == Ok(Parsed(op, rest)))
    ensures WellFormedStream(rest) && AllWide(ops + [op])
    ensures DocLoop(ts, ops) == DocLoop(rest, ops + [op])
  {
    assert forall o :: o in ops + [op] ==> o in ops || o == op;
  }

  lemma DocAssign(k: string, v: string, rest: seq<Token>, ops: seq<Op>)
    requires PieceOk(Assign(k, v)) && WellFormedStream(rest) && AllWide(ops)
    ensures WellFormedStream(PieceTokens(Assign(k, v)) + rest)
    ensures DocLoop(PieceTokens(Assign(k, v)) + rest, ops) == DocLoop(rest, ops + [Push(k, Literal(v))])
  {
    PlainWordToken(k);
    PlainWordToken(v);
    var vs := [W(v)];
    assert Text(vs) == v + Text(vs[1..]) && vs[1..] == [] && v + [] == v;
    assert '[' !in v && '#' !in v && Backslash !in v by {
      PlainIsEscaped(v);
      assert forall i :: 0 <= i < |v| ==> Classify(v[i]) == Word;
    }
    PlainTextIsLiteral(v);
    assert WellFormedStream(vs) && forall t :: t in vs ==> ActionText(t);
    SimpleAction(W(k), vs, rest);
    assert [LB, W(k), Colon1] + vs + [RB] + rest == PieceTokens(Assign(k, v)) + rest;
    DocStep(PieceTokens(Assign(k, v)) + rest, ops, Push(k, Literal(v)), rest);
  }

  lemma DocDrop(k: string, rest: seq<Token>, ops: seq<Op>)
    requires PieceOk(Drop(k)) && WellFormedStream(rest) && AllWide(ops)
    ensures WellFormedStream(PieceTokens(Drop(k)) + rest)
    ensures DocLoop(PieceTokens(Drop(k)) + rest, ops) == DocLoop(rest, ops + [Pop(k)])
  {
    PlainWordToken(k);
    var e: seq<Token> := [];
    WellFormedAppend([RB], rest);
    PopAction(W(k), e, [RB] + rest);
    Concat4([LB, W(k), Colon1], e, [W("POP")], [RB] + rest);
    assert [LB, W(k), Colon1] + e + [W("POP")] + ([RB] + rest) == PieceTokens(Drop(k)) + rest;
    assert Tail([RB] + rest) == rest;
    DocStep(PieceTokens(Drop(k)) + rest, ops, Pop(k), rest);
  }

  lemma DocRead(k: string, rest: seq<Token>, ops: seq<Op>)
    requires PieceOk(Read(k)) && WellFormedStream(rest) && AllWide(ops)
    ensures WellFormedStream(PieceTokens(Read(k)) + rest)
    ensures DocLoop(PieceTokens(Read(k)) + rest, ops) == DocLoop(rest, ops + [Symbol(k, [])])
  {
    PlainWordToken(k);
    var e: seq<Token> := [];
    SimpleTag(W(k), e, rest);
    assert [Octo1, W(k)] + e + [Octo1] + rest == PieceTokens(Read(k)) + rest;
    DocStep(PieceTokens(Read(k)) + rest, ops, Symbol(k, []), rest);
  }

  /** One piece read off the front of the parser's main loop. */
  lemma DocPiece(p: Piece, rest: seq<Token>, ops: seq<Op>)
    requires PieceOk(p) && WellFormedStream(rest) && AllWide(ops)
    ensures WellFormedStream(PieceTokens(p) + rest)
    ensures AllWide(ops + [PieceOp(p)])
    ensures DocLoop(PieceTokens(p) + rest, ops) == DocLoop(rest, ops + [PieceOp(p)])
  {
    assert forall o :: o in ops + [PieceOp(p)] ==> o in ops || o == PieceOp(p);
    match p
    case Assign(k, v) => DocAssign(k, v, rest, ops);
    case Drop(k) => DocDrop(k, rest, ops);
    case Read(k) => DocRead(k, rest, ops);
  }

  /** The parser's main loop over a template of simple pieces collects
      their operations in order. */
  lemma {:induction false} DocTemplate(ps: seq<Piece>, ops: seq<Op>)
    requires TemplateOk(ps) && AllWide(ops)
    ensures WellFormedStream(TemplateTokens(ps))
    ensures DocLoop(TemplateTokens(ps), ops) == Ok(ops + TemplateOps(ps))
    decreases |ps|
  {
    LexTemplate(ps);
    if ps == [] {
      assert ops + [] == ops;
    } else {
      assert TemplateOk(ps[1..]) by {
        forall i | 0 <= i < |ps[1..]| ensures PieceOk(ps[1..][i]) {
          assert ps[1..][i] == ps[i + 1];
        }
      }
      assert PieceOk(ps[0]);
      LexTemplate(ps[1..]);
      DocPiece(ps[0], TemplateTokens(ps[1..]), ops);
      DocTemplate(ps[1..], ops + [PieceOp(ps[0])]);
      Concat3(ops, [PieceOp(ps[0])], TemplateOps(ps[1..]));
    }
  }

  /** A template of simple pieces parses to the sequence of their
      operations. */
  lemma ParseTemplate(ps: seq<Piece>)
    requires TemplateOk(ps)
    ensures ParseDoc(TemplateText(ps)) == Ok(Sequence(TemplateOps(ps)))
  {
    LexTemplate(ps);
    var e: seq<Op> := [];
    DocTemplate(ps, e);
    assert e + TemplateOps(ps) == TemplateOps(ps);
  }

  /** Stacks holding only literals, as `[k:v]` actions leave them. */
  predicate LiteralStore(st: Store)
  {
    forall k :: k in st ==> forall op :: op in st[k] ==> op.Literal?
  }

  /** A reference reading of one simple piece over stacks of literals: an
      assignment pushes its text, a pop drops the top unless it is the last,
      a read gives the top text or the unbound marker. */
  function StepPiece(p: Piece, st: Store): (r: (string, Store))
    requires StacksNonEmpty(st) && LiteralStore(st)
    ensures StacksNonEmpty(r.1) && LiteralStore(r.1)
  {
    match p
    case Assign(k, v) =>
      PushedFacts(st, k, Literal(v));
      ("", Pushed(st, k, Literal(v)))
    case Drop(k) =>
      PoppedFacts(st, k);
      assert LiteralStore(Popped(st, k)) by {
        if k in st && |st[k]| > 1 {
          forall op | op in Popped(st, k)[k] ensures op.Literal? {
            assert op in st[k];
          }
        }
      }
      ("", Popped(st, k))
    case Read(k) =>
      if k in st then
        assert st[k][|st[k]| - 1] in st[k];
        (st[k][|st[k]| - 1].text, st)
      else (Unbound(k), st)
  }

  /** The reference reading of a whole template: the text of each piece
      and the stacks at the end. */
  function Simulate(ps: seq<Piece>, st: Store): (r: (seq<string>, Store))
    requires StacksNonEmpty(st) && LiteralStore(st)
    ensures StacksNonEmpty(r.1) && LiteralStore(r.1)
    ensures |r.0| == |ps|
  {
    if ps == [] then ([], st)
    else
      var first := StepPiece(ps[0], st);
      var later := Simulate(ps[1..], first.1);
      ([first.0] + later.0, later.1)
  }

  /** Resolving a piece's operation is the reference reading of it. */
  lemma EvalPiece(p: Piece, st: Store, env: Env, fuel: nat)
    requires StacksNonEmpty(st) && LiteralStore(st) && fuel >= 1
    ensures Eval(PieceOp(p), st, env, fuel) == Res(Ok(StepPiece(p, st).0), StepPiece(p, st).1)
  {
    match p
    case Assign(k, v) =>
    case Drop(k) =>
    case Read(k) =>
      if k in st {
        var top := st[k][|st[k]| - 1];
        assert top in st[k];
        assert top == Literal(top.text);
        assert Eval(top, st, env, fuel - 1) == Res(Ok(top.text), st);
      }
  }

  /** Resolving a template's operations in order is its reference
      reading. */
  lemma {:induction false} EvalTemplate(ps: seq<Piece>, st: Store, env: Env, fuel: nat)
    requires StacksNonEmpty(st) && LiteralStore(st) && fuel >= 1
    ensures EvalList(TemplateOps(ps), st, env, fuel) == ResList(Ok(Simulate(ps, st).0), Simulate(ps, st).1)
    decreases |ps|
  {
    if ps != [] {
      var ops := TemplateOps(ps);
      assert ops[0] == PieceOp(ps[0]) && ops[1..] == TemplateOps(ps[1..]);
      EvalPiece(ps[0], st, env, fuel);
      var first := StepPiece(ps[0], st);
      EvalTemplate(ps[1..], first.1, env, fuel);
    }
  }

  /** Flattening a template of simple pieces against stacks of literals
      gives the texts of the reference reading joined, and leaves the
      stacks it ends with. */
  lemma RenderTemplate(ps: seq<Piece>, st: Store, env: Env, fuel: nat)
    requires TemplateOk(ps) && StacksNonEmpty(st) && LiteralStore(st) && fuel >= 1
    ensures Render(TemplateText(ps), st, env, fuel)
      == Res(Ok(Join(Simulate(ps, st).0)), Simulate(ps, st).1)
  {
    ParseTemplate(ps);
    EvalTemplate(ps, st, env, fuel);
    var ops := TemplateOps(ps);
    var sim := Simulate(ps, st);
    var e: seq<string> := [];
    if |ops| == 0 {
      assert sim.0 == e && Join(e) == [];
    } else if |ops| == 1 {
      var r := Eval(ops[0], st, env, fuel);
      assert ops[1..] == [];
      assert EvalList(ops[1..], r.store, env, fuel) == ResList(Ok([]), r.store);
      assert r.out.Ok?;
      assert EvalList(ops, st, env, fuel) == ResList(Ok([r.out.value] + []), r.store);
      assert [r.out.value] + [] == [r.out.value];
      assert sim.0 == [r.out.value] && sim.1 == r.store;
      assert Join([r.out.value]) == r.out.value + Join(e);
      assert Join(e) == [] && r.out.value + [] == r.out.value;
      assert Sequence(ops) == ops[0];
      assert Render(TemplateText(ps), st, env, fuel) == r;
    }
  }

  lemma TextCons(p: Piece, ps: seq<Piece>)
    ensures TemplateText([p] + ps) == PieceText(p) + TemplateText(ps)
  {
    assert ([p] + ps)[0] == p && ([p] + ps)[1..] == ps;
  }

  lemma JoinCons(x: string, rest: seq<string>)
    ensures Join([x] + rest) == x + Join(rest)
  {
    assert ([x] + rest)[0] == x && ([x] + rest)[1..] == rest;
  }

  lemma SimulateCons(p: Piece, ps: seq<Piece>, st: Store)
    requires StacksNonEmpty(st) && LiteralStore(st)
    ensures var first := StepPiece(p, st);
      Simulate([p] + ps, st) == ([first.0] + Simulate(ps, first.1).0, Simulate(ps, first.1).1)
  {
    assert ([p] + ps)[0] == p && ([p] + ps)[1..] == ps;
  }

  /** The text of an assignment followed by a read of the same key. */
  lemma AssignReadText(k: string, v: string)
    ensures TemplateText([Assign(k, v), Read(k)]) == "[" + k + ":" + v + "]" + "#" + k + "#"
  {
    var none: seq<Piece> := [];
    assert [Assign(k, v), Read(k)] == [Assign(k, v)] + ([Read(k)] + none);
    TextCons(Read(k), none);
    TextCons(Assign(k, v), [Read(k)] + none);
  }

  /** The reference reading of an assignment followed by a read of the same
      key: nothing, then the assigned text, with the text left pushed. */
  lemma AssignReadSimulate(k: string, v: string, st: Store)
    requires StacksNonEmpty(st) && LiteralStore(st)
    ensures StacksNonEmpty(Pushed(st, k, Literal(v)))
    ensures Simulate([Assign(k, v), Read(k)], st) == (["", v], Pushed(st, k, Literal(v)))
  {
    var none: seq<Piece> := [];
    assert [Assign(k, v), Read(k)] == [Assign(k, v)] + ([Read(k)] + none);
    var s1 := Pushed(st, k, Literal(v));
    PushedFacts(st, k, Literal(v));
    SimulateCons(Assign(k, v), [Read(k)] + none, st);
    SimulateCons(Read(k), none, s1);
    assert StepPiece(Read(k), s1) == (v, s1);
    assert [""] + ([v] + []) == ["", v];
  }

  /** A rule read back after an inline assignment gives the assigned text,
      whatever the key held before. */
  lemma ReadAfterAssign(k: string, v: string, st: Store, env: Env, fuel: nat)
    requires PlainWord(k) && PlainWord(v) && v != "POP"
    requires StacksNonEmpty(st) && LiteralStore(st) && fuel >= 1
    ensures TemplateText([Assign(k, v), Read(k)]) == "[" + k + ":" + v + "]" + "#" + k + "#"
    ensures Render(TemplateText([Assign(k, v), Read(k)]), st, env, fuel) == Res(Ok(v), Pushed(st, k, Literal(v)))
  {
    var ps := [Assign(k, v), Read(k)];
    AssignReadText(k, v);
    assert TemplateOk(ps);
    RenderTemplate(ps, st, env, fuel);
    AssignReadSimulate(k, v, st);
    var e: seq<string> := [];
    JoinCons(v, e);
    JoinCons("", [v] + e);
    assert ["", v] == [""] + ([v] + e);
    assert Join(e) == [] && v + [] == v && "" + v == v;
  }

  /** A key read before its first assignment gives the unbound marker, and
      the assigned text after it. */
  lemma ReadBeforeAndAfterAssign(k: string, v: string, st: Store, env: Env, fuel: nat)
    requires PlainWord(k) && PlainWord(v) && v != "POP"
    requires StacksNonEmpty(st) && LiteralStore(st) && fuel >= 1 && k !in st
    ensures Render(TemplateText([Read(k), Assign(k, v), Read(k)]), st, env, fuel).out == Ok("((" + k + "))" + v)
  {
    var ps := [Read(k), Assign(k, v), Read(k)];
    var none: seq<Piece> := [];
    assert ps == [Read(k)] + ([Assign(k, v)] + ([Read(k)] + none));
    assert TemplateOk(ps);
    RenderTemplate(ps, st, env, fuel);
    var s1 := Pushed(st, k, Literal(v));
    PushedFacts(st, k, Literal(v));
    SimulateCons(Read(k), [Assign(k, v)] + ([Read(k)] + none), st);
    SimulateCons(Assign(k, v), [Read(k)] + none, st);
    SimulateCons(Read(k), none, s1);
    assert StepPiece(Read(k), st) == (Unbound(k), st);
    assert StepPiece(Read(k), s1) == (v, s1);
    assert Simulate(ps, st).0 == [Unbound(k)] + ([""] + ([v] + []));
    JoinCons(v, []);
    JoinCons("", [v] + []);
    JoinCons(Unbound(k), [""] + ([v] + []));
    var e: seq<string> := [];
    assert Join(e) == [] && v + [] == v && "" + v == v;
    assert Join([Unbound(k)] + ([""] + ([v] + e))) == Unbound(k) + v;
  }

  /** Reading pieces one after the other is reading them together. */
  lemma {:induction false} SimulateAppend(xs: seq<Piece>, ys: seq<Piece>, st: Store)
    requires StacksNonEmpty(st) && LiteralStore(st)
    ensures var first := Simulate(xs, st);
      Simulate(xs + ys, st) == (first.0 + Simulate(ys, first.1).0, Simulate(ys, first.1).1)
    decreases |xs|
  {
    if xs == [] {
      assert xs + ys == ys;
      var none: seq<string> := [];
      assert Simulate(xs, st) == (none, st);
      assert none + Simulate(ys, st).0 == Simulate(ys, st).0;
    } else {
      SimulateAppend(xs[1..], ys, StepPiece(xs[0], st).1);
      SimulateAppendStep(xs, ys, st);
    }
  }

  /** A non-empty sequence is its head in front of its tail, also when
      followed by more. */
  lemma HeadThen<T>(xs: seq<T>, ys: seq<T>)
    requires xs != []
    ensures xs + ys == [xs[0]] + (xs[1..] + ys) && xs == [xs[0]] + xs[1..]
  {
  }

  /** `SimulateAppend` for a non-empty `xs`, given it for `xs`'s tail. */
  lemma SimulateAppendStep(xs: seq<Piece>, ys: seq<Piece>, st: Store)
    requires StacksNonEmpty(st) && LiteralStore(st) && xs != []
    requires var s1 := StepPiece(xs[0], st).1; var later := Simulate(xs[1..], s1);
      Simulate(xs[1..] + ys, s1) == (later.0 + Simulate(ys, later.1).0, Simulate(ys, later.1).1)
    ensures var first := Simulate(xs, st);
      Simulate(xs + ys, st) == (first.0 + Simulate(ys, first.1).0, Simulate(ys, first.1).1)
  {
    var step := StepPiece(xs[0], st);
    SimulateCons(xs[0], xs[1..] + ys, st);
    SimulateCons(xs[0], xs[1..], st);
    HeadThen(xs, ys);
    var later := Simulate(xs[1..], step.1);
    ReadingsJoin(step.0, Simulate(xs + ys, st), Simulate(xs[1..] + ys, step.1), later,
      Simulate(xs, st), Simulate(ys, later.1));
  }

  /** The bookkeeping of `SimulateAppendStep` on named readings: the whole,
      its tail, the tail of `xs`, `xs` itself and `ys` after it. */
  lemma ReadingsJoin(a: string, whole: (seq<string>, Store), tail: (seq<string>, Store),
      later: (seq<string>, Store), first: (seq<string>, Store), rest: (seq<string>, Store))
    requires whole == ([a] + tail.0, tail.1) && tail == (later.0 + rest.0, rest.1)
    requires first == ([a] + later.0, later.1)
    ensures whole == (first.0 + rest.0, rest.1)
  {
    assert [a] + (later.0 + rest.0) == ([a] + later.0) + rest.0;
  }

  /** Assigning, reading and popping leaves the stacks as they were. */
  lemma SimulateAssignReadPop(k: string, c: string, st: Store)
    requires StacksNonEmpty(st) && LiteralStore(st) && k in st && |st[k]| >= 1
    ensures Simulate([Assign(k, c), Read(k), Drop(k)], st) == (["", c, ""], st)
  {
    var s1 := Pushed(st, k, Literal(c));
    PushedFacts(st, k, Literal(c));
    assert Popped(s1, k) == st by {
      assert s1[k][..|s1[k]| - 1] == st[k];
    }
    var none: seq<Piece> := [];
    assert [Assign(k, c), Read(k), Drop(k)] == [Assign(k, c)] + ([Read(k)] + ([Drop(k)] + none));
    SimulateCons(Drop(k), none, s1);
    assert StepPiece(Drop(k), s1) == ("", st);
    SimulateCons(Read(k), [Drop(k)] + none, s1);
    assert StepPiece(Read(k), s1) == (c, s1);
    SimulateCons(Assign(k, c), [Read(k)] + ([Drop(k)] + none), st);
    assert StepPiece(Assign(k, c), st) == ("", s1);
    var e: seq<string> := [];
    assert Simulate(none, st) == (e, st);
    assert [""] + ([c] + ([""] + e)) == ["", c, ""];
  }

  /** Reading, popping and reading again on a two-entry stack sees the top,
      then the entry below it. */
  lemma SimulateReadPopRead(k: string, a: string, b: string, st: Store)
    requires StacksNonEmpty(st) && LiteralStore(st)
    requires k in st && st[k] == [Literal(a), Literal(b)]
    ensures Simulate([Read(k), Drop(k), Read(k)], st) == ([b, "", a], st[k := [Literal(a)]])
  {
    var s3 := st[k := [Literal(a)]];
    assert Popped(st, k) == s3 by {
      assert st[k][..1] == [Literal(a)];
    }
    var none: seq<Piece> := [];
    assert [Read(k), Drop(k), Read(k)] == [Read(k)] + ([Drop(k)] + ([Read(k)] + none));
    SimulateCons(Read(k), none, s3);
    assert StepPiece(Read(k), s3) == (a, s3);
    SimulateCons(Drop(k), [Read(k)] + none, st);
    assert StepPiece(Drop(k), st) == ("", s3);
    SimulateCons(Read(k), [Drop(k)] + ([Read(k)] + none), st);
    assert StepPiece(Read(k), st) == (b, st);
    var e: seq<string> := [];
    assert Simulate(none, s3) == (e, s3);
    assert [b] + ([""] + ([a] + e)) == [b, "", a];
  }

  /** The reference reading of the pop scenario. */
  lemma SimulateUncovers(k: string, a: string, b: string, c: string, st: Store)
    requires StacksNonEmpty(st) && LiteralStore(st)
    requires k in st && st[k] == [Literal(a), Literal(b)]
    ensures Simulate([Assign(k, c), Read(k), Drop(k), Read(k), Drop(k), Read(k)], st)
      == (["", c, "", b, "", a], st[k := [Literal(a)]])
  {
    var xs := [Assign(k, c), Read(k), Drop(k)];
    var ys := [Read(k), Drop(k), Read(k)];
    assert xs + ys == [Assign(k, c), Read(k), Drop(k), Read(k), Drop(k), Read(k)];
    SimulateAssignReadPop(k, c, st);
    SimulateReadPopRead(k, a, b, st);
    SimulateAppend(xs, ys, st);
    assert ["", c, ""] + [b, "", a] == ["", c, "", b, "", a];
  }

  /** Each pop uncovers the text pushed before: with `a` and `b` pushed,
      assigning `c` and reading between pops gives `c`, `b`, `a`, and the
      first entry stays. */
  lemma PopUncovers(k: string, a: string, b: string, c: string, st: Store, env: Env, fuel: nat)
    requires PlainWord(k) && PlainWord(c) && c != "POP"
    requires StacksNonEmpty(st) && LiteralStore(st) && fuel >= 1
    requires k in st && st[k] == [Literal(a), Literal(b)]
    ensures Render(TemplateText([Assign(k, c), Read(k), Drop(k), Read(k), Drop(k), Read(k)]), st, env, fuel)
      == Res(Ok(c + b + a), st[k := [Literal(a)]])
  {
    var ps := [Assign(k, c), Read(k), Drop(k), Read(k), Drop(k), Read(k)];
    assert TemplateOk(ps);
    RenderTemplate(ps, st, env, fuel);
    SimulateUncovers(k, a, b, c, st);
    JoinUncovered(a, b, c);
  }

  lemma JoinUncovered(a: string, b: string, c: string)
    ensures Join(["", c, "", b, "", a]) == c + b + a
  {
    var e: seq<string> := [];
    var outs := [""] + ([c] + ([""] + ([b] + ([""] + ([a] + e)))));
    assert ["", c, "", b, "", a] == outs;
    JoinCons(a, e);
    JoinCons("", [a] + e);
    JoinCons(b, [""] + ([a] + e));
    JoinCons("", [b] + ([""] + ([a] + e)));
    JoinCons(c, [""] + ([b] + ([""] + ([a] + e))));
    JoinCons("", [c] + ([""] + ([b] + ([""] + ([a] + e)))));
    assert Join(e) == [] && a + [] == a && "" + a == a && "" + (b + a) == b + a;
    assert "" + (c + (b + a)) == c + b + a;
  }

  /** A pop on a stack with a single entry keeps it. */
  lemma PopKeepsLast(k: string, a: string, st: Store, env: Env, fuel: nat)
    requires PlainWord(k)
    requires StacksNonEmpty(st) && LiteralStore(st) && fuel >= 1
    requires k in st && st[k] == [Literal(a)]
    ensures Render(TemplateText([Read(k), Drop(k), Read(k)]), st, env, fuel) == Res(Ok(a + a), st)
  {
    var ps := [Read(k), Drop(k), Read(k)];
    assert TemplateOk(ps);
    RenderTemplate(ps, st, env, fuel);
    var none: seq<Piece> := [];
    assert ps == [Read(k)] + ([Drop(k)] + ([Read(k)] + none));
    assert StepPiece(Read(k), st) == (a, st);
    assert StepPiece(Drop(k), st) == ("", st);
    SimulateCons(Read(k), none, st);
    SimulateCons(Drop(k), [Read(k)] + none, st);
    SimulateCons(Read(k), [Drop(k)] + ([Read(k)] + none), st);
    assert Simulate(ps, st) == ([a] + ([""] + ([a] + [])), st);
    JoinCons(a, []);
    JoinCons("", [a] + []);
    JoinCons(a, [""] + ([a] + []));
    var e: seq<string> := [];
    assert Join(e) == [] && a + [] == a && "" + a == a;
    assert Join([a] + ([""] + ([a] + e))) == a + a;
  }

  /** Rules given as plain words, each a literal of its own text. */
  function Literals(ws: seq<string>): (r: seq<Op>)
    ensures |r| == |ws| && forall i :: 0 <= i < |ws| ==> r[i] == Literal(ws[i])
  {
    seq(|ws|, i requires 0 <= i < |ws| => Literal(ws[i]))
  }

  lemma PlainWordText(w: string)
    requires PlainWord(w)
    ensures '[' !in w && '#' !in w && Backslash !in w
  {
  }

  /** Rules written as plain words all parse, each to its own literal, so
      pushing them puts those literals on the key's stack in order. */
  lemma PushPlainRules(st: Store, key: string, ws: seq<string>)
    requires StacksNonEmpty(st) && ws != []
    requires forall i :: 0 <= i < |ws| ==> PlainWord(ws[i])
    ensures ParseAll(ws) == Ok(Literals(ws))
    ensures PushAll(st, key, ParsedPrefix(ws))[key] == (if key in st then st[key] else []) + Literals(ws)
  {
    forall i | 0 <= i < |ws|
      ensures ParseDoc(ws[i]) == Ok(Literal(ws[i]))
    {
      PlainWordText(ws[i]);
      PlainTextIsLiteral(ws[i]);
    }
    ParsedPrefixFacts(ws);
    var r := ParsedPrefix(ws);
    assert |r| == |ws|;
    assert r == Literals(ws);
    PushAllFacts(st, key, r);
  }

  /** A fresh grammar given two plain rules for `k` holds their literals. */
  lemma FreshTwoRules(k: string, a: string, b: string)
    requires PlainWord(a) && PlainWord(b)
    ensures PushAll(map[], k, ParsedPrefix([a, b])) == map[k := [Literal(a), Literal(b)]]
  {
    var empty: Store := map[];
    PushPlainRules(empty, k, [a, b]);
    PushAllFacts(empty, k, ParsedPrefix([a, b]));
    var st := PushAll(empty, k, ParsedPrefix([a, b]));
    assert st.Keys == {k};
    assert st[k] == [Literal(a), Literal(b)];
  }

  /** The pop test end to end: a fresh grammar with `a` and `b` pushed as
      rules for `k`; the template assigns `c`, reads, pops, reads, pops and
      reads, giving `c`, `b`, `a` in that order. */
  lemma PopTest(k: string, a: string, b: string, c: string, env: Env, fuel: nat)
    requires PlainWord(k) && PlainWord(a) && PlainWord(b) && PlainWord(c) && c != "POP" && fuel >= 1
    ensures var st := PushAll(map[], k, ParsedPrefix([a, b]));
      Render(TemplateText([Assign(k, c), Read(k), Drop(k), Read(k), Drop(k), Read(k)]), st, env, fuel).out
        == Ok(c + b + a)
  {
    FreshTwoRules(k, a, b);
    var st := map[k := [Literal(a), Literal(b)]];
    assert LiteralStore(st) && StacksNonEmpty(st);
    PopUncovers(k, a, b, c, st, env, fuel);
  }
}
