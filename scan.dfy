/** The scanner of scan.go: a state machine that turns a template into
    tokens, with one token of lookahead through Peek and Next.

    The input is a sequence of code points (Go decodes UTF-8 one rune at a
    time; `size` is therefore always 1 for a rune and 0 otherwise).

    `Lex` is the pure specification: the whole token stream of an input.
    The `Scanner` class keeps the fields the Go struct updates in place, and
    its ghost `Stream()` (the tokens not yet handed out) is tied to `Lex`. */
module Scan {
  import opened Outcomes
  import opened GoStrings

  datatype TokenType =
    | EOF | Error | Word | WhiteSpace
    | LeftBracket | RightBracket | LeftParen | RightParen
    | BackStroke | Colon | Comma | Octo | Period

  datatype Token = Token(kind: TokenType, value: string)

  /** The state function: `lexAny`, `lexChar(t)`, or nil when finished. */
  datatype StateFn = LexAnyFn | LexCharFn(t: TokenType) | Nil

  const Backslash: char := '\\'

  /** The eight control characters that stop a text run, each with the
      token type it is emitted as. */
  function ControlType(c: char): Option<TokenType>
  {
    match c
    case '#' => Some(Octo)
    case '[' => Some(LeftBracket)
    case ']' => Some(RightBracket)
    case '(' => Some(LeftParen)
    case ')' => Some(RightParen)
    case ':' => Some(Colon)
    case ',' => Some(Comma)
    case '.' => Some(Period)
    case _ => None
  }

  /** Go's `unicode.IsSpace`: the Latin-1 spaces, and the Unicode
      White_Space property above Latin-1. */
  predicate IsSpace(c: char)
  {
    if c <= '\U{00FF}' then
      c == '\t' || c == '\n' || c == '\U{000B}' || c == '\U{000C}' || c == '\r'
      || c == ' ' || c == '\U{0085}' || c == '\U{00A0}'
    else
      c == '\U{1680}' || ('\U{2000}' <= c <= '\U{200A}') || c == '\U{2028}' || c == '\U{2029}'
      || c == '\U{202F}' || c == '\U{205F}' || c == '\U{3000}'
  }

  /** The token type a lone code point belongs to outside an escape. */
  function Classify(c: char): TokenType
  {
    if ControlType(c).Some? then ControlType(c).value
    else if IsSpace(c) then WhiteSpace
    else if c == Backslash then BackStroke
    else Word
  }

  /** Where `lexAny`, entered at `pos`, stops, and the state it returns. */
  datatype Stop = Stop(end: nat, next: StateFn)

  function ScanRun(input: string, pos: nat): (r: Stop)
    requires pos <= |input|
    ensures pos <= r.end <= |input|
    ensures r.next != LexAnyFn
    ensures r.next == Nil ==> r.end == |input|
    ensures r.next.LexCharFn? ==> r.end < |input| && r.next.t != Word
    decreases |input| - pos
  {
    if pos == |input| then Stop(pos, Nil)
    else
      var c := input[pos];
      if ControlType(c).Some? then Stop(pos, LexCharFn(ControlType(c).value))
      else if IsSpace(c) then Stop(pos, LexCharFn(WhiteSpace))
      else if c == Backslash then
        if pos + 1 == |input| then Stop(pos + 1, Nil)
        else if input[pos + 1] == Backslash then Stop(pos + 1, LexCharFn(BackStroke))
        else ScanRun(input, pos + 2)
      else ScanRun(input, pos + 1)
  }

  /** What `emit(t)` appends for the raw text `raw`: a Word loses every
      backslash and is dropped when nothing is left. */
  function Emitted(t: TokenType, raw: string): seq<Token>
  {
    if t == Word then
      var v := ReplaceAll(raw, [Backslash], []);
      if v == [] then [] else [Token(Word, v)]
    else [Token(t, raw)]
  }

  /** The tokens still to come from position `pos` in state `state`. */
  function Rest(input: string, pos: nat, state: StateFn): seq<Token>
    requires pos <= |input|
    requires state.LexCharFn? ==> pos < |input|
    decreases |input| - pos, if state == LexAnyFn then 2 else 0
  {
    match state
    case Nil => []
    case LexAnyFn => LexFrom(input, pos)
    case LexCharFn(t) => Emitted(t, input[pos..pos + 1]) + LexFrom(input, pos + 1)
  }

  /** The tokens `lexAny` and its successors produce from `pos` on. */
  function LexFrom(input: string, pos: nat): seq<Token>
    requires pos <= |input|
    decreases |input| - pos, 1
  {
    var stop := ScanRun(input, pos);
    Emitted(Word, input[pos..stop.end]) + Rest(input, stop.end, stop.next)
  }

  /** The whole token stream of `input`, without the final EOF. */
  function Lex(input: string): seq<Token>
  {
    LexFrom(input, 0)
  }

  /** A token as the scanner emits it: never empty, never EOF or Error; a
      Word holds no backslash, and any other token is the one code point
      whose class is its type. */
  predicate WellFormedToken(t: Token)
  {
    && t.value != []
    && t.kind != EOF && t.kind != Error
    && (t.kind == Word ==> Backslash !in t.value)
    && (t.kind != Word ==> |t.value| == 1 && Classify(t.value[0]) == t.kind)
  }

  predicate WellFormedStream(ts: seq<Token>)
  {
    forall t :: t in ts ==> WellFormedToken(t)
  }

  /** The token values one after another. */
  function Text(ts: seq<Token>): string
  {
    if ts == [] then [] else ts[0].value + Text(ts[1..])
  }

  /** What `Peek` returns for a remaining stream: EOF once it is exhausted. */
  function Head(ts: seq<Token>): Token
  {
    if ts == [] then Token(EOF, []) else ts[0]
  }

  /** The stream after `Next`: unchanged once it is exhausted. */
  function Tail(ts: seq<Token>): seq<Token>
  {
    if ts == [] then [] else ts[1..]
  }

  class Scanner {
    const input: string
    var start: nat
    var end: nat
    var size: nat
    var state: StateFn
    var tokens: seq<Token>

    /** Between calls the scanner sits on a state boundary: nothing is
        half-scanned, and a pending `lexChar` has its rune measured. */
    ghost predicate Valid()
      reads this
    {
      && start == end <= |input|
      && (state.LexCharFn? ==> size == 1 && end < |input| && state.t != Word)
      && (!state.LexCharFn? ==> size == 0)
    }

    /** The tokens this scanner will still hand out, in order. */
    ghost function Stream(): seq<Token>
      reads this
      requires Valid()
    {
      tokens + Rest(input, end, state)
    }

    constructor (input: string)
      ensures Valid() && this.input == input
      ensures Stream() == Lex(input)
    {
      this.input := input;
      start, end, size := 0, 0, 0;
      state := LexAnyFn;
      tokens := [];
    }

    /** The next token, without consuming it. */
    method Peek() returns (t: Token)
      requires Valid()
      modifies this
      ensures Valid()
      ensures Stream() == old(Stream())
      ensures t == Head(Stream())
      ensures tokens == [] ==> state == Nil
    {
      while true
        invariant Valid()
        invariant Stream() == old(Stream())
        decreases |input| - end, if state == LexAnyFn then 2 else if state == Nil then 0 else 1
      {
        if |tokens| > 0 {
          return tokens[0];
        }
        if state == Nil {
          return Token(EOF, []);
        }
        match state {
          case LexAnyFn =>
            ghost var stop := ScanRun(input, end);
            assert Rest(input, end, state) == Emitted(Word, input[end..stop.end]) + Rest(input, stop.end, stop.next);
            state := LexAny();
          case LexCharFn(k) =>
            state := LexChar(k);
        }
      }
    }

    /** The next token, consumed. */
    method Next() returns (t: Token)
      requires Valid()
      modifies this
      ensures Valid()
      ensures t == Head(old(Stream()))
      ensures Stream() == Tail(old(Stream()))
    {
      t := Peek();
      if |tokens| > 0 {
        tokens := tokens[1..];
      }
    }

    /** The rune at `end` (None standing for eof), measuring its size. */
    method NextRune() returns (r: Option<char>)
      requires end <= |input|
      modifies this`size
      ensures r == if end == |input| then None else Some(input[end])
      ensures size == if end == |input| then old(size) else 1
    {
      if end == |input| {
        return None;
      }
      size := 1;
      r := Some(input[end]);
    }

    method Consume()
      requires end + size <= |input|
      modifies this`end, this`size
      ensures end == old(end) + old(size) && size == 0
    {
      end := end + size;
      size := 0;
    }

    method Emit(t: TokenType)
      requires start <= end <= |input|
      modifies this`tokens, this`start
      ensures tokens == old(tokens) + Emitted(t, input[old(start)..end])
      ensures start == end
    {
      var value := input[start..end];
      if t == Word {
        value := ReplaceAll(value, [Backslash], []);
        if |value| == 0 {
          start := end;
          return;
        }
      }
      tokens := tokens + [Token(t, value)];
      start := end;
    }

    /** Gathers runes until a control character, whitespace or eof, and
        emits the text gathered so far as one Word. */
    method LexAny() returns (next: StateFn)
      requires Valid() && state == LexAnyFn
      modifies this`end, this`size, this`tokens, this`start
      ensures Stop(end, next) == ScanRun(input, old(end))
      ensures start == end
      ensures tokens == old(tokens) + Emitted(Word, input[old(end)..end])
      ensures size == if next.LexCharFn? then 1 else 0
    {
      next := Nil;
      while true
        invariant start == old(end) <= end <= |input|
        invariant size == 0 && next == Nil && tokens == old(tokens)
        invariant ScanRun(input, end) == ScanRun(input, start)
        decreases |input| - end
      {
        var r := NextRune();
        if r == None {
          break;
        }
        var c := r.value;
        if ControlType(c).Some? {
          next := LexCharFn(ControlType(c).value);
          break;
        } else if IsSpace(c) {
          next := LexCharFn(WhiteSpace);
          break;
        } else if c == Backslash {
          Consume();
          var escaped := NextRune();
          if escaped == None {
            break;
          } else if escaped.value == Backslash {
            next := LexCharFn(BackStroke);
            break;
          }
          Consume();
        } else {
          Consume();
        }
      }
      if end > start {
        Emit(Word);
      }
    }

    /** Emits the single rune that stopped the previous text run. */
    method LexChar(t: TokenType) returns (next: StateFn)
      requires Valid() && state == LexCharFn(t)
      modifies this`end, this`size, this`tokens, this`start
      ensures end == old(end) + 1 && start == end && size == 0
      ensures tokens == old(tokens) + Emitted(t, input[old(end)..end])
      ensures next == LexAnyFn
    {
      Consume();
      Emit(t);
      next := LexAnyFn;
    }
  }
}
