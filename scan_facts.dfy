/** What the scanner of scan.go promises, proved about the pure token
    stream `Lex` that the `Scanner` class is tied to. */
module ScanFacts {
  import opened Outcomes
  import opened GoStrings
  import opened Scan

  lemma {:induction false} TextAppend(a: seq<Token>, b: seq<Token>)
    ensures Text(a + b) == Text(a) + Text(b)
  {
    if a == [] {
      assert a + b == b;
    } else {
      calc {
        Text(a + b);
        (a + b)[0].value + Text((a + b)[1..]);
        { assert (a + b)[1..] == a[1..] + b; }
        a[0].value + Text(a[1..] + b);
        { TextAppend(a[1..], b); }
        a[0].value + Text(a[1..]) + Text(b);
      }
    }
  }

  lemma EmittedWordWellFormed(raw: string)
    ensures WellFormedStream(Emitted(Word, raw))
    ensures |Text(Emitted(Word, raw))| <= |raw|
  {
    ReplaceCharByNothing(raw, Backslash);
  }

  /** `lexAny` stops in front of a rune whose own class it hands on. */
  lemma {:induction false} ScanRunStopsAtClass(input: string, pos: nat)
    requires pos <= |input|
    ensures var r := ScanRun(input, pos);
      r.next.LexCharFn? ==> r.next.t == Classify(input[r.end])
    decreases |input| - pos
  {
    if pos < |input| {
      var c := input[pos];
      if ControlType(c).None? && !IsSpace(c) {
        if c == Backslash {
          if pos + 1 < |input| && input[pos + 1] != Backslash {
            ScanRunStopsAtClass(input, pos + 2);
          }
        } else {
          ScanRunStopsAtClass(input, pos + 1);
        }
      }
    }
  }

  lemma WellFormedGlue(a: seq<Token>, b: seq<Token>, c: seq<Token>)
    requires WellFormedStream(a) && WellFormedStream(b) && WellFormedStream(c)
    ensures WellFormedStream(a + (b + c))
  {
  }

  /** Every token the scanner emits is well formed; in particular it never
      emits an Error token. */
  lemma {:induction false} LexFromWellFormed(input: string, pos: nat)
    requires pos <= |input|
    ensures WellFormedStream(LexFrom(input, pos))
    decreases |input| - pos
  {
    var stop := ScanRun(input, pos);
    var word := Emitted(Word, input[pos..stop.end]);
    EmittedWordWellFormed(input[pos..stop.end]);
    LexFromStep(input, pos);
    if stop.next.LexCharFn? {
      ScanRunStopsAtClass(input, pos);
      LexFromWellFormed(input, stop.end + 1);
      var ctl := input[stop.end..stop.end + 1];
      assert ctl == [input[stop.end]];
      assert Emitted(stop.next.t, ctl) == [Token(stop.next.t, ctl)];
      WellFormedGlue(word, Emitted(stop.next.t, ctl), LexFrom(input, stop.end + 1));
    } else {
      assert word + [] == word;
    }
  }

  lemma LexWellFormed(input: string)
    ensures WellFormedStream(Lex(input))
    ensures forall t :: t in Lex(input) ==> t.kind != Error && t.kind != EOF
  {
    LexFromWellFormed(input, 0);
  }

  /** The values of the tokens are never longer than the input: a Word only
      loses backslashes. */
  lemma {:induction false} LexFromTextLength(input: string, pos: nat)
    requires pos <= |input|
    ensures |Text(LexFrom(input, pos))| <= |input| - pos
    decreases |input| - pos
  {
    var stop := ScanRun(input, pos);
    var word := Emitted(Word, input[pos..stop.end]);
    EmittedWordWellFormed(input[pos..stop.end]);
    var rest := Rest(input, stop.end, stop.next);
    TextAppend(word, rest);
    if stop.next.LexCharFn? {
      LexFromTextLength(input, stop.end + 1);
      var ctl := Emitted(stop.next.t, input[stop.end..stop.end + 1]);
      TextAppend(ctl, LexFrom(input, stop.end + 1));
    }
  }

  lemma LexTextLength(input: string)
    ensures |Text(Lex(input))| <= |input|
  {
    LexFromTextLength(input, 0);
  }

  /** One step of the scanner: the Word up to where `lexAny` stops, then
      the control token it hands on and the scan after it. */
  lemma LexFromStep(input: string, pos: nat)
    requires pos <= |input|
    ensures var stop := ScanRun(input, pos);
      stop.next.LexCharFn? ==>
        LexFrom(input, pos) == Emitted(Word, input[pos..stop.end])
          + (Emitted(stop.next.t, input[stop.end..stop.end + 1]) + LexFrom(input, stop.end + 1))
    ensures var stop := ScanRun(input, pos);
      !stop.next.LexCharFn? ==> LexFrom(input, pos) == Emitted(Word, input[pos..stop.end])
  {
    var stop := ScanRun(input, pos);
    var w := Emitted(Word, input[pos..stop.end]);
    if !stop.next.LexCharFn? {
      assert Rest(input, stop.end, stop.next) == [];
      assert w + [] == w;
    }
  }

  lemma TextOfEmitted(t: TokenType, raw: string)
    requires Backslash !in raw
    ensures Text(Emitted(t, raw)) == raw
  {
    if t == Word {
      ReplaceCharByNothing(raw, Backslash);
      var v := ReplaceAll(raw, [Backslash], []);
      if v != [] {
        assert Text([Token(Word, v)]) == v + Text([]);
      }
    } else {
      assert Text([Token(t, raw)]) == raw + Text([]);
    }
  }

  lemma Slices3<T>(s: seq<T>, i: nat, j: nat, k: nat)
    requires i <= j <= k <= |s|
    ensures s[i..] == s[i..j] + s[j..k] + s[k..]
  {
  }

  lemma TextGlue(a: seq<Token>, b: seq<Token>, c: seq<Token>)
    ensures Text(a + (b + c)) == Text(a) + Text(b) + Text(c)
  {
    TextAppend(b, c);
    TextAppend(a, b + c);
  }

  /** Reading back the token values from `pos` gives the input from `pos`. */
  predicate RoundTrips(input: string, pos: nat)
    requires pos <= |input|
  {
    Text(LexFrom(input, pos)) == input[pos..]
  }

  /** Each emit takes the text between `start` and the current position, so
      a step that hands on a control token keeps the round trip. */
  lemma RoundTripStep(input: string, pos: nat)
    requires pos <= |input| && Backslash !in input && ScanRun(input, pos).next.LexCharFn?
    requires RoundTrips(input, ScanRun(input, pos).end + 1)
    ensures RoundTrips(input, pos)
  {
    LexFromStep(input, pos);
    Slices3(input, pos, ScanRun(input, pos).end, ScanRun(input, pos).end + 1);
    TextOfEmitted(Word, input[pos..ScanRun(input, pos).end]);
    TextOfEmitted(ScanRun(input, pos).next.t, input[ScanRun(input, pos).end..ScanRun(input, pos).end + 1]);
    TextGlue(Emitted(Word, input[pos..ScanRun(input, pos).end]),
      Emitted(ScanRun(input, pos).next.t, input[ScanRun(input, pos).end..ScanRun(input, pos).end + 1]),
      LexFrom(input, ScanRun(input, pos).end + 1));
  }

  /** The last step emits the rest of the input as one Word. */
  lemma RoundTripLast(input: string, pos: nat)
    requires pos <= |input| && Backslash !in input && !ScanRun(input, pos).next.LexCharFn?
    ensures RoundTrips(input, pos)
  {
    LexFromStep(input, pos);
    assert input[pos..ScanRun(input, pos).end] == input[pos..];
    TextOfEmitted(Word, input[pos..]);
    assert Emitted(Word, input[pos..]) + [] == Emitted(Word, input[pos..]);
  }

  /** Without backslashes, the token values put back together give the
      input. */
  lemma {:induction false} LexFromRoundTrip(input: string, pos: nat)
    requires pos <= |input| && Backslash !in input
    ensures RoundTrips(input, pos)
    decreases |input| - pos
  {
    if ScanRun(input, pos).next.LexCharFn? {
      LexFromRoundTrip(input, ScanRun(input, pos).end + 1);
      RoundTripStep(input, pos);
    } else {
      RoundTripLast(input, pos);
    }
  }

  lemma LexRoundTrip(input: string)
    requires Backslash !in input
    ensures Text(Lex(input)) == input
  {
    assert input[0..] == input;
    LexFromRoundTrip(input, 0);
  }

  /** Scanning from inside a string is scanning its suffix. */
  lemma {:induction false} ScanRunShift(s: string, p: nat, r: nat)
    requires p <= r <= |s|
    ensures ScanRun(s, r).end == ScanRun(s[p..], r - p).end + p
    ensures ScanRun(s, r).next == ScanRun(s[p..], r - p).next
    decreases |s| - r
  {
    if r < |s| {
      assert s[p..][r - p] == s[r];
      if r + 1 < |s| {
        assert s[p..][r + 1 - p] == s[r + 1];
      }
      var c := s[r];
      if ControlType(c).None? && !IsSpace(c) {
        if c == Backslash {
          if r + 1 < |s| && s[r + 1] != Backslash {
            ScanRunShift(s, p, r + 2);
            assert r + 2 - p == r - p + 2;
          }
        } else {
          ScanRunShift(s, p, r + 1);
          assert r + 1 - p == r - p + 1;
        }
      }
    }
  }

  /** A scanner step read at given positions: the Word up to `end`, the
      control token at `end`, and the scan from `next` on. */
  lemma LexFromStepAt(input: string, pos: nat, end: nat, t: TokenType, next: nat)
    requires pos <= end < |input| && next == end + 1
    requires ScanRun(input, pos) == Stop(end, LexCharFn(t))
    ensures LexFrom(input, pos) == Emitted(Word, input[pos..end])
      + (Emitted(t, input[end..next]) + LexFrom(input, next))
  {
  }

  /** One scanner step inside the suffix `s[p..]`, told in positions of `s`. */
  lemma StepInSuffix(s: string, p: nat, r: nat)
    requires p <= r <= |s| && ScanRun(s, r).next.LexCharFn?
    ensures LexFrom(s[p..], r - p) == Emitted(Word, s[r..ScanRun(s, r).end])
      + (Emitted(ScanRun(s, r).next.t, s[ScanRun(s, r).end..ScanRun(s, r).end + 1])
        + LexFrom(s[p..], ScanRun(s, r).end + 1 - p))
  {
    StepInSuffixAt(s, p, r, ScanRun(s, r).end, ScanRun(s, r).next.t);
  }

  /** The same step, with the stopping position and token type named. */
  lemma StepInSuffixAt(s: string, p: nat, r: nat, e: nat, t: TokenType)
    requires p <= r <= e < |s| && ScanRun(s, r) == Stop(e, LexCharFn(t))
    ensures LexFrom(s[p..], r - p) == Emitted(Word, s[r..e]) + (Emitted(t, s[e..e + 1]) + LexFrom(s[p..], e + 1 - p))
  {
    ScanRunShift(s, p, r);
    LexFromStepAt(s[p..], r - p, e - p, t, e + 1 - p);
    SuffixSlice(s, p, r, e);
    SuffixSlice(s, p, e, e + 1);
  }

  /** The last scanner step inside the suffix `s[p..]`. */
  lemma LastInSuffix(s: string, p: nat, r: nat)
    requires p <= r <= |s| && !ScanRun(s, r).next.LexCharFn?
    ensures LexFrom(s[p..], r - p) == Emitted(Word, s[r..ScanRun(s, r).end])
  {
    ScanRunShift(s, p, r);
    LexFromStep(s[p..], r - p);
    SuffixSlice(s, p, r, ScanRun(s, r).end);
  }

  /** A slice of a suffix is the slice of the whole at shifted positions. */
  lemma SuffixSlice<T>(s: seq<T>, p: nat, i: nat, j: nat)
    requires p <= i <= j <= |s|
    ensures s[p..][i - p..j - p] == s[i..j]
  {
  }

  lemma SameTail<T>(x: seq<T>, y: seq<T>, w: seq<T>, e: seq<T>, l: seq<T>, m: seq<T>)
    requires x == w + (e + l) && y == w + (e + m) && l == m
    ensures x == y
  {
  }

  /** Scanning `s` from `r` agrees with scanning its suffix from `p`. */
  predicate ShiftHolds(s: string, p: nat, r: nat)
    requires p <= r <= |s|
  {
    LexFrom(s, r) == LexFrom(s[p..], r - p)
  }

  /** The shift carries over a scanner step that hands on a control token
      once it holds for the scan after that token. */
  lemma ShiftStep(s: string, p: nat, r: nat)
    requires p <= r <= |s| && ScanRun(s, r).next.LexCharFn?
    requires ShiftHolds(s, p, ScanRun(s, r).end + 1)
    ensures ShiftHolds(s, p, r)
  {
    LexFromStep(s, r);
    StepInSuffix(s, p, r);
    SameTail(LexFrom(s, r), LexFrom(s[p..], r - p),
      Emitted(Word, s[r..ScanRun(s, r).end]),
      Emitted(ScanRun(s, r).next.t, s[ScanRun(s, r).end..ScanRun(s, r).end + 1]),
      LexFrom(s, ScanRun(s, r).end + 1), LexFrom(s[p..], ScanRun(s, r).end + 1 - p));
  }

  /** The shift holds for a scanner step that ends the input. */
  lemma ShiftLast(s: string, p: nat, r: nat)
    requires p <= r <= |s| && !ScanRun(s, r).next.LexCharFn?
    ensures ShiftHolds(s, p, r)
  {
    LexFromStep(s, r);
    LastInSuffix(s, p, r);
  }

  lemma {:induction false} ShiftAll(s: string, p: nat, r: nat)
    requires p <= r <= |s|
    ensures ShiftHolds(s, p, r)
    decreases |s| - r
  {
    var stop := ScanRun(s, r);
    if stop.next.LexCharFn? {
      ShiftAll(s, p, stop.end + 1);
      ShiftStep(s, p, r);
    } else {
      ShiftLast(s, p, r);
    }
  }

  /** Scanning `s` from `r` is scanning its suffix from `p` on from the
      matching position. */
  lemma LexFromShift(s: string, p: nat, r: nat)
    requires p <= r <= |s|
    ensures LexFrom(s, r) == LexFrom(s[p..], r - p)
  {
    ShiftAll(s, p, r);
  }

  lemma LexFromSuffix(s: string, p: nat)
    requires p <= |s|
    ensures LexFrom(s, p) == Lex(s[p..])
  {
    LexFromShift(s, p, p);
    assert p - p == 0;
  }

  /** Text of a run: plain code points and backslash escapes of anything
      but a backslash. */
  predicate EscapedText(a: string)
    decreases |a|
  {
    if a == [] then true
    else if a[0] == Backslash then |a| >= 2 && a[1] != Backslash && EscapedText(a[2..])
    else Classify(a[0]) == Word && EscapedText(a[1..])
  }

  /** One step of `lexAny` over an ordinary code point. */
  lemma ScanRunSkipsWord(s: string, pos: nat)
    requires pos < |s| && Classify(s[pos]) == Word
    ensures ScanRun(s, pos) == ScanRun(s, pos + 1)
  {
  }

  /** One step of `lexAny` over an escape of anything but a backslash. */
  lemma ScanRunSkipsEscape(s: string, pos: nat)
    requires pos + 1 < |s| && s[pos] == Backslash && s[pos + 1] != Backslash
    ensures ScanRun(s, pos) == ScanRun(s, pos + 2)
  {
  }

  /** `lexAny` stops in front of a control character or whitespace. */
  lemma ScanRunStopsAtControl(s: string, pos: nat)
    requires pos < |s| && Classify(s[pos]) != Word && s[pos] != Backslash
    ensures ScanRun(s, pos) == Stop(pos, LexCharFn(Classify(s[pos])))
  {
  }

  /** `lexAny` stops on the second backslash of an escaped backslash. */
  lemma ScanRunStopsAtBackStroke(s: string, pos: nat)
    requires pos + 1 < |s| && s[pos] == Backslash && s[pos + 1] == Backslash
    ensures ScanRun(s, pos) == Stop(pos + 1, LexCharFn(BackStroke))
  {
  }

  lemma SliceRest<T>(s: seq<T>, pos: nat, a: seq<T>, k: nat)
    requires pos + |a| <= |s| && s[pos..pos + |a|] == a && k <= |a|
    ensures s[pos + k..pos + k + |a[k..]|] == a[k..]
  {
    assert s[pos + k..pos + k + |a[k..]|] == s[pos..pos + |a|][k..];
  }

  /** `lexAny` runs straight through escaped text. */
  lemma {:induction false} ScanRunOverText(s: string, pos: nat, a: string)
    requires pos + |a| <= |s| && s[pos..pos + |a|] == a && EscapedText(a)
    ensures ScanRun(s, pos) == ScanRun(s, pos + |a|)
    decreases |a|
  {
    if a != [] {
      assert s[pos] == a[0];
      if a[0] == Backslash {
        assert s[pos + 1] == a[1];
        SliceRest(s, pos, a, 2);
        ScanRunOverText(s, pos + 2, a[2..]);
        ScanRunSkipsEscape(s, pos);
      } else {
        SliceRest(s, pos, a, 1);
        ScanRunOverText(s, pos + 1, a[1..]);
        ScanRunSkipsWord(s, pos);
      }
    }
  }

  /** A run of text followed by a control character or whitespace: one
      Word (unless the run is empty), then that character's own token, then
      whatever follows is scanned afresh. */
  lemma LexRunThen(a: string, c: char, rest: string)
    requires EscapedText(a)
    requires Classify(c) != Word && c != Backslash
    ensures Lex(a + [c] + rest) == Emitted(Word, a) + [Token(Classify(c), [c])] + Lex(rest)
  {
    var s := a + [c] + rest;
    assert s[0..|a|] == a && s[|a|] == c;
    ScanRunOverText(s, 0, a);
    ScanRunStopsAtControl(s, |a|);
    LexFromStepAt(s, 0, |a|, Classify(c), |a| + 1);
    assert s[|a|..|a| + 1] == [c] && s[|a| + 1..] == rest;
    LexFromSuffix(s, |a| + 1);
    Concat3(Emitted(Word, a), [Token(Classify(c), [c])], Lex(rest));
  }

  /** A run of text that ends the input is one Word (or nothing). */
  lemma LexRunEnd(a: string)
    requires EscapedText(a)
    ensures Lex(a) == Emitted(Word, a)
  {
    assert a[0..|a|] == a;
    ScanRunOverText(a, 0, a);
    assert ScanRun(a, |a|) == Stop(|a|, Nil);
    assert Lex(a) == Emitted(Word, a[0..|a|]) + Rest(a, |a|, Nil);
  }

  /** A run of text followed by an escaped backslash: the run's Word, then a
      BackStroke token. */
  lemma LexRunThenBackStroke(a: string, rest: string)
    requires EscapedText(a)
    ensures Lex(a + [Backslash, Backslash] + rest)
         == Emitted(Word, a) + [Token(BackStroke, [Backslash])] + Lex(rest)
  {
    var s := a + [Backslash, Backslash] + rest;
    assert s[0..|a|] == a && s[|a|] == Backslash && s[|a| + 1] == Backslash;
    ScanRunOverText(s, 0, a);
    ScanRunStopsAtBackStroke(s, |a|);
    assert s[0..|a| + 1] == a + [Backslash];
    assert s[|a| + 1..|a| + 2] == [Backslash] && s[|a| + 2..] == rest;
    LexFromStepAt(s, 0, |a| + 1, BackStroke, |a| + 2);
    ReplaceDropsTrailing(a);
    LexFromSuffix(s, |a| + 2);
    Concat3(Emitted(Word, a), [Token(BackStroke, [Backslash])], Lex(rest));
  }

  lemma {:induction false} ReplaceDropsTrailing(a: string)
    ensures ReplaceAll(a + [Backslash], [Backslash], []) == ReplaceAll(a, [Backslash], [])
    decreases |a|
  {
    if a == [] {
    } else {
      assert (a + [Backslash])[1..] == a[1..] + [Backslash];
      ReplaceDropsTrailing(a[1..]);
      if [Backslash] <= a + [Backslash] {
        assert [Backslash] <= a;
      }
    }
  }

  /** Each control character and each whitespace code point is a token of
      its own whose value is exactly that character. */
  lemma LexSingle(c: char)
    requires Classify(c) != Word && c != Backslash
    ensures Lex([c]) == [Token(Classify(c), [c])]
  {
    LexRunThen([], c, []);
    assert [] + [c] + [] == [c];
    assert Lex([]) == [];
  }

  /** `\\` is a BackStroke token with value `\`. */
  lemma LexEscapedBackslash()
    ensures Lex([Backslash, Backslash]) == [Token(BackStroke, [Backslash])]
  {
    LexRunThenBackStroke([], []);
    assert [] + [Backslash, Backslash] + [] == [Backslash, Backslash];
    assert Lex([]) == [];
  }

  /** A backslash before anything but a backslash keeps that character as
      text and drops the backslash, even before a control character. */
  lemma LexEscapedChar(c: char)
    requires c != Backslash
    ensures Lex([Backslash, c]) == [Token(Word, [c])]
  {
    var s := [Backslash, c];
    assert s[2..] == [] && s[1..] == [c] && [c][1..] == [];
    assert EscapedText(s);
    LexRunEnd(s);
    assert [Backslash] <= s && !([Backslash] <= [c]);
    calc {
      ReplaceAll(s, [Backslash], []);
      ReplaceAll(s[1..], [Backslash], []);
      [c] + ReplaceAll([c][1..], [Backslash], []);
      [c];
    }
  }

  /** A dangling backslash at the end of the input is dropped. */
  lemma LexDanglingBackslash(a: string)
    requires EscapedText(a)
    ensures Lex(a + [Backslash]) == Emitted(Word, a)
  {
    var s := a + [Backslash];
    assert s[0..|a|] == a;
    ScanRunOverText(s, 0, a);
    assert s[|a|] == Backslash;
    assert ScanRun(s, |a|) == Stop(|s|, Nil);
    assert s[0..|s|] == s;
    ReplaceDropsTrailing(a);
    assert Lex(s) == Emitted(Word, s[0..|s|]) + Rest(s, |s|, Nil);
  }

  /** Text without control characters, whitespace or backslashes is one
      Word token. */
  lemma LexPlainWord(w: string)
    requires w != []
    requires forall i :: 0 <= i < |w| ==> Classify(w[i]) == Word
    ensures Lex(w) == [Token(Word, w)]
  {
    PlainIsEscaped(w);
    LexRunEnd(w);
    ReplaceCharByNothing(w, Backslash);
  }

  lemma {:induction false} PlainIsEscaped(w: string)
    requires forall i :: 0 <= i < |w| ==> Classify(w[i]) == Word
    ensures EscapedText(w)
    ensures Backslash !in w
    decreases |w|
  {
    if w != [] {
      assert Classify(w[0]) == Word;
      PlainIsEscaped(w[1..]);
      assert w == [w[0]] + w[1..];
    }
  }
}
