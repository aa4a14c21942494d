/** The two functions of Go's `strings` package that the core relies on:
    `strings.Join(parts, "")` and `strings.Replace(s, old, new, -1)`,
    over sequences of code points. */
module GoStrings {

  /** `strings.Join(parts, "")`: the parts one after another. */
  function Join(parts: seq<string>): (r: string)
    ensures |r| == TotalLength(parts)
  {
    if parts == [] then [] else parts[0] + Join(parts[1..])
  }

  function TotalLength(parts: seq<string>): nat
  {
    if parts == [] then 0 else |parts[0]| + TotalLength(parts[1..])
  }

  /** Concatenation regrouped, kept apart so that larger proofs need not rediscover it. */
  lemma Concat3<T>(a: seq<T>, b: seq<T>, c: seq<T>)
    ensures a + b + c == a + (b + c)
  {
  }

  lemma Concat4<T>(a: seq<T>, b: seq<T>, c: seq<T>, d: seq<T>)
    ensures a + b + c + d == a + (b + (c + d))
  {
  }

  lemma {:induction false} JoinAppend(parts: seq<string>, p: string)
    ensures Join(parts + [p]) == Join(parts) + p
  {
    if parts == [] {
      assert parts + [p] == [p];
    } else {
      assert (parts + [p])[1..] == parts[1..] + [p];
      JoinAppend(parts[1..], p);
    }
  }

  lemma {:induction false} JoinConcat(parts: seq<string>, more: seq<string>)
    ensures Join(parts + more) == Join(parts) + Join(more)
  {
    if parts == [] {
      assert parts + more == more;
    } else {
      assert (parts + more)[1..] == parts[1..] + more;
      JoinConcat(parts[1..], more);
    }
  }

  /** `strings.Join(parts, sep)`, the reference used to characterise Replace. */
  function JoinWith(parts: seq<string>, sep: string): string
  {
    if parts == [] then []
    else if |parts| == 1 then parts[0]
    else parts[0] + sep + JoinWith(parts[1..], sep)
  }

  /** `strings.Split(s, sep)` for a non-empty separator: the pieces between
      the leftmost non-overlapping occurrences of `sep`. */
  function Split(s: string, sep: string): (r: seq<string>)
    requires sep != []
    ensures r != []
    decreases |s|
  {
    if s == [] then [[]]
    else if sep <= s then [[]] + Split(s[|sep|..], sep)
    else var rest := Split(s[1..], sep); [[s[0]] + rest[0]] + rest[1..]
  }

  /** Does `sub` occur in `s` starting at position `i`? */
  predicate OccursAt(s: string, sub: string, i: int)
  {
    0 <= i && i + |sub| <= |s| && s[i..i + |sub|] == sub
  }

  /** Does `sub` occur in `s` at some position? */
  ghost predicate Contains(s: string, sub: string)
  {
    exists i :: OccursAt(s, sub, i)
  }

  /** `strings.Replace(s, search, replacement, -1)`: every non-overlapping occurrence of
      `search`, scanned left to right, is replaced by `replacement`. An empty `search`
      matches before every code point and at the end. */
  function ReplaceAll(s: string, search: string, replacement: string): (r: string)
    decreases |s|
  {
    if search == [] then
      (if s == [] then replacement else replacement + [s[0]] + ReplaceAll(s[1..], search, replacement))
    else if s == [] then []
    else if search <= s then replacement + ReplaceAll(s[|search|..], search, replacement)
    else [s[0]] + ReplaceAll(s[1..], search, replacement)
  }

  /** Each code point of `s` followed by `rep`, one part per code point. */
  function EachThen(s: string, rep: string): seq<string>
  {
    seq(|s|, i requires 0 <= i < |s| => [s[i]] + rep)
  }

  /** With an empty search, `strings.Replace` puts the replacement before
      every code point and once more at the end. */
  lemma {:induction false} EmptySearchSpread(s: string, rep: string)
    ensures ReplaceAll(s, [], rep) == rep + Join(EachThen(s, rep))
    decreases |s|
  {
    if s == [] {
      assert EachThen(s, rep) == [];
    } else {
      EmptySearchSpread(s[1..], rep);
      var parts := EachThen(s, rep);
      assert parts[0] == [s[0]] + rep;
      assert parts[1..] == EachThen(s[1..], rep);
      var later := Join(EachThen(s[1..], rep));
      assert rep + [s[0]] + (rep + later) == rep + (([s[0]] + rep) + later);
    }
  }

  lemma {:induction false} JoinWithCons(a: string, b: string, rest: seq<string>, sep: string)
    ensures JoinWith([a + b] + rest, sep) == a + JoinWith([b] + rest, sep)
  {
    if rest == [] {
    } else {
      assert ([a + b] + rest)[1..] == rest;
      assert ([b] + rest)[1..] == rest;
    }
  }

  /** ReplaceAll agrees with the split-and-join reference definition. */
  lemma {:induction false} ReplaceAllIsSplitJoin(s: string, search: string, replacement: string)
    requires search != []
    ensures ReplaceAll(s, search, replacement) == JoinWith(Split(s, search), replacement)
    decreases |s|
  {
    if s == [] {
    } else if search <= s {
      ReplaceAllIsSplitJoin(s[|search|..], search, replacement);
      var rest := Split(s[|search|..], search);
      assert Split(s, search) == [[]] + rest;
      assert ([[]] + rest)[1..] == rest;
    } else {
      ReplaceAllIsSplitJoin(s[1..], search, replacement);
      var rest := Split(s[1..], search);
      JoinWithCons([s[0]], rest[0], rest[1..], replacement);
      assert [rest[0]] + rest[1..] == rest;
    }
  }

  /** Without an occurrence of a non-empty `old`, ReplaceAll is the identity. */
  lemma {:induction false} ReplaceAllAbsent(s: string, search: string, replacement: string)
    requires search != [] && !Contains(s, search)
    ensures ReplaceAll(s, search, replacement) == s
    decreases |s|
  {
    if s == [] {
    } else {
      if search <= s {
        assert OccursAt(s, search, 0);
        assert false;
      }
      forall i | OccursAt(s[1..], search, i) ensures OccursAt(s, search, i + 1) {
        assert s[1..][i..i + |search|] == s[i + 1..i + 1 + |search|];
      }
      ReplaceAllAbsent(s[1..], search, replacement);
    }
  }

  /** Replacing a single code point by nothing deletes every copy of it. */
  lemma {:induction false} ReplaceCharByNothing(s: string, c: char)
    ensures c !in ReplaceAll(s, [c], [])
    ensures |ReplaceAll(s, [c], [])| <= |s|
    ensures c !in s ==> ReplaceAll(s, [c], []) == s
    decreases |s|
  {
    if s != [] {
      ReplaceCharByNothing(s[1..], c);
      if [c] <= s {
        assert s[1..] == s[|[c]|..];
      }
    }
  }
}
