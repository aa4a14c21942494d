/** The English modifiers of modifiers/en/basic.go. Each takes the value
    being modified and the parameter strings, as a modifier function does. */
module English {
  import opened GoStrings

  /** `isVowel`: only the five lower-case vowels count. */
  predicate IsVowel(c: char)
  {
    c == 'a' || c == 'e' || c == 'i' || c == 'o' || c == 'u'
  }

  /** Prefixes "an " before a lower-case vowel and "a " before anything
      else; the empty value stays empty. */
  function AppendIndefArticle(input: string, params: seq<string>): (r: string)
    ensures input == [] <==> r == []
    ensures input != [] ==> |input| < |r| && r[|r| - |input|..] == input
    ensures input != [] ==> (r[..|r| - |input|] == "an " <==> IsVowel(input[0]))
    ensures input != [] ==> (r[..|r| - |input|] == "a " <==> !IsVowel(input[0]))
  {
    if |input| == 0 then ""
    else if IsVowel(input[0]) then "an " + input
    else "a " + input
  }

  /** The simple upper-case mapping of `unicode.ToUpper` for the Latin-1
      letters; every other code point maps to itself. */
  function UpperRune(c: char): (u: char)
  {
    if 'a' <= c <= 'z' then (c as int - 32) as char
    else if '\U{00E0}' <= c <= '\U{00FE}' && c != '\U{00F7}' then (c as int - 32) as char
    else if c == '\U{00B5}' then '\U{039C}'
    else if c == '\U{00FF}' then '\U{0178}'
    else c
  }

  lemma UpperRuneIdempotent(c: char)
    ensures UpperRune(UpperRune(c)) == UpperRune(c)
  {
  }

  /** Upper-cases the first code point and keeps the rest. */
  function CapitaliseFirst(input: string, params: seq<string>): (r: string)
    ensures |r| == |input|
    ensures input != [] ==> r[0] == UpperRune(input[0]) && r[1..] == input[1..]
  {
    if |input| == 0 then "" else [UpperRune(input[0])] + input[1..]
  }

  /** Capitalising twice is capitalising once. */
  lemma CapitaliseIdempotent(input: string, params: seq<string>, more: seq<string>)
    ensures CapitaliseFirst(CapitaliseFirst(input, params), more) == CapitaliseFirst(input, params)
  {
    if input != [] {
      UpperRuneIdempotent(input[0]);
      var once := CapitaliseFirst(input, params);
      assert CapitaliseFirst(once, more) == [UpperRune(once[0])] + once[1..];
    }
  }

  /** Replaces every occurrence of the first parameter by the second; the
      source reads both parameters unchecked. */
  function Replace(input: string, params: seq<string>): (r: string)
    requires |params| >= 2
    ensures params[0] != [] ==> r == JoinWith(Split(input, params[0]), params[1])
    ensures !Contains(input, params[0]) ==> r == input
    ensures params[0] == [] ==> r == params[1] + Join(EachThen(input, params[1]))
    ensures params[0] == [] ==> |r| == |input| + (|input| + 1) * |params[1]|
  {
    ReplaceFacts(input, params[0], params[1]);
    ReplaceAll(input, params[0], params[1])
  }

  lemma ReplaceFacts(s: string, search: string, replacement: string)
    ensures search != [] ==> ReplaceAll(s, search, replacement) == JoinWith(Split(s, search), replacement)
    ensures !Contains(s, search) ==> ReplaceAll(s, search, replacement) == s
    ensures search == [] ==> ReplaceAll(s, search, replacement) == replacement + Join(EachThen(s, replacement))
    ensures search == [] ==> |ReplaceAll(s, search, replacement)| == |s| + (|s| + 1) * |replacement|
  {
    if search != [] {
      ReplaceAllIsSplitJoin(s, search, replacement);
      if !Contains(s, search) {
        ReplaceAllAbsent(s, search, replacement);
      }
    } else {
      EmptySearchLength(s, replacement);
      EmptySearchSpread(s, replacement);
      assert OccursAt(s, search, 0);
    }
  }

  /** An empty search string matches before every code point and at the
      end, so the replacement is added |s| + 1 times. */
  lemma {:induction false} EmptySearchLength(s: string, replacement: string)
    ensures |ReplaceAll(s, [], replacement)| == |s| + (|s| + 1) * |replacement|
    decreases |s|
  {
    if s != [] {
      EmptySearchLength(s[1..], replacement);
    }
  }

  /** The cases of the source's own tests that start with a lower-case
      vowel, as the code computes them, one lemma each. */
  lemma ArticleApple()
    ensures AppendIndefArticle("apple", []) == "an apple"
  {
  }

  lemma ArticleOneYearOld()
    ensures AppendIndefArticle("one-year-old ham", []) == "an one-year-old ham"
  {
  }

  lemma ArticleUnited()
    ensures AppendIndefArticle("united group", []) == "an united group"
  {
  }

  /** The cases of the source's own tests that start with a consonant, as
      the code computes them. */
  lemma ArticleConsonantExamples()
    ensures AppendIndefArticle("helicopter", []) == "a helicopter"
    ensures AppendIndefArticle("hour nap", []) == "a hour nap"
    ensures AppendIndefArticle("kiwi \U{1F95D}", []) == "a kiwi \U{1F95D}"
  {
  }

  /** The remaining cases of the source's own tests: the empty value, a
      digit and a code point outside Latin-1. */
  lemma ArticleOtherExamples()
    ensures AppendIndefArticle("", []) == ""
    ensures AppendIndefArticle("7", []) == "a 7"
    ensures AppendIndefArticle("\U{1F95D}", []) == "a \U{1F95D}"
  {
  }

  lemma CapitaliseExamples()
    ensures CapitaliseFirst("", []) == ""
    ensures CapitaliseFirst("hello", []) == "Hello"
    ensures CapitaliseFirst("\U{1F95D}fruit", []) == "\U{1F95D}fruit"
    ensures CapitaliseFirst("Kiwi \U{1F95D}", []) == "Kiwi \U{1F95D}"
  {
  }

  lemma ReplaceExamples()
    ensures Replace("", ["", ""]) == ""
    ensures Replace("a", ["a", "b"]) == "b"
    ensures Replace("hello", ["he", "o"]) == "ollo"
  {
    assert !("he" <= "o") && !("he" <= "lo") && !("he" <= "llo");
    assert ReplaceAll("", "he", "o") == "";
    assert ReplaceAll("o", "he", "o") == "o";
    assert ReplaceAll("lo", "he", "o") == "lo";
    assert ReplaceAll("llo", "he", "o") == "llo";
    assert "he" <= "hello" && "hello"[2..] == "llo";
  }
}
