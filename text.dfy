/**
 * String operations with the meaning Python gives them, as the rest of the model uses them:
 * `str.find`, `in` on strings, `str.split(sep)`, `str.split()`, `str.strip()`, `sep.join`,
 * `str(int)`, `int(str)` and `float(str)` on ASCII digits without underscores, and `str.upper()`
 * on ASCII letters only.
 */
module Text {
  import opened Wrappers

  // ---------------------------------------------------------------------------------------------
  // Character classes

  /** Python's `str.isspace()` for one character: what `split()` and `strip()` treat as blank. */
  predicate IsWs(c: char) {
    || c == ' '
    || ('\t' <= c <= '\r')
    || ('\U{1C}' <= c <= '\U{1F}')
    || c == '\U{85}' || c == '\U{A0}' || c == '\U{1680}'
    || ('\U{2000}' <= c <= '\U{200A}')
    || c == '\U{2028}' || c == '\U{2029}' || c == '\U{202F}' || c == '\U{205F}' || c == '\U{3000}'
  }

  predicate IsDigit(c: char) {
    '0' <= c <= '9'
  }

  predicate AllDigits(s: string) {
    forall i :: 0 <= i < |s| ==> IsDigit(s[i])
  }

  function DigitValue(c: char): (d: nat)
    requires IsDigit(c)
    ensures d < 10
  {
    c as int - '0' as int
  }

  function DigitChar(d: nat): (c: char)
    requires d < 10
    ensures IsDigit(c) && DigitValue(c) == d
  {
    ('0' as int + d) as char
  }

  /** ASCII upper-casing of one character. */
  function UpperChar(c: char): (u: char)
    ensures 'a' <= c <= 'z' ==> u as int == c as int - 32
    ensures !('a' <= c <= 'z') ==> u == c
  {
    if 'a' <= c <= 'z' then (c as int - 32) as char else c
  }

  // ---------------------------------------------------------------------------------------------
  // Upper-casing

  /** `s.upper()`, restricted to the ASCII letters. */
  function Upper(s: string): (r: string)
    ensures |r| == |s|
    ensures forall i :: 0 <= i < |s| ==> r[i] == UpperChar(s[i])
  {
    if s == [] then [] else [UpperChar(s[0])] + Upper(s[1..])
  }

  lemma UpperIdempotent(s: string)
    ensures Upper(Upper(s)) == Upper(s)
  {
    assert forall i :: 0 <= i < |s| ==> UpperChar(UpperChar(s[i])) == UpperChar(s[i]);
  }

  // ---------------------------------------------------------------------------------------------
  // Searching

  /** `needle` occurs in `hay` starting at index `i`. */
  predicate OccursAt(hay: string, needle: string, i: nat) {
    i + |needle| <= |hay| && hay[i..i + |needle|] == needle
  }

  /** A needle does not occur where its first character is missing. */
  lemma NotOccursAtMismatch(hay: string, needle: string, i: nat)
    requires |needle| > 0 && i < |hay| && hay[i] != needle[0]
    ensures !OccursAt(hay, needle, i)
  {
    if i + |needle| <= |hay| {
      assert hay[i..i + |needle|][0] == hay[i];
    }
  }

  /** `hay.find(needle, from)`: the first occurrence at or after `from`, or None for Python's -1. */
  function Find(hay: string, needle: string, from: nat): (r: Option<nat>)
    ensures r.Some? ==> from <= r.value && OccursAt(hay, needle, r.value)
    ensures r.Some? ==> forall j :: from <= j < r.value ==> !OccursAt(hay, needle, j)
    ensures r.None? ==> forall j :: from <= j ==> !OccursAt(hay, needle, j)
    decreases |hay| - from
  {
    if from + |needle| > |hay| then None
    else if OccursAt(hay, needle, from) then Some(from)
    else Find(hay, needle, from + 1)
  }

  /** Python's `needle in hay` on strings (case-sensitive). */
  predicate Contains(hay: string, needle: string) {
    Find(hay, needle, 0).Some?
  }

  lemma ContainsAt(hay: string, needle: string, i: nat)
    requires OccursAt(hay, needle, i)
    ensures Contains(hay, needle)
  {
  }

  /** A needle with a character the haystack lacks does not occur in it. */
  lemma NotContainsMissingChar(hay: string, needle: string, c: char)
    requires c in needle && c !in hay
    ensures !Contains(hay, needle)
  {
  }

  predicate StartsWith(s: string, prefix: string) {
    |prefix| <= |s| && s[..|prefix|] == prefix
  }

  // ---------------------------------------------------------------------------------------------
  // Integers and their decimal text

  /** The value of a string of decimal digits ("" counts as 0). */
  function DigitsValue(s: string): nat
    requires AllDigits(s)
  {
    if s == [] then 0 else 10 * DigitsValue(s[..|s| - 1]) + DigitValue(s[|s| - 1])
  }

  /** `str(n)` for a natural number. */
  function NatToString(n: nat): (s: string)
    ensures |s| >= 1 && AllDigits(s)
    ensures DigitsValue(s) == n
  {
    if n < 10 then [DigitChar(n)]
    else
      var prefix := NatToString(n / 10);
      var s := prefix + [DigitChar(n % 10)];
      assert s[..|s| - 1] == prefix;
      s
  }

  /** `str(i)` for any integer. */
  function IntToString(i: int): (s: string)
    ensures |s| >= 1
    ensures i < 0 <==> s[0] == '-'
    ensures i >= 0 ==> AllDigits(s)
  {
    if i < 0 then "-" + NatToString(-i) else NatToString(i)
  }

  lemma NatToStringFourDigits(n: nat)
    requires 1000 <= n <= 9999
    ensures |NatToString(n)| == 4
  {
    assert |NatToString(n / 1000)| == 1;
    assert |NatToString(n / 100)| == 2 by { assert (n / 100) / 10 == n / 1000; }
    assert |NatToString(n / 10)| == 3 by { assert (n / 10) / 10 == n / 100; }
  }

  /** `int(s)`: surrounding blanks, an optional sign and at least one ASCII decimal digit. */
  function ParseInt(s: string): (r: Option<int>)
    ensures r.Some? ==> |Strip(s)| >= 1
  {
    var t := Strip(s);
    if |t| >= 2 && (t[0] == '+' || t[0] == '-') && AllDigits(t[1..]) then
      Some(if t[0] == '-' then -(DigitsValue(t[1..]) as int) else DigitsValue(t[1..]))
    else if |t| >= 1 && AllDigits(t) then
      Some(DigitsValue(t))
    else
      None
  }

  /** A non-empty run of digits reads as its decimal value. */
  lemma ParseIntOfDigits(s: string)
    requires |s| >= 1 && AllDigits(s)
    ensures ParseInt(s) == Some(DigitsValue(s) as int)
  {
    StripUnchanged(s);
    assert IsDigit(s[0]);
  }

  lemma ParseIntOfNat(n: nat)
    ensures ParseInt(NatToString(n)) == Some(n)
  {
    StripUnchanged(NatToString(n));
  }

  /** `int(str(i)) == i`. */
  lemma ParseIntOfIntToString(i: int)
    ensures ParseInt(IntToString(i)) == Some(i)
  {
    var s := IntToString(i);
    StripUnchanged(s);
    if i < 0 {
      assert s[1..] == NatToString(-i);
    }
  }

  /** `int("+" + str(n)) == n`. */
  lemma ParseIntOfPlus(n: nat)
    ensures ParseInt("+" + NatToString(n)) == Some(n)
  {
    var s := "+" + NatToString(n);
    StripUnchanged(s);
    assert s[1..] == NatToString(n);
  }

  function Pow10(k: nat): (p: nat)
    ensures p >= 1
  {
    if k == 0 then 1 else 10 * Pow10(k - 1)
  }

  /**
   * `float(s)` for plain decimal text: surrounding blanks, an optional sign, digits with at most
   * one '.', and at least one digit.
   */
  function ParseDecimal(s: string): (r: Option<real>)
  {
    var t := Strip(s);
    var negative := |t| >= 1 && t[0] == '-';
    var body := if |t| >= 1 && (t[0] == '+' || t[0] == '-') then t[1..] else t;
    var sign: real := if negative then -1.0 else 1.0;
    match Find(body, ".", 0)
    case None =>
      if |body| >= 1 && AllDigits(body) then Some(sign * DigitsValue(body) as real) else None
    case Some(k) =>
      var whole := body[..k];
      var fraction := body[k + 1..];
      if AllDigits(whole) && AllDigits(fraction) && |whole| + |fraction| >= 1 then
        Some(sign * (DigitsValue(whole) as real + DigitsValue(fraction) as real / Pow10(|fraction|) as real))
      else None
  }

  /** Whatever `int(s)` accepts, `float(s)` accepts with the same value. */
  lemma ParseDecimalExtendsParseInt(s: string)
    requires ParseInt(s).Some?
    ensures ParseDecimal(s) == Some(ParseInt(s).value as real)
  {
    var t := Strip(s);
    var body := if |t| >= 1 && (t[0] == '+' || t[0] == '-') then t[1..] else t;
    assert AllDigits(body);
    if Find(body, ".", 0).Some? {
      assert false;
    }
  }

  // ---------------------------------------------------------------------------------------------
  // Splitting and joining on a separator

  /** `sep.join(parts)`. */
  function Join(parts: seq<string>, sep: string): string
  {
    if parts == [] then [] else if |parts| == 1 then parts[0] else parts[0] + sep + Join(parts[1..], sep)
  }

  /** `s.split(sep)` for a one-character separator: every field, empty ones included. */
  function Split(s: string, sep: char): (parts: seq<string>)
    ensures |parts| >= 1
    ensures forall i :: 0 <= i < |parts| ==> sep !in parts[i]
  {
    if s == [] then [[]]
    else
      var rest := Split(s[1..], sep);
      if s[0] == sep then [[]] + rest
      else
        assert sep !in [s[0]] + rest[0];
        assert forall i :: 1 <= i < |rest| ==> rest[1..][i - 1] == rest[i];
        [[s[0]] + rest[0]] + rest[1..]
  }

  /** Joining the fields of a split with the separator gives back the string. */
  lemma {:induction false} JoinSplit(s: string, sep: char)
    ensures Join(Split(s, sep), [sep]) == s
  {
    if s != [] {
      var rest := Split(s[1..], sep);
      JoinSplit(s[1..], sep);
      if s[0] != sep && |rest| > 1 {
        assert Join(rest, [sep]) == rest[0] + [sep] + Join(rest[1..], [sep]);
      }
    }
  }

  lemma {:induction false} SplitNoSep(a: string, sep: char)
    requires sep !in a
    ensures Split(a, sep) == [a]
  {
    if a != [] {
      SplitNoSep(a[1..], sep);
      assert a == [a[0]] + a[1..];
    }
  }

  /** A field without the separator followed by the separator splits off as the first field. */
  lemma {:induction false} SplitAfterField(a: string, sep: char, b: string)
    requires sep !in a
    ensures Split(a + [sep] + b, sep) == [a] + Split(b, sep)
  {
    var s := a + [sep] + b;
    if a == [] {
      assert s[0] == sep && s[1..] == b;
    } else {
      SplitAfterField(a[1..], sep, b);
      assert s[0] == a[0] && s[1..] == a[1..] + [sep] + b;
      assert [a[0]] + a[1..] == a;
    }
  }

  // ---------------------------------------------------------------------------------------------
  // Stripping and whitespace-separated words

  /** How many blanks `s` starts with. */
  function LeadingBlanks(s: string): (n: nat)
    ensures n <= |s|
    ensures forall i :: 0 <= i < n ==> IsWs(s[i])
    ensures n == |s| || !IsWs(s[n])
  {
    if s != [] && IsWs(s[0]) then 1 + LeadingBlanks(s[1..]) else 0
  }

  /** Where the blanks that `s` ends with begin. */
  function TrailingStart(s: string): (n: nat)
    ensures n <= |s|
    ensures forall i :: n <= i < |s| ==> IsWs(s[i])
    ensures n == 0 || !IsWs(s[n - 1])
  {
    if s != [] && IsWs(s[|s| - 1]) then TrailingStart(s[..|s| - 1]) else |s|
  }

  /** `s.lstrip()`. */
  function TrimStart(s: string): string {
    s[LeadingBlanks(s)..]
  }

  /** `s.rstrip()`. */
  function TrimEnd(s: string): string {
    s[..TrailingStart(s)]
  }

  /** `s.strip()`: what is left once the blanks at both ends are removed. */
  function Strip(s: string): (r: string)
    ensures r == [] || (!IsWs(r[0]) && !IsWs(r[|r| - 1]))
  {
    TrimEnd(TrimStart(s))
  }

  lemma StripUnchanged(s: string)
    requires s == [] || (!IsWs(s[0]) && !IsWs(s[|s| - 1]))
    ensures Strip(s) == s
  {
  }

  /** A non-empty run of non-blank characters. */
  predicate IsWord(w: string) {
    w != [] && forall i :: 0 <= i < |w| ==> !IsWs(w[i])
  }

  /** The length of the run of non-blank characters `s` starts with. */
  function WordLength(s: string): (n: nat)
    ensures n <= |s|
    ensures forall i :: 0 <= i < n ==> !IsWs(s[i])
    ensures n == |s| || IsWs(s[n])
  {
    if s == [] || IsWs(s[0]) then 0 else 1 + WordLength(s[1..])
  }

  /** `s.split()`: the maximal runs of non-blank characters, in order. */
  function Words(s: string): (ws: seq<string>)
    ensures forall i :: 0 <= i < |ws| ==> IsWord(ws[i])
    decreases |s|
  {
    var t := TrimStart(s);
    if t == [] then []
    else
      var n := WordLength(t);
      [t[..n]] + Words(t[n..])
  }

  /** The non-blank characters of `s`, in order. */
  function NonWs(s: string): string {
    if s == [] then [] else (if IsWs(s[0]) then [] else [s[0]]) + NonWs(s[1..])
  }

  /** Blanks only where a single space separates two non-blank characters. */
  predicate IsSingleSpaced(s: string) {
    forall i :: 0 <= i < |s| && IsWs(s[i]) ==>
      s[i] == ' ' && 0 < i < |s| - 1 && !IsWs(s[i - 1]) && !IsWs(s[i + 1])
  }

  function Concat(ws: seq<string>): string {
    if ws == [] then [] else ws[0] + Concat(ws[1..])
  }

  lemma {:induction false} NonWsAppend(a: string, b: string)
    ensures NonWs(a + b) == NonWs(a) + NonWs(b)
  {
    if a != [] {
      assert (a + b)[0] == a[0];
      assert (a + b)[1..] == a[1..] + b;
      NonWsAppend(a[1..], b);
    } else {
      assert a + b == b;
    }
  }

  lemma {:induction false} NonWsOfBlanks(s: string)
    requires forall i :: 0 <= i < |s| ==> IsWs(s[i])
    ensures NonWs(s) == []
  {
    if s != [] {
      NonWsOfBlanks(s[1..]);
    }
  }

  lemma {:induction false} NonWsOfWord(s: string)
    requires forall i :: 0 <= i < |s| ==> !IsWs(s[i])
    ensures NonWs(s) == s
  {
    if s != [] {
      NonWsOfWord(s[1..]);
    }
  }

  /** The words of `s`, run together, are exactly its non-blank characters. */
  lemma {:induction false} ConcatWords(s: string)
    ensures Concat(Words(s)) == NonWs(s)
    decreases |s|
  {
    var b := LeadingBlanks(s);
    var t := TrimStart(s);
    assert s == s[..b] + t;
    NonWsAppend(s[..b], t);
    NonWsOfBlanks(s[..b]);
    if t != [] {
      var n := WordLength(t);
      assert t == t[..n] + t[n..];
      NonWsAppend(t[..n], t[n..]);
      NonWsOfWord(t[..n]);
      ConcatWords(t[n..]);
      assert Words(s) == [t[..n]] + Words(t[n..]);
    }
  }

  /** Joining words with single spaces keeps exactly their characters. */
  lemma {:induction false} NonWsOfSpacedWords(ws: seq<string>)
    requires forall i :: 0 <= i < |ws| ==> IsWord(ws[i])
    ensures NonWs(Join(ws, " ")) == Concat(ws)
  {
    if ws != [] {
      NonWsOfWord(ws[0]);
      assert Concat(ws) == ws[0] + Concat(ws[1..]);
      if |ws| == 1 {
        assert Concat(ws[1..]) == [];
      } else {
        var rest := Join(ws[1..], " ");
        assert Join(ws, " ") == (ws[0] + " ") + rest;
        NonWsOfSpacedWords(ws[1..]);
        NonWsAppend(ws[0] + " ", rest);
        NonWsAppend(ws[0], " ");
        NonWsOfBlanks(" ");
      }
    }
  }

  /** Words joined with single spaces are single-spaced, and start and end with a non-blank. */
  lemma {:induction false} SpacedWordsAreSingleSpaced(ws: seq<string>)
    requires forall i :: 0 <= i < |ws| ==> IsWord(ws[i])
    ensures IsSingleSpaced(Join(ws, " "))
    ensures ws == [] <==> Join(ws, " ") == []
    ensures ws != [] ==> !IsWs(Join(ws, " ")[0]) && !IsWs(Join(ws, " ")[|Join(ws, " ")| - 1])
  {
    if |ws| > 1 {
      SpacedWordsAreSingleSpaced(ws[1..]);
      var w := ws[0];
      var rest := Join(ws[1..], " ");
      var s := w + " " + rest;
      assert Join(ws, " ") == s;
      forall i | 0 <= i < |s| && IsWs(s[i])
        ensures s[i] == ' ' && 0 < i < |s| - 1 && !IsWs(s[i - 1]) && !IsWs(s[i + 1])
      {
        if i == |w| {
          assert s[i + 1] == rest[0];
          assert s[i - 1] == w[|w| - 1];
        } else if i > |w| {
          var k := i - |w| - 1;
          assert s[i] == rest[k];
          assert s[i - 1] == (if k == 0 then ' ' else rest[k - 1]);
          assert s[i + 1] == rest[k + 1];
        }
      }
    }
  }

  lemma WordsIgnoreLeadingBlanks(s: string)
    ensures Words(s) == Words(TrimStart(s))
  {
    var t := TrimStart(s);
    assert TrimStart(t) == t;
  }

  lemma WordsUnfold(s: string, w: string)
    requires TrimStart(s) == s && s != [] && WordLength(s) == |w| && s[..|w|] == w
    ensures Words(s) == [w] + Words(s[|w|..])
  {
  }

  lemma SingleSpacedAfterBlank(s: string, k: nat)
    requires IsSingleSpaced(s) && 0 < k <= |s| && IsWs(s[k - 1])
    ensures IsSingleSpaced(s[k..])
  {
    var u := s[k..];
    forall i | 0 <= i < |u| && IsWs(u[i])
      ensures u[i] == ' ' && 0 < i < |u| - 1 && !IsWs(u[i - 1]) && !IsWs(u[i + 1])
    {
      assert u[i] == s[k + i];
      assert u[i - 1] == s[k + i - 1];
      assert u[i + 1] == s[k + i + 1];
    }
  }

  lemma SpliceAround(s: string, n: nat)
    requires n < |s| && s[n] == ' '
    ensures s[..n] + " " + s[n + 1..] == s
  {
  }

  /** A single-spaced string is the single-space join of its own words. */
  lemma {:induction false} SingleSpacedIsJoinOfWords(s: string)
    requires IsSingleSpaced(s)
    ensures Join(Words(s), " ") == s
    decreases |s|
  {
    if s != [] {
      assert LeadingBlanks(s) == 0;
      var n := WordLength(s);
      assert n > 0;
      WordsUnfold(s, s[..n]);
      if n < |s| {
        var u := s[n + 1..];
        assert s[n] == ' ' && !IsWs(s[n + 1]);
        var r := s[n..];
        assert LeadingBlanks(r) == 1 by {
          assert r[0] == s[n] && r[1..] == u && u[0] == s[n + 1];
          assert LeadingBlanks(u) == 0;
        }
        assert TrimStart(r) == u;
        WordsIgnoreLeadingBlanks(r);
        SingleSpacedAfterBlank(s, n + 1);
        SingleSpacedIsJoinOfWords(u);
        var rest := Words(u);
        assert rest != [] by { assert LeadingBlanks(u) == 0; }
        assert Join([s[..n]] + rest, " ") == s[..n] + " " + Join(rest, " ") by {
          assert ([s[..n]] + rest)[1..] == rest;
        }
        assert Words(s) == [s[..n]] + rest;
        SpliceAround(s, n);
      } else {
        assert s[..n] == s && s[n..] == [];
        assert Words(s[n..]) == [] by { assert TrimStart(s[n..]) == []; }
      }
    }
  }

  /** Blanks at the end of a string add no word. */
  lemma {:induction false} WordsAppendBlanks(s: string, b: string)
    requires forall i :: 0 <= i < |b| ==> IsWs(b[i])
    ensures Words(s + b) == Words(s)
    decreases |s|
  {
    var t := TrimStart(s);
    var k := LeadingBlanks(s);
    if t == [] {
      assert forall i :: 0 <= i < |s + b| ==> IsWs((s + b)[i]);
      assert LeadingBlanks(s + b) == |s + b| by { BlanksOnly(s + b); }
    } else {
      assert LeadingBlanks(s + b) == k by { LeadingBlanksAppend(s, b); }
      var u := t + b;
      assert TrimStart(s + b) == u;
      var n := WordLength(t);
      assert WordLength(u) == n by { WordLengthAppend(t, b); }
      SliceAppend(t, b, n);
      WordsAppendBlanks(t[n..], b);
    }
  }

  lemma {:induction false} BlanksOnly(s: string)
    requires forall i :: 0 <= i < |s| ==> IsWs(s[i])
    ensures LeadingBlanks(s) == |s|
  {
    if s != [] {
      BlanksOnly(s[1..]);
    }
  }

  lemma {:induction false} LeadingBlanksAppend(s: string, b: string)
    requires LeadingBlanks(s) < |s|
    ensures LeadingBlanks(s + b) == LeadingBlanks(s)
  {
    if IsWs(s[0]) {
      assert (s + b)[1..] == s[1..] + b;
      LeadingBlanksAppend(s[1..], b);
    }
  }

  lemma {:induction false} WordLengthAppend(t: string, b: string)
    requires forall i :: 0 <= i < |b| ==> IsWs(b[i])
    ensures WordLength(t + b) == WordLength(t)
  {
    if t == [] {
      assert t + b == b;
    } else if !IsWs(t[0]) {
      assert (t + b)[1..] == t[1..] + b;
      WordLengthAppend(t[1..], b);
    }
  }

  /** `s.strip().split() == s.split()`. */
  lemma WordsOfStrip(s: string)
    ensures Words(Strip(s)) == Words(s)
  {
    var t := TrimStart(s);
    var e := TrailingStart(t);
    assert t == t[..e] + t[e..];
    WordsAppendBlanks(t[..e], t[e..]);
    WordsIgnoreLeadingBlanks(s);
  }

  /** Splitting words joined with single spaces gives the words back. */
  lemma {:induction false} WordsOfSpacedWords(ws: seq<string>)
    requires forall i :: 0 <= i < |ws| ==> IsWord(ws[i])
    ensures Words(Join(ws, " ")) == ws
  {
    if ws == [] {
      assert Words([]) == [];
    } else if |ws| == 1 {
      WordsOfWord(ws[0]);
    } else {
      var rest := Join(ws[1..], " ");
      assert Join(ws, " ") == ws[0] + " " + rest;
      SpacedWordsAreSingleSpaced(ws[1..]);
      WordsOfSpacedWords(ws[1..]);
      WordThenRest(ws[0], rest);
    }
  }

  lemma WordsOfWord(w: string)
    requires IsWord(w)
    ensures Words(w) == [w]
  {
    assert LeadingBlanks(w) == 0;
    WordLengthOfWord(w);
    assert w[|w|..] == [] && w[..|w|] == w;
    assert Words([]) == [];
  }

  /** A word, a single space and a string starting with a non-blank: the word is split off. */
  lemma WordThenRest(w: string, rest: string)
    requires IsWord(w) && rest != [] && !IsWs(rest[0])
    ensures Words(w + " " + rest) == [w] + Words(rest)
  {
    var r := " " + rest;
    var s := w + r;
    assert w + " " + rest == s;
    SliceAppend(w, r, |w|);
    assert LeadingBlanks(s) == 0 && TrimStart(s) == s;
    assert WordLength(s) == |w| by {
      WordLengthOfWordThen(w, r);
    }
    WordsUnfold(s, w);
    assert TrimStart(r) == rest by {
      assert r[1..] == rest && LeadingBlanks(rest) == 0;
    }
    WordsIgnoreLeadingBlanks(r);
  }

  /** Slicing a concatenation inside its first part. */
  lemma SliceAppend(t: string, b: string, n: nat)
    requires n <= |t|
    ensures (t + b)[..n] == t[..n] && (t + b)[n..] == t[n..] + b
  {
  }

  lemma {:induction false} WordLengthOfWord(w: string)
    requires forall i :: 0 <= i < |w| ==> !IsWs(w[i])
    ensures WordLength(w) == |w|
  {
    if w != [] {
      WordLengthOfWord(w[1..]);
    }
  }

  lemma {:induction false} WordLengthOfWordThen(w: string, r: string)
    requires forall i :: 0 <= i < |w| ==> !IsWs(w[i])
    requires r != [] && IsWs(r[0])
    ensures WordLength(w + r) == |w|
  {
    if w == [] {
      assert w + r == r;
    } else {
      assert (w + r)[1..] == w[1..] + r;
      WordLengthOfWordThen(w[1..], r);
    }
  }
}
