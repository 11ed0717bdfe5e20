/**
 * ASCII text helpers shared by the editor, the templates and the analysis backend:
 * case mapping, trimming, substring search, splitting on a separator and word counting,
 * each as the JavaScript or Python library call it stands for behaves on ASCII input.
 */
module Strings {

  /** The two runtimes whose whitespace rules differ: the browser's JavaScript and the server's Python. */
  datatype Runtime = JavaScript | Python

  /**
   * ASCII whitespace as each runtime sees it. JavaScript's `trim` knows tab, line feed,
   * vertical tab, form feed, carriage return and space; Python's `strip`, `split` and
   * `isspace` also count the four information separators U+001C to U+001F.
   */
  predicate IsSpace(rt: Runtime, c: char) {
    c == ' ' || c == '\t' || c == '\n' || c == '\r' || c == '\U{000B}' || c == '\U{000C}'
    || (rt == Python && '\U{001C}' <= c <= '\U{001F}')
  }

  predicate IsDigit(c: char) { '0' <= c <= '9' }

  /** A character of the class `\w` of Python regular expressions, restricted to ASCII. */
  predicate IsWordChar(c: char) { IsDigit(c) || 'a' <= c <= 'z' || 'A' <= c <= 'Z' || c == '_' }

  function LowerChar(c: char): char {
    if 'A' <= c <= 'Z' then (c as int + 32) as char else c
  }

  function UpperChar(c: char): char {
    if 'a' <= c <= 'z' then (c as int - 32) as char else c
  }

  /** `toLowerCase()` / `lower()` on ASCII text. */
  function Lower(s: string): (r: string)
    ensures |r| == |s|
    ensures forall i :: 0 <= i < |s| ==> r[i] == LowerChar(s[i])
  {
    if s == [] then [] else [LowerChar(s[0])] + Lower(s[1..])
  }

  /** `toUpperCase()` / `upper()` on ASCII text. */
  function Upper(s: string): (r: string)
    ensures |r| == |s|
    ensures forall i :: 0 <= i < |s| ==> r[i] == UpperChar(s[i])
  {
    if s == [] then [] else [UpperChar(s[0])] + Upper(s[1..])
  }

  /** Python's `capitalize()`: the first character upper-cased and the rest lower-cased. */
  function Capitalize(s: string): (r: string)
    ensures |r| == |s|
    ensures s != [] ==> r[0] == UpperChar(s[0])
    ensures forall i :: 1 <= i < |s| ==> r[i] == LowerChar(s[i])
  {
    if s == [] then [] else [UpperChar(s[0])] + Lower(s[1..])
  }

  lemma LowerIdempotent(s: string)
    ensures Lower(Lower(s)) == Lower(s)
  {
  }

  /** Lower-casing forgets an earlier upper-casing. */
  lemma LowerOfUpper(s: string)
    ensures Lower(Upper(s)) == Lower(s)
  {
    forall i | 0 <= i < |s|
      ensures Lower(Upper(s))[i] == Lower(s)[i]
    {
      LowerOfUpperChar(s[i]);
    }
  }

  lemma LowerOfUpperChar(c: char)
    ensures LowerChar(UpperChar(c)) == LowerChar(c)
  {
    if 'a' <= c <= 'z' {
      assert (c as int - 32) as char as int == c as int - 32;
    }
  }

  /** Capitalising is injective on text that is already lower case, so distinct lower-case keywords keep distinct labels. */
  lemma CapitalizeInjectiveOnLower(a: string, b: string)
    requires Lower(a) == a && Lower(b) == b
    requires Capitalize(a) == Capitalize(b)
    ensures a == b
  {
    if a != [] {
      assert a[0] == LowerChar(a[0]) && b[0] == LowerChar(b[0]);
      assert Capitalize(a)[0] == UpperChar(a[0]) && Capitalize(b)[0] == UpperChar(b[0]);
      if 'a' <= a[0] <= 'z' {
        assert (a[0] as int - 32) as char as int == a[0] as int - 32;
      }
      if 'a' <= b[0] <= 'z' {
        assert (b[0] as int - 32) as char as int == b[0] as int - 32;
      }
      assert a[0] == b[0];
      assert Lower(a[1..]) == a[1..] && Lower(b[1..]) == b[1..];
      assert a[1..] == Capitalize(a)[1..] == Capitalize(b)[1..] == b[1..];
      assert a == [a[0]] + a[1..] && b == [b[0]] + b[1..];
    }
  }

  function TrimStart(rt: Runtime, s: string): (r: string)
    ensures |r| <= |s| && r == s[|s| - |r|..]
    ensures forall i :: 0 <= i < |s| - |r| ==> IsSpace(rt, s[i])
    ensures r != [] ==> !IsSpace(rt, r[0])
  {
    if s != [] && IsSpace(rt, s[0]) then TrimStart(rt, s[1..]) else s
  }

  function TrimEnd(rt: Runtime, s: string): (r: string)
    ensures |r| <= |s| && r == s[..|r|]
    ensures forall i :: |r| <= i < |s| ==> IsSpace(rt, s[i])
    ensures r != [] ==> !IsSpace(rt, r[|r| - 1])
  {
    if s != [] && IsSpace(rt, s[|s| - 1]) then TrimEnd(rt, s[..|s| - 1]) else s
  }

  /** `r` occurs in `s` at position `i`, with nothing but whitespace before and after it. */
  predicate Framed(rt: Runtime, s: string, r: string, i: int) {
    0 <= i && i + |r| <= |s| && s[i..i + |r|] == r
    && (forall j :: 0 <= j < i ==> IsSpace(rt, s[j]))
    && (forall j :: i + |r| <= j < |s| ==> IsSpace(rt, s[j]))
  }

  /**
   * `trim()` in JavaScript and `strip()` in Python: the part of the text between its
   * leading and its trailing whitespace, which is empty exactly for a blank text.
   */
  function Trim(rt: Runtime, s: string): (r: string)
    ensures |r| <= |s|
    ensures r == [] <==> forall i :: 0 <= i < |s| ==> IsSpace(rt, s[i])
    ensures r != [] ==> !IsSpace(rt, r[0]) && !IsSpace(rt, r[|r| - 1])
    ensures Framed(rt, s, r, |s| - |TrimStart(rt, s)|)
  {
    TrimBlank(rt, s);
    var t := TrimStart(rt, s);
    var r := TrimEnd(rt, t);
    FramedSlices(rt, s, t, r);
    assert r != [] ==> r[0] == t[0];
    r
  }

  lemma TrimBlank(rt: Runtime, s: string)
    ensures TrimEnd(rt, TrimStart(rt, s)) == [] <==> forall i :: 0 <= i < |s| ==> IsSpace(rt, s[i])
  {
    var t := TrimStart(rt, s);
    if TrimEnd(rt, t) == [] && t != [] {
      assert false;
    }
  }

  /** A prefix of a suffix, each cut off at whitespace, is framed by whitespace. */
  lemma FramedSlices(rt: Runtime, s: string, t: string, r: string)
    requires |t| <= |s| && t == s[|s| - |t|..]
    requires |r| <= |t| && r == t[..|r|]
    requires forall j :: 0 <= j < |s| - |t| ==> IsSpace(rt, s[j])
    requires forall j :: |r| <= j < |t| ==> IsSpace(rt, t[j])
    ensures Framed(rt, s, r, |s| - |t|)
  {
    var i := |s| - |t|;
    assert s[i..i + |r|] == t[..|r|];
    forall j | i + |r| <= j < |s| ensures IsSpace(rt, s[j]) {
      assert s[j] == t[j - i];
    }
  }

  /**
   * The trimmed text is the only part of the text framed by whitespace that neither
   * starts nor ends with whitespace.
   */
  lemma TrimUnique(rt: Runtime, s: string, r: string, i: int)
    requires Framed(rt, s, r, i)
    requires r != [] ==> !IsSpace(rt, r[0]) && !IsSpace(rt, r[|r| - 1])
    ensures r == Trim(rt, s)
  {
    var t := Trim(rt, s);
    var k := |s| - |TrimStart(rt, s)|;
    if r == [] {
      forall j | 0 <= j < |s| ensures IsSpace(rt, s[j]) {
        if j >= i {
          assert i + |r| <= j;
        }
      }
    } else {
      assert s[i] == r[0] && s[i + |r| - 1] == r[|r| - 1];
      assert t != [];
      assert s[k] == t[0] && s[k + |t| - 1] == t[|t| - 1];
      assert k == i;
      assert |t| == |r|;
    }
  }

  /** Trimming twice is trimming once. */
  lemma TrimIdempotent(rt: Runtime, s: string)
    ensures Trim(rt, Trim(rt, s)) == Trim(rt, s)
  {
    var r := Trim(rt, s);
    assert TrimStart(rt, r) == r;
    assert TrimEnd(rt, r) == r;
  }

  /** A text JavaScript trims to nothing Python strips to nothing too; the converse fails on U+001F. */
  lemma BlankAcrossRuntimes(s: string)
    ensures Trim(JavaScript, s) == [] ==> Trim(Python, s) == []
    ensures Trim(JavaScript, "\U{001F}") != [] && Trim(Python, "\U{001F}") == []
  {
    assert !IsSpace(JavaScript, "\U{001F}"[0]);
  }

  predicate StartsWith(s: string, p: string) {
    |p| <= |s| && s[..|p|] == p
  }

  predicate EndsWith(s: string, p: string) {
    |p| <= |s| && s[|s| - |p|..] == p
  }

  /** `s.includes(p)` in JavaScript, `p in s` in Python. */
  predicate Contains(s: string, p: string)
    decreases |s|
  {
    StartsWith(s, p) || (s != [] && Contains(s[1..], p))
  }

  /** An occurrence at any position is found by the search. */
  lemma {:induction false} ContainsAt(s: string, p: string, i: nat)
    requires i + |p| <= |s| && s[i..i + |p|] == p
    ensures Contains(s, p)
  {
    if i > 0 {
      assert s[1..][i - 1..i - 1 + |p|] == s[i..i + |p|];
      ContainsAt(s[1..], p, i - 1);
    }
  }

  /** Every text contains itself. */
  lemma ContainsSelf(s: string)
    ensures Contains(s, s)
  {
    assert s[..|s|] == s;
  }

  /**
   * `s.split(sep)` in JavaScript and Python: the pieces between separators,
   * empty pieces kept, so there is always one more piece than separators.
   */
  function Split(s: string, sep: char): (parts: seq<string>)
    ensures |parts| >= 1
    ensures forall i :: 0 <= i < |parts| ==> sep !in parts[i]
    decreases |s|
  {
    if s == [] then [[]]
    else
      var rest := Split(s[1..], sep);
      if s[0] == sep then [[]] + rest else [[s[0]] + rest[0]] + rest[1..]
  }

  /** `parts.join(sep)`. */
  function Join(parts: seq<string>, sep: char): string {
    if parts == [] then []
    else if |parts| == 1 then parts[0]
    else parts[0] + [sep] + Join(parts[1..], sep)
  }

  /** Splitting and joining on the same separator gives the text back. */
  lemma {:induction false} JoinSplit(s: string, sep: char)
    ensures Join(Split(s, sep), sep) == s
  {
    if s != [] {
      var rest := Split(s[1..], sep);
      JoinSplit(s[1..], sep);
      if s[0] == sep {
        assert Split(s, sep) == [[]] + rest;
      } else {
        var parts := [[s[0]] + rest[0]] + rest[1..];
        assert Split(s, sep) == parts;
        if |rest| == 1 {
          assert Join(parts, sep) == [s[0]] + rest[0];
        } else {
          assert parts[1..] == rest[1..];
          assert Join(rest, sep) == rest[0] + [sep] + Join(rest[1..], sep);
          assert Join(parts, sep) == [s[0]] + rest[0] + [sep] + Join(rest[1..], sep);
        }
      }
    }
  }

  lemma {:induction false} SplitAfterPiece(x: string, y: string, sep: char)
    requires sep !in x
    ensures Split(x + y, sep) == [x + Split(y, sep)[0]] + Split(y, sep)[1..]
  {
    if x != [] {
      SplitAfterPiece(x[1..], y, sep);
      SplitAfterPieceStep(x, y, sep);
    } else {
      SplitAfterNothing(y, sep);
    }
  }

  lemma SplitAfterPieceStep(x: string, y: string, sep: char)
    requires x != [] && x[0] != sep
    requires Split(x[1..] + y, sep) == [x[1..] + Split(y, sep)[0]] + Split(y, sep)[1..]
    ensures Split(x + y, sep) == [x + Split(y, sep)[0]] + Split(y, sep)[1..]
  {
    var parts := Split(y, sep);
    HeadTail(x, y);
    SplitCons(x[0], x[1..] + y, sep, x[1..] + parts[0], parts[1..]);
    HeadTail(x, parts[0]);
  }

  lemma HeadTail(x: string, z: string)
    requires x != []
    ensures [x[0]] + (x[1..] + z) == x + z
  {
    assert x == [x[0]] + x[1..];
  }

  lemma SplitAfterNothing(y: string, sep: char)
    ensures Split([] + y, sep) == [[] + Split(y, sep)[0]] + Split(y, sep)[1..]
  {
    var parts := Split(y, sep);
    assert [] + y == y;
    assert [] + parts[0] == parts[0];
    assert [parts[0]] + parts[1..] == parts;
  }

  /** A character other than the separator joins the first piece. */
  lemma SplitCons(c: char, t: string, sep: char, head: string, tail: seq<string>)
    requires c != sep && Split(t, sep) == [head] + tail
    ensures Split([c] + t, sep) == [[c] + head] + tail
  {
    assert ([c] + t)[1..] == t;
  }

  /** Joining pieces free of the separator and splitting again gives the pieces back. */
  lemma {:induction false} SplitJoin(parts: seq<string>, sep: char)
    requires |parts| >= 1
    requires forall i :: 0 <= i < |parts| ==> sep !in parts[i]
    ensures Split(Join(parts, sep), sep) == parts
  {
    if |parts| == 1 {
      SplitAfterPiece(parts[0], [], sep);
      assert parts[0] + [] == parts[0];
    } else {
      var tail := Join(parts[1..], sep);
      SplitJoin(parts[1..], sep);
      assert ([sep] + tail)[1..] == tail;
      assert Split([sep] + tail, sep) == [[]] + parts[1..];
      assert parts[0] + [sep] + tail == parts[0] + ([sep] + tail);
      SplitAfterPiece(parts[0], [sep] + tail, sep);
      assert parts[0] + [] == parts[0];
    }
  }

  /** The pieces, glued together with nothing between them. */
  function Concat(parts: seq<string>): string {
    if parts == [] then [] else parts[0] + Concat(parts[1..])
  }

  /** The text with every occurrence of one character deleted. */
  function Without(s: string, c: char): (r: string)
    ensures c !in r
  {
    if s == [] then [] else (if s[0] == c then [] else [s[0]]) + Without(s[1..], c)
  }

  /** The pieces of a text that are not empty, in order. */
  function DropEmpty(parts: seq<string>): (r: seq<string>)
    ensures forall i :: 0 <= i < |r| ==> r[i] != [] && r[i] in parts
  {
    if parts == [] then []
    else (if parts[0] == [] then [] else [parts[0]]) + DropEmpty(parts[1..])
  }

  /**
   * `text.split('\n')` with the empty lines dropped: what the templates turn into one
   * bullet each.
   */
  function NonEmptyLines(s: string): seq<string> {
    DropEmpty(Split(s, '\n'))
  }

  lemma {:induction false} ConcatSplit(s: string, sep: char)
    ensures Concat(Split(s, sep)) == Without(s, sep)
  {
    if s != [] {
      ConcatSplit(s[1..], sep);
      var rest := Split(s[1..], sep);
      assert Concat(rest) == rest[0] + Concat(rest[1..]);
      if s[0] != sep {
        var parts := [[s[0]] + rest[0]] + rest[1..];
        assert parts[1..] == rest[1..];
        assert Concat(parts) == [s[0]] + rest[0] + Concat(rest[1..]);
      } else {
        assert Concat([[]] + rest) == [] + Concat(rest);
      }
    }
  }

  lemma {:induction false} ConcatDropEmpty(parts: seq<string>)
    ensures Concat(DropEmpty(parts)) == Concat(parts)
  {
    if parts != [] {
      ConcatDropEmpty(parts[1..]);
      if parts[0] != [] {
        assert ([parts[0]] + DropEmpty(parts[1..]))[1..] == DropEmpty(parts[1..]);
      } else {
        assert DropEmpty(parts) == DropEmpty(parts[1..]);
        assert Concat(parts) == Concat(parts[1..]);
      }
    }
  }

  /**
   * The bullets of a description: each is a non-empty line without a line break,
   * and read one after the other they are the description with its line breaks
   * removed, so no text is lost or reordered.
   */
  lemma NonEmptyLinesSpec(s: string)
    ensures forall i :: 0 <= i < |NonEmptyLines(s)| ==> NonEmptyLines(s)[i] != [] && '\n' !in NonEmptyLines(s)[i]
    ensures Concat(NonEmptyLines(s)) == Without(s, '\n')
  {
    ConcatDropEmpty(Split(s, '\n'));
    ConcatSplit(s, '\n');
  }

  /** `len(s.split())` in Python: the number of maximal runs of non-whitespace characters. */
  function WordCount(s: string): (n: nat)
    ensures n == 0 <==> forall i :: 0 <= i < |s| ==> IsSpace(Python, s[i])
    ensures n <= |s|
  {
    RunsAfter(s, true)
  }

  function RunsAfter(s: string, afterSpace: bool): (n: nat)
    ensures n <= |s|
    ensures afterSpace ==> (n == 0 <==> forall i :: 0 <= i < |s| ==> IsSpace(Python, s[i]))
    decreases |s|
  {
    if s == [] then 0
    else if IsSpace(Python, s[0]) then RunsAfter(s[1..], true)
    else (if afterSpace then 1 else 0) + RunsAfter(s[1..], false)
  }

  /** A non-empty text without whitespace is one word. */
  lemma WordCountOfWord(w: string)
    requires w != [] && forall i :: 0 <= i < |w| ==> !IsSpace(Python, w[i])
    ensures WordCount(w) == 1
  {
    RunsInWord(w, true);
  }

  lemma {:induction false} RunsInWord(w: string, afterSpace: bool)
    requires w != [] && forall i :: 0 <= i < |w| ==> !IsSpace(Python, w[i])
    ensures RunsAfter(w, afterSpace) == if afterSpace then 1 else 0
    decreases |w|
  {
    if |w| > 1 {
      RunsInWord(w[1..], false);
    } else {
      assert w[1..] == [];
    }
  }

  /** A whitespace character separates the words before it from the words after it. */
  lemma WordCountSplit(a: string, c: char, b: string)
    requires IsSpace(Python, c)
    ensures WordCount(a + [c] + b) == WordCount(a) + WordCount(b)
  {
    RunsSplit(a, c, b, true);
  }

  lemma {:induction false} RunsSplit(a: string, c: char, b: string, afterSpace: bool)
    requires IsSpace(Python, c)
    ensures RunsAfter(a + [c] + b, afterSpace) == RunsAfter(a, afterSpace) + RunsAfter(b, true)
    decreases |a|
  {
    var s := a + [c] + b;
    if a == [] {
      assert s[0] == c && s[1..] == b;
    } else {
      assert s[0] == a[0] && s[1..] == a[1..] + [c] + b;
      RunsSplit(a[1..], c, b, IsSpace(Python, a[0]));
    }
  }

  /** `len("a b".split())` is 2. */
  lemma TwoWords()
    ensures WordCount("a b") == 2
  {
    WordCountSplit("a", ' ', "b");
    WordCountOfWord("a");
    WordCountOfWord("b");
    assert "a" + [' '] + "b" == "a b";
  }

  /** `re.search(r'\d{n,}', s)` for ASCII digits: some n consecutive characters are all digits. */
  predicate HasDigitRun(s: string, n: nat)
    decreases |s|
  {
    (n <= |s| && forall j :: 0 <= j < n ==> IsDigit(s[j])) || (s != [] && HasDigitRun(s[1..], n))
  }

  /**
   * `re.search(r'\b' + w + r'\b', s, re.IGNORECASE)` for a lower-case ASCII word `w`
   * that starts and ends with a word character.
   */
  predicate HasWord(s: string, w: string) {
    WordFrom(s, w, false)
  }

  predicate WordFrom(s: string, w: string, afterWordChar: bool)
    decreases |s|
  {
    (!afterWordChar && |w| <= |s| && Lower(s[..|w|]) == w && (|s| == |w| || !IsWordChar(s[|w|])))
    || (s != [] && WordFrom(s[1..], w, IsWordChar(s[0])))
  }

  /** Python's `s.replace(p, '')`: occurrences of `p` deleted in one left-to-right scan. */
  function RemoveAll(s: string, p: string): (r: string)
    ensures |r| <= |s|
    ensures r == s <==> p == [] || !Contains(s, p)
    ensures p != [] && Contains(s, p) ==> |r| <= |s| - |p|
    decreases |s|
  {
    if p == [] || s == [] then s
    else if StartsWith(s, p) then RemoveAll(s[|p|..], p)
    else
      assert s == [s[0]] + s[1..];
      [s[0]] + RemoveAll(s[1..], p)
  }

  /** No occurrence of `p` starts before position `n` of `s`. */
  predicate NoMatchBefore(s: string, p: string, n: nat) {
    forall k :: 0 <= k < n && k <= |s| ==> !StartsWith(s[k..], p)
  }

  /**
   * The scan keeps the text before the leftmost occurrence, drops that occurrence and
   * goes on after it; deleting adds no character.
   */
  lemma {:induction false} RemoveAllSpec(a: string, p: string, b: string)
    requires p != [] && NoMatchBefore(a + p + b, p, |a|)
    ensures RemoveAll(a + p + b, p) == a + RemoveAll(b, p)
    ensures forall c :: c in RemoveAll(b, p) ==> c in b
    decreases |a|
  {
    RemoveAllKeepsChars(b, p);
    if a == [] {
      assert a + p + b == p + b;
      assert (p + b)[..|p|] == p && (p + b)[|p|..] == b;
    } else {
      NoMatchBeforeTail(a + p + b, p, |a|);
      assert (a + p + b)[1..] == a[1..] + p + b;
      RemoveAllSpec(a[1..], p, b);
      RemoveAllSkip(a, p, b);
    }
  }

  lemma NoMatchBeforeTail(s: string, p: string, n: nat)
    requires 0 < n <= |s| && NoMatchBefore(s, p, n)
    ensures !StartsWith(s, p) && NoMatchBefore(s[1..], p, n - 1)
  {
    assert s[0..] == s;
    forall k | 0 <= k < n - 1 && k <= |s| - 1 ensures !StartsWith(s[1..][k..], p) {
      assert s[1..][k..] == s[k + 1..];
    }
  }

  lemma RemoveAllSkip(a: string, p: string, b: string)
    requires p != [] && a != [] && !StartsWith(a + p + b, p)
    requires RemoveAll(a[1..] + p + b, p) == a[1..] + RemoveAll(b, p)
    ensures RemoveAll(a + p + b, p) == a + RemoveAll(b, p)
  {
    assert a + p + b == a + (p + b) && a[1..] + p + b == a[1..] + (p + b);
    ConsSplit(a, p + b);
    RemoveAllStep(a + p + b, p);
    ConsSplit(a, RemoveAll(b, p));
  }

  lemma ConsSplit<T>(a: seq<T>, t: seq<T>)
    requires a != []
    ensures [a[0]] + (a[1..] + t) == a + t
    ensures (a + t)[0] == a[0] && (a + t)[1..] == a[1..] + t
  {
    assert a == [a[0]] + a[1..];
  }

  /** Without an occurrence at the front, the scan keeps the first character. */
  lemma RemoveAllStep(s: string, p: string)
    requires p != [] && s != [] && !StartsWith(s, p)
    ensures RemoveAll(s, p) == [s[0]] + RemoveAll(s[1..], p)
  {
  }

  lemma {:induction false} RemoveAllKeepsChars(s: string, p: string)
    ensures forall c :: c in RemoveAll(s, p) ==> c in s
    decreases |s|
  {
    if p != [] && s != [] {
      if StartsWith(s, p) {
        RemoveAllKeepsChars(s[|p|..], p);
        assert forall c :: c in s[|p|..] ==> c in s;
      } else {
        RemoveAllKeepsChars(s[1..], p);
        assert s == [s[0]] + s[1..];
      }
    }
  }

  function DigitChar(d: nat): char
    requires d < 10
  {
    (48 + d) as char
  }

  /** The number a string of decimal digits stands for. */
  function DecimalValue(s: string): int {
    if s == [] then 0 else DecimalValue(s[..|s| - 1]) * 10 + (s[|s| - 1] as int - '0' as int)
  }

  /** Python's `str(n)` / an f-string field for a non-negative integer: its decimal digits, without leading zeros. */
  function NatToString(n: nat): (s: string)
    ensures |s| >= 1 && forall i :: 0 <= i < |s| ==> IsDigit(s[i])
    ensures DecimalValue(s) == n
    ensures s[0] == '0' ==> s == "0"
  {
    if n < 10 then [DigitChar(n)]
    else
      var front := NatToString(n / 10);
      var s := front + [DigitChar(n % 10)];
      assert s[..|s| - 1] == front;
      s
  }
}
