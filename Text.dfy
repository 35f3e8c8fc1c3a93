/** The handful of Python string and list operations the tutor relies on:
    `str.split()` with no separator, the substring test `pat in s`, `str.find`,
    `s.split(sep)[1]` and the slice `xs[:k]` (including a negative `k`). */
module Text {
  import opened Wrappers

  /** Python's `str.isspace()` for one character: exactly the characters on which
      `str.split()` without an argument splits. */
  predicate IsSpace(c: char) {
    c == ' ' || ('\t' <= c <= '\r') || ('\U{1C}' <= c <= '\U{1F}') ||
    c == '\U{85}' || c == '\U{A0}' || c == '\U{1680}' || ('\U{2000}' <= c <= '\U{200A}') ||
    c == '\U{2028}' || c == '\U{2029}' || c == '\U{202F}' || c == '\U{205F}' || c == '\U{3000}'
  }

  /** The first index at or after `i` that is not whitespace. */
  function SkipSpaces(s: string, i: nat): (j: nat)
    requires i <= |s|
    ensures i <= j <= |s| && (j < |s| ==> !IsSpace(s[j]))
    ensures forall k :: i <= k < j ==> IsSpace(s[k])
    decreases |s| - i
  {
    if i < |s| && IsSpace(s[i]) then SkipSpaces(s, i + 1) else i
  }

  /** The first index at or after `i` that is whitespace (or the end). */
  function SkipWord(s: string, i: nat): (j: nat)
    requires i <= |s|
    ensures i <= j <= |s| && (j < |s| ==> IsSpace(s[j]))
    ensures forall k :: i <= k < j ==> !IsSpace(s[k])
    decreases |s| - i
  {
    if i < |s| && !IsSpace(s[i]) then SkipWord(s, i + 1) else i
  }

  /** The maximal runs of non-whitespace characters of `s[i..]`, left to right. */
  function WordsFrom(s: string, i: nat): (r: seq<string>)
    requires i <= |s|
    ensures forall n :: 0 <= n < |r| ==> r[n] != []
    decreases |s| - i
  {
    var j := SkipSpaces(s, i);
    if j == |s| then [] else
      var k := SkipWord(s, j);
      [s[j..k]] + WordsFrom(s, k)
  }

  /** Python's `s.split()`: every word is non-empty. */
  function Words(s: string): (r: seq<string>)
    ensures forall n :: 0 <= n < |r| ==> r[n] != []
  {
    WordsFrom(s, 0)
  }

  /** No word contains whitespace. */
  lemma {:induction false} WordsFromHaveNoSpaces(s: string, i: nat)
    requires i <= |s|
    ensures forall n, k :: 0 <= n < |WordsFrom(s, i)| && 0 <= k < |WordsFrom(s, i)[n]| ==> !IsSpace(WordsFrom(s, i)[n][k])
    decreases |s| - i
  {
    var j := SkipSpaces(s, i);
    if j < |s| {
      var k := SkipWord(s, j);
      WordsFromHaveNoSpaces(s, k);
      assert WordsFrom(s, i) == [s[j..k]] + WordsFrom(s, k);
    }
  }

  lemma WordsHaveNoSpaces(s: string)
    ensures forall n, k :: 0 <= n < |Words(s)| && 0 <= k < |Words(s)[n]| ==> !IsSpace(Words(s)[n][k])
  {
    WordsFromHaveNoSpaces(s, 0);
  }

  /** A non-whitespace run that ends at whitespace (or the end) is the word there. */
  lemma SkipWordAt(s: string, i: nat, j: nat)
    requires i <= j <= |s| && (forall k :: i <= k < j ==> !IsSpace(s[k])) && (j < |s| ==> IsSpace(s[j]))
    ensures SkipWord(s, i) == j
    decreases j - i
  {
    if i < j {
      SkipWordAt(s, i + 1, j);
    }
  }

  /** A leading word followed by whitespace is the first word. */
  lemma FirstWord(w: string, rest: string)
    requires w != [] && (forall k :: 0 <= k < |w| ==> !IsSpace(w[k])) && rest != [] && IsSpace(rest[0])
    ensures Words(w + rest) != [] && Words(w + rest)[0] == w
  {
    var s := w + rest;
    assert SkipSpaces(s, 0) == 0;
    SkipWordAt(s, 0, |w|);
    assert s[0..|w|] == w;
  }

  /** A whitespace character at `i` changes nothing about the words from `i` on. */
  lemma WordsFromSkip(s: string, i: nat)
    requires i < |s| && IsSpace(s[i])
    ensures WordsFrom(s, i) == WordsFrom(s, i + 1)
  {
    assert SkipSpaces(s, i) == SkipSpaces(s, i + 1);
  }

  /** n words need at least n characters and n - 1 separators between them. */
  lemma {:induction false} WordsFromLength(s: string, i: nat)
    requires i <= |s|
    ensures 2 * |WordsFrom(s, i)| <= |s| - i + 1
    decreases |s| - i
  {
    var j := SkipSpaces(s, i);
    if j < |s| {
      var k := SkipWord(s, j);
      assert WordsFrom(s, i) == [s[j..k]] + WordsFrom(s, k);
      if k < |s| {
        WordsFromSkip(s, k);
        WordsFromLength(s, k + 1);
      }
    }
  }

  /** More than three words cannot fit in fewer than seven characters. */
  lemma ManyWordsAreLong(s: string)
    requires |Words(s)| > 3
    ensures |s| >= 7
  {
    WordsFromLength(s, 0);
  }

  predicate OccursAt(s: string, pat: string, i: int) {
    0 <= i && i + |pat| <= |s| && s[i..i + |pat|] == pat
  }

  /** Python's `pat in s`. */
  predicate Contains(s: string, pat: string) {
    exists i | 0 <= i <= |s| :: OccursAt(s, pat, i)
  }

  /** Python's `s.find(pat, from)`: the leftmost occurrence at or after `from`. */
  function FindFrom(s: string, pat: string, from: nat): (r: Option<nat>)
    ensures r.Some? ==> from <= r.value && OccursAt(s, pat, r.value)
    ensures r.Some? ==> forall q :: from <= q < r.value ==> !OccursAt(s, pat, q)
    ensures r.None? ==> forall q :: from <= q ==> !OccursAt(s, pat, q)
    decreases |s| - from
  {
    if from + |pat| > |s| then None
    else if s[from..from + |pat|] == pat then Some(from)
    else FindFrom(s, pat, from + 1)
  }

  function Find(s: string, pat: string): (r: Option<nat>)
    ensures r.Some? <==> Contains(s, pat)
    ensures r.Some? ==> OccursAt(s, pat, r.value) && forall q :: 0 <= q < r.value ==> !OccursAt(s, pat, q)
  {
    FindFrom(s, pat, 0)
  }

  /** An occurrence inside a prefix is an occurrence in the whole string. */
  lemma OccursInPrefix(s: string, pat: string, n: nat, i: int)
    requires n <= |s| && OccursAt(s[..n], pat, i)
    ensures OccursAt(s, pat, i) && i + |pat| <= n
  {
    assert s[..n][i..i + |pat|] == s[i..i + |pat|];
  }

  /** The middle part of a concatenation occurs right after the first part. */
  lemma OccursInMiddle(a: string, b: string, c: string)
    ensures OccursAt(a + b + c, b, |a|) && Contains(a + b + c, b)
  {
    assert (a + b + c)[|a|..|a| + |b|] == b;
    assert OccursAt(a + b + c, b, |a|);
  }

  /** The second and fourth parts of a five-part concatenation both occur in it. */
  lemma OccursInFive(a: string, x: string, b: string, y: string, c: string)
    ensures Contains(a + x + b + y + c, x) && Contains(a + x + b + y + c, y)
  {
    OccursInMiddle(a, x, b + y + c);
    assert a + x + (b + y + c) == a + x + b + y + c;
    OccursInMiddle(a + x + b, y, c);
  }

  /** Where the parts of a six-part layout start. */
  lemma LayoutOffsets(p: string, m0: string, x: string, m1: string, y: string, t: string)
    ensures var s := p + m0 + x + m1 + y + t;
            OccursAt(s, p, 0) && OccursAt(s, x, |p| + |m0|) && OccursAt(s, y, |p| + |m0| + |x| + |m1|)
  {
    var s := p + m0 + x + m1 + y + t;
    assert s[0..|p|] == p;
    OccursInMiddle(p + m0, x, m1 + y + t);
    assert p + m0 + x + (m1 + y + t) == s;
    OccursInMiddle(p + m0 + x + m1, y, t);
  }

  /** An occurrence inside an occurrence is an occurrence. */
  lemma OccursWithin(s: string, t: string, pat: string, i: int, j: int)
    requires OccursAt(s, t, i) && OccursAt(t, pat, j)
    ensures OccursAt(s, pat, i + j)
  {
    forall k | 0 <= k < |pat| ensures s[i + j + k] == pat[k] {
      assert s[i + j + k] == s[i..i + |t|][j + k] == t[j..j + |pat|][k];
    }
    assert s[i + j..i + j + |pat|] == pat;
  }

  /** An occurrence starts with the pattern's first character. */
  lemma OccursFirstChar(s: string, pat: string, i: int)
    requires OccursAt(s, pat, i) && pat != []
    ensures s[i] == pat[0]
  {
    assert s[i..i + |pat|][0] == s[i];
  }

  /** Where `a + b` occurs, `a` occurs. */
  lemma OccursPrefix(s: string, a: string, b: string, i: int)
    requires OccursAt(s, a + b, i)
    ensures OccursAt(s, a, i)
  {
    assert s[i..i + |a|] == (a + b)[..|a|];
  }

  /** An occurrence in the second part of a concatenation, shifted. */
  lemma OccursShifted(a: string, b: string, pat: string, i: int)
    requires OccursAt(b, pat, i)
    ensures OccursAt(a + b, pat, |a| + i)
  {
    assert (a + b)[|a| + i..|a| + i + |pat|] == b[i..i + |pat|];
  }

  /** An occurrence that straddles the end of `a` contains the first character of `b`. */
  lemma Straddle(a: string, b: string, pat: string, q: int)
    requires OccursAt(a + b, pat, q) && q < |a| < q + |pat|
    ensures |b| > 0 && pat[|a| - q] == b[0]
  {
    assert (a + b)[q..q + |pat|][|a| - q] == (a + b)[|a|];
  }

  /** An occurrence that lies inside `a` is an occurrence in `a`. */
  lemma OccursInFirst(a: string, b: string, pat: string, q: int)
    requires OccursAt(a + b, pat, q) && q + |pat| <= |a|
    ensures OccursAt(a, pat, q)
  {
    assert (a + b)[q..q + |pat|] == a[q..q + |pat|];
  }

  /** An occurrence that lies inside `b` is an occurrence in `b`. */
  lemma OccursInSecond(a: string, b: string, pat: string, q: int)
    requires OccursAt(a + b, pat, q) && |a| <= q
    ensures OccursAt(b, pat, q - |a|)
  {
    assert (a + b)[q..q + |pat|] == b[q - |a|..q - |a| + |pat|];
  }

  /** The text of `s` before the first occurrence of `sep`, or all of `s`. */
  function UpTo(s: string, sep: string): string
    requires sep != []
  {
    match Find(s, sep)
    case Some(q) => s[..q]
    case None => s
  }

  /** `UpTo` is a prefix without the separator, followed by the end or by the separator. */
  lemma UpToFirstSeparator(s: string, sep: string)
    requires sep != []
    ensures var r := UpTo(s, sep);
            |r| <= |s| && s[..|r|] == r && !Contains(r, sep) && (|r| == |s| || OccursAt(s, sep, |r|))
  {
    var r := UpTo(s, sep);
    match Find(s, sep)
    case Some(q) =>
      forall i | 0 <= i <= |r| ensures !OccursAt(r, sep, i) {
        if OccursAt(r, sep, i) {
          OccursInPrefix(s, sep, q, i);
        }
      }
    case None =>
  }

  /** Python's `s.split(sep)[1]`: the text between the first and the second
      occurrence of `sep`, or up to the end when there is no second one. */
  function SecondPiece(s: string, sep: string): (r: string)
    requires sep != [] && Contains(s, sep)
  {
    var p := Find(s, sep).value;
    UpTo(s[p + |sep|..], sep)
  }

  /** `SecondPiece` is exactly what follows the first separator, it holds no
      separator itself, and after it comes the end of `s` or the next separator. */
  lemma SecondPieceBetweenSeparators(s: string, sep: string)
    requires sep != [] && Contains(s, sep)
    ensures var p, r := Find(s, sep).value, SecondPiece(s, sep);
            p + |sep| + |r| <= |s| && s[p + |sep|..p + |sep| + |r|] == r
    ensures !Contains(SecondPiece(s, sep), sep)
    ensures var p, r := Find(s, sep).value, SecondPiece(s, sep);
            p + |sep| + |r| == |s| || OccursAt(s, sep, p + |sep| + |r|)
  {
    var at := Find(s, sep).value + |sep|;
    var r := UpTo(s[at..], sep);
    assert r == SecondPiece(s, sep);
    UpToFirstSeparator(s[at..], sep);
    DropThenTake(s, at, |r|);
    if at + |r| < |s| {
      OccursInDrop(s, sep, at, |r|);
    }
  }

  /** Behind a line break, a separator without line breaks that is followed by
      separator-free text is the first one, and `split(sep)[1]` is that text. */
  lemma SecondPieceAfterBreak(p: string, sep: string, tail: string)
    requires sep != [] && (forall k :: 0 <= k < |sep| ==> sep[k] != '\n')
    requires !Contains(p, sep) && !Contains(tail, sep)
    ensures Contains(p + "\n" + (sep + tail), sep) && SecondPiece(p + "\n" + (sep + tail), sep) == tail
  {
    var a := p + "\n";
    var s := a + (sep + tail);
    SeparatorAfterPrefix(a, sep, tail);
    NoSeparatorBeforeBreak(p, sep + tail, sep);
    FindAt(s, sep, |a|);
    var rest := s[|a| + |sep|..];
    assert rest == tail;
    assert Find(tail, sep).None?;
    assert SecondPiece(s, sep) == UpTo(rest, sep);
  }

  /** A separator written right after `a` occurs at `|a|`. */
  lemma SeparatorAfterPrefix(a: string, sep: string, tail: string)
    ensures OccursAt(a + (sep + tail), sep, |a|)
  {
    assert (sep + tail)[0..|sep|] == sep;
    OccursShifted(a, sep + tail, sep, 0);
  }

  /** An occurrence with none before it is the one `find` returns. */
  lemma FindAt(s: string, pat: string, i: int)
    requires OccursAt(s, pat, i) && forall q :: 0 <= q < i ==> !OccursAt(s, pat, q)
    ensures Find(s, pat) == Some(i)
  {
    assert Contains(s, pat);
  }

  /** A separator without line breaks never starts in `p` or at the break of `p + "\n" + b`. */
  lemma NoSeparatorBeforeBreak(p: string, b: string, sep: string)
    requires sep != [] && (forall k :: 0 <= k < |sep| ==> sep[k] != '\n') && !Contains(p, sep)
    ensures forall q :: 0 <= q <= |p| ==> !OccursAt(p + "\n" + b, sep, q)
  {
    forall q | 0 <= q <= |p| ensures !OccursAt(p + "\n" + b, sep, q) {
      if OccursAt(p + "\n" + b, sep, q) {
        assert p + "\n" + b == p + ("\n" + b);
        if q + |sep| <= |p| {
          OccursInFirst(p, "\n" + b, sep, q);
        } else if q < |p| {
          Straddle(p, "\n" + b, sep, q);
        } else {
          OccursInSecond(p, "\n" + b, sep, q);
          OccursFirstChar("\n" + b, sep, 0);
        }
      }
    }
  }

  lemma DropThenTake(s: string, a: nat, n: nat)
    requires a + n <= |s|
    ensures s[a..][..n] == s[a..a + n]
  {
  }

  /** An occurrence in a suffix is an occurrence in the whole string. */
  lemma OccursInDrop(s: string, pat: string, a: nat, j: int)
    requires a <= |s| && OccursAt(s[a..], pat, j)
    ensures OccursAt(s, pat, a + j)
  {
    assert s[a..][j..j + |pat|] == s[a + j..a + j + |pat|];
  }

  /** Python's `xs[:k]` for any integer `k` (a negative `k` drops that many from the end). */
  function Take<T>(s: seq<T>, k: int): (r: seq<T>)
    ensures |r| <= |s| && r == s[..|r|]
    ensures 0 <= k ==> |r| == if k < |s| then k else |s|
    ensures k < 0 ==> |r| == if |s| + k > 0 then |s| + k else 0
  {
    if 0 <= k then (if k < |s| then s[..k] else s)
    else if |s| + k > 0 then s[..|s| + k] else []
  }
}
