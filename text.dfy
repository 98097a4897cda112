/**
 * The handful of Python `str` operations the parsers rely on: `isspace`,
 * `strip()`, `split(",")`, `split()` and `startswith`.
 */
module Text {

  /**
   * Python's `str.isspace` for one character: the ASCII controls tab to
   * carriage return, the four separators 0x1c-0x1f, space, NEL, no-break
   * space and the Unicode space and line/paragraph separators.
   */
  predicate IsSpace(c: char)
    ensures c == ' ' || c == '\t' || c == '\n' || c == '\r' ==> IsSpace(c)
    ensures '0' <= c <= '9' || 'a' <= c <= 'z' || 'A' <= c <= 'Z' || c == '-' || c == '.' || c == '*' ==> !IsSpace(c)
  {
    var n := c as int;
    || (9 <= n <= 13) || (0x1c <= n <= 0x20) || n == 0x85 || n == 0xa0
    || n == 0x1680 || (0x2000 <= n <= 0x200a) || n == 0x2028 || n == 0x2029
    || n == 0x202f || n == 0x205f || n == 0x3000
  }

  /** `s.startswith(prefix)` */
  predicate StartsWith(s: string, prefix: string)
    ensures StartsWith(s, prefix) <==> |prefix| <= |s| && s[..|prefix|] == prefix
  {
    prefix <= s
  }

  /** `s.lstrip()`: the suffix of `s` left after its leading white space. */
  function TrimStart(s: string): (r: string)
    ensures |r| <= |s| && r == s[|s| - |r|..]
    ensures |r| > 0 ==> !IsSpace(r[0])
    ensures forall i :: 0 <= i < |s| - |r| ==> IsSpace(s[i])
    ensures NonSpace(r) == NonSpace(s)
  {
    if |s| > 0 && IsSpace(s[0]) then
      var r := TrimStart(s[1..]);
      assert r == s[|s| - |r|..] by {
        assert s[1..][|s| - 1 - |r|..] == s[|s| - |r|..];
      }
      r
    else s
  }

  /** `s.rstrip()`: the prefix of `s` left before its trailing white space. */
  function TrimEnd(s: string): (r: string)
    ensures |r| <= |s| && r == s[..|r|]
    ensures |r| > 0 ==> !IsSpace(r[|r| - 1])
    ensures forall i :: |r| <= i < |s| ==> IsSpace(s[i])
    ensures NonSpace(r) == NonSpace(s)
  {
    if |s| > 0 && IsSpace(s[|s| - 1]) then
      assert s == s[..|s| - 1] + [s[|s| - 1]];
      NonSpaceSnoc(s[..|s| - 1], s[|s| - 1]);
      TrimEnd(s[..|s| - 1])
    else s
  }

  /** Where the text of `s` starts once its leading white space is skipped. */
  function Indent(s: string): (n: nat)
    ensures n <= |s|
  {
    |s| - |TrimStart(s)|
  }

  /**
   * `s.strip()`: the slice of `s` after its leading white space that neither
   * starts nor ends with white space and keeps every other character of `s`.
   */
  function Strip(s: string): (r: string)
    ensures Indent(s) + |r| <= |s| && r == s[Indent(s)..Indent(s) + |r|]
    ensures |r| > 0 ==> !IsSpace(r[0]) && !IsSpace(r[|r| - 1])
    ensures NonSpace(r) == NonSpace(s)
  {
    TrimEnd(TrimStart(s))
  }

  /** The characters of `s` that are not white space, in order. */
  function NonSpace(s: string): string {
    if |s| == 0 then ""
    else if IsSpace(s[0]) then NonSpace(s[1..])
    else [s[0]] + NonSpace(s[1..])
  }

  lemma {:induction false} NonSpaceSnoc(s: string, c: char)
    ensures NonSpace(s + [c]) == NonSpace(s) + (if IsSpace(c) then "" else [c])
  {
    if |s| > 0 {
      assert (s + [c])[1..] == s[1..] + [c];
      NonSpaceSnoc(s[1..], c);
    } else {
      assert s + [c] == [c];
    }
  }

  /** Text without white space at either end strips to itself. */
  lemma StripPlain(s: string)
    requires s != [] && !IsSpace(s[0]) && !IsSpace(s[|s| - 1])
    ensures Strip(s) == s
  {
  }

  /** `[p.strip() for p in parts]` */
  function StripAll(parts: seq<string>): (r: seq<string>)
    ensures |r| == |parts|
    ensures forall i :: 0 <= i < |r| ==> r[i] == Strip(parts[i])
  {
    seq(|parts|, i requires 0 <= i < |parts| => Strip(parts[i]))
  }

  /** The inverse of `Split`: the fields with `sep` between each two. */
  function Join(fields: seq<string>, sep: char): string
    requires |fields| >= 1
  {
    if |fields| == 1 then fields[0] else fields[0] + [sep] + Join(fields[1..], sep)
  }

  /**
   * `s.split(sep)` for a one-character separator: the maximal runs between
   * separators, empty ones included; never an empty list.
   */
  function Split(s: string, sep: char): (r: seq<string>)
    ensures |r| >= 1
    ensures forall f :: f in r ==> sep !in f
    ensures Join(r, sep) == s
  {
    if |s| == 0 then [""]
    else
      var rest := Split(s[1..], sep);
      if s[0] == sep then [""] + rest
      else
        var r := [[s[0]] + rest[0]] + rest[1..];
        assert r[1..] == rest[1..];
        r
  }

  /** Splitting a join of separator-free fields gives the fields back. */
  lemma {:induction false} SplitJoin(fields: seq<string>, sep: char)
    requires |fields| >= 1
    requires forall f :: f in fields ==> sep !in f
    ensures Split(Join(fields, sep), sep) == fields
  {
    if |fields| == 1 {
      SplitSepFree(fields[0], sep);
    } else {
      var tail := Join(fields[1..], sep);
      assert forall f :: f in fields[1..] ==> f in fields;
      SplitJoin(fields[1..], sep);
      SplitPrefix(fields[0], tail, sep);
    }
  }

  lemma {:induction false} SplitSepFree(s: string, sep: char)
    requires sep !in s
    ensures Split(s, sep) == [s]
  {
    if |s| > 0 {
      SplitSepFree(s[1..], sep);
      assert [s[0]] + s[1..] == s;
    }
  }

  /** A separator-free head glued to the rest by one separator splits off as one field. */
  lemma {:induction false} SplitPrefix(head: string, tail: string, sep: char)
    requires sep !in head
    ensures Split(head + [sep] + tail, sep) == [head] + Split(tail, sep)
  {
    if |head| > 0 {
      var s := head + [sep] + tail;
      assert s[1..] == head[1..] + [sep] + tail;
      SplitPrefix(head[1..], tail, sep);
      assert [head[0]] + head[1..] == head;
    } else {
      assert head + [sep] + tail == [sep] + tail;
      assert ([sep] + tail)[1..] == tail;
    }
  }

  /** The length of the run of non-space characters `s` starts with. */
  function WordLength(s: string): (n: nat)
    ensures n <= |s|
    ensures forall i :: 0 <= i < n ==> !IsSpace(s[i])
    ensures n < |s| ==> IsSpace(s[n])
  {
    if |s| == 0 || IsSpace(s[0]) then 0 else 1 + WordLength(s[1..])
  }

  function Concat(words: seq<string>): string {
    if |words| == 0 then "" else words[0] + Concat(words[1..])
  }

  /**
   * `s.split()`: the maximal runs of non-space characters; no word is empty
   * or holds white space, and together they are the non-space characters
   * of `s`.
   */
  function SplitWhitespace(s: string): (words: seq<string>)
    ensures forall w :: w in words ==> |w| > 0 && forall i :: 0 <= i < |w| ==> !IsSpace(w[i])
    ensures Concat(words) == NonSpace(s)
    decreases |s|
  {
    if |s| == 0 then []
    else if IsSpace(s[0]) then SplitWhitespace(s[1..])
    else
      var n := WordLength(s);
      NonSpaceWord(s, n);
      [s[..n]] + SplitWhitespace(s[n..])
  }

  lemma {:induction false} NonSpaceWord(s: string, n: nat)
    requires n <= |s| && forall i :: 0 <= i < n ==> !IsSpace(s[i])
    ensures NonSpace(s) == s[..n] + NonSpace(s[n..])
  {
    if n > 0 {
      NonSpaceWord(s[1..], n - 1);
      assert s[1..][n - 1..] == s[n..];
      assert [s[0]] + s[1..][..n - 1] == s[..n];
    }
  }

  /** `words` with one space between each two. */
  function JoinSpaced(words: seq<string>): string {
    if |words| == 0 then ""
    else if |words| == 1 then words[0]
    else words[0] + " " + JoinSpaced(words[1..])
  }

  /** A word without white space, followed by white space or nothing, is read whole. */
  lemma {:induction false} WordLengthPrefix(w: string, t: string)
    requires forall i :: 0 <= i < |w| ==> !IsSpace(w[i])
    requires t == [] || IsSpace(t[0])
    ensures WordLength(w + t) == |w|
  {
    if |w| > 0 {
      assert (w + t)[1..] == w[1..] + t;
      WordLengthPrefix(w[1..], t);
    } else {
      assert w + t == t;
    }
  }

  /** A non-empty run of characters none of which is white space. */
  predicate IsWord(w: string) {
    |w| > 0 && forall i :: 0 <= i < |w| ==> !IsSpace(w[i])
  }

  /** A leading word is the first word `split()` returns. */
  lemma SplitWhitespaceWord(w: string, t: string)
    requires IsWord(w) && (t == [] || IsSpace(t[0]))
    ensures SplitWhitespace(w + t) == [w] + SplitWhitespace(t)
  {
    var s := w + t;
    WordLengthPrefix(w, t);
    assert s[..|w|] == w && s[|w|..] == t;
  }

  /** Leading white space is skipped. */
  lemma SplitWhitespaceSpace(t: string)
    requires |t| > 0 && IsSpace(t[0])
    ensures SplitWhitespace(t) == SplitWhitespace(t[1..])
  {
  }

  /** Joining a word in front of more words puts one space between them. */
  lemma JoinSpacedCons(w: string, rest: seq<string>)
    requires |rest| > 0
    ensures JoinSpaced([w] + rest) == w + (" " + JoinSpaced(rest))
  {
    var ws := [w] + rest;
    assert |ws| > 1 && ws[0] == w && ws[1..] == rest;
    assert JoinSpaced(ws) == w + " " + JoinSpaced(rest);
  }

  /** A word and a space in front of more words split off as the first word. */
  lemma SplitJoinStep(w: string, rest: seq<string>)
    requires IsWord(w) && |rest| > 0
    ensures SplitWhitespace(JoinSpaced([w] + rest)) == [w] + SplitWhitespace(JoinSpaced(rest))
  {
    var j := JoinSpaced(rest);
    var t := " " + j;
    JoinSpacedCons(w, rest);
    SplitWhitespaceWord(w, t);
    assert t[1..] == j;
    SplitWhitespaceSpace(t);
  }

  /**
   * Splitting non-empty words without white space, joined by single spaces,
   * gives the words back: `split()` breaks exactly at white space.
   */
  lemma {:induction false} SplitWhitespaceJoin(words: seq<string>)
    requires forall w :: w in words ==> IsWord(w)
    ensures SplitWhitespace(JoinSpaced(words)) == words
  {
    if |words| == 1 {
      assert words[0] in words;
      SplitWhitespaceWord(words[0], "");
      assert words[0] + "" == words[0];
    } else if |words| > 1 {
      assert words[0] in words;
      assert forall v :: v in words[1..] ==> v in words;
      SplitWhitespaceJoin(words[1..]);
      SplitJoinStep(words[0], words[1..]);
      assert [words[0]] + words[1..] == words;
    }
  }

  /** `[p for p in parts if p]` */
  function NonEmpty(parts: seq<string>): (r: seq<string>)
    ensures forall p :: p in r ==> p in parts && p != ""
    ensures forall p :: p in parts && p != "" ==> p in r
    ensures (forall p :: p in parts ==> p != "") ==> r == parts
  {
    if |parts| == 0 then []
    else
      assert parts[0] in parts && forall p :: p in parts[1..] ==> p in parts;
      if parts[0] == "" then NonEmpty(parts[1..])
      else [parts[0]] + NonEmpty(parts[1..])
  }

  /**
   * The filter keeps order: it filters two lists joined as it filters each
   * in turn, so with `NonEmpty`'s contract on one field it is fixed on every list.
   */
  lemma {:induction false} NonEmptyAppend(a: seq<string>, b: seq<string>)
    ensures NonEmpty(a + b) == NonEmpty(a) + NonEmpty(b)
  {
    if a == [] {
      assert a + b == b;
    } else {
      assert (a + b)[0] == a[0] && (a + b)[1..] == a[1..] + b;
      NonEmptyAppend(a[1..], b);
    }
  }
}
