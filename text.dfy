/**
 * The Python string primitives the transcript code is built from:
 * whitespace as str.isspace() sees it, str.split() with and without a
 * one-character separator, str.join and str.strip.
 */
module Text {

  /** Python's str.isspace(): the characters str.split(), str.strip() and the regex class \s treat as whitespace. */
  predicate IsSpace(c: char) {
    || ('\t' <= c <= '\r')
    || ('\U{1C}' <= c <= '\U{1F}')
    || c == ' '
    || c == '\U{85}' || c == '\U{A0}' || c == '\U{1680}'
    || ('\U{2000}' <= c <= '\U{200A}')
    || c == '\U{2028}' || c == '\U{2029}' || c == '\U{202F}' || c == '\U{205F}' || c == '\U{3000}'
  }

  predicate NoSpace(s: string) {
    forall i | 0 <= i < |s| :: !IsSpace(s[i])
  }

  /** A word as str.split() yields one: non-empty and free of whitespace. */
  predicate IsWord(w: string) {
    w != [] && NoSpace(w)
  }

  predicate AllWords(ws: seq<string>) {
    forall k | 0 <= k < |ws| :: IsWord(ws[k])
  }

  // ---------------------------------------------------------------------------
  // str.split() with no argument

  function Flush(current: string): seq<string> {
    if current == [] then [] else [current]
  }

  /** The words of `s`, left to right, after the partial word `current` already read. */
  function WordsFrom(s: string, current: string): seq<string>
    decreases |s|
  {
    if s == [] then Flush(current)
    else if IsSpace(s[0]) then Flush(current) + WordsFrom(s[1..], [])
    else WordsFrom(s[1..], current + [s[0]])
  }

  /** s.split(): the maximal runs of non-whitespace characters. */
  function Words(s: string): seq<string> {
    WordsFrom(s, [])
  }

  /** len(s.split()) */
  function WordCount(s: string): nat {
    |Words(s)|
  }

  lemma {:induction false} WordsFromAreWords(s: string, current: string)
    requires NoSpace(current)
    ensures AllWords(WordsFrom(s, current))
    decreases |s|
  {
    if s == [] {
    } else if IsSpace(s[0]) {
      WordsFromAreWords(s[1..], []);
    } else {
      WordsFromAreWords(s[1..], current + [s[0]]);
    }
  }

  /** Every piece str.split() returns is a non-empty run without whitespace. */
  lemma WordsAreWords(s: string)
    ensures AllWords(Words(s))
  {
    WordsFromAreWords(s, []);
  }

  lemma {:induction false} WordsFromSplit(a: string, c: char, b: string, current: string)
    requires IsSpace(c)
    ensures WordsFrom(a + [c] + b, current) == WordsFrom(a, current) + Words(b)
    decreases |a|
  {
    var s := a + [c] + b;
    if a == [] {
      assert s[0] == c && s[1..] == b;
    } else {
      assert s[0] == a[0] && s[1..] == a[1..] + [c] + b;
      if IsSpace(a[0]) {
        WordsFromSplit(a[1..], c, b, []);
      } else {
        WordsFromSplit(a[1..], c, b, current + [a[0]]);
      }
    }
  }

  /** A whitespace character separates words: splitting at it splits the word list. */
  lemma WordsSplit(a: string, c: char, b: string)
    requires IsSpace(c)
    ensures Words(a + [c] + b) == Words(a) + Words(b)
  {
    WordsFromSplit(a, c, b, []);
  }

  lemma {:induction false} WordsFromWord(w: string, current: string)
    requires NoSpace(w)
    requires current + w != []
    ensures WordsFrom(w, current) == [current + w]
    decreases |w|
  {
    if w == [] {
      assert current + w == current;
    } else {
      assert current + [w[0]] + w[1..] == current + w;
      WordsFromWord(w[1..], current + [w[0]]);
    }
  }

  /** A single word splits into itself. */
  lemma WordsOfWord(w: string)
    requires IsWord(w)
    ensures Words(w) == [w]
  {
    WordsFromWord(w, []);
    assert [] + w == w;
  }

  // ---------------------------------------------------------------------------
  // str.join

  /** sep.join(parts) */
  function Join(parts: seq<string>, sep: string): string
    decreases |parts|
  {
    if |parts| == 0 then []
    else if |parts| == 1 then parts[0]
    else parts[0] + sep + Join(parts[1..], sep)
  }

  /** Round trip: " ".join(ws).split() == ws for any list of words. */
  lemma {:induction false} WordsOfJoinedWords(ws: seq<string>)
    requires AllWords(ws)
    ensures Words(Join(ws, " ")) == ws
    decreases |ws|
  {
    if |ws| == 0 {
    } else if |ws| == 1 {
      WordsOfWord(ws[0]);
    } else {
      var rest := Join(ws[1..], " ");
      assert Join(ws, " ") == ws[0] + [' '] + rest;
      WordsSplit(ws[0], ' ', rest);
      WordsOfWord(ws[0]);
      WordsOfJoinedWords(ws[1..]);
      assert ws == [ws[0]] + ws[1..];
    }
  }

  lemma {:induction false} JoinAppend(a: seq<string>, b: seq<string>, sep: string)
    requires |a| >= 1 && |b| >= 1
    ensures Join(a + b, sep) == Join(a, sep) + sep + Join(b, sep)
    decreases |a|
  {
    if |a| == 1 {
      assert (a + b)[1..] == b;
    } else {
      assert (a + b)[1..] == a[1..] + b;
      JoinAppend(a[1..], b, sep);
    }
  }

  /** Total word count of a list of lines: sum of len(line.split()). */
  function LinesWordCount(lines: seq<string>): nat
    decreases |lines|
  {
    if lines == [] then 0 else WordCount(lines[0]) + LinesWordCount(lines[1..])
  }

  lemma {:induction false} LinesWordCountAppend(a: seq<string>, b: seq<string>)
    ensures LinesWordCount(a + b) == LinesWordCount(a) + LinesWordCount(b)
    decreases |a|
  {
    if a == [] {
      assert a + b == b;
    } else {
      assert (a + b)[1..] == a[1..] + b;
      LinesWordCountAppend(a[1..], b);
    }
  }

  /** A newline separates words, so the words of joined lines are the words of each line added up. */
  lemma {:induction false} WordCountOfJoinedLines(lines: seq<string>)
    ensures WordCount(Join(lines, "\n")) == LinesWordCount(lines)
    decreases |lines|
  {
    if |lines| == 0 {
    } else if |lines| == 1 {
    } else {
      WordsSplit(lines[0], '\n', Join(lines[1..], "\n"));
      WordCountOfJoinedLines(lines[1..]);
    }
  }

  // ---------------------------------------------------------------------------
  // str.split(sep) with a one-character separator

  /** s.split(sep): every piece between separators, empty pieces included. */
  function SplitOn(s: string, sep: char): (pieces: seq<string>)
    ensures |pieces| >= 1
    decreases |s|
  {
    if s == [] then [[]]
    else
      var rest := SplitOn(s[1..], sep);
      if s[0] == sep then [[]] + rest
      else [[s[0]] + rest[0]] + rest[1..]
  }

  predicate Free(s: string, sep: char) {
    forall i | 0 <= i < |s| :: s[i] != sep
  }

  /** No piece of s.split(sep) contains the separator. */
  lemma {:induction false} SplitOnPiecesFree(s: string, sep: char)
    ensures forall k | 0 <= k < |SplitOn(s, sep)| :: Free(SplitOn(s, sep)[k], sep)
    decreases |s|
  {
    if s != [] {
      SplitOnPiecesFree(s[1..], sep);
    }
  }

  /** Round trip: sep.join(s.split(sep)) == s. */
  lemma {:induction false} JoinSplitOn(s: string, sep: char)
    ensures Join(SplitOn(s, sep), [sep]) == s
    decreases |s|
  {
    if s != [] {
      var rest := SplitOn(s[1..], sep);
      JoinSplitOn(s[1..], sep);
      if s[0] == sep {
        assert ([[]] + rest)[1..] == rest;
      } else if |rest| == 1 {
      } else {
        var pieces := [[s[0]] + rest[0]] + rest[1..];
        assert pieces[1..] == rest[1..];
        assert Join(rest, [sep]) == rest[0] + [sep] + Join(rest[1..], [sep]);
        assert s == [s[0]] + s[1..];
      }
    }
  }

  lemma {:induction false} SplitOnFreePrefix(a: string, t: string, sep: char)
    requires Free(a, sep)
    ensures SplitOn(a + t, sep) == [a + SplitOn(t, sep)[0]] + SplitOn(t, sep)[1..]
    decreases |a|
  {
    if a != [] {
      assert (a + t)[1..] == a[1..] + t;
      SplitOnFreePrefix(a[1..], t, sep);
      assert [a[0]] + (a[1..] + SplitOn(t, sep)[0]) == a + SplitOn(t, sep)[0];
    } else {
      assert a + t == t;
      assert a + SplitOn(t, sep)[0] == SplitOn(t, sep)[0];
      assert SplitOn(t, sep) == [SplitOn(t, sep)[0]] + SplitOn(t, sep)[1..];
    }
  }

  /** Two newlines between texts separate their words. */
  lemma WordsAcrossNewlines(a: string, b: string)
    ensures Words(a + "\n\n" + b) == Words(a) + Words(b)
  {
    assert a + "\n\n" + b == a + ['\n'] + ([] + ['\n'] + b);
    WordsSplit(a, '\n', [] + ['\n'] + b);
    WordsSplit([], '\n', b);
  }

  /** The first piece of a.split(sep) + ... is `a` when `a` has no separator and one follows it. */
  lemma SplitOnFirst(a: string, t: string, sep: char)
    requires Free(a, sep)
    ensures SplitOn(a + [sep] + t, sep)[0] == a
  {
    assert a + [sep] + t == a + ([sep] + t);
    SplitOnFreePrefix(a, [sep] + t, sep);
    assert ([sep] + t)[1..] == t;
    assert SplitOn([sep] + t, sep)[0] == [];
    assert a + [] == a;
  }

  /** Three pieces joined: a + sep + b + sep + c. */
  lemma JoinThree(a: string, b: string, c: string, sep: string)
    ensures Join([a, b, c], sep) == a + sep + b + sep + c
  {
    assert [a, b, c][1..] == [b, c];
    assert [b, c][1..] == [c];
    assert Join([b, c], sep) == b + sep + c;
    assert a + sep + (b + sep + c) == a + sep + b + sep + c;
  }

  /** Round trip the other way: splitting joined separator-free pieces gives the pieces back. */
  lemma {:induction false} SplitOnJoin(pieces: seq<string>, sep: char)
    requires |pieces| >= 1
    requires forall k | 0 <= k < |pieces| :: Free(pieces[k], sep)
    ensures SplitOn(Join(pieces, [sep]), sep) == pieces
    decreases |pieces|
  {
    if |pieces| == 1 {
      SplitOnFreePrefix(pieces[0], [], sep);
      assert pieces[0] + [] == pieces[0];
    } else {
      var rest := Join(pieces[1..], [sep]);
      assert Join(pieces, [sep]) == pieces[0] + ([sep] + rest);
      SplitOnFreePrefix(pieces[0], [sep] + rest, sep);
      assert ([sep] + rest)[1..] == rest;
      assert SplitOn([sep] + rest, sep) == [[]] + SplitOn(rest, sep);
      SplitOnJoin(pieces[1..], sep);
      assert pieces[0] + [] == pieces[0];
      assert pieces == [pieces[0]] + pieces[1..];
    }
  }

  // ---------------------------------------------------------------------------
  // str.strip() with no argument

  /** Number of whitespace characters at the start of `s`. */
  function LeadingSpaces(s: string): (n: nat)
    ensures n <= |s|
    ensures forall i | 0 <= i < n :: IsSpace(s[i])
    ensures n == |s| || !IsSpace(s[n])
    decreases |s|
  {
    if s != [] && IsSpace(s[0]) then 1 + LeadingSpaces(s[1..]) else 0
  }

  /** Number of whitespace characters at the end of `s`. */
  function TrailingSpaces(s: string): (n: nat)
    ensures n <= |s|
    ensures forall i | |s| - n <= i < |s| :: IsSpace(s[i])
    ensures n == |s| || !IsSpace(s[|s| - n - 1])
    decreases |s|
  {
    if s != [] && IsSpace(s[|s| - 1]) then 1 + TrailingSpaces(s[..|s| - 1]) else 0
  }

  /** s.strip(): `s` without its leading and trailing whitespace. */
  function Strip(s: string): (r: string)
    ensures |r| <= |s|
    ensures r == [] || (!IsSpace(r[0]) && !IsSpace(r[|r| - 1]))
  {
    var t := s[LeadingSpaces(s)..];
    t[..|t| - TrailingSpaces(t)]
  }

  /** strip() is the identity on text that neither starts nor ends with whitespace. */
  lemma StripUnpadded(s: string)
    requires s == [] || (!IsSpace(s[0]) && !IsSpace(s[|s| - 1]))
    ensures Strip(s) == s
  {
  }

  /** The bounds of the slice strip() keeps. */
  function StripRange(s: string): (r: (nat, nat))
    ensures r.0 <= r.1 <= |s|
  {
    var i := LeadingSpaces(s);
    (i, i + |s[i..]| - TrailingSpaces(s[i..]))
  }

  /** Everything strip() drops is whitespace, and what it keeps is a contiguous slice. */
  lemma StripSlice(s: string)
    ensures var (i, j) := StripRange(s);
      && Strip(s) == s[i..j]
      && (forall k | 0 <= k < i :: IsSpace(s[k]))
      && (forall k | j <= k < |s| :: IsSpace(s[k]))
  {
    var i := LeadingSpaces(s);
    var t := s[i..];
    var j := i + |t| - TrailingSpaces(t);
    assert Strip(s) == s[i..j];
    assert forall k | j <= k < |s| :: s[k] == t[k - i];
  }

  lemma {:induction false} WordsFromEmpty(s: string, current: string)
    ensures WordsFrom(s, current) == [] <==> current == [] && forall i | 0 <= i < |s| :: IsSpace(s[i])
    decreases |s|
  {
    if s != [] {
      if IsSpace(s[0]) {
        WordsFromEmpty(s[1..], []);
      } else {
        WordsFromEmpty(s[1..], current + [s[0]]);
      }
      assert forall i | 1 <= i < |s| :: s[i] == s[1..][i - 1];
    }
  }

  /** Whitespace on either side of a text adds no word to it. */
  lemma {:induction false} WordsPadded(a: string, x: string, b: string)
    requires forall i | 0 <= i < |a| :: IsSpace(a[i])
    requires forall i | 0 <= i < |b| :: IsSpace(b[i])
    ensures Words(a + x + b) == Words(x)
    decreases |a| + |b|
  {
    if a != [] {
      assert a + x + b == [] + [a[0]] + (a[1..] + x + b);
      WordsSplit([], a[0], a[1..] + x + b);
      WordsPadded(a[1..], x, b);
    } else if b != [] {
      assert a + x + b == x + [b[0]] + b[1..];
      WordsSplit(x, b[0], b[1..]);
      WordsFromEmpty(b[1..], []);
      assert x + [] + b[1..] == x + b[1..];
      WordsPadded([], x, []);
      assert [] + x + [] == x;
    } else {
      assert a + x + b == x;
    }
  }

  /** strip() keeps every word: s.strip().split() == s.split(). */
  lemma WordsOfStrip(s: string)
    ensures Words(Strip(s)) == Words(s)
  {
    var (i, j) := StripRange(s);
    StripSlice(s);
    var a, x, b := s[..i], s[i..j], s[j..];
    assert forall k | 0 <= k < |b| :: b[k] == s[j + k];
    assert s == a + x + b;
    WordsPadded(a, x, b);
  }
}
