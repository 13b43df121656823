/** The Python string operations the gateway applies to gatttool output:
    `s.split(c)`, `s.split()`, `s.replace(c, '')`, `s.upper()` and `''.join`. */
module Text {

  /** `sep.join(parts)`. */
  function Join(parts: seq<string>, sep: char): string
    requires |parts| >= 1
  {
    if |parts| == 1 then parts[0] else parts[0] + [sep] + Join(parts[1..], sep)
  }

  /** `''.join(parts)`. */
  function Concat(parts: seq<string>): string {
    if parts == [] then "" else parts[0] + Concat(parts[1..])
  }

  /** `s.split(sep)` with a one-character separator: every occurrence of
      `sep` ends a piece, so empty pieces are kept and there is always at
      least one piece. */
  function Split(s: string, sep: char): (parts: seq<string>)
    ensures |parts| >= 1
    ensures forall i | 0 <= i < |parts| :: sep !in parts[i]
    ensures Join(parts, sep) == s
    decreases |s|
  {
    if s == [] then [""]
    else
      var rest := Split(s[1..], sep);
      if s[0] == sep then
        var parts := [""] + rest;
        assert parts[1..] == rest;
        parts
      else
        var parts := [[s[0]] + rest[0]] + rest[1..];
        assert Join(parts, sep) == [s[0]] + Join(rest, sep) by {
          if |rest| > 1 { assert parts[1..] == rest[1..]; }
        }
        assert s == [s[0]] + s[1..];
        parts
  }

  /** The number of occurrences of `c` in `s`. */
  function Count(s: string, c: char): nat {
    if s == [] then 0 else (if s[0] == c then 1 else 0) + Count(s[1..], c)
  }

  /** `split` gives one piece more than there are separators. */
  lemma {:induction false} SplitCount(s: string, sep: char)
    ensures |Split(s, sep)| == Count(s, sep) + 1
    decreases |s|
  {
    if s != [] {
      SplitCount(s[1..], sep);
    }
  }

  predicate IsSpace(c: char) {
    c == ' ' || c == '\t' || c == '\n' || c == '\r' || c == '\U{0B}' || c == '\U{0C}'
  }

  predicate NoSpace(w: string) {
    forall i | 0 <= i < |w| :: !IsSpace(w[i])
  }

  /** `s` without its whitespace characters. */
  function DropSpace(s: string): (r: string)
    ensures NoSpace(r)
  {
    if s == [] then ""
    else if IsSpace(s[0]) then DropSpace(s[1..])
    else [s[0]] + DropSpace(s[1..])
  }

  function FieldsFrom(s: string, word: string): (fs: seq<string>)
    requires NoSpace(word)
    ensures forall i | 0 <= i < |fs| :: |fs[i]| > 0 && NoSpace(fs[i])
    decreases |s|
  {
    if s == [] then
      if word == [] then [] else [word]
    else if IsSpace(s[0]) then
      var rest := FieldsFrom(s[1..], "");
      if word == [] then rest else [word] + rest
    else
      FieldsFrom(s[1..], word + [s[0]])
  }

  /** `s.split()` with no argument: the maximal runs of non-whitespace
      characters, in order; the fields are never empty and have no
      whitespace (`FieldsKeepText` shows they hold every other character). */
  function Fields(s: string): (fs: seq<string>)
    ensures forall i | 0 <= i < |fs| :: |fs[i]| > 0 && NoSpace(fs[i])
  {
    FieldsFrom(s, "")
  }

  lemma {:induction false} FieldsFromText(s: string, word: string)
    requires NoSpace(word)
    ensures Concat(FieldsFrom(s, word)) == word + DropSpace(s)
    decreases |s|
  {
    if s == [] {
      if word != [] {
        assert Concat([word]) == word + Concat([]);
      }
    } else if IsSpace(s[0]) {
      var rest := FieldsFrom(s[1..], "");
      FieldsFromText(s[1..], "");
      assert Concat(rest) == DropSpace(s[1..]);
      if word != [] {
        assert ([word] + rest)[1..] == rest;
      }
    } else {
      FieldsFromText(s[1..], word + [s[0]]);
      assert word + DropSpace(s) == (word + [s[0]]) + DropSpace(s[1..]);
    }
  }

  /** Joining the fields of `s` gives back its non-whitespace characters. */
  lemma FieldsKeepText(s: string)
    ensures Concat(Fields(s)) == DropSpace(s)
  {
    FieldsFromText(s, "");
  }

  /** A word without whitespace at the front of `s` joins the field being
      read. */
  lemma {:induction false} FieldsFromWord(x: string, s: string, word: string)
    requires NoSpace(x) && NoSpace(word)
    ensures NoSpace(word + x)
    ensures FieldsFrom(x + s, word) == FieldsFrom(s, word + x)
    decreases |x|
  {
    if x == [] {
      assert x + s == s && word + x == word;
    } else {
      assert (x + s)[1..] == x[1..] + s;
      assert NoSpace(word + [x[0]]);
      FieldsFromWord(x[1..], s, word + [x[0]]);
      assert (word + [x[0]]) + x[1..] == word + x;
    }
  }

  /** `split()` takes apart words joined by single spaces. */
  lemma {:induction false} FieldsOfJoin(words: seq<string>)
    requires |words| >= 1
    requires forall i | 0 <= i < |words| :: |words[i]| > 0 && NoSpace(words[i])
    ensures Fields(Join(words, ' ')) == words
    decreases |words|
  {
    FieldsFromWord(words[0], if |words| == 1 then "" else [' '] + Join(words[1..], ' '), "");
    if |words| == 1 {
      assert words[0] + "" == words[0] && "" + words[0] == words[0];
    } else {
      var j := Join(words[1..], ' ');
      assert words[0] + [' '] + j == words[0] + ([' '] + j);
      assert ([' '] + j)[1..] == j;
      assert "" + words[0] == words[0];
      FieldsOfJoin(words[1..]);
    }
  }

  lemma {:induction false} SplitNoSep(a: string, sep: char)
    requires sep !in a
    ensures Split(a, sep) == [a]
    decreases |a|
  {
    if a != [] {
      SplitNoSep(a[1..], sep);
      assert [a[0]] + a[1..] == a;
    }
  }

  lemma {:induction false} SplitPrefix(a: string, b: string, sep: char)
    requires sep !in a
    ensures Split(a + [sep] + b, sep) == [a] + Split(b, sep)
    decreases |a|
  {
    var s := a + [sep] + b;
    if a == [] {
      assert s[1..] == b;
    } else {
      assert s[1..] == a[1..] + [sep] + b;
      SplitPrefix(a[1..], b, sep);
      assert [a[0]] + a[1..] == a;
    }
  }

  /** `split(sep)` takes apart pieces joined by `sep` that hold no `sep`. */
  lemma {:induction false} SplitJoin(parts: seq<string>, sep: char)
    requires |parts| >= 1
    requires forall i | 0 <= i < |parts| :: sep !in parts[i]
    ensures Split(Join(parts, sep), sep) == parts
    decreases |parts|
  {
    if |parts| == 1 {
      SplitNoSep(parts[0], sep);
    } else {
      SplitPrefix(parts[0], Join(parts[1..], sep), sep);
      SplitJoin(parts[1..], sep);
    }
  }

  /** `s.replace(c, '')`. */
  function Remove(s: string, c: char): (r: string)
    ensures c !in r
    ensures |r| <= |s|
    ensures c !in s ==> r == s
  {
    if s == [] then ""
    else if s[0] == c then Remove(s[1..], c)
    else
      var r := [s[0]] + Remove(s[1..], c);
      assert s == [s[0]] + s[1..];
      r
  }

  lemma {:induction false} RemoveAppend(a: string, b: string, c: char)
    ensures Remove(a + b, c) == Remove(a, c) + Remove(b, c)
    decreases |a|
  {
    if a != [] {
      RemoveAppend(a[1..], b, c);
      assert (a + b)[1..] == a[1..] + b;
    } else {
      assert a + b == b;
    }
  }

  lemma {:induction false} RemoveCount(s: string, c: char)
    ensures |Remove(s, c)| == |s| - Count(s, c)
    decreases |s|
  {
    if s != [] {
      RemoveCount(s[1..], c);
    }
  }

  /** Removing the separator from joined pieces that hold none of it runs
      the pieces together. */
  lemma {:induction false} RemoveJoin(parts: seq<string>, sep: char)
    requires |parts| >= 1
    requires forall i | 0 <= i < |parts| :: sep !in parts[i]
    ensures Remove(Join(parts, sep), sep) == Concat(parts)
    decreases |parts|
  {
    if |parts| == 1 {
      assert Concat(parts) == parts[0] + Concat([]);
    } else {
      assert forall i | 0 <= i < |parts[1..]| :: parts[1..][i] == parts[i + 1];
      RemoveJoin(parts[1..], sep);
      var rest := Join(parts[1..], sep);
      assert Join(parts, sep) == parts[0] + [sep] + rest;
      assert Concat(parts) == parts[0] + Concat(parts[1..]);
      RemoveSeparated(parts[0], rest, sep);
    }
  }

  /** A piece without the separator, the separator, and the rest. */
  lemma RemoveSeparated(a: string, rest: string, sep: char)
    requires sep !in a
    ensures Remove(a + [sep] + rest, sep) == a + Remove(rest, sep)
  {
    var b := [sep];
    RemoveAppend(a + b, rest, sep);
    RemoveAppend(a, b, sep);
    assert Remove(b, sep) == Remove(b[1..], sep) == [];
    assert Remove(a, sep) == a;
    calc {
      Remove(a + b + rest, sep);
      Remove(a + b, sep) + Remove(rest, sep);
      Remove(a, sep) + Remove(b, sep) + Remove(rest, sep);
      { assert Remove(a, sep) + Remove(b, sep) == a; }
      a + Remove(rest, sep);
    }
  }

  /** `c.upper()` for one character; only the ASCII letters change. */
  function UpperChar(c: char): char {
    if 'a' <= c <= 'z' then (c as int - 'a' as int + 'A' as int) as char else c
  }

  /** `s.upper()`. */
  function Upper(s: string): (u: string)
    ensures |u| == |s| && forall i | 0 <= i < |s| :: u[i] == UpperChar(s[i])
  {
    seq(|s|, i requires 0 <= i < |s| => UpperChar(s[i]))
  }

  /** `s[k]` for a possibly negative Python index, or IndexError. */
  predicate HasIndex(parts: seq<string>, k: int) {
    -|parts| <= k < |parts|
  }

  function At(parts: seq<string>, k: int): string
    requires HasIndex(parts, k)
  {
    if k >= 0 then parts[k] else parts[|parts| + k]
  }

  predicate IsLineBreak(c: char) {
    c == '\n' || c == '\r'
  }

  predicate NoLineBreak(w: string) {
    forall i | 0 <= i < |w| :: !IsLineBreak(w[i])
  }

  /** Python 2 `str.splitlines()`: lines end at "\n", "\r" or "\r\n"; the
      breaks are dropped and a break at the very end opens no further line. */
  function SplitLines(s: string): (lines: seq<string>)
    ensures forall i | 0 <= i < |lines| :: NoLineBreak(lines[i])
  {
    LinesFrom(s, "")
  }

  function LinesFrom(s: string, line: string): (lines: seq<string>)
    requires NoLineBreak(line)
    ensures forall i | 0 <= i < |lines| :: NoLineBreak(lines[i])
    decreases |s|
  {
    if s == [] then
      if line == [] then [] else [line]
    else if s[0] == '\n' then
      [line] + LinesFrom(s[1..], "")
    else if s[0] == '\r' then
      if |s| > 1 && s[1] == '\n' then [line] + LinesFrom(s[2..], "") else [line] + LinesFrom(s[1..], "")
    else
      LinesFrom(s[1..], line + [s[0]])
  }

  /** Text without line breaks is one line, or none when it is empty. */
  lemma SingleLine(s: string)
    requires NoLineBreak(s)
    ensures SplitLines(s) == if s == [] then [] else [s]
  {
    LinesWithin(s, "");
    assert "" + s == s;
  }

  lemma {:induction false} LinesWithin(s: string, line: string)
    requires NoLineBreak(s) && NoLineBreak(line)
    ensures LinesFrom(s, line) == if line + s == [] then [] else [line + s]
    decreases |s|
  {
    if s != [] {
      assert NoLineBreak(line + [s[0]]);
      LinesWithin(s[1..], line + [s[0]]);
      assert (line + [s[0]]) + s[1..] == line + s;
    } else {
      assert line + s == line;
    }
  }

  /** `sub in s`. */
  predicate Contains(s: string, sub: string)
    decreases |s|
  {
    sub <= s || (s != [] && Contains(s[1..], sub))
  }

  /** Python's `parts[k:-1]` for k >= 0: everything from index `k` up to, but
      not including, the last element; empty when nothing is left. */
  function SliceToLast<T>(parts: seq<T>, k: nat): (r: seq<T>)
    ensures k < |parts| ==> r == parts[k..|parts| - 1]
    ensures k >= |parts| - 1 ==> r == []
  {
    if k < |parts| then parts[k..|parts| - 1] else []
  }
}
