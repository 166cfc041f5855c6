/** String helpers the renderer borrows from JavaScript: `String.prototype.trim`,
    `startsWith`, `substring`, `Array.prototype.join` and `String.prototype.split`
    on a one-character separator. Strings are sequences of Unicode code points. */
module Text {

  /** The characters JavaScript's `trim` removes: WhiteSpace (TAB, VT, FF, SPACE,
      NBSP, ZWNBSP and every Unicode "Zs" code point) and LineTerminator (LF, CR,
      LS, PS). */
  predicate IsWhitespace(c: char) {
    var n := c as int;
    n == 0x09 || n == 0x0A || n == 0x0B || n == 0x0C || n == 0x0D || n == 0x20 ||
    n == 0xA0 || n == 0x1680 || (0x2000 <= n <= 0x200A) || n == 0x2028 ||
    n == 0x2029 || n == 0x202F || n == 0x205F || n == 0x3000 || n == 0xFEFF
  }

  predicate AllWhitespace(s: string) {
    forall i :: 0 <= i < |s| ==> IsWhitespace(s[i])
  }

  /** JavaScript's `trim`: `s` with leading and trailing whitespace removed. */
  function Trim(s: string): string
    decreases |s|
  {
    if s != [] && IsWhitespace(s[0]) then Trim(s[1..])
    else if s != [] && IsWhitespace(s[|s| - 1]) then Trim(s[..|s| - 1])
    else s
  }

  /** Trimming keeps a contiguous piece `s[lo..hi]` of `s` and cuts off only
      whitespace on either side. */
  lemma {:induction false} TrimPiece(s: string) returns (lo: nat, hi: nat)
    ensures lo <= hi <= |s| && Trim(s) == s[lo..hi]
    ensures AllWhitespace(s[..lo]) && AllWhitespace(s[hi..])
    decreases |s|
  {
    if s != [] && IsWhitespace(s[0]) {
      var l, h := TrimPiece(s[1..]);
      lo, hi := l + 1, h + 1;
      assert s[1..][l..h] == s[lo..hi];
      assert s[..lo] == [s[0]] + s[1..][..l];
      assert s[hi..] == s[1..][h..];
    } else if s != [] && IsWhitespace(s[|s| - 1]) {
      var init := s[..|s| - 1];
      var l, h := TrimPiece(init);
      lo, hi := l, h;
      assert init[l..h] == s[lo..hi];
      assert s[..lo] == init[..l];
      assert s[hi..] == init[h..] + [s[|s| - 1]];
    } else {
      lo, hi := 0, |s|;
      assert s[0..|s|] == s;
    }
  }

  /** Neither end of a trimmed string is whitespace. */
  lemma {:induction false} TrimEnds(s: string)
    ensures Trim(s) == [] || (!IsWhitespace(Trim(s)[0]) && !IsWhitespace(Trim(s)[|Trim(s)| - 1]))
    decreases |s|
  {
    if s != [] && IsWhitespace(s[0]) {
      TrimEnds(s[1..]);
    } else if s != [] && IsWhitespace(s[|s| - 1]) {
      TrimEnds(s[..|s| - 1]);
    }
  }

  /** What trimming means: the result is the piece `s[lo..hi]` of `s`,
      everything cut off on either side is whitespace, neither end of the result
      is whitespace, and the result is empty exactly when `s` is all whitespace. */
  lemma TrimSpec(s: string) returns (lo: nat, hi: nat)
    ensures lo <= hi <= |s| && Trim(s) == s[lo..hi]
    ensures AllWhitespace(s[..lo]) && AllWhitespace(s[hi..])
    ensures Trim(s) == [] || (!IsWhitespace(Trim(s)[0]) && !IsWhitespace(Trim(s)[|Trim(s)| - 1]))
    ensures Trim(s) == [] <==> AllWhitespace(s)
  {
    lo, hi := TrimPiece(s);
    TrimEnds(s);
    if Trim(s) == [] {
      assert s == s[..lo] + s[hi..];
    } else {
      assert s[lo] == Trim(s)[0];
    }
  }

  /** Trimming a trimmed string changes nothing. */
  lemma TrimIdempotent(s: string)
    ensures Trim(Trim(s)) == Trim(s)
  {
    var _, _ := TrimSpec(s);
  }

  /** Trimming removes exactly the whitespace around a string whose ends are
      not whitespace. */
  lemma TrimAround(pre: string, t: string, post: string)
    requires AllWhitespace(pre) && AllWhitespace(post)
    requires t != [] && !IsWhitespace(t[0]) && !IsWhitespace(t[|t| - 1])
    ensures Trim(pre + t + post) == t
  {
    var s := pre + t + post;
    var lo, hi := TrimSpec(s);
    assert s[|pre|] == t[0] && s[|pre| + |t| - 1] == t[|t| - 1];
    assert s[|pre|..|pre| + |t|] == t;
  }

  /** JavaScript's `startsWith`. */
  predicate StartsWith(s: string, prefix: string) {
    |prefix| <= |s| && s[..|prefix|] == prefix
  }

  /** `startsWith` holds exactly when the string is the prefix followed by
      something. */
  lemma StartsWithSpec(s: string, prefix: string)
    ensures StartsWith(s, prefix) <==> exists rest :: s == prefix + rest
  {
    if StartsWith(s, prefix) {
      assert s == prefix + s[|prefix|..];
    }
    if exists rest :: s == prefix + rest {
      var rest :| s == prefix + rest;
      assert s[..|prefix|] == prefix;
    }
  }

  /** JavaScript's `Array.prototype.join(sep)`: the parts with `sep` between
      consecutive ones (the empty array joins to the empty string). */
  function Join(parts: seq<string>, sep: string): string
  {
    if parts == [] then []
    else if |parts| == 1 then parts[0]
    else parts[0] + sep + Join(parts[1..], sep)
  }

  /** Joining a non-empty list of non-empty parts gives a non-empty string that
      begins with the first character of the first part and ends with the last
      character of the last part. */
  lemma {:induction false} JoinEnds(parts: seq<string>, sep: string)
    requires parts != []
    requires forall i :: 0 <= i < |parts| ==> parts[i] != []
    ensures Join(parts, sep) != []
    ensures Join(parts, sep)[0] == parts[0][0]
    ensures Join(parts, sep)[|Join(parts, sep)| - 1] == parts[|parts| - 1][|parts[|parts| - 1]| - 1]
  {
    if |parts| > 1 {
      JoinEnds(parts[1..], sep);
    }
  }

  /** Pushing one more part and joining adds the separator and that part at
      the end, so a buffer filled part by part joins to the running text. */
  lemma {:induction false} JoinAppend(parts: seq<string>, p: string, sep: string)
    requires parts != []
    ensures Join(parts + [p], sep) == Join(parts, sep) + sep + p
    decreases |parts|
  {
    if |parts| == 1 {
      assert (parts + [p])[1..] == [p];
    } else {
      assert (parts + [p])[1..] == parts[1..] + [p];
      JoinAppend(parts[1..], p, sep);
    }
  }

  /** JavaScript's `split('\n')`: the pieces of `s` between newline characters. */
  function Split(s: string): (lines: seq<string>)
    ensures |lines| >= 1
    ensures forall i :: 0 <= i < |lines| ==> '\n' !in lines[i]
    ensures Join(lines, "\n") == s
  {
    if s == [] then [[]]
    else
      var rest := Split(s[1..]);
      if s[0] == '\n' then
        assert s == "\n" + Join(rest, "\n");
        [[]] + rest
      else
        var lines := [[s[0]] + rest[0]] + rest[1..];
        assert Join(lines, "\n") == s by {
          if |rest| > 1 {
            assert rest == [rest[0]] + rest[1..];
          }
        }
        lines
  }

  /** Splitting undoes joining with newlines: a list of newline-free lines is
      recovered from its text. Together with Split's own contract this makes
      Split and Join("\n") inverse bijections. */
  lemma {:induction false} SplitJoin(lines: seq<string>)
    requires |lines| >= 1
    requires forall i :: 0 <= i < |lines| ==> '\n' !in lines[i]
    ensures Split(Join(lines, "\n")) == lines
  {
    if |lines| == 1 {
      SplitNoNewline(lines[0]);
    } else {
      SplitJoin(lines[1..]);
      var tail := Join(lines[1..], "\n");
      SplitPrefix(lines[0], tail);
    }
  }

  /** A string without newlines splits into itself alone. */
  lemma {:induction false} SplitNoNewline(s: string)
    requires '\n' !in s
    ensures Split(s) == [s]
  {
    if s != [] {
      SplitNoNewline(s[1..]);
      assert [s[0]] + s[1..] == s;
    }
  }

  /** A newline-free line followed by a newline contributes exactly one line. */
  lemma {:induction false} SplitPrefix(line: string, tail: string)
    requires '\n' !in line
    ensures Split(line + "\n" + tail) == [line] + Split(tail)
  {
    if line == [] {
      assert line + "\n" + tail == "\n" + tail;
      assert ("\n" + tail)[1..] == tail;
    } else {
      var s := line + "\n" + tail;
      assert s[1..] == line[1..] + "\n" + tail;
      SplitPrefix(line[1..], tail);
      assert [line[0]] + line[1..] == line;
    }
  }
}
