/** The blocks a blog post's content is turned into, and how one trimmed line is
    classified. The JSX the site builds for each block (class names, React keys)
    is presentation and is not modelled. */
module Markup {
  import opened Text

  type Level = n: int | 1 <= n <= 3 witness 1

  /** One rendered element of a post: <h1>/<h2>/<h3>, <p>, <ul> of <li>, <pre><code>. */
  datatype Block =
    | Heading(level: Level, text: string)
    | Paragraph(text: string)
    | List(items: seq<string>)
    | Code(text: string)

  /** What a line is, judged from its trimmed form. */
  datatype LineKind =
    | FenceLine
    | HeadingLine(level: Level, text: string)
    | ItemLine(text: string)
    | BlankLine
    | TextLine(text: string)

  const Fence: string := "```"

  function HeadingPrefix(level: Level): string {
    if level == 1 then "# " else if level == 2 then "## " else "### "
  }

  /** The tests renderContent applies to a trimmed line, in its order: a fence,
      then `# `, `## `, `### `, then `- `, then the empty string, else plain text. */
  function Classify(t: string): LineKind {
    if StartsWith(t, Fence) then FenceLine
    else if StartsWith(t, "# ") then HeadingLine(1, t[2..])
    else if StartsWith(t, "## ") then HeadingLine(2, t[3..])
    else if StartsWith(t, "### ") then HeadingLine(3, t[4..])
    else if StartsWith(t, "- ") then ItemLine(t[2..])
    else if t == [] then BlankLine
    else TextLine(t)
  }

  function KindOf(line: string): LineKind {
    Classify(Trim(line))
  }

  predicate IsFenceLine(line: string) { KindOf(line).FenceLine? }
  predicate IsItemLine(line: string) { KindOf(line).ItemLine? }
  predicate IsTextLine(line: string) { KindOf(line).TextLine? }

  /** A heading line is exactly its level's prefix followed by the heading text,
      and any non-fence line starting with a level's prefix is a heading of that
      level: the three prefixes exclude each other, so the order of the tests
      does not matter. */
  lemma HeadingRules(t: string, level: Level)
    ensures (Classify(t).HeadingLine? && Classify(t).level == level) <==>
            (StartsWith(t, HeadingPrefix(level)) && !StartsWith(t, Fence))
    ensures Classify(t).HeadingLine? && Classify(t).level == level ==>
            t == HeadingPrefix(level) + Classify(t).text
  {
    if StartsWith(t, HeadingPrefix(level)) {
      var p := HeadingPrefix(level);
      assert t[..|p|] == p;
      assert t == t[..|p|] + t[|p|..];
      assert t[|p| - 1] == ' ';
      assert forall i :: 0 <= i < |p| - 1 ==> t[i] == p[i] == '#';
      if level >= 2 { assert t[..2][1] == '#'; }
      if level == 3 { assert t[..3][2] == '#'; }
      assert !StartsWith(t, Fence) ==> Classify(t).HeadingLine? && Classify(t).level == level;
    }
    if Classify(t).HeadingLine? && Classify(t).level == level {
      assert StartsWith(t, HeadingPrefix(level));
      assert !StartsWith(t, Fence);
    }
    if Classify(t).HeadingLine? && Classify(t).level == level {
      assert t == t[..|HeadingPrefix(level)|] + t[|HeadingPrefix(level)|..];
    }
  }

  /** A line opening with four or more hashes is not a heading: it is plain text. */
  lemma FourHashesIsText(t: string)
    requires StartsWith(t, "####")
    ensures Classify(t) == TextLine(t)
  {
    assert t[1] == '#' && t[2] == '#' && t[3] == '#';
  }

  /** A fence marker opens a fence whatever follows it: a language tag,
      trailing whitespace, or anything else. */
  lemma FenceWithTag(tag: string)
    ensures IsFenceLine(Fence + tag)
  {
    var line := Fence + tag;
    var lo, hi := TrimSpec(line);
    assert line[0] == '`' && line[1] == '`' && line[2] == '`';
    assert Trim(line)[..3] == line[..3] == Fence;
  }

  /** Each kind of line is recognised by its own marker at the start of the
      trimmed line: the markers exclude one another (except that a fence wins
      over everything), so the order of the tests only matters for fences. */
  lemma KindOfPrefixes(line: string)
    ensures IsFenceLine(line) <==> StartsWith(Trim(line), Fence)
    ensures KindOf(line).HeadingLine? <==>
              StartsWith(Trim(line), "# ") || StartsWith(Trim(line), "## ") ||
              StartsWith(Trim(line), "### ")
    ensures IsItemLine(line) <==> StartsWith(Trim(line), "- ")
    ensures KindOf(line).BlankLine? <==> Trim(line) == []
    ensures IsTextLine(line) <==>
              Trim(line) != [] && !StartsWith(Trim(line), Fence) &&
              !StartsWith(Trim(line), "# ") && !StartsWith(Trim(line), "## ") &&
              !StartsWith(Trim(line), "### ") && !StartsWith(Trim(line), "- ")
  {
    var t := Trim(line);
    if StartsWith(t, "# ") || StartsWith(t, "## ") || StartsWith(t, "### ") {
      assert t[0] == '#';
    }
    if StartsWith(t, "- ") {
      assert t[0] == '-';
    }
  }

  /** The line an author types for a kind of line: the kind's marker followed
      by its text (a fence is written bare). */
  function LineOf(k: LineKind): string {
    match k
    case FenceLine => Fence
    case HeadingLine(level, text) => HeadingPrefix(level) + text
    case ItemLine(text) => "- " + text
    case BlankLine => ""
    case TextLine(text) => text
  }

  /** The kinds a trimmed line can have: payloads are non-empty with no
      whitespace at their end, and plain text is non-empty, has no whitespace
      at either end and starts with none of the markers. */
  predicate Printable(k: LineKind) {
    match k
    case FenceLine => true
    case HeadingLine(_, text) => text != [] && !IsWhitespace(text[|text| - 1])
    case ItemLine(text) => text != [] && !IsWhitespace(text[|text| - 1])
    case BlankLine => true
    case TextLine(t) =>
      t != [] && !IsWhitespace(t[0]) && !IsWhitespace(t[|t| - 1]) &&
      !StartsWith(t, Fence) && !StartsWith(t, "# ") && !StartsWith(t, "## ") &&
      !StartsWith(t, "### ") && !StartsWith(t, "- ")
  }

  /** A string with no whitespace at either end is its own trimmed form. */
  lemma TrimmedIsFixed(s: string)
    requires s == [] || (!IsWhitespace(s[0]) && !IsWhitespace(s[|s| - 1]))
    ensures Trim(s) == s
  {
  }

  /** Writing a line of a printable kind and classifying it gives that kind
      back. */
  lemma KindOfLineOf(k: LineKind)
    requires Printable(k)
    ensures KindOf(LineOf(k)) == k
  {
    match k {
      case FenceLine =>
        TrimmedIsFixed(Fence);
      case HeadingLine(level, text) =>
        HeadingKind(level, text);
      case ItemLine(text) =>
        ItemKind(text);
      case BlankLine =>
      case TextLine(t) =>
        TrimmedIsFixed(t);
    }
  }

  lemma HeadingKind(level: Level, text: string)
    requires text != [] && !IsWhitespace(text[|text| - 1])
    ensures KindOf(HeadingPrefix(level) + text) == HeadingLine(level, text)
  {
    var line := HeadingPrefix(level) + text;
    assert line[0] == '#' && line[|line| - 1] == text[|text| - 1];
    TrimmedIsFixed(line);
    HeadingRules(line, level);
    assert line[|HeadingPrefix(level)|..] == text;
  }

  lemma ItemKind(text: string)
    requires text != [] && !IsWhitespace(text[|text| - 1])
    ensures KindOf("- " + text) == ItemLine(text)
  {
    var line := "- " + text;
    assert line[0] == '-' && line[|line| - 1] == text[|text| - 1];
    TrimmedIsFixed(line);
    assert line[..2] == "- ";
  }

  /** Classifying a line and writing the kind back gives the trimmed line,
      except for a fence, which drops whatever follows its marker. Every line
      has a printable kind. */
  lemma LineOfKindOf(line: string)
    ensures !IsFenceLine(line) ==> LineOf(KindOf(line)) == Trim(line)
    ensures Printable(KindOf(line))
  {
    var t := Trim(line);
    var _, _ := TrimSpec(line);
    ClassifyTrimmed(t);
    match Classify(t) {
      case FenceLine =>
      case HeadingLine(level, text) =>
        HeadingRules(t, level);
      case ItemLine(text) =>
        assert t == t[..2] + t[2..];
      case BlankLine =>
      case TextLine(_) =>
    }
  }

  /** What classification yields on a trimmed line: heading, item and text
      payloads are never empty and never end in whitespace, the line is blank
      exactly when it is empty, and text is the whole line. */
  lemma ClassifyTrimmed(t: string)
    requires t == [] || (!IsWhitespace(t[0]) && !IsWhitespace(t[|t| - 1]))
    ensures Classify(t).HeadingLine? || Classify(t).ItemLine? ==>
              Classify(t).text != [] && !IsWhitespace(Classify(t).text[|Classify(t).text| - 1])
    ensures Classify(t).TextLine? ==>
              Classify(t).text == t && t != [] && !IsWhitespace(t[0]) && !IsWhitespace(t[|t| - 1])
    ensures Classify(t).BlankLine? <==> t == []
  {
    if StartsWith(t, Fence) {
    } else if StartsWith(t, "# ") || StartsWith(t, "- ") {
      assert IsWhitespace(t[1]);
    } else if StartsWith(t, "## ") {
      assert IsWhitespace(t[2]);
    } else if StartsWith(t, "### ") {
      assert IsWhitespace(t[3]);
    }
  }

  /** The same for any line: payloads are non-empty and end in non-whitespace,
      and a line is blank exactly when it is all whitespace. */
  lemma KindOfTrimmed(line: string)
    ensures KindOf(line).HeadingLine? || KindOf(line).ItemLine? ==>
              KindOf(line).text != [] && !IsWhitespace(KindOf(line).text[|KindOf(line).text| - 1])
    ensures KindOf(line).TextLine? ==>
              KindOf(line).text == Trim(line) && KindOf(line).text != [] &&
              !IsWhitespace(KindOf(line).text[0]) &&
              !IsWhitespace(KindOf(line).text[|KindOf(line).text| - 1])
    ensures KindOf(line).BlankLine? <==> AllWhitespace(line)
  {
    var _, _ := TrimSpec(line);
    ClassifyTrimmed(Trim(line));
  }
}
