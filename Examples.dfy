/** Worked inputs: small contents for each kind of block, and lines of the
    three blog posts the site renders. Each is proved from a lemma
    about a general shape of input (two plain lines, a blank line and a plain
    line; a heading, a blank line and a plain line; ...) instantiated with the
    concrete lines, so nothing is proved by evaluating the renderer. */
module Examples {
  import opened Text
  import opened Markup
  import opened RenderSpec
  import opened Grammar
  import opened Properties

  /** Starts with neither whitespace nor a marker character and does not end
      in whitespace. */
  predicate Plain(t: string) {
    t != [] && !IsWhitespace(t[0]) && !IsWhitespace(t[|t| - 1]) &&
    t[0] != '`' && t[0] != '#' && t[0] != '-'
  }

  /** `- ` followed by text that does not end in whitespace. */
  predicate Item(line: string) {
    |line| >= 3 && line[0] == '-' && line[1] == ' ' && !IsWhitespace(line[|line| - 1])
  }

  lemma PlainLine(t: string)
    requires Plain(t)
    ensures Trim(t) == t && KindOf(t) == TextLine(t)
  {
    TrimmedIsFixed(t);
  }

  lemma ItemOf(line: string)
    requires Item(line)
    ensures KindOf(line) == ItemLine(line[2..])
  {
    TrimmedIsFixed(line);
    assert line[..2] == "- ";
  }

  lemma Split2(a: string, b: string)
    requires '\n' !in a && '\n' !in b
    ensures Split(a + "\n" + b) == [a, b]
  {
    SplitPrefix(a, b);
    SplitNoNewline(b);
  }

  lemma Split3(a: string, b: string, c: string)
    requires '\n' !in a && '\n' !in b && '\n' !in c
    ensures Split(a + "\n" + (b + "\n" + c)) == [a, b, c]
  {
    SplitPrefix(a, b + "\n" + c);
    Split2(b, c);
  }

  lemma Split4(a: string, b: string, c: string, d: string)
    requires '\n' !in a && '\n' !in b && '\n' !in c && '\n' !in d
    ensures Split(a + "\n" + (b + "\n" + (c + "\n" + d))) == [a, b, c, d]
  {
    SplitPrefix(a, b + "\n" + (c + "\n" + d));
    Split3(b, c, d);
  }

  /** Two plain lines, a blank line, a plain line: two paragraphs. */
  lemma TwoParagraphs(one: string, two: string, three: string)
    requires Plain(one) && Plain(two) && Plain(three)
    ensures Render([one, two, "", three]) == [Paragraph(one + " " + two), Paragraph(three)]
  {
    PlainLine(one);
    PlainLine(two);
    PlainLine(three);
    var first := [one, two];
    assert AllText(first);
    TextLines(Start, first);
    assert first + [""] + [three] == [one, two, "", three];
    KindOfTrimmed("");
    BlankSeparates(first, "", [three]);
    ParagraphMerge(first);
    assert TrimmedLines(first) == first;
    ParagraphMerge([three]);
    assert TrimmedLines([three]) == [three];
  }

  /** A heading, a blank line, a plain line: the heading, then a paragraph. */
  lemma HeadingAndParagraph(heading: string, text: string)
    requires KindOf(heading).HeadingLine? && Plain(text)
    ensures Render([heading, "", text]) ==
              [Heading(KindOf(heading).level, KindOf(heading).text), Paragraph(text)]
  {
    assert [] + [heading] + ["", text] == [heading, "", text];
    HeadingSeparates([], heading, ["", text]);
    KindOfTrimmed("");
    assert [] + [""] + [text] == ["", text];
    BlankSeparates([], "", [text]);
    PlainLine(text);
    ParagraphMerge([text]);
    assert TrimmedLines([text]) == [text];
  }

  /** Three item lines: one list of three items. */
  lemma ThreeItemList(a: string, b: string, c: string)
    requires Item(a) && Item(b) && Item(c)
    ensures Render([a, b, c]) == [List([a[2..], b[2..], c[2..]])]
  {
    ItemOf(a);
    ItemOf(b);
    ItemOf(c);
    ListMerge([a, b, c]);
    assert ItemTexts([a, b, c]) == [a[2..], b[2..], c[2..]];
  }

  /** A fence around one line that is not a fence line renders that line,
      untouched, as code. */
  lemma SingleCodeLine(open: string, code: string, close: string)
    requires IsFenceLine(open) && !IsFenceLine(code) && IsFenceLine(close)
    ensures Render([open, code, close]) == [Code(code)]
  {
    assert [] + [open] + [code] + [close] + [] == [open, code, close];
    FencedCode([], open, [code], close, []);
  }

  lemma EmptyContent(content: string)
    requires content == ""
    ensures RenderContent(content) == []
  {
    SplitNoNewline(content);
    KindOfTrimmed(content);
    BlankSeparates([], content, []);
  }

  /* Each example below takes its content as a parameter fixed by its
     `requires`, and a `...Pieces` lemma hands back the same text cut into its
     lines. Written as literals in a lemma's body, the content would make the
     verifier unfold `Split` and `Render` character by character; going through
     parameters, the proof instead instantiates the general lemmas above. */
  lemma SingleHeadingPieces(content: string) returns (line: string)
    requires content == "# Title"
    ensures content == line && '\n' !in line
    ensures line == HeadingPrefix(1) + "Title"
  {
    line := "# Title";
  }

  lemma SingleHeading(content: string)
    requires content == "# Title"
    ensures RenderContent(content) == [Heading(1, "Title")]
  {
    var line := SingleHeadingPieces(content);
    SplitNoNewline(line);
    KindOfLineOf(HeadingLine(1, "Title"));
    HeadingSeparates([], line, []);
    assert [] + [line] + [] == [line];
  }

  lemma HeadingThenParagraphPieces(content: string) returns (heading: string, text: string)
    requires content == "## Sub\n\nSome text here."
    ensures content == heading + "\n" + ("" + "\n" + text)
    ensures '\n' !in heading && '\n' !in text && Plain(text)
    ensures heading == HeadingPrefix(2) + "Sub" && text == "Some text here."
  {
    heading, text := "## Sub", "Some text here.";
  }

  lemma HeadingThenParagraph(content: string)
    requires content == "## Sub\n\nSome text here."
    ensures RenderContent(content) == [Heading(2, "Sub"), Paragraph("Some text here.")]
  {
    var heading, text := HeadingThenParagraphPieces(content);
    Split3(heading, "", text);
    KindOfLineOf(HeadingLine(2, "Sub"));
    HeadingAndParagraph(heading, text);
  }

  lemma ThreeItemsPieces(content: string) returns (a: string, b: string, c: string)
    requires content == "- a\n- b\n- c"
    ensures content == a + "\n" + (b + "\n" + c)
    ensures '\n' !in a && '\n' !in b && '\n' !in c
    ensures Item(a) && Item(b) && Item(c)
    ensures a[2..] == "a" && b[2..] == "b" && c[2..] == "c"
  {
    a, b, c := "- a", "- b", "- c";
  }

  lemma ThreeItems(content: string)
    requires content == "- a\n- b\n- c"
    ensures RenderContent(content) == [List(["a", "b", "c"])]
  {
    var a, b, c := ThreeItemsPieces(content);
    Split3(a, b, c);
    ThreeItemList(a, b, c);
  }

  lemma TwoParagraphsPieces(content: string) returns (one: string, two: string, three: string)
    requires content == "line one\nline two\n\nline three"
    ensures content == one + "\n" + (two + "\n" + ("" + "\n" + three))
    ensures '\n' !in one && '\n' !in two && '\n' !in three
    ensures Plain(one) && Plain(two) && Plain(three)
    ensures one + " " + two == "line one line two" && three == "line three"
  {
    one, two, three := "line one", "line two", "line three";
  }

  /** A blank line starts a new paragraph instead of merging across it. */
  lemma BlankLineSplitsParagraphs(content: string)
    requires content == "line one\nline two\n\nline three"
    ensures RenderContent(content) == [Paragraph("line one line two"), Paragraph("line three")]
  {
    var one, two, three := TwoParagraphsPieces(content);
    Split4(one, two, "", three);
    TwoParagraphs(one, two, three);
  }

  /** A plain line indented by whitespace is the plain text without the
      indentation. */
  lemma IndentedPlain(indent: string, text: string)
    requires AllWhitespace(indent) && Plain(text)
    ensures KindOf(indent + text) == TextLine(text)
  {
    TrimAround(indent, text, []);
    assert indent + text + [] == indent + text;
    PlainLine(text);
  }

  lemma IndentedCodePieces(content: string) returns (fence: string, indent: string, text: string)
    requires content == "```\n  const x = 1;\n```"
    ensures content == fence + "\n" + ((indent + text) + "\n" + fence)
    ensures '\n' !in fence && '\n' !in indent + text
    ensures fence == Fence && AllWhitespace(indent) && Plain(text)
    ensures indent + text == "  const x = 1;"
  {
    fence, indent, text := "```", "  ", "const x = 1;";
  }

  /** Code keeps its indentation. */
  lemma IndentedCode(content: string)
    requires content == "```\n  const x = 1;\n```"
    ensures RenderContent(content) == [Code("  const x = 1;")]
  {
    var fence, indent, text := IndentedCodePieces(content);
    var code := indent + text;
    Split3(fence, code, fence);
    KindOfLineOf(FenceLine);
    IndentedPlain(indent, text);
    SingleCodeLine(fence, code, fence);
  }

  lemma HeadingInsideFencePieces(content: string) returns (fence: string, code: string)
    requires content == "```\n# not a heading\n```"
    ensures content == fence + "\n" + (code + "\n" + fence)
    ensures '\n' !in fence && '\n' !in code
    ensures fence == Fence && code == HeadingPrefix(1) + "not a heading"
    ensures code == "# not a heading"
  {
    fence, code := "```", "# not a heading";
  }

  /** A heading-looking line inside a fence is code. */
  lemma HeadingInsideFence(content: string)
    requires content == "```\n# not a heading\n```"
    ensures RenderContent(content) == [Code("# not a heading")]
  {
    var fence, code := HeadingInsideFencePieces(content);
    Split3(fence, code, fence);
    KindOfLineOf(FenceLine);
    KindOfLineOf(HeadingLine(1, "not a heading"));
    SingleCodeLine(fence, code, fence);
  }

  lemma UnterminatedFencePieces(content: string) returns (fence: string, text: string)
    requires content == "```\nabc"
    ensures content == fence + "\n" + text
    ensures '\n' !in fence && '\n' !in text
    ensures fence == Fence && Plain(text)
  {
    fence, text := "```", "abc";
  }

  /** An unterminated fence drops its lines. */
  lemma UnterminatedFence(content: string)
    requires content == "```\nabc"
    ensures RenderContent(content) == []
  {
    var fence, text := UnterminatedFencePieces(content);
    Split2(fence, text);
    KindOfLineOf(FenceLine);
    PlainLine(text);
    assert [] + [fence] + [text] == [fence, text];
    UnclosedFence([], fence, [text]);
  }

  /** A fence carrying a language tag opens and closes code like a bare one,
      and the tag is not part of the code (src/data/blogPosts.ts:45). */
  lemma TaggedFence(open: string, body: seq<string>)
    requires open == "```tsx" && NoFence(body)
    ensures Render([open] + body + [Fence]) == [Code(Join(body, "\n"))]
  {
    FenceWithTag(open[3..]);
    assert Fence + open[3..] == open;
    KindOfLineOf(FenceLine);
    FencedCode([], open, body, Fence, []);
    assert [] + [open] + body + [Fence] + [] == [open] + body + [Fence];
  }

  /** A plain line followed by three item lines: a paragraph, then a list. */
  lemma ParagraphThenThreeItems(text: string, a: string, b: string, c: string)
    requires Plain(text) && Item(a) && Item(b) && Item(c)
    ensures Render([text, a, b, c]) == [Paragraph(text), List([a[2..], b[2..], c[2..]])]
  {
    PlainLine(text);
    ItemOf(a);
    ItemOf(b);
    ItemOf(c);
    assert AllText([text]) && AllItems([a, b, c]);
    ParagraphThenList([text], [a, b, c]);
    assert [text] + [a, b, c] == [text, a, b, c];
    assert TrimmedLines([text]) == [text];
    assert ItemTexts([a, b, c]) == [a[2..], b[2..], c[2..]];
  }

  /** A list straight after a paragraph line, with no blank line between
      (src/data/blogPosts.ts:254-257): the three item lines are `- ` followed
      by the texts `x`, `y` and `z`. */
  lemma ListAfterParagraphLine(text: string, x: string, y: string, z: string)
    requires text == "Use tools like:"
    requires x == "**New Relic** or **Datadog** for APM"
    requires y == "**Clinic.js** for profiling"
    requires z == "**0x** for flame graphs"
    ensures Render([text, "- " + x, "- " + y, "- " + z]) == [Paragraph(text), List([x, y, z])]
  {
    assert Plain(text);
    DashItem("- " + x, x);
    DashItem("- " + y, y);
    DashItem("- " + z, z);
    ParagraphThenThreeItems(text, "- " + x, "- " + y, "- " + z);
  }

  lemma DashItem(line: string, text: string)
    requires line == "- " + text && text != [] && !IsWhitespace(text[|text| - 1])
    ensures Item(line) && line[2..] == text
  {
  }

  /** Plain lines make one paragraph of the lines joined by spaces. */
  lemma PlainParagraph(lines: seq<string>)
    requires lines != [] && forall i :: 0 <= i < |lines| ==> Plain(lines[i])
    ensures Render(lines) == [Paragraph(Join(lines, " "))]
  {
    forall i | 0 <= i < |lines|
      ensures Trim(lines[i]) == lines[i] && KindOf(lines[i]) == TextLine(lines[i])
    {
      PlainLine(lines[i]);
    }
    assert AllText(lines);
    ParagraphMerge(lines);
    assert TrimmedLines(lines) == lines;
  }

  /** Numbered lines are not a list: they join the paragraph before them,
      one space between lines (src/data/blogPosts.ts:271-275). */
  lemma NumberedLinesArePlainText(text: string, l1: string, l2: string, l3: string, l4: string)
    requires text == "Focus on:"
    requires l1 == "1. Efficient database queries" && l2 == "2. Proper caching strategies"
    requires l3 == "3. Non-blocking code patterns" && l4 == "4. Regular performance monitoring"
    ensures Render([text, l1, l2, l3, l4]) ==
              [Paragraph(text + " " + (l1 + " " + (l2 + " " + (l3 + " " + l4))))]
  {
    NumberedLinesArePlain(text, l1, l2, l3, l4);
    PlainParagraph([text, l1, l2, l3, l4]);
    JoinFive(text, l1, l2, l3, l4);
  }

  lemma NumberedLinesArePlain(text: string, l1: string, l2: string, l3: string, l4: string)
    requires text == "Focus on:"
    requires l1 == "1. Efficient database queries" && l2 == "2. Proper caching strategies"
    requires l3 == "3. Non-blocking code patterns" && l4 == "4. Regular performance monitoring"
    ensures Plain(text) && Plain(l1) && Plain(l2) && Plain(l3) && Plain(l4)
  {
  }

  lemma JoinFive(a: string, b: string, c: string, d: string, e: string)
    ensures Join([a, b, c, d, e], " ") == a + " " + (b + " " + (c + " " + (d + " " + e)))
  {
    assert [a, b, c, d, e][1..] == [b, c, d, e];
    assert [b, c, d, e][1..] == [c, d, e];
    assert [c, d, e][1..] == [d, e];
    assert [d, e][1..] == [e];
    assert Join([d, e], " ") == d + " " + e;
    assert Join([c, d, e], " ") == c + " " + (d + " " + e);
    assert Join([b, c, d, e], " ") == b + " " + (c + " " + (d + " " + e));
  }

  /** Backticks in a heading are kept as text (src/data/blogPosts.ts:389). */
  lemma HeadingWithBackticks(line: string)
    requires line == "### Avoid `any`"
    ensures KindOf(line) == HeadingLine(3, "Avoid `any`")
  {
    KindOfLineOf(HeadingLine(3, line[4..]));
    assert "### " + line[4..] == line;
  }

  /** A `- ` line with nothing after it is the paragraph text `-`. */
  lemma BareDash(spaces: string)
    requires AllWhitespace(spaces)
    ensures KindOf("-" + spaces) == TextLine("-")
  {
    TrimAround([], "-", spaces);
    assert [] + "-" + spaces == "-" + spaces;
  }

  /** Input with CRLF line ends: the carriage return is whitespace for
      classification, so a fence marker followed by it is a fence, but it stays
      inside code lines. */
  lemma CarriageReturnsStayInCode(fence: string, code: string)
    requires fence == "```\r" && code == "x = 1\r"
    ensures Render([fence, code, fence]) == [Code("x = 1\r")]
  {
    TrimAround([], fence[..3], fence[3..]);
    assert [] + fence[..3] + fence[3..] == fence;
    TrimAround([], code[..5], code[5..]);
    assert [] + code[..5] + code[5..] == code;
    SingleCodeLine(fence, code, fence);
  }
}
