/** renderContent as the source writes it: local variables mutated by two
    closures and by the callback of `lines.forEach`. The variables become the
    fields of a renderer object; each closure and the callback become methods
    that update those fields in place. Every method is proved to perform one
    step of the state machine of RenderSpec, and the whole call to compute the
    reference reading of Grammar. */
module BlogRenderer {
  import opened Text
  import opened Markup
  import RenderSpec
  import Grammar

  /** The state captured by renderContent's closures. */
  class ContentRenderer {
    var elements: seq<Block>
    var currentParagraph: seq<string>
    var codeBlock: seq<string>
    var currentList: seq<string>
    var inCodeBlock: bool

    /** The fields read as one state of the state machine. */
    function Snapshot(): RenderSpec.State
      reads this
    {
      RenderSpec.State(elements, currentParagraph, currentList, codeBlock, inCodeBlock)
    }

    /** Nothing emitted, nothing buffered, no fence open. */
    constructor ()
      ensures Snapshot() == RenderSpec.Start
    {
      elements := [];
      currentParagraph := [];
      codeBlock := [];
      currentList := [];
      inCodeBlock := false;
    }

    /** flushParagraph: emit the buffered lines as one paragraph, if any. */
    method FlushParagraph()
      modifies this
      ensures Snapshot() == RenderSpec.FlushParagraph(old(Snapshot()))
    {
      if |currentParagraph| > 0 {
        elements := elements + [Paragraph(Join(currentParagraph, " "))];
        currentParagraph := [];
      }
    }

    /** flushList: emit the buffered items as one list, if any. */
    method FlushList()
      modifies this
      ensures Snapshot() == RenderSpec.FlushList(old(Snapshot()))
    {
      if |currentList| > 0 {
        elements := elements + [List(currentList)];
        currentList := [];
      }
    }

    /** The `lines.forEach` callback: the tests on the trimmed line, in the
        source's order. */
    method ProcessLine(line: string)
      modifies this
      ensures Snapshot() == RenderSpec.Step(old(Snapshot()), line)
    {
      var trimmed := Trim(line);
      if StartsWith(trimmed, "```") {
        FlushList();
        FlushParagraph();
        if inCodeBlock {
          elements := elements + [Code(Join(codeBlock, "\n"))];
          codeBlock := [];
          inCodeBlock := false;
        } else {
          inCodeBlock := true;
        }
      } else if inCodeBlock {
        codeBlock := codeBlock + [line];
      } else if StartsWith(trimmed, "# ") {
        FlushList();
        FlushParagraph();
        elements := elements + [Heading(1, trimmed[2..])];
      } else if StartsWith(trimmed, "## ") {
        FlushList();
        FlushParagraph();
        elements := elements + [Heading(2, trimmed[3..])];
      } else if StartsWith(trimmed, "### ") {
        FlushList();
        FlushParagraph();
        elements := elements + [Heading(3, trimmed[4..])];
      } else if StartsWith(trimmed, "- ") {
        FlushParagraph();
        currentList := currentList + [trimmed[2..]];
      } else if trimmed == "" {
        FlushList();
        FlushParagraph();
      } else {
        FlushList();
        currentParagraph := currentParagraph + [trimmed];
      }
    }
  }

  /** renderContent: split the content on '\n', feed every line to the
      callback, flush the list and then the paragraph, and return what was
      emitted. The result is the state machine's output and, equally, the
      reading of the lines as maximal runs. */
  method RenderContent(content: string) returns (elements: seq<Block>)
    ensures elements == RenderSpec.RenderContent(content)
    ensures elements == Grammar.Parse(Split(content))
  {
    var lines := Split(content);
    var r := new ContentRenderer();
    for i := 0 to |lines|
      invariant r.Snapshot() == RenderSpec.Run(RenderSpec.Start, lines[..i])
    {
      RenderSpec.RunAppend(RenderSpec.Start, lines[..i], [lines[i]]);
      assert lines[..i + 1] == lines[..i] + [lines[i]];
      r.ProcessLine(lines[i]);
    }
    assert lines[..|lines|] == lines;
    r.FlushList();
    r.FlushParagraph();
    elements := r.elements;
    Grammar.RenderIsParse(lines);
  }
}
