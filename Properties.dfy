/** What renderContent promises about its output, stated over whole inputs and
    proved from the state machine (RenderSpec) and its reference reading
    (Grammar). */
module Properties {
  import opened Text
  import opened Markup
  import opened RenderSpec
  import opened Grammar

  /** The trimmed form of each line. */
  function TrimmedLines(lines: seq<string>): (r: seq<string>)
    ensures |r| == |lines|
  {
    seq(|lines|, i requires 0 <= i < |lines| => Trim(lines[i]))
  }

  /** Each item line without its trimmed `- ` marker. */
  function ItemTexts(lines: seq<string>): (r: seq<string>)
    requires forall i :: 0 <= i < |lines| ==> IsItemLine(lines[i])
    ensures |r| == |lines|
  {
    seq(|lines|, i requires 0 <= i < |lines| => assert IsItemLine(lines[i]); Trim(lines[i])[2..])
  }

  predicate AllText(lines: seq<string>) {
    forall i :: 0 <= i < |lines| ==> IsTextLine(lines[i])
  }

  predicate AllItems(lines: seq<string>) {
    forall i :: 0 <= i < |lines| ==> IsItemLine(lines[i])
  }

  predicate NoFence(lines: seq<string>) {
    forall i :: 0 <= i < |lines| ==> !IsFenceLine(lines[i])
  }

  lemma {:induction false} TextsAreTrimmed(lines: seq<string>)
    requires AllText(lines)
    ensures Texts(lines) == TrimmedLines(lines)
    decreases |lines|
  {
    if lines != [] {
      assert IsTextLine(lines[0]);
      KindOfTrimmed(lines[0]);
      TextsAreTrimmed(lines[1..]);
      assert TrimmedLines(lines) == [Trim(lines[0])] + TrimmedLines(lines[1..]);
    }
  }

  lemma {:induction false} ItemsAreStripped(lines: seq<string>)
    requires AllItems(lines)
    ensures Items(lines) == ItemTexts(lines)
    decreases |lines|
  {
    if lines != [] {
      assert IsItemLine(lines[0]);
      ItemsAreStripped(lines[1..]);
      assert ItemTexts(lines) == [Trim(lines[0])[2..]] + ItemTexts(lines[1..]);
    }
  }

  lemma {:induction false} TextRunIs(lines: seq<string>, n: nat)
    requires n <= |lines| && forall i :: 0 <= i < n ==> IsTextLine(lines[i])
    requires n < |lines| ==> !IsTextLine(lines[n])
    ensures TextRun(lines) == n
    decreases n
  {
    if n > 0 {
      assert IsTextLine(lines[0]);
      TextRunIs(lines[1..], n - 1);
    }
  }

  lemma {:induction false} ItemRunIs(lines: seq<string>, n: nat)
    requires n <= |lines| && forall i :: 0 <= i < n ==> IsItemLine(lines[i])
    requires n < |lines| ==> !IsItemLine(lines[n])
    ensures ItemRun(lines) == n
    decreases n
  {
    if n > 0 {
      assert IsItemLine(lines[0]);
      ItemRunIs(lines[1..], n - 1);
    }
  }

  /** renderContent renders exactly the lines its content consists of: for
      newline-free lines, rendering their text joined by newlines is rendering
      the lines. */
  lemma RenderContentLines(lines: seq<string>)
    requires forall i :: 0 <= i < |lines| ==> '\n' !in lines[i]
    ensures RenderContent(Join(lines, "\n")) == Render(lines)
  {
    if lines == [] {
      SplitNoNewline([]);
      assert Render([[]]) == [];
    } else {
      SplitJoin(lines);
    }
  }

  /** Plain-line merging: consecutive plain lines make exactly one paragraph,
      whose text is their trimmed forms joined by single spaces. */
  lemma ParagraphMerge(lines: seq<string>)
    requires lines != [] && AllText(lines)
    ensures Render(lines) == [Paragraph(Join(TrimmedLines(lines), " "))]
  {
    RenderIsParse(lines);
    TextRunIs(lines, |lines|);
    assert lines[..|lines|] == lines;
    TextsAreTrimmed(lines);
  }

  /** List-line merging: consecutive `- ` lines make exactly one list whose
      items are the trimmed lines without their two-character marker. */
  lemma ListMerge(lines: seq<string>)
    requires lines != [] && AllItems(lines)
    ensures Render(lines) == [List(ItemTexts(lines))]
  {
    RenderIsParse(lines);
    ItemRunIs(lines, |lines|);
    assert lines[..|lines|] == lines;
    ItemsAreStripped(lines);
  }

  /** A list right after a paragraph line, with no blank line between, flushes
      the paragraph first and then forms its own list. */
  lemma ParagraphThenList(para: seq<string>, items: seq<string>)
    requires para != [] && AllText(para)
    requires items != [] && AllItems(items)
    ensures Render(para + items) ==
              [Paragraph(Join(TrimmedLines(para), " ")), List(ItemTexts(items))]
  {
    var lines := para + items;
    RenderIsParse(lines);
    assert lines[|para|] == items[0];
    TextRunIs(lines, |para|);
    assert lines[..|para|] == para && lines[|para|..] == items;
    TextsAreTrimmed(para);
    RenderIsParse(items);
    ListMerge(items);
  }

  /** When a piece of input leaves no fence open, flushing the state it
      reaches gives an idle state holding exactly that piece's output. */
  lemma RestFromIdle(a: seq<string>)
    requires !Run(Start, a).inCodeBlock
    ensures Idle(FlushPending(Run(Start, a)))
    ensures FlushPending(Run(Start, a)).elements == Render(a)
  {
    RunConsistent(Start, a);
  }

  /** A blank or whitespace-only line ends whatever paragraph or list is
      pending: the input on either side of it renders independently. */
  lemma BlankSeparates(a: seq<string>, blank: string, b: seq<string>)
    requires AllWhitespace(blank)
    requires !Run(Start, a).inCodeBlock
    ensures Render(a + [blank] + b) == Render(a) + Render(b)
  {
    var st := Run(Start, a);
    KindOfTrimmed(blank);
    RestFromIdle(a);
    var idle := FlushPending(st);
    assert Step(st, blank) == idle;
    RunAppend(Start, a, [blank]);
    assert Run(Start, a + [blank]) == idle;
    RunAppend(Start, a + [blank], b);
    IdleRender(idle, b);
    RenderIsParse(b);
  }

  /** A heading flushes what is pending before it and is emitted on its own:
      the input on either side renders independently around it. */
  lemma HeadingSeparates(a: seq<string>, heading: string, b: seq<string>)
    requires KindOf(heading).HeadingLine?
    requires !Run(Start, a).inCodeBlock
    ensures Render(a + [heading] + b) ==
              Render(a) + [Heading(KindOf(heading).level, KindOf(heading).text)] + Render(b)
  {
    var st := Run(Start, a);
    var h := Heading(KindOf(heading).level, KindOf(heading).text);
    RestFromIdle(a);
    var next := FlushPending(st).(elements := Render(a) + [h]);
    assert Step(st, heading) == next;
    RunAppend(Start, a, [heading]);
    RunAppend(Start, a + [heading], b);
    IdleRender(next, b);
    RenderIsParse(b);
  }

  /** A fenced block is emitted as one code block holding exactly the lines
      between the fences, untrimmed and joined by '\n'; whatever those lines
      look like, none of them is read as a heading, item or blank line. */
  lemma FencedCode(a: seq<string>, open: string, body: seq<string>, close: string, b: seq<string>)
    requires IsFenceLine(open) && IsFenceLine(close) && NoFence(body)
    requires !Run(Start, a).inCodeBlock
    ensures Render(a + [open] + body + [close] + b) ==
              Render(a) + [Code(Join(body, "\n"))] + Render(b)
  {
    var st := Run(Start, a);
    RestFromIdle(a);
    var idle := FlushPending(st);
    var inFence := idle.(inCodeBlock := true);
    assert Step(st, open) == inFence;
    RunAppend(Start, a, [open]);
    RunAppend(Start, a + [open], body);
    CodeLines(inFence, body);
    assert inFence.codeBlock + body == body;
    var after := idle.(elements := Render(a) + [Code(Join(body, "\n"))]);
    assert Step(inFence.(codeBlock := body), close) == after;
    RunAppend(Start, a + [open] + body, [close]);
    RunAppend(Start, a + [open] + body + [close], b);
    IdleRender(after, b);
    RenderIsParse(b);
  }

  /** End of input inside a fence: the fence's buffered lines are dropped and
      nothing after the fence line is emitted. */
  lemma UnclosedFence(a: seq<string>, open: string, body: seq<string>)
    requires IsFenceLine(open) && NoFence(body)
    requires !Run(Start, a).inCodeBlock
    ensures Render(a + [open] + body) == Render(a)
  {
    var st := Run(Start, a);
    RestFromIdle(a);
    var inFence := FlushPending(st).(inCodeBlock := true);
    assert Step(st, open) == inFence;
    RunAppend(Start, a, [open]);
    RunAppend(Start, a + [open], body);
    CodeLines(inFence, body);
  }

  /** Output blocks carry content: a heading's text and a paragraph's text are
      never empty, a list has at least one item and no item is empty, and a
      paragraph's text neither starts nor ends with whitespace. */
  predicate WellFormed(b: Block) {
    match b
    case Heading(_, text) => text != []
    case Paragraph(text) => text != [] && !IsWhitespace(text[0]) && !IsWhitespace(text[|text| - 1])
    case List(items) => items != [] && forall i :: 0 <= i < |items| ==> items[i] != []
    case Code(_) => true
  }

  predicate AllWellFormed(blocks: seq<Block>) {
    forall i :: 0 <= i < |blocks| ==> WellFormed(blocks[i])
  }

  /** No empty paragraph or list is ever emitted, because flushing an empty
      buffer emits nothing. */
  lemma RenderWellFormed(lines: seq<string>)
    ensures forall i :: 0 <= i < |Render(lines)| ==> WellFormed(Render(lines)[i])
  {
    RenderIsParse(lines);
    ParseWellFormed(lines);
  }

  lemma {:induction false} ParseWellFormed(lines: seq<string>)
    ensures AllWellFormed(Parse(lines))
    decreases |lines|
  {
    if lines != [] {
      var first, k := FirstParsed(lines);
      ParseWellFormed(lines[k..]);
      assert AllWellFormed(first + Parse(lines[k..]));
    }
  }

  /** The reference reading of a non-empty input starts with well-formed
      blocks read from its first `k` lines. */
  lemma FirstParsed(lines: seq<string>) returns (first: seq<Block>, k: nat)
    requires lines != []
    ensures 0 < k <= |lines| && AllWellFormed(first)
    ensures Parse(lines) == first + Parse(lines[k..])
  {
    KindOfTrimmed(lines[0]);
    match KindOf(lines[0]) {
      case FenceLine =>
        first, k := FenceParsed(lines);
      case HeadingLine(level, text) =>
        first, k := [Heading(level, text)], 1;
      case BlankLine =>
        first, k := [], 1;
      case ItemLine(_) =>
        first, k := ListParsed(lines);
      case TextLine(_) =>
        first, k := ParagraphParsed(lines);
    }
  }

  lemma FenceParsed(lines: seq<string>) returns (first: seq<Block>, k: nat)
    requires lines != [] && IsFenceLine(lines[0])
    ensures 0 < k <= |lines| && AllWellFormed(first)
    ensures Parse(lines) == first + Parse(lines[k..])
  {
    match NextFence(lines[1..]) {
      case None =>
        first, k := [], |lines|;
      case Some(j) =>
        first, k := [Code(Join(lines[1..j + 1], "\n"))], j + 2;
    }
  }

  lemma ListParsed(lines: seq<string>) returns (first: seq<Block>, k: nat)
    requires lines != [] && IsItemLine(lines[0])
    ensures 0 < k <= |lines| && AllWellFormed(first)
    ensures Parse(lines) == first + Parse(lines[k..])
  {
    k := ItemRun(lines);
    ItemsNonEmpty(lines[..k]);
    first := [List(Items(lines[..k]))];
    ParseList(lines);
  }

  lemma ParagraphParsed(lines: seq<string>) returns (first: seq<Block>, k: nat)
    requires lines != [] && IsTextLine(lines[0])
    ensures 0 < k <= |lines| && AllWellFormed(first)
    ensures Parse(lines) == first + Parse(lines[k..])
  {
    k := TextRun(lines);
    TextsJoinWellFormed(lines[..k]);
    first := [Paragraph(Join(Texts(lines[..k]), " "))];
    ParseParagraph(lines);
  }

  lemma {:induction false} ItemsNonEmpty(lines: seq<string>)
    requires AllItems(lines)
    ensures forall i :: 0 <= i < |Items(lines)| ==> Items(lines)[i] != []
    decreases |lines|
  {
    if lines != [] {
      assert IsItemLine(lines[0]);
      KindOfTrimmed(lines[0]);
      ItemsNonEmpty(lines[1..]);
    }
  }

  lemma TextsJoinWellFormed(lines: seq<string>)
    requires lines != [] && AllText(lines)
    ensures WellFormed(Paragraph(Join(Texts(lines), " ")))
  {
    TextsAreTrimmed(lines);
    forall i | 0 <= i < |lines|
      ensures Trim(lines[i]) != [] && !IsWhitespace(Trim(lines[i])[0]) && !IsWhitespace(Trim(lines[i])[|Trim(lines[i])| - 1])
    {
      assert IsTextLine(lines[i]);
      KindOfTrimmed(lines[i]);
    }
    JoinEnds(TrimmedLines(lines), " ");
  }
}
