/** A reference reading of the content dialect, independent of the line-by-line
    state machine: a post is a sequence of blocks, each a maximal run of lines of
    one kind. Fenced code runs from a fence line to the next fence line; a
    heading is one line; a list is a maximal run of item lines; a paragraph is a
    maximal run of plain text lines; blank lines separate. The main theorem,
    RenderIsParse, says the state machine computes exactly this. */
module Grammar {
  import opened Text
  import opened Markup
  import opened RenderSpec

  /** Length of the longest prefix of `lines` made of plain text lines. */
  function TextRun(lines: seq<string>): (n: nat)
    ensures n <= |lines|
    ensures forall i :: 0 <= i < n ==> IsTextLine(lines[i])
    ensures n < |lines| ==> !IsTextLine(lines[n])
  {
    if lines == [] || !IsTextLine(lines[0]) then 0 else 1 + TextRun(lines[1..])
  }

  /** Length of the longest prefix of `lines` made of list item lines. */
  function ItemRun(lines: seq<string>): (n: nat)
    ensures n <= |lines|
    ensures forall i :: 0 <= i < n ==> IsItemLine(lines[i])
    ensures n < |lines| ==> !IsItemLine(lines[n])
  {
    if lines == [] || !IsItemLine(lines[0]) then 0 else 1 + ItemRun(lines[1..])
  }

  /** Index of the first fence line in `lines`, if there is one. */
  function NextFence(lines: seq<string>): (r: Option<nat>)
    ensures r.Some? ==> r.value < |lines| && IsFenceLine(lines[r.value])
    ensures r.Some? ==> forall i :: 0 <= i < r.value ==> !IsFenceLine(lines[i])
    ensures r.None? ==> forall i :: 0 <= i < |lines| ==> !IsFenceLine(lines[i])
  {
    if lines == [] then None
    else if IsFenceLine(lines[0]) then Some(0)
    else match NextFence(lines[1..])
      case None => None
      case Some(j) => Some(j + 1)
  }

  datatype Option<T> = None | Some(value: T)

  /** The trimmed texts of plain text lines. */
  function Texts(lines: seq<string>): (r: seq<string>)
    requires forall i :: 0 <= i < |lines| ==> IsTextLine(lines[i])
    ensures |r| == |lines|
  {
    if lines == [] then []
    else
      assert IsTextLine(lines[0]);
      [KindOf(lines[0]).text] + Texts(lines[1..])
  }

  /** The texts after the `- ` marker of item lines. */
  function Items(lines: seq<string>): (r: seq<string>)
    requires forall i :: 0 <= i < |lines| ==> IsItemLine(lines[i])
    ensures |r| == |lines|
  {
    if lines == [] then []
    else
      assert IsItemLine(lines[0]);
      [KindOf(lines[0]).text] + Items(lines[1..])
  }

  /** The blocks of a post, read as maximal runs. An opening fence with no
      closing fence swallows the rest of the post and yields nothing. */
  function Parse(lines: seq<string>): seq<Block>
    decreases |lines|
  {
    if lines == [] then []
    else match KindOf(lines[0])
      case FenceLine =>
        (match NextFence(lines[1..])
         case None => []
         case Some(j) => [Code(Join(lines[1..j + 1], "\n"))] + Parse(lines[j + 2..]))
      case HeadingLine(level, text) => [Heading(level, text)] + Parse(lines[1..])
      case BlankLine => Parse(lines[1..])
      case ItemLine(_) =>
        var n := ItemRun(lines);
        [List(Items(lines[..n]))] + Parse(lines[n..])
      case TextLine(_) =>
        var n := TextRun(lines);
        [Paragraph(Join(Texts(lines[..n]), " "))] + Parse(lines[n..])
  }

  /** No paragraph or list is pending and no fence is open. */
  predicate Idle(st: State) {
    st.currentParagraph == [] && st.currentList == [] && st.codeBlock == [] && !st.inCodeBlock
  }

  /** Inside a fence, lines that are not fence lines are buffered verbatim. */
  lemma {:induction false} CodeLines(st: State, lines: seq<string>)
    requires st.inCodeBlock && st.currentParagraph == [] && st.currentList == []
    requires forall i :: 0 <= i < |lines| ==> !IsFenceLine(lines[i])
    ensures Run(st, lines) == st.(codeBlock := st.codeBlock + lines)
    decreases |lines|
  {
    if lines == [] {
      assert st.codeBlock + lines == st.codeBlock;
    } else {
      CodeLines(Step(st, lines[0]), lines[1..]);
      assert st.codeBlock + [lines[0]] + lines[1..] == st.codeBlock + lines;
    }
  }

  lemma StepItem(st: State, line: string)
    requires !st.inCodeBlock && st.currentParagraph == [] && IsItemLine(line)
    ensures Step(st, line) == st.(currentList := st.currentList + [KindOf(line).text])
  {
  }

  lemma StepText(st: State, line: string)
    requires !st.inCodeBlock && st.currentList == [] && IsTextLine(line)
    ensures Step(st, line) == st.(currentParagraph := st.currentParagraph + [KindOf(line).text])
  {
  }

  /** Outside a fence and with no pending paragraph, item lines accumulate. */
  lemma {:induction false} ItemLines(st: State, lines: seq<string>)
    requires !st.inCodeBlock && st.currentParagraph == []
    requires forall i :: 0 <= i < |lines| ==> IsItemLine(lines[i])
    ensures Run(st, lines) == st.(currentList := st.currentList + Items(lines))
    decreases |lines|
  {
    if lines == [] {
      assert st.currentList + [] == st.currentList;
    } else {
      StepItem(st, lines[0]);
      ItemLines(Step(st, lines[0]), lines[1..]);
      assert Items(lines) == [KindOf(lines[0]).text] + Items(lines[1..]);
      assert st.currentList + [KindOf(lines[0]).text] + Items(lines[1..]) == st.currentList + Items(lines);
    }
  }

  /** Outside a fence and with no pending list, plain lines accumulate trimmed. */
  lemma {:induction false} TextLines(st: State, lines: seq<string>)
    requires !st.inCodeBlock && st.currentList == []
    requires forall i :: 0 <= i < |lines| ==> IsTextLine(lines[i])
    ensures Run(st, lines) == st.(currentParagraph := st.currentParagraph + Texts(lines))
    decreases |lines|
  {
    if lines == [] {
      assert st.currentParagraph + [] == st.currentParagraph;
    } else {
      StepText(st, lines[0]);
      TextLines(Step(st, lines[0]), lines[1..]);
      assert Texts(lines) == [KindOf(lines[0]).text] + Texts(lines[1..]);
      assert st.currentParagraph + [KindOf(lines[0]).text] + Texts(lines[1..]) == st.currentParagraph + Texts(lines);
    }
  }

  /** A line that does not continue the pending paragraph or list behaves as if
      that block had been flushed before it. */
  lemma FlushFirst(st: State, line: string)
    requires !st.inCodeBlock && st.codeBlock == []
    requires st.currentParagraph == [] || st.currentList == []
    requires st.currentList != [] ==> !IsItemLine(line)
    requires st.currentParagraph != [] ==> !IsTextLine(line)
    ensures Step(st, line) == Step(FlushPending(st), line)
  {
  }

  /** From an idle state, the rest of the input renders to its reference
      reading, appended to what was already emitted. */
  lemma {:induction false} IdleRender(st: State, lines: seq<string>)
    requires Idle(st)
    ensures Finish(Run(st, lines)) == st.elements + Parse(lines)
    decreases |lines|
  {
    if lines == [] {
      assert st.elements + [] == st.elements;
    } else {
      var next, k := FirstBlock(st, lines);
      IdleRender(next, lines[k..]);
    }
  }

  /** Reading the first block: from an idle state, some non-empty piece of
      the input takes the state machine to another idle state having emitted
      what the reference reading emits for that piece. */
  lemma FirstBlock(st: State, lines: seq<string>) returns (next: State, k: nat)
    requires Idle(st) && lines != []
    ensures Idle(next) && 0 < k <= |lines|
    ensures Finish(Run(st, lines)) == Finish(Run(next, lines[k..]))
    ensures st.elements + Parse(lines) == next.elements + Parse(lines[k..])
  {
    match KindOf(lines[0])
    case FenceLine =>
      next, k := FenceBlock(st, lines);
    case HeadingLine(_, _) =>
      next, k := HeadingBlock(st, lines);
    case BlankLine =>
      next, k := BlankBlock(st, lines);
    case ItemLine(_) =>
      next, k := ListBlock(st, lines);
    case TextLine(_) =>
      next, k := ParagraphBlock(st, lines);
  }

  /** A heading line is emitted at once. */
  lemma HeadingBlock(st: State, lines: seq<string>) returns (next: State, k: nat)
    requires Idle(st) && lines != [] && KindOf(lines[0]).HeadingLine?
    ensures Idle(next) && 0 < k <= |lines|
    ensures Finish(Run(st, lines)) == Finish(Run(next, lines[k..]))
    ensures st.elements + Parse(lines) == next.elements + Parse(lines[k..])
  {
    var h := Heading(KindOf(lines[0]).level, KindOf(lines[0]).text);
    next, k := st.(elements := st.elements + [h]), 1;
    StepHeading(st, lines[0]);
    assert Run(st, lines) == Run(Step(st, lines[0]), lines[1..]);
    ParseHeading(lines);
    AppendBlock(st.elements, h, Parse(lines[1..]));
  }

  lemma StepHeading(st: State, line: string)
    requires Idle(st) && KindOf(line).HeadingLine?
    ensures Step(st, line) == st.(elements := st.elements + [Heading(KindOf(line).level, KindOf(line).text)])
  {
  }

  lemma ParseHeading(lines: seq<string>)
    requires lines != [] && KindOf(lines[0]).HeadingLine?
    ensures Parse(lines) == [Heading(KindOf(lines[0]).level, KindOf(lines[0]).text)] + Parse(lines[1..])
  {
  }

  /** A blank line outside a fence, with nothing pending, changes nothing. */
  lemma BlankBlock(st: State, lines: seq<string>) returns (next: State, k: nat)
    requires Idle(st) && lines != [] && KindOf(lines[0]).BlankLine?
    ensures Idle(next) && 0 < k <= |lines|
    ensures Finish(Run(st, lines)) == Finish(Run(next, lines[k..]))
    ensures st.elements + Parse(lines) == next.elements + Parse(lines[k..])
  {
    next, k := st, 1;
    assert Step(st, lines[0]) == st;
    assert Parse(lines) == Parse(lines[1..]);
  }

  /** A fence line opens a code block that the next fence line closes; with no
      closing fence the rest of the input yields nothing. */
  lemma FenceBlock(st: State, lines: seq<string>) returns (next: State, k: nat)
    requires Idle(st) && lines != [] && IsFenceLine(lines[0])
    ensures Idle(next) && 0 < k <= |lines|
    ensures Finish(Run(st, lines)) == Finish(Run(next, lines[k..]))
    ensures st.elements + Parse(lines) == next.elements + Parse(lines[k..])
  {
    match NextFence(lines[1..]) {
      case None =>
        UnclosedBlock(st, lines);
        next, k := st, |lines|;
        assert st.elements + [] == st.elements;
      case Some(j) =>
        var block := Code(Join(lines[1..j + 1], "\n"));
        next, k := st.(elements := st.elements + [block]), j + 2;
        ClosedRun(st, lines, j);
        assert Parse(lines) == [block] + Parse(lines[k..]);
        AppendBlock(st.elements, block, Parse(lines[k..]));
    }
  }

  /** With no closing fence, nothing after the opening fence is emitted. */
  lemma UnclosedBlock(st: State, lines: seq<string>)
    requires Idle(st) && lines != [] && IsFenceLine(lines[0]) && NextFence(lines[1..]).None?
    ensures Finish(Run(st, lines)) == st.elements && Parse(lines) == []
  {
    var open := st.(inCodeBlock := true);
    assert Run(st, lines) == Run(open, lines[1..]);
    CodeLines(open, lines[1..]);
  }

  /** The lines up to the closing fence at `j + 1` are emitted as one code block. */
  lemma ClosedRun(st: State, lines: seq<string>, j: nat)
    requires Idle(st) && lines != [] && IsFenceLine(lines[0]) && NextFence(lines[1..]) == Some(j)
    ensures Finish(Run(st, lines)) ==
            Finish(Run(st.(elements := st.elements + [Code(Join(lines[1..j + 1], "\n"))]), lines[j + 2..]))
  {
    var open := st.(inCodeBlock := true);
    assert Run(st, lines) == Run(open, lines[1..]);
    FenceBody(open, lines[1..], j);
    CloseFence(open.(codeBlock := lines[1..][..j]), lines[1..][j..]);
    assert lines[1..][..j] == lines[1..j + 1] && lines[1..][j..][1..] == lines[j + 2..];
  }

  /** Inside a fence, the lines before the next fence line go to the code buffer. */
  lemma FenceBody(open: State, rest: seq<string>, j: nat)
    requires open.inCodeBlock && open.currentParagraph == [] && open.currentList == [] && open.codeBlock == []
    requires j < |rest| && forall i :: 0 <= i < j ==> !IsFenceLine(rest[i])
    ensures Run(open, rest) == Run(open.(codeBlock := rest[..j]), rest[j..])
  {
    CodeLines(open, rest[..j]);
    assert open.codeBlock + rest[..j] == rest[..j];
    RunSplit(open, rest, j);
  }

  /** The closing fence line emits the buffered code lines as one block. */
  lemma CloseFence(inFence: State, lines: seq<string>)
    requires inFence.inCodeBlock && inFence.currentParagraph == [] && inFence.currentList == []
    requires lines != [] && IsFenceLine(lines[0])
    ensures Run(inFence, lines) ==
            Run(inFence.(elements := inFence.elements + [Code(Join(inFence.codeBlock, "\n"))],
                         codeBlock := [], inCodeBlock := false), lines[1..])
  {
  }

  lemma ParseList(lines: seq<string>)
    requires lines != [] && IsItemLine(lines[0])
    ensures Parse(lines) == [List(Items(lines[..ItemRun(lines)]))] + Parse(lines[ItemRun(lines)..])
  {
  }

  lemma ParseParagraph(lines: seq<string>)
    requires lines != [] && IsTextLine(lines[0])
    ensures Parse(lines) == [Paragraph(Join(Texts(lines[..TextRun(lines)]), " "))] + Parse(lines[TextRun(lines)..])
  {
  }

  /** A maximal run of item lines becomes one list, flushed by the line after it. */
  lemma ListBlock(st: State, lines: seq<string>) returns (next: State, k: nat)
    requires Idle(st) && lines != [] && IsItemLine(lines[0])
    ensures Idle(next) && 0 < k <= |lines|
    ensures Finish(Run(st, lines)) == Finish(Run(next, lines[k..]))
    ensures st.elements + Parse(lines) == next.elements + Parse(lines[k..])
  {
    k := ItemRun(lines);
    next := st.(elements := st.elements + [List(Items(lines[..k]))]);
    ListRun(st, lines, k);
    ParseList(lines);
    AppendBlock(st.elements, List(Items(lines[..k])), Parse(lines[k..]));
  }

  lemma ListRun(st: State, lines: seq<string>, k: nat)
    requires Idle(st) && lines != [] && IsItemLine(lines[0]) && k == ItemRun(lines)
    ensures Finish(Run(st, lines)) ==
            Finish(Run(st.(elements := st.elements + [List(Items(lines[..k]))]), lines[k..]))
  {
    ItemLinesPrefix(st, lines, k);
    AfterRun(st.(currentList := Items(lines[..k])),
             st.(elements := st.elements + [List(Items(lines[..k]))]), lines[k..]);
  }

  /** A maximal run of plain text lines becomes one paragraph, flushed by the
      line after it. */
  lemma ParagraphBlock(st: State, lines: seq<string>) returns (next: State, k: nat)
    requires Idle(st) && lines != [] && IsTextLine(lines[0])
    ensures Idle(next) && 0 < k <= |lines|
    ensures Finish(Run(st, lines)) == Finish(Run(next, lines[k..]))
    ensures st.elements + Parse(lines) == next.elements + Parse(lines[k..])
  {
    k := TextRun(lines);
    next := st.(elements := st.elements + [Paragraph(Join(Texts(lines[..k]), " "))]);
    ParagraphRun(st, lines, k);
    ParseParagraph(lines);
    AppendBlock(st.elements, Paragraph(Join(Texts(lines[..k]), " ")), Parse(lines[k..]));
  }

  lemma ParagraphRun(st: State, lines: seq<string>, k: nat)
    requires Idle(st) && lines != [] && IsTextLine(lines[0]) && k == TextRun(lines)
    ensures Finish(Run(st, lines)) ==
            Finish(Run(st.(elements := st.elements + [Paragraph(Join(Texts(lines[..k]), " "))]), lines[k..]))
  {
    TextLinesPrefix(st, lines, k);
    AfterRun(st.(currentParagraph := Texts(lines[..k])),
             st.(elements := st.elements + [Paragraph(Join(Texts(lines[..k]), " "))]), lines[k..]);
  }

  lemma AppendBlock(before: seq<Block>, b: Block, after: seq<Block>)
    ensures before + ([b] + after) == (before + [b]) + after
  {
  }

  /** Feeding a run of item lines from an idle state fills the list buffer. */
  lemma ItemLinesPrefix(st: State, lines: seq<string>, k: nat)
    requires Idle(st) && k <= |lines|
    requires forall i :: 0 <= i < k ==> IsItemLine(lines[i])
    ensures Run(st, lines) == Run(st.(currentList := Items(lines[..k])), lines[k..])
  {
    ItemLines(st, lines[..k]);
    assert st.currentList + Items(lines[..k]) == Items(lines[..k]);
    RunSplit(st, lines, k);
  }

  /** Feeding a run of plain text lines from an idle state fills the paragraph buffer. */
  lemma TextLinesPrefix(st: State, lines: seq<string>, k: nat)
    requires Idle(st) && k <= |lines|
    requires forall i :: 0 <= i < k ==> IsTextLine(lines[i])
    ensures Run(st, lines) == Run(st.(currentParagraph := Texts(lines[..k])), lines[k..])
  {
    TextLines(st, lines[..k]);
    assert st.currentParagraph + Texts(lines[..k]) == Texts(lines[..k]);
    RunSplit(st, lines, k);
  }

  lemma RunSplit(st: State, lines: seq<string>, n: nat)
    requires n <= |lines|
    ensures Run(st, lines) == Run(Run(st, lines[..n]), lines[n..])
  {
    assert lines == lines[..n] + lines[n..];
    RunAppend(st, lines[..n], lines[n..]);
  }

  /** When the first remaining line does not continue the pending block, the
      rest renders as if that block had been flushed already. */
  lemma AfterRun(pending: State, flushed: State, lines: seq<string>)
    requires !pending.inCodeBlock && pending.codeBlock == []
    requires pending.currentParagraph == [] || pending.currentList == []
    requires FlushPending(pending) == flushed
    requires lines != [] && pending.currentList != [] ==> !IsItemLine(lines[0])
    requires lines != [] && pending.currentParagraph != [] ==> !IsTextLine(lines[0])
    ensures Finish(Run(pending, lines)) == Finish(Run(flushed, lines))
  {
    if lines != [] {
      FlushFirst(pending, lines[0]);
    } else {
      assert FlushPending(flushed) == flushed;
    }
  }

  /** The state machine and the reference reading agree on every input. */
  lemma RenderIsParse(lines: seq<string>)
    ensures Render(lines) == Parse(lines)
  {
    IdleRender(Start, lines);
  }
}
