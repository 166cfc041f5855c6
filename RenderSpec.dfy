/** renderContent as a fold over the lines of a post: the four accumulators of
    the source (paragraph buffer, list buffer, code buffer, fence flag) together
    with the output emitted so far form one state, and each line is one step. */
module RenderSpec {
  import opened Text
  import opened Markup

  datatype State = State(
    elements: seq<Block>,
    currentParagraph: seq<string>,
    currentList: seq<string>,
    codeBlock: seq<string>,
    inCodeBlock: bool)

  const Start := State([], [], [], [], false)

  /** The paragraph closure: emit the buffered lines joined by one space, if any. */
  function FlushParagraph(st: State): State {
    if |st.currentParagraph| > 0 then
      st.(elements := st.elements + [Paragraph(Join(st.currentParagraph, " "))], currentParagraph := [])
    else st
  }

  /** The list closure: emit the buffered items as one list, if any. */
  function FlushList(st: State): State {
    if |st.currentList| > 0 then
      st.(elements := st.elements + [List(st.currentList)], currentList := [])
    else st
  }

  /** flushParagraph empties the paragraph buffer and leaves the other
      accumulators alone; it adds one paragraph, the buffered lines joined by
      single spaces, exactly when lines were buffered. Flushing twice is
      flushing once. */
  lemma FlushParagraphEffect(st: State)
    ensures FlushParagraph(st).currentParagraph == []
    ensures FlushParagraph(st).currentList == st.currentList
    ensures FlushParagraph(st).codeBlock == st.codeBlock
    ensures FlushParagraph(st).inCodeBlock == st.inCodeBlock
    ensures st.currentParagraph == [] ==> FlushParagraph(st).elements == st.elements
    ensures st.currentParagraph != [] ==>
              FlushParagraph(st).elements == st.elements + [Paragraph(Join(st.currentParagraph, " "))]
    ensures FlushParagraph(FlushParagraph(st)) == FlushParagraph(st)
  {
  }

  /** flushList empties the list buffer and leaves the other accumulators
      alone; it adds one list of the buffered items, in order, exactly when
      items were buffered. Flushing twice is flushing once. */
  lemma FlushListEffect(st: State)
    ensures FlushList(st).currentList == []
    ensures FlushList(st).currentParagraph == st.currentParagraph
    ensures FlushList(st).codeBlock == st.codeBlock
    ensures FlushList(st).inCodeBlock == st.inCodeBlock
    ensures st.currentList == [] ==> FlushList(st).elements == st.elements
    ensures st.currentList != [] ==> FlushList(st).elements == st.elements + [List(st.currentList)]
    ensures FlushList(FlushList(st)) == FlushList(st)
  {
  }

  /** Both flushes, list first, as the source calls them. */
  function FlushPending(st: State): State {
    FlushParagraph(FlushList(st))
  }

  /** One iteration of the `lines.forEach` callback. */
  function Step(st: State, line: string): State {
    match KindOf(line)
    case FenceLine =>
      var f := FlushPending(st);
      if f.inCodeBlock then
        f.(elements := f.elements + [Code(Join(f.codeBlock, "\n"))], codeBlock := [], inCodeBlock := false)
      else
        f.(inCodeBlock := true)
    case _ =>
      if st.inCodeBlock then st.(codeBlock := st.codeBlock + [line])
      else match KindOf(line)
        case HeadingLine(level, text) =>
          var f := FlushPending(st);
          f.(elements := f.elements + [Heading(level, text)])
        case ItemLine(text) =>
          var f := FlushParagraph(st);
          f.(currentList := f.currentList + [text])
        case BlankLine => FlushPending(st)
        case TextLine(text) =>
          var f := FlushList(st);
          f.(currentParagraph := f.currentParagraph + [text])
  }

  /** What one line does to a consistent state: the output only grows, by at
      most two blocks (the pending block and the line's own); the fence flag
      flips exactly on fence lines; a line inside a fence, an item line and a
      plain line emit at most the one pending block they end. */
  lemma StepEffect(st: State, line: string)
    requires Consistent(st)
    ensures st.elements <= Step(st, line).elements
    ensures |Step(st, line).elements| <= |st.elements| + 2
    ensures Step(st, line).inCodeBlock <==> (st.inCodeBlock != IsFenceLine(line))
    ensures !IsFenceLine(line) && (st.inCodeBlock || IsItemLine(line) || IsTextLine(line)) ==>
              |Step(st, line).elements| <= |st.elements| + 1
  {
  }

  /** The state after feeding `lines` one by one, starting from `st`. */
  function Run(st: State, lines: seq<string>): State
    decreases |lines|
  {
    if lines == [] then st else Run(Step(st, lines[0]), lines[1..])
  }

  /** Output is only ever appended to: what has been emitted stays. */
  lemma {:induction false} RunExtends(st: State, lines: seq<string>)
    ensures st.elements <= Run(st, lines).elements
    decreases |lines|
  {
    if lines != [] {
      RunExtends(Step(st, lines[0]), lines[1..]);
    }
  }

  /** The end of renderContent: flush the list, then the paragraph, and return the
      output. A still-open fence's buffered lines are not emitted. */
  function Finish(st: State): seq<Block> {
    FlushPending(st).elements
  }

  /** The final flushes of a consistent state keep everything emitted and add
      at most one block, and add one exactly when a paragraph or a list is
      pending; a code block still open is not emitted. */
  lemma FinishEffect(st: State)
    requires Consistent(st)
    ensures st.elements <= Finish(st)
    ensures |Finish(st)| <= |st.elements| + 1
    ensures Finish(st) == st.elements <==> st.currentParagraph == [] && st.currentList == []
  {
  }

  /** renderContent on content already split into lines. */
  function Render(lines: seq<string>): seq<Block> {
    Finish(Run(Start, lines))
  }

  /** renderContent: split on '\n', classify line by line. */
  function RenderContent(content: string): seq<Block> {
    Render(Split(content))
  }

  /** The accumulator invariant: at most one of the paragraph and list buffers
      holds anything; inside a fence both are empty; outside a fence the code
      buffer is empty (which is why opening a fence need not clear it). */
  predicate Consistent(st: State) {
    (st.currentParagraph == [] || st.currentList == []) &&
    (st.inCodeBlock ==> st.currentParagraph == [] && st.currentList == []) &&
    (!st.inCodeBlock ==> st.codeBlock == [])
  }

  lemma StepConsistent(st: State, line: string)
    requires Consistent(st)
    ensures Consistent(Step(st, line))
  {
  }

  /** Every line leaves the accumulators consistent. */
  lemma {:induction false} RunConsistent(st: State, lines: seq<string>)
    requires Consistent(st)
    ensures Consistent(Run(st, lines))
    decreases |lines|
  {
    if lines != [] {
      StepConsistent(st, lines[0]);
      RunConsistent(Step(st, lines[0]), lines[1..]);
    }
  }

  /** After every prefix of the input, from the initial state, the accumulators
      are consistent. */
  lemma PrefixConsistent(lines: seq<string>, k: nat)
    requires k <= |lines|
    ensures Consistent(Run(Start, lines[..k]))
  {
    RunConsistent(Start, lines[..k]);
  }

  /** Feeding two pieces of input one after the other is feeding their
      concatenation. */
  lemma {:induction false} RunAppend(st: State, a: seq<string>, b: seq<string>)
    ensures Run(st, a + b) == Run(Run(st, a), b)
    decreases |a|
  {
    if a == [] {
      assert a + b == b;
    } else {
      assert (a + b)[1..] == a[1..] + b;
      RunAppend(Step(st, a[0]), a[1..], b);
    }
  }

  /** Output order follows input order: whatever has been emitted after the first
      `k` lines stays, unchanged and in front, in the final output. */
  lemma OutputOrder(lines: seq<string>, k: nat)
    requires k <= |lines|
    ensures Run(Start, lines[..k]).elements <= Render(lines)
  {
    assert lines == lines[..k] + lines[k..];
    RunAppend(Start, lines[..k], lines[k..]);
    RunExtends(Run(Start, lines[..k]), lines[k..]);
  }

  /** An unterminated fence emits nothing more: once the input ends inside a
      fence, the output is what had been emitted when it opened. */
  lemma UnclosedFenceEmitsNothing(lines: seq<string>)
    requires Run(Start, lines).inCodeBlock
    ensures Render(lines) == Run(Start, lines).elements
  {
    RunConsistent(Start, lines);
  }
}
