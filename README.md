# Blog post renderer — a verified Dafny model

The portfolio site shows blog posts written in a small markdown-like dialect.
`renderContent` in `src/pages/Blog.tsx` turns a post's text into an ordered
list of blocks in a single pass over its lines:

- a line whose trimmed form starts with `# `, `## ` or `### ` is a heading;
- runs of plain lines are merged into one paragraph, joined by spaces;
- runs of `- ` lines form one bullet list;
- lines between two lines starting with three backticks are a code block,
  kept verbatim.

The function keeps four accumulators: a paragraph buffer, a list buffer, a code
buffer and an `inCodeBlock` flag. Two closures, `flushParagraph` and
`flushList`, emit a block only when their buffer is non-empty.

The project models this in seven modules:

| file | module | what it holds |
|---|---|---|
| `Text.dfy` | `Text` | JavaScript's `trim` (over the exact ECMAScript whitespace set), `startsWith`, `join` and `split('\n')`, with their laws |
| `Markup.dfy` | `Markup` | the output blocks, and how one trimmed line is classified (fence, heading, item, blank, text) |
| `RenderSpec.dfy` | `RenderSpec` | the accumulators as one state, one line as one step (`Step`), the fold over the lines (`Run`), the final flush and `RenderContent` |
| `Grammar.dfy` | `Grammar` | an independent reading of a post as maximal runs of lines (`Parse`), and the theorem `RenderIsParse` that the state machine computes exactly it |
| `Properties.dfy` | `Properties` | the renderer's promises over whole inputs: merging, separation by blank lines and headings, fences, unclosed fences, no empty blocks |
| `BlogRenderer.dfy` | `BlogRenderer` | the imperative form of the source: a `ContentRenderer` object whose fields are the closure variables, methods for the two closures and the `forEach` callback, and a `RenderContent` method with the loop |
| `Examples.dfy` | `Examples` | small inputs for each kind of block, and lines of the three posts in `src/data/blogPosts.ts`, each proved from a general lemma |

Each method of `ContentRenderer` is proved to perform exactly one function of
`RenderSpec` on its fields. The `RenderContent` method's loop invariant ties the
object to `Run` over the lines seen so far. Its result equals both
`RenderSpec.RenderContent` and `Grammar.Parse`. The properties are proved about
those functions.

Two details of the code that the model keeps:

- Opening a fence does not clear the code buffer in the code (`src/pages/Blog.tsx:82-84`). `RenderSpec.StepConsistent` shows the buffer is already empty whenever no fence is open, so the outputs agree.
- At a blank line and at the end of input, the code flushes the list before the paragraph (`src/pages/Blog.tsx:115-116, 123-124`). The same invariant shows at most one of the two buffers is non-empty, so the order is unobservable.

## Model

| member | source | states |
|---|---|---|
| Text.TrimSpec | src/pages/Blog.tsx:68 | `Text.Trim`, the model of `trim`, keeps a contiguous piece of the line; everything cut off on either side is whitespace; neither end of the result is whitespace; the result is empty exactly when the line is all whitespace |
| Text.TrimIdempotent | src/pages/Blog.tsx:68 | trimming a trimmed line changes nothing |
| Text.TrimAround | src/pages/Blog.tsx:68 | trimming removes exactly the whitespace around a string whose ends are not whitespace |
| Text.Split | src/pages/Blog.tsx:36 | `split('\n')` yields at least one piece; no piece holds a newline; joining the pieces with newlines gives back the content |
| Text.SplitJoin | src/pages/Blog.tsx:36 | splitting undoes joining with newlines, so split and join are inverse |
| Text.JoinEnds | src/pages/Blog.tsx:47 | joining non-empty parts gives a non-empty string that starts with the first part's first character and ends with the last part's last character |
| Text.JoinAppend | src/pages/Blog.tsx:47 | `Text.Join`, the model of `join` (with `' '` here and `'\n'` at line 77): joining one more part adds the separator and that part at the end |
| Text.StartsWithSpec | src/pages/Blog.tsx:70-111 | `Text.StartsWith`, the model of `startsWith`, holds exactly when the string is the prefix followed by something |
| Markup.HeadingRules | src/pages/Blog.tsx:87-110 | a trimmed line is a heading of a level exactly when it starts with that level's prefix and is not a fence; the heading text is what follows the 2-, 3- or 4-character prefix |
| Markup.KindOfPrefixes | src/pages/Blog.tsx:68-120 | `Markup.KindOf`, the chain of tests on the trimmed line: a line is a fence, a heading, an item or blank exactly when its trimmed form starts with that kind's marker (blank: is empty), and plain text exactly when it is non-empty and starts with none of the markers |
| Markup.FourHashesIsText | src/pages/Blog.tsx:87-120 | a line starting with four hashes matches no heading test and is plain text |
| Markup.FenceWithTag | src/pages/Blog.tsx:70 | a fence marker followed by anything (a language tag, trailing spaces) is a fence line |
| Markup.KindOfTrimmed | src/pages/Blog.tsx:68-120 | heading and item texts are never empty and never end in whitespace; plain text is the whole trimmed line; a line is blank exactly when it is all whitespace |
| Markup.KindOfLineOf | src/pages/Blog.tsx:70-120 | writing a line of a given kind (marker plus text) and classifying it gives that kind back |
| Markup.LineOfKindOf | src/pages/Blog.tsx:68-120 | classifying any non-fence line and writing the kind back gives the trimmed line; every line has a well-formed kind |
| RenderSpec.FlushParagraphEffect | src/pages/Blog.tsx:43-52 | `RenderSpec.FlushParagraph`, the `flushParagraph` closure: empties the paragraph buffer, leaves the other buffers and the flag alone, adds one paragraph of the buffered lines joined by single spaces exactly when lines were buffered; flushing twice is flushing once |
| RenderSpec.FlushListEffect | src/pages/Blog.tsx:54-65 | `RenderSpec.FlushList`, the `flushList` closure: empties the list buffer, leaves the rest alone, adds one list of the buffered items in order exactly when items were buffered; flushing twice is flushing once |
| RenderSpec.StepEffect | src/pages/Blog.tsx:67-121 | `RenderSpec.Step`, one call of the `forEach` callback: output only grows, by at most two blocks; the fence flag flips exactly on fence lines; lines inside a fence, item lines and plain lines emit at most the one pending block they end |
| RenderSpec.StepConsistent | src/pages/Blog.tsx:67-121 | each line keeps the accumulator invariant: paragraph and list buffers are never both non-empty; inside a fence both are empty; outside a fence the code buffer is empty |
| RenderSpec.RunConsistent | src/pages/Blog.tsx:67-121 | the invariant holds after any sequence of lines |
| RenderSpec.PrefixConsistent | src/pages/Blog.tsx:67-121 | after every prefix of a post, starting from the empty state, the invariant holds |
| RenderSpec.RunExtends | src/pages/Blog.tsx:67-121 | output is only appended to: what has been emitted is never changed or removed |
| RenderSpec.RunAppend | src/pages/Blog.tsx:67 | feeding two pieces of input in turn is feeding their concatenation |
| RenderSpec.OutputOrder | src/pages/Blog.tsx:67-126 | the blocks emitted after any prefix of the lines stay, in front and unchanged, in the final output |
| RenderSpec.FinishEffect | src/pages/Blog.tsx:123-126 | `RenderSpec.Finish`, the final `flushList(); flushParagraph()`: keeps everything emitted and adds one block exactly when a paragraph or a list is pending, never more |
| RenderSpec.UnclosedFenceEmitsNothing | src/pages/Blog.tsx:123-126 | when input ends inside a fence, the final flush adds nothing: the fence's buffered lines are dropped |
| Grammar.TextRun | src/pages/Blog.tsx:117-120 | the length of the longest prefix of plain text lines |
| Grammar.ItemRun | src/pages/Blog.tsx:111-113 | the length of the longest prefix of list item lines |
| Grammar.NextFence | src/pages/Blog.tsx:70-86 | the index of the first fence line, or none when there is no fence line |
| Grammar.CodeLines | src/pages/Blog.tsx:85-86 | inside a fence, non-fence lines are appended untrimmed to the code buffer and nothing else changes |
| Grammar.ItemLines | src/pages/Blog.tsx:111-113 | outside a fence with no pending paragraph, item lines append their texts to the list buffer |
| Grammar.TextLines | src/pages/Blog.tsx:117-120 | outside a fence with no pending list, plain lines append their trimmed forms to the paragraph buffer |
| Grammar.FlushFirst | src/pages/Blog.tsx:70-120 | a line that does not continue the pending paragraph or list behaves as if that block had been flushed first |
| Grammar.IdleRender | src/pages/Blog.tsx:67-126 | from a state with nothing pending, the rest of the input renders to its reading as maximal runs, after what was emitted |
| Grammar.RenderIsParse | src/pages/Blog.tsx:35-127 | `RenderSpec.Render`, the line-by-line state machine, and `Grammar.Parse`, the reading of the lines as maximal runs (a fenced block, a heading, a blank line, a run of items, a run of plain lines), agree on every input |
| Properties.RenderContentLines | src/pages/Blog.tsx:35-36 | `RenderSpec.RenderContent`: rendering newline-free lines joined by newlines is rendering those lines, so the split loses and adds nothing |
| Properties.ParagraphMerge | src/pages/Blog.tsx:43-52 | consecutive plain lines make exactly one paragraph, their trimmed forms joined by single spaces |
| Properties.ListMerge | src/pages/Blog.tsx:54-65 | consecutive item lines make exactly one list, whose items are the trimmed lines without the `- ` marker |
| Properties.ParagraphThenList | src/pages/Blog.tsx:111-113 | a list right after plain lines flushes the paragraph first, then forms its own list |
| Properties.BlankSeparates | src/pages/Blog.tsx:114-116 | a blank or whitespace-only line ends any pending block: the input on either side renders independently |
| Properties.HeadingSeparates | src/pages/Blog.tsx:87-110 | a heading flushes what is pending before it and is emitted on its own between the renderings of the input before and after it |
| Properties.FencedCode | src/pages/Blog.tsx:70-86 | a fenced block is one code block holding exactly the lines between the fences, untrimmed, joined by newlines; none of them is read as a heading, item or blank line |
| Properties.UnclosedFence | src/pages/Blog.tsx:123-126 | an unterminated fence and everything after it emit nothing |
| Properties.TextsAreTrimmed | src/pages/Blog.tsx:119 | the texts buffered for plain lines are their trimmed forms |
| Properties.ItemsAreStripped | src/pages/Blog.tsx:113 | the texts buffered for item lines are the trimmed lines without their first two characters |
| Properties.RenderWellFormed | src/pages/Blog.tsx:43-65 | no empty paragraph, empty list, empty list item or empty heading is emitted, and paragraph text has no whitespace at either end |
| Properties.ParseWellFormed | src/pages/Blog.tsx:43-65 | every block of `Grammar.Parse` is well formed: no empty paragraph, list, item or heading, and no whitespace at either end of a paragraph |
| BlogRenderer.ContentRenderer.constructor | src/pages/Blog.tsx:37-41 | the renderer starts with nothing emitted, nothing buffered and no fence open |
| BlogRenderer.ContentRenderer.FlushParagraph | src/pages/Blog.tsx:43-52 | `flushParagraph` updates the fields as the state machine's paragraph flush does |
| BlogRenderer.ContentRenderer.FlushList | src/pages/Blog.tsx:54-65 | `flushList` updates the fields as the state machine's list flush does |
| BlogRenderer.ContentRenderer.ProcessLine | src/pages/Blog.tsx:67-121 | the `forEach` callback, written as the source's chain of tests, performs exactly one step of the state machine |
| BlogRenderer.RenderContent | src/pages/Blog.tsx:35-127 | the loop over the lines followed by the two flushes returns the state machine's output, which is also the reading as maximal runs |
| Examples.EmptyContent | src/pages/Blog.tsx:114-116 | empty content renders to no blocks |
| Examples.SingleHeading | src/pages/Blog.tsx:87-94 | `# Title` renders to one level-1 heading `Title` |
| Examples.HeadingThenParagraph | src/pages/Blog.tsx:95-102 | `## Sub`, a blank line and a sentence render to a level-2 heading and a paragraph |
| Examples.ThreeItems | src/pages/Blog.tsx:111-113 | three `- ` lines render to one list of three items |
| Examples.BlankLineSplitsParagraphs | src/pages/Blog.tsx:114-120 | a blank line between plain lines gives two paragraphs instead of one |
| Examples.IndentedCode | src/pages/Blog.tsx:85-86 | a fenced line keeps its indentation |
| Examples.HeadingInsideFence | src/pages/Blog.tsx:85-86 | a heading-looking line inside a fence is code |
| Examples.UnterminatedFence | src/pages/Blog.tsx:123-126 | a fence line followed by `abc` and no closing fence renders to no blocks |
| Examples.TaggedFence | src/data/blogPosts.ts:45 | a fence tagged `tsx` opens code like a bare fence, and the tag is not part of the code |
| Examples.ListAfterParagraphLine | src/data/blogPosts.ts:254-257 | `Use tools like:` followed directly by the post's three `- **…**` items renders to that paragraph and then one list of the three items, `**` markers kept |
| Examples.NumberedLinesArePlainText | src/data/blogPosts.ts:271-275 | `Focus on:` and the post's four numbered lines render to one paragraph of the five lines joined by single spaces: numbered lines are plain text |
| Examples.HeadingWithBackticks | src/data/blogPosts.ts:389 | backticks inside a heading are kept as heading text |
| Examples.BareDash | src/pages/Blog.tsx:111-119 | a `- ` line with nothing after it is the plain text `-`, not an empty list item |
| Examples.CarriageReturnsStayInCode | src/pages/Blog.tsx:68-86 | with CRLF line ends a fence marker is still a fence, and the carriage return stays inside code lines |

## Left out

- JSX construction, `className` strings and React `key` values (`src/pages/Blog.tsx:45-49, 56-62, 75-79, 90-94, 98-102, 106-110`): presentation only. Blocks are abstract values, and a list holds its items' texts.
- The rest of the `Blog` component (`src/pages/Blog.tsx:1-33, 129-260`): selection state, animation variants and the modal are UI state. `toLocaleDateString` is a locale-dependent library call.
- The other pages, components, routing and data files: they hold no logic of the renderer's. The blog posts serve only as example inputs.
- JavaScript strings are UTF-16 code units, while Dafny's `char` is a Unicode scalar value. Every whitespace character `trim` removes is a single code unit, and `split('\n')` cuts only at U+000A, so the difference does not affect classification. Lone surrogates are not modelled.
- The renderer's output is built with `push` on an array the callback closes over. The model's `ContentRenderer` holds it as a `seq` field that its methods reassign. No other code can observe the array while the function runs, so aliasing is not modelled.
