# WeChat Read note reformatter, modelled in Dafny

This project models `formatWeReadNotes`, the one piece of logic in the
WeChat Read formatter plugin. The function takes the text that WeChat Read
copies to the clipboard for a book's notes and rebuilds it as Markdown. It
works in four stages:

- it finds the first `《…》` title line and turns it into a `# ` heading;
- it collects the author/metadata lines up to the first content marker
  (`文前`, `◆` or `原文：`) into one space-joined paragraph;
- it walks the remaining lines through the chapter-heading heuristic
  `isChapterTitle` and a small state machine;
- it flushes what is left.

The state machine has a current highlight (`currentNote`) and two
single-slot buffers: `pendingOriginal` (a quoted passage) and
`pendingThought` (a reader's thought). A highlight becomes a fenced
```` ```txt ```` block, a quote becomes `> …`, a thought becomes a plain
paragraph and a heading becomes `## …`. Every group of output lines ends
with an empty line.

Modules, in dependency order:

- `JsText` (`text.dfy`): the JavaScript string primitives the function
  uses. These are `trim` (with the ECMAScript whitespace set), `startsWith`,
  `endsWith`, `includes`, `substring`, `split` and `join`.
- `Classifier` (`classify.dfy`): the markers, `isChapterTitle`, and the
  decision the body loop takes for one line (`LineKind`).
- `Markdown` (`markdown.dfy`): the shapes of the lines the function pushes.
  Each group is one `Block`, and `Render` gives its exact lines.
- `Assembler` (`assembler.dfy`): the body loop as a pure step function
  over a state record `Body`. The record holds the line index, the current
  note, the two buffers and the blocks emitted so far. `outputCurrentNote`
  is `Flush`, and the final flush is `Finish`.
- `Reformatter` (`reformatter.dfy`): the title scan and the metadata scan.
  It also has `Blocks`, the whole block sequence, and `FormatWeReadNotes`,
  which splits the text on `\n`, renders the blocks and joins the lines with
  `\n`. It also returns the `currentBookName` the function leaves behind.
- `NoteFacts` (`notes.dfy`): how quotes, thoughts, highlights and headings
  interact in the state machine, and which content is never lost.
- `Scenarios` (`scenarios.dfy`): a six-line sample export worked through
  line by line.

JavaScript `null` and `""` are both falsy, and every test the function
makes on its buffers is a truthiness test. So each buffer is a `string`,
and `[]` stands for "absent". A bare `原文：` line stores `""` in
`pendingOriginal`. That quote then counts as no quote at all
(`NoteFacts.BareQuoteDoesNotPair`).

Four behaviours of the code are easy to misread, and the model follows
the code in each:

- A pending quote does not survive a chapter heading. The flush before
  the heading emits it and clears it (`NoteFacts.HeadingFlushesNote`).
- A `◆` line is never a heading, even when its text looks like a chapter
  name such as `◆ 第一章`. It becomes a fenced highlight
  (`Classifier.HighlightIsNeverHeading`, `Scenarios.SampleBody`).
- Reformatting the function's own output does not give the same output
  back. The output's first line is `# 《…》`, which is never a title line
  (`Reformatter.HeadingLineIsNotTitle`). So the result is empty unless a
  metadata or thought line of the output is itself a `《…》` line, in which
  case that line becomes the new title (`Reformatter.EmptyIffNoTitle`).
- A quote and a thought pair up the same way in either order only when no
  highlight is current. After a `◆` line, quote-then-thought emits the
  highlight before the pair. Thought-then-quote emits the pair first and
  keeps the highlight for a later flush
  (`NoteFacts.PairingOrderMattersAfterHighlight`).

## Model

| member | source | states |
|---|---|---|
| JsText.SkipLeading | main.ts:637 | the first index at or after `i` whose character is not whitespace, every character skipped being whitespace |
| JsText.SkipTrailing | main.ts:637 | the end of the last non-whitespace character in a range, every character dropped being whitespace |
| JsText.TrimSpec | main.ts:637 | `trim` returns the infix of its input left after whitespace is removed at both ends; the result has no whitespace at either end and is empty exactly when the input is all whitespace |
| JsText.TrimIdempotent | main.ts:637 | trimming a trimmed line changes nothing |
| JsText.Substring | main.ts:754 | `substring(start)` is the suffix after the first `start` characters, or empty past the end |
| JsText.SubstringAfterPrefix | main.ts:753-754 | removing the length of a prefix the line starts with leaves exactly the rest of the line |
| JsText.Includes | main.ts:676 | `includes(p)` holds exactly when `p` occurs at some offset of the string |
| JsText.NotIncludes | main.ts:728 | a character of `p` missing from the string rules out `includes(p)` |
| JsText.Split | main.ts:621 | `split` on one character returns at least one part, and no part contains the separator |
| JsText.JoinSplit | main.ts:621 | joining the parts of a split with the same separator gives back the original text |
| JsText.SplitJoin | main.ts:795 | splitting a join gives back the parts when none contains the separator |
| JsText.SplitWithoutSep | main.ts:621 | text without the separator splits into itself alone |
| JsText.SplitAfterPart | main.ts:621 | a separator after a separator-free part ends exactly that part |
| JsText.JoinEndsWithSep | main.ts:795 | lines joined with a separator end with that separator when the last line is empty |
| Classifier.IsChapterTitle | main.ts:669-695 | an empty line, a `◆` line or a `原文：` line is never a heading; any other line of at most 5 characters is one whatever its neighbours; a longer line is one exactly when both neighbours are non-empty, the next starts with `◆`, and the previous contains `笔记` or starts with `◆` or `原文：` |
| Classifier.BlankNeighbourOnlyShort | main.ts:734-735 | blank lines are not skipped when the neighbours are taken: a long non-noise line with a blank neighbour, or at either end of the input, is never a heading |
| Classifier.Classify | main.ts:725-769 | blank lines, `发表想法` lines and `-- 来自微信读书` lines are skipped; among the rest, headings are exactly the lines `isChapterTitle` accepts; highlights keep the trimmed `◆` line; a quote keeps what follows `原文：`; anything else is a thought |
| Classifier.HighlightIsNeverHeading | main.ts:670-671 | a non-noise `◆` line is classified as a highlight whatever its neighbours |
| Classifier.ShortLineIsHeading | main.ts:690-692 | a short non-noise line that is neither highlight nor quote is classified as a heading whatever its neighbours |
| Markdown.Render | main.ts:701-716 | every emission group ends with an empty line; a highlight is four lines with the highlight second; a thought or metadata line is the text then an empty line |
| Markdown.RenderAll | main.ts:701-716 | the output lines of a block sequence are empty exactly when there are no blocks, otherwise end with an empty line, and number between two and four per block |
| Markdown.RenderAllAppend | main.ts:701-716 | the lines of consecutive emissions are the lines of each in turn |
| Markdown.RenderedTextShape | main.ts:795 | the joined output is empty exactly when nothing was emitted, and otherwise ends with a newline |
| Assembler.Start | main.ts:627-633 | the loop starts at the given line with no output and the buffer invariant holding |
| Assembler.Flushed | main.ts:698-718 | `outputCurrentNote` emits nothing when highlight, thought and pending quote are all absent; otherwise it emits the highlight first, and the pending quote and the thought when present; under the buffer invariant, exactly the highlight then the quote |
| Assembler.Flush | main.ts:697-721 | after `outputCurrentNote` the note is empty, the pending quote is cleared, the pending thought is untouched and the emitted blocks are appended to the output |
| Assembler.Apply | main.ts:738-783 | a skipped line changes nothing; output only grows; after a heading or a `◆` line both buffers are empty; a heading is the last block emitted and leaves the note empty; a `◆` line becomes the current highlight; the buffer invariant and the absence of title blocks are preserved |
| Assembler.Step | main.ts:724-786 | one iteration advances the index by one, only appends output and preserves the buffer invariant |
| Assembler.RunBody | main.ts:724-786 | the loop ends at the last line, only appends output, and preserves the buffer invariant and the absence of title blocks |
| Assembler.Finish | main.ts:788-793 | after the loop the highlight, then the pending quote, then a leftover thought on its own are emitted, each only when present, and the thought comes last |
| Assembler.Assemble | main.ts:724-793 | the body never emits a title block, and emits nothing when it has no lines |
| Reformatter.TitleScan | main.ts:636-645 | the title loop stops at the first line whose trimmed text starts with `《` and ends with `》`, or at the end when there is none |
| Reformatter.TitleScanFindsFirst | main.ts:636-645 | the first title line is where the title loop stops |
| Reformatter.TitleScanFindsNone | main.ts:636-645 | without a title line the title loop consumes every line |
| Reformatter.Cleaned | main.ts:649-657 | the kept metadata lines are non-empty and trimmed, and are no more than the lines scanned |
| Reformatter.MetaScan | main.ts:648-659 | the metadata loop stops at the first line from its start whose trimmed text starts with `文前`, `◆` or `原文：`, or at the end; it keeps exactly the non-blank lines before that, trimmed, in order |
| Reformatter.MetaScanStopsAt | main.ts:648-659 | the metadata loop stops at the first content-start line after the title |
| Reformatter.OutputIffTitle | main.ts:636-666 | blocks are emitted exactly when some trimmed line is a `《…》` title |
| Reformatter.BlocksWithTitle | main.ts:661-666 | with a title line, the output is its title block, the metadata paragraph when there are metadata lines, then the body from where the metadata loop stopped |
| Reformatter.TitleLeads | main.ts:638-639 | the first title line leads the output, and no later block is a title |
| Reformatter.PreambleThenBody | main.ts:648-666 | after the title come the non-blank trimmed lines up to the first content-start line, joined by single spaces into one paragraph (left out when there are none), then the body assembled from that line on |
| Reformatter.EmptyIffNoTitle | main.ts:795 | the returned text is empty exactly when no trimmed line is a `《…》` title, and otherwise ends with a newline |
| Reformatter.TitleFirstInText | main.ts:638-640 | with a title line, the returned text starts with `# ` + that trimmed line + a newline, and the book name becomes that line |
| Reformatter.BookNameKeptWithoutTitle | main.ts:640 | without a title line the book name is unchanged |
| Reformatter.HeadingLineIsNotTitle | main.ts:636-639 | the `# ` line written for a title is never itself a title line once trimmed |
| Reformatter.TitleLineLeads | main.ts:662-664 | a text whose first block is a title starts with its `# ` line and a newline |
| NoteFacts.QuoteThenThought | main.ts:760-775 | a quote followed by a thought emits the current highlight when there is one, then the quote, then the thought, and leaves the note and both buffers empty |
| NoteFacts.ThoughtThenQuote | main.ts:756-759 | a thought followed by a quote emits the same two blocks in the same order, quote first |
| NoteFacts.PairingOrderIndependent | main.ts:753-783 | with no current highlight and nothing pending, quote-then-thought and thought-then-quote lead to the same state |
| NoteFacts.PairingOrderMattersAfterHighlight | main.ts:753-783 | with a current highlight, quote-then-thought emits the highlight, the quote and the thought and empties the note, while thought-then-quote emits only the quote and the thought and keeps the highlight, so the two orders reach different states |
| NoteFacts.BareQuoteDoesNotPair | main.ts:754-765 | a bare `原文：` stores an empty quote that counts as absent, so the next thought is buffered and nothing is emitted |
| NoteFacts.ThoughtDroppedAtBoundary | main.ts:740 | a pending thought has no effect on a heading or `◆` line and is dropped without output |
| NoteFacts.ThoughtOverwritten | main.ts:777-781 | a second thought with no quote pending replaces the first and emits nothing |
| NoteFacts.QuoteOverwritten | main.ts:760-765 | a second quote with no thought or highlight pending replaces the first and emits nothing |
| NoteFacts.HeadingFlushesNote | main.ts:738-743 | a heading emits the current highlight and the pending quote first, then itself, and leaves the note and both buffers empty |
| NoteFacts.HighlightHeldAcrossThoughtPair | main.ts:756-759 | a quote that closes a pending thought emits the pair at once and keeps the current highlight for a later flush |
| NoteFacts.ApplyKeepsHighlight | main.ts:747-750 | a highlight already emitted, or still current, is emitted or current after any line |
| NoteFacts.RunKeepsHighlight | main.ts:724-786 | a highlight that is emitted or current stays so through the rest of the loop |
| NoteFacts.RunReachesHighlight | main.ts:747-750 | every highlight line from the loop's position on is emitted or current when the loop ends |
| NoteFacts.HighlightsNeverLost | main.ts:747-793 | every highlight line of the body appears in the output as a fenced block |
| NoteFacts.RunKeepsBlock | main.ts:724-786 | a block once emitted stays in the output |
| NoteFacts.RunReachesHeading | main.ts:738-743 | every heading line from the loop's position on is in the output when the loop ends |
| NoteFacts.HeadingsNeverLost | main.ts:738-793 | every heading line of the body appears in the output as a heading |
| Scenarios.SampleHeader | main.ts:636-659 | in the sample export, the title loop stops at the first line, and the metadata loop keeps the second line and stops at the `◆` line |
| Scenarios.SampleBody | main.ts:724-793 | in the sample export, the body becomes two fenced highlights, including `◆ 第一章`, then the quote and the thought that follows it |

## Left out

- The Obsidian plugin around the function: the confirmation and AI
  response modals, the settings tab, the view with its injected buttons and
  event listeners, plugin lifecycle, commands and stylesheet loading. These
  are side-effecting UI code with no logic that can be stated.
- `AIService.askAI` and its prompt: an asynchronous network call.
- Loading and saving settings: persisted storage through the host
  application.
- `currentBookName` is modelled only as an extra result of
  `FormatWeReadNotes`. The function is a method of the plugin object, and
  the model passes the previous value in and returns the new one.
- The `original` field of `currentNote`: it is written (reset to `null`)
  but never read.
- UTF-16: JavaScript `length` and `substring` count UTF-16 code units,
  and the model counts characters. They agree for text in the Basic
  Multilingual Plane, which covers the Chinese markers and text involved.
  Surrogate pairs are not modelled.
- Reformatter.Blocks: has no contract of its own. Its properties are
  stated by `OutputIffTitle`, `BlocksWithTitle`, `TitleLeads` and
  `PreambleThenBody`.
- Reformatter.FormatWeReadNotes: has no contract of its own. Its
  properties are stated by `EmptyIffNoTitle`, `TitleFirstInText` and
  `BookNameKeptWithoutTitle`.
- JsText.Trim: its own contract only bounds the length. What it computes
  is stated by `TrimSpec`.
- JsText.Join: has no contract of its own. It is characterised together
  with `Split` by `JoinSplit`, `SplitJoin` and `JoinEndsWithSep`.
- Markdown.Render: the contract fixes the line count, the trailing empty
  line and the text line of highlights and paragraphs. The exact `# `, `## `
  and `> ` prefixes and the fence's ```` ```txt ```` and ```` ``` ```` lines
  are given by the definition alone.
- Scenarios: the sample's header and body are proved separately. The
  single equation for the whole block sequence of the sample was not
  proved. They connect through `Reformatter.PreambleThenBody`.
