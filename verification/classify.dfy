/**
  Line classification for the body of a WeChat Read export: the fixed
  markers, the chapter-heading heuristic `isChapterTitle`, and the
  per-line decision the body loop of `formatWeReadNotes` takes.
 */
module Classifier {
  import opened JsText

  /** Leading glyph of a highlighted excerpt. */
  const HighlightMark: string := "◆"
  /** Leading literal of a quoted original passage ("原文：", full-width colon). */
  const QuoteMark: string := "原文："
  /** Leading literal of the front-matter section, which ends the preamble. */
  const FrontMatterMark: string := "文前"
  /** Word of the "N 个笔记" note-count line. */
  const NotesWord: string := "笔记"
  /** Phrase of the "…发表想法" timestamp line above a thought. */
  const ThoughtStamp: string := "发表想法"
  /** Signature line the application appends to an export. */
  const AppSignature: string := "-- 来自微信读书"
  /** Lines at most this long count as headings on their own. */
  const ShortHeadingMax: nat := 5

  /** A line that can never be a chapter heading: empty, a highlight or a quote. */
  predicate IsContentShaped(line: string) {
    line == [] || StartsWith(line, HighlightMark) || StartsWith(line, QuoteMark)
  }

  /** The three neighbour shapes that mark a line sandwiched between content. */
  predicate SandwichedBetweenContent(prev: string, next: string) {
    && prev != [] && next != []
    && StartsWith(next, HighlightMark)
    && (Includes(prev, NotesWord) || StartsWith(prev, HighlightMark) || StartsWith(prev, QuoteMark))
  }

  /** `isChapterTitle(currentLine, prevLine, nextLine)`, branch for branch. */
  function IsChapterTitle(current: string, prev: string, next: string): (r: bool)
    ensures IsContentShaped(current) ==> !r
    ensures !IsContentShaped(current) && |current| <= ShortHeadingMax ==> r
    ensures !IsContentShaped(current) && |current| > ShortHeadingMax ==>
              (r <==> SandwichedBetweenContent(prev, next))
  {
    if current == [] || StartsWith(current, HighlightMark) || StartsWith(current, QuoteMark) then
      false
    else if prev != [] && next != [] && Includes(prev, NotesWord) && StartsWith(next, HighlightMark) then
      true
    else if prev != [] && next != [] && StartsWith(prev, HighlightMark) && StartsWith(next, HighlightMark) then
      true
    else if prev != [] && next != [] && StartsWith(prev, QuoteMark) && StartsWith(next, HighlightMark) then
      true
    else
      |current| <= ShortHeadingMax && !StartsWith(current, QuoteMark)
  }

  /** What the body loop does with one line, with the text it keeps. */
  datatype LineKind =
    | SkipLine                  // blank, timestamp or signature: no effect
    | HeadingLine(text: string) // emitted as "## " + text
    | HighlightLine(text: string)
    | QuoteLine(text: string)   // the line with "原文：" removed
    | ThoughtLine(text: string)

  /** `lines[k].trim()`, or "" when `k` is outside `lines`: the neighbour
      context the body loop passes to `isChapterTitle`. */
  function Neighbour(lines: seq<string>, k: int): string
  {
    if 0 <= k < |lines| then Trim(lines[k]) else []
  }

  /** A trimmed line the body loop passes over without effect. */
  predicate IsNoise(line: string) {
    line == [] || Includes(line, ThoughtStamp) || Includes(line, AppSignature)
  }

  /** The classification of `lines[i]` by the body loop. */
  function Classify(lines: seq<string>, i: nat): (k: LineKind)
    requires i < |lines|
    ensures k.SkipLine? <==> IsNoise(Trim(lines[i]))
    ensures !k.SkipLine? ==>
              (k.HeadingLine? <==> IsChapterTitle(Trim(lines[i]), Neighbour(lines, i - 1), Neighbour(lines, i + 1)))
    ensures k.HeadingLine? ==> k.text == Trim(lines[i]) && !IsContentShaped(k.text)
    ensures k.HighlightLine? ==> k.text == Trim(lines[i]) && StartsWith(k.text, HighlightMark)
    ensures k.QuoteLine? ==> Trim(lines[i]) == QuoteMark + k.text
    ensures k.ThoughtLine? ==> k.text == Trim(lines[i]) && !IsContentShaped(k.text)
  {
    var line := Trim(lines[i]);
    if IsNoise(line) then
      SkipLine
    else if IsChapterTitle(line, Neighbour(lines, i - 1), Neighbour(lines, i + 1)) then
      HeadingLine(line)
    else if StartsWith(line, HighlightMark) then
      HighlightLine(line)
    else if StartsWith(line, QuoteMark) then
      QuoteLine(Substring(line, |QuoteMark|))
    else
      ThoughtLine(line)
  }

  /** A non-noise line starting with "◆" is always a highlight, never a heading. */
  lemma HighlightIsNeverHeading(lines: seq<string>, i: nat)
    requires i < |lines|
    requires !IsNoise(Trim(lines[i])) && StartsWith(Trim(lines[i]), HighlightMark)
    ensures Classify(lines, i) == HighlightLine(Trim(lines[i]))
  {
  }

  /** A short non-noise line that is neither highlight nor quote is a heading
      whatever its neighbours are. */
  lemma ShortLineIsHeading(lines: seq<string>, i: nat)
    requires i < |lines|
    requires !IsNoise(Trim(lines[i])) && !IsContentShaped(Trim(lines[i]))
    requires |Trim(lines[i])| <= ShortHeadingMax
    ensures Classify(lines, i) == HeadingLine(Trim(lines[i]))
  {
  }

  /** The neighbours are the raw adjacent lines, blank ones included: a long
      line next to a blank line, or at either end of the input, is never a
      heading, because a blank or missing neighbour is empty. */
  lemma BlankNeighbourOnlyShort(lines: seq<string>, i: nat)
    requires i < |lines|
    requires i == 0 || i == |lines| - 1 || AllWhitespace(lines[i - 1]) || AllWhitespace(lines[i + 1])
    requires !IsNoise(Trim(lines[i])) && |Trim(lines[i])| > ShortHeadingMax
    ensures !Classify(lines, i).HeadingLine?
  {
    if i > 0 {
      TrimSpec(lines[i - 1]);
    }
    if i + 1 < |lines| {
      TrimSpec(lines[i + 1]);
    }
  }
}
