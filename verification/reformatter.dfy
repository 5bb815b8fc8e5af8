/**
  `formatWeReadNotes` end to end: split the pasted text into lines, find the
  `《…》` title line, collect the author/metadata lines up to the first
  content marker, run the note assembler over the rest and join the rendered
  Markdown lines with newlines.
 */
module Reformatter {
  import opened JsText
  import opened Classifier
  import opened Markdown
  import opened Assembler

  const TitleOpen: string := "《"
  const TitleClose: string := "》"

  /** A trimmed line the title loop stops at. */
  predicate IsTitleLine(line: string) {
    StartsWith(line, TitleOpen) && EndsWith(line, TitleClose)
  }

  /** A trimmed line that ends the metadata loop. */
  predicate IsContentStart(line: string) {
    StartsWith(line, FrontMatterMark) || StartsWith(line, HighlightMark) || StartsWith(line, QuoteMark)
  }

  /** Line `k`, trimmed, is a title line. */
  predicate TitleAt(lines: seq<string>, k: int) {
    0 <= k < |lines| && IsTitleLine(Trim(lines[k]))
  }

  /** Line `k`, trimmed, is a content-start line. */
  predicate ContentStartAt(lines: seq<string>, k: int) {
    0 <= k < |lines| && IsContentStart(Trim(lines[k]))
  }

  ghost predicate HasTitle(lines: seq<string>) {
    exists k :: TitleAt(lines, k)
  }

  /** `t` is the first title line of `lines`. */
  predicate FirstTitle(lines: seq<string>, t: int) {
    && TitleAt(lines, t)
    && forall k :: 0 <= k < t ==> !TitleAt(lines, k)
  }

  /** `n` is the first content-start line at or after `from`, or the end. */
  predicate PreambleEnd(lines: seq<string>, from: int, n: int) {
    && 0 <= from <= n <= |lines|
    && (n < |lines| ==> ContentStartAt(lines, n))
    && forall k :: from <= k < n ==> !ContentStartAt(lines, k)
  }

  /** The title loop from line `i`: the index of the first title line, or
      `|lines|` when there is none. */
  function TitleScan(lines: seq<string>, i: nat): (r: nat)
    requires i <= |lines|
    ensures i <= r <= |lines|
    ensures r < |lines| ==> TitleAt(lines, r)
    ensures forall k :: i <= k < r ==> !TitleAt(lines, k)
    decreases |lines| - i
  {
    if i == |lines| then i
    else if TitleAt(lines, i) then i
    else TitleScan(lines, i + 1)
  }

  /** The non-blank lines of `ls`, each trimmed, in order. */
  function Cleaned(ls: seq<string>): (r: seq<string>)
    ensures |r| <= |ls|
    ensures forall k :: 0 <= k < |r| ==> r[k] != [] && IsTrimmed(r[k])
    decreases |ls|
  {
    if ls == [] then []
    else
      var t := Trim(ls[0]);
      (if t == [] then [] else [t]) + Cleaned(ls[1..])
  }

  /** The metadata lines and the index where the metadata loop stopped. */
  datatype Preamble = Preamble(meta: seq<string>, next: nat)

  /** The metadata loop from line `i`: skip blank lines, stop at the first
      content-start line, keep the others trimmed. */
  function MetaScan(lines: seq<string>, i: nat): (r: Preamble)
    requires i <= |lines|
    ensures PreambleEnd(lines, i, r.next)
    ensures r.meta == Cleaned(lines[i..r.next])
    decreases |lines| - i
  {
    if i == |lines| then
      Preamble([], i)
    else
      var line := Trim(lines[i]);
      if line == [] then
        var r := MetaScan(lines, i + 1);
        assert lines[i..r.next][1..] == lines[i + 1..r.next];
        r
      else if ContentStartAt(lines, i) then
        Preamble([], i)
      else
        var r := MetaScan(lines, i + 1);
        assert lines[i..r.next][1..] == lines[i + 1..r.next];
        Preamble([line] + r.meta, r.next)
  }

  /** All blocks `formatWeReadNotes` emits, in order: title, metadata
      paragraph, then the body. Without a title line the title loop consumes
      every line and the later loops start at the end. */
  function Blocks(lines: seq<string>): seq<Block> {
    var t := TitleScan(lines, 0);
    var start := if t < |lines| then t + 1 else |lines|;
    var pre := MetaScan(lines, start);
    (if t < |lines| then [Title(Trim(lines[t]))] else [])
    + (if pre.meta != [] then [Paragraph(Join(pre.meta, ' '))] else [])
    + Assemble(lines, pre.next)
  }

  lemma TitleScanFindsFirst(lines: seq<string>, t: int)
    requires FirstTitle(lines, t)
    ensures TitleScan(lines, 0) == t
  {
  }

  lemma TitleScanFindsNone(lines: seq<string>)
    requires !HasTitle(lines)
    ensures TitleScan(lines, 0) == |lines|
  {
  }

  lemma MetaScanStopsAt(lines: seq<string>, from: nat, n: int)
    requires from <= |lines| && PreambleEnd(lines, from, n)
    ensures MetaScan(lines, from).next == n
  {
    PreambleEndUnique(lines, from, n);
  }

  lemma PreambleEndUnique(lines: seq<string>, from: int, n: int)
    requires PreambleEnd(lines, from, n)
    ensures forall m :: PreambleEnd(lines, from, m) ==> m == n
  {
  }

  /** Output is produced exactly when some trimmed line is a `《…》` title. */
  lemma OutputIffTitle(lines: seq<string>)
    ensures Blocks(lines) == [] <==> !HasTitle(lines)
  {
    var t := TitleScan(lines, 0);
    if !HasTitle(lines) {
      TitleScanFindsNone(lines);
      assert MetaScan(lines, |lines|) == Preamble([], |lines|);
    } else {
      assert t < |lines|;
    }
  }

  /** `Blocks` once the title line `t` is known. */
  lemma BlocksWithTitle(lines: seq<string>, t: int)
    requires FirstTitle(lines, t)
    ensures var pre := MetaScan(lines, t + 1);
            Blocks(lines) == [Title(Trim(lines[t]))]
                             + (if pre.meta != [] then [Paragraph(Join(pre.meta, ' '))] else [])
                             + Assemble(lines, pre.next)
  {
    TitleScanFindsFirst(lines, t);
  }

  lemma LeadingBlock(r: seq<Block>, x: Block, meta: seq<Block>, body: seq<Block>)
    requires r == [x] + meta + body && NoTitle(meta) && NoTitle(body)
    ensures |r| > 0 && r[0] == x && NoTitle(r[1..])
  {
    assert r[1..] == meta + body;
  }

  /** The first title line leads the output, as a `Title` block, and no other
      block is a title. */
  lemma TitleLeads(lines: seq<string>, t: int)
    requires FirstTitle(lines, t)
    ensures var r := Blocks(lines); |r| > 0 && r[0] == Title(Trim(lines[t])) && NoTitle(r[1..])
  {
    BlocksWithTitle(lines, t);
    var pre := MetaScan(lines, t + 1);
    MetaParagraphIsNoTitle(pre.meta);
    LeadingBlock(Blocks(lines), Title(Trim(lines[t])),
                 if pre.meta != [] then [Paragraph(Join(pre.meta, ' '))] else [],
                 Assemble(lines, pre.next));
  }

  lemma MetaParagraphIsNoTitle(meta: seq<string>)
    ensures NoTitle(if meta != [] then [Paragraph(Join(meta, ' '))] else [])
  {
  }

  /** After the title: the metadata lines (non-blank, trimmed, up to the first
      content-start line `n`) as one space-joined paragraph when there are
      any, then the body assembled from line `n` on. */
  lemma PreambleThenBody(lines: seq<string>, t: int, n: int)
    requires FirstTitle(lines, t) && PreambleEnd(lines, t + 1, n)
    ensures var r := Blocks(lines);
            var meta := Cleaned(lines[t + 1..n]);
            var body := Assemble(lines, n);
            r == [Title(Trim(lines[t]))] + (if meta != [] then [Paragraph(Join(meta, ' '))] else []) + body
  {
    BlocksWithTitle(lines, t);
    MetaScanStopsAt(lines, t + 1, n);
    var pre := MetaScan(lines, t + 1);
    assert pre.next == n && pre.meta == Cleaned(lines[t + 1..n]);
  }

  /** The result of `formatWeReadNotes`, with the `currentBookName` it leaves
      behind (the trimmed title line, or the previous name when none). */
  datatype Formatted = Formatted(text: string, bookName: string)

  /** `formatWeReadNotes(content)`, starting from book name `bookName`. */
  function FormatWeReadNotes(content: string, bookName: string): Formatted
  {
    var lines := Split(content, '\n');
    var t := TitleScan(lines, 0);
    Formatted(Join(RenderAll(Blocks(lines)), '\n'), if t < |lines| then Trim(lines[t]) else bookName)
  }

  /** The result is empty exactly when no trimmed line is a `《…》` title, and
      a non-empty result ends with a newline. */
  lemma EmptyIffNoTitle(content: string, bookName: string)
    ensures var r := FormatWeReadNotes(content, bookName);
            && (r.text == [] <==> !HasTitle(Split(content, '\n')))
            && (r.text != [] ==> r.text[|r.text| - 1] == '\n')
  {
    var lines := Split(content, '\n');
    RenderedTextShape(Blocks(lines));
    OutputIffTitle(lines);
  }

  /** With a title line, the text starts with its "# " heading line and the
      book name becomes that line; without one the book name is kept. */
  lemma TitleFirstInText(content: string, bookName: string, t: int)
    requires FirstTitle(Split(content, '\n'), t)
    ensures var r := FormatWeReadNotes(content, bookName);
            var title := Trim(Split(content, '\n')[t]);
            && r.bookName == title
            && StartsWith(r.text, "# " + title + "\n")
  {
    var lines := Split(content, '\n');
    TitleScanFindsFirst(lines, t);
    TitleLeads(lines, t);
    TitleLineLeads(Blocks(lines));
  }

  lemma BookNameKeptWithoutTitle(content: string, bookName: string)
    requires !HasTitle(Split(content, '\n'))
    ensures FormatWeReadNotes(content, bookName).bookName == bookName
  {
    TitleScanFindsNone(Split(content, '\n'));
  }

  /** Rendered text that begins with a title block begins with its "# " line. */
  lemma TitleLineLeads(bs: seq<Block>)
    requires bs != [] && bs[0].Title?
    ensures StartsWith(Join(RenderAll(bs), '\n'), "# " + bs[0].text + "\n")
  {
    var out := RenderAll(bs);
    assert out[0] == "# " + bs[0].text;
    var text := Join(out, '\n');
    assert text == out[0] + "\n" + Join(out[1..], '\n');
    assert text[..|out[0]| + 1] == out[0] + "\n";
  }

  /** A `# ` heading line is never a title line once trimmed: it starts
      with `#`, not `《`. So the title the function writes is not found
      again when its output is reformatted. */
  lemma HeadingLineIsNotTitle(t: string)
    ensures !IsTitleLine(Trim("# " + t))
  {
    var s := "# " + t;
    TrimSpec(s);
    assert SkipLeading(s, 0) == 0;
    assert Trim(s) != [] && Trim(s)[0] == '#';
  }
}
