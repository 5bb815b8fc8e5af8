/**
  The note assembler: the state the body loop of `formatWeReadNotes` threads
  through the lines after the preamble (`currentNote`, `pendingOriginal`,
  `pendingThought`, the output so far), advanced one line at a time by a pure
  step function.

  JavaScript `null` and `""` are both falsy, and every test the loop makes on
  these buffers is a truthiness test, so a buffer is a `string` in which `[]`
  stands for "absent". A bare "原文：" line stores `[]` in `pendingOriginal`,
  which is then indistinguishable from no quote at all, exactly as in the loop.
 */
module Assembler {
  import opened JsText
  import opened Classifier
  import opened Markdown

  /** `currentNote`. Its `original` field is never read and is left out. */
  datatype Note = Note(highlight: string, thought: string)

  const EmptyNote: Note := Note([], [])

  /** The loop state: index of the next line, the current note, the two
      single-slot buffers and the blocks emitted so far. */
  datatype Body = Body(i: nat, note: Note, pendingOriginal: string, pendingThought: string, out: seq<Block>)

  /** The state on entry to the body loop at line `i`. */
  function Start(i: nat): (s: Body)
    ensures s.i == i && s.out == [] && Inv(s)
  {
    Body(i, EmptyNote, [], [], [])
  }

  /** The buffer invariant: `currentNote.thought` is never set, at most one
      pending buffer is occupied, and a pending quote never coexists with a
      highlight. */
  predicate Inv(s: Body) {
    && s.note.thought == []
    && (s.pendingOriginal == [] || s.pendingThought == [])
    && (s.pendingOriginal != [] ==> s.note.highlight == [])
  }

  /** No block is a document title. */
  predicate NoTitle(bs: seq<Block>) {
    forall k :: 0 <= k < |bs| ==> !bs[k].Title?
  }

  /** What `outputCurrentNote` pushes: the highlight, then the pending quote
      with the note's thought, or else the thought alone; nothing when all
      three are absent. */
  function Flushed(s: Body): (d: seq<Block>)
    ensures d == [] <==> s.note.highlight == [] && s.note.thought == [] && s.pendingOriginal == []
    ensures s.note.highlight != [] ==> d[0] == Fence(s.note.highlight)
    ensures s.pendingOriginal != [] ==> BlockQuote(s.pendingOriginal) in d
    ensures s.note.thought != [] ==> Paragraph(s.note.thought) in d
    ensures Inv(s) ==> d == (if s.note.highlight != [] then [Fence(s.note.highlight)] else [])
                          + (if s.pendingOriginal != [] then [BlockQuote(s.pendingOriginal)] else [])
    ensures NoTitle(d)
  {
    var n := s.note;
    if n.highlight != [] || n.thought != [] || s.pendingOriginal != [] then
      var fence := if n.highlight != [] then [Fence(n.highlight)] else [];
      var rest :=
        if s.pendingOriginal != [] then
          [BlockQuote(s.pendingOriginal)] + (if n.thought != [] then [Paragraph(n.thought)] else [])
        else if n.thought != [] then
          [Paragraph(n.thought)]
        else
          [];
      fence + rest
    else
      []
  }

  /** `outputCurrentNote`: emit the parts present, drop the pending quote,
      reset the note. The source clears the quote only when it is truthy, so
      a `""` quote stays `""`; both are the absent `[]` here. */
  function Flush(s: Body): (r: Body)
    ensures r.out == s.out + Flushed(s)
    ensures r.i == s.i && r.pendingThought == s.pendingThought
    ensures r.note == EmptyNote && r.pendingOriginal == []
  {
    s.(out := s.out + Flushed(s), pendingOriginal := [], note := EmptyNote)
  }

  /** The effect of one classified line on the loop state (the index aside). */
  function Apply(s: Body, k: LineKind): (r: Body)
    ensures r.i == s.i
    ensures s.out <= r.out
    ensures k.SkipLine? ==> r == s
    ensures k.HeadingLine? || k.HighlightLine? ==> r.pendingOriginal == [] && r.pendingThought == []
    ensures k.HeadingLine? ==> r.note == EmptyNote && |r.out| > 0 && r.out[|r.out| - 1] == Heading(k.text)
    ensures k.HighlightLine? ==> r.note.highlight == k.text
    ensures Inv(s) ==> Inv(r)
    ensures NoTitle(s.out) ==> NoTitle(r.out)
  {
    match k
    case SkipLine => s
    case HeadingLine(h) =>
      var g := Flush(s);
      g.(pendingThought := [], out := g.out + [Heading(h)])
    case HighlightLine(h) =>
      var g := Flush(s);
      g.(pendingThought := [], note := g.note.(highlight := h))
    case QuoteLine(q) =>
      if s.pendingThought != [] then
        s.(out := s.out + [BlockQuote(q), Paragraph(s.pendingThought)], pendingThought := [])
      else
        var g := if s.note.highlight != [] || s.note.thought != [] then Flush(s) else s;
        g.(pendingOriginal := q)
    case ThoughtLine(x) =>
      if s.pendingOriginal != [] then
        s.(out := s.out + [BlockQuote(s.pendingOriginal), Paragraph(x)], pendingOriginal := [])
      else
        var g := if s.note.thought != [] then Flush(s) else s;
        g.(pendingThought := x)
  }

  /** One iteration of the body loop on `lines[s.i]`. */
  function Step(lines: seq<string>, s: Body): (r: Body)
    requires s.i < |lines|
    ensures r.i == s.i + 1
    ensures s.out <= r.out
    ensures Inv(s) ==> Inv(r)
  {
    Apply(s, Classify(lines, s.i)).(i := s.i + 1)
  }

  /** The body loop from `s` to the end of `lines`. */
  function RunBody(lines: seq<string>, s: Body): (r: Body)
    requires s.i <= |lines|
    ensures r.i == |lines|
    ensures s.out <= r.out
    ensures Inv(s) ==> Inv(r)
    ensures NoTitle(s.out) ==> NoTitle(r.out)
    decreases |lines| - s.i
  {
    if s.i == |lines| then s else RunBody(lines, Step(lines, s))
  }

  /** After the loop: flush the current note (what `outputCurrentNote`
      pushes, see `Flushed`), then emit a leftover thought on its own. */
  function Finish(s: Body): (r: seq<Block>)
    ensures s.out <= r
    ensures s.pendingThought != [] ==> |r| > 0 && r[|r| - 1] == Paragraph(s.pendingThought)
    ensures Inv(s) ==> r == s.out
                            + (if s.note.highlight != [] then [Fence(s.note.highlight)] else [])
                            + (if s.pendingOriginal != [] then [BlockQuote(s.pendingOriginal)] else [])
                            + (if s.pendingThought != [] then [Paragraph(s.pendingThought)] else [])
    ensures NoTitle(s.out) ==> NoTitle(r)
  {
    var tail := if s.pendingThought != [] then [Paragraph(s.pendingThought)] else [];
    NoTitleAppend(s.out, Flushed(s));
    NoTitleAppend(s.out + Flushed(s), tail);
    s.out + Flushed(s) + tail
  }

  /** Appending title-free blocks to title-free output keeps it title-free. */
  lemma NoTitleAppend(a: seq<Block>, b: seq<Block>)
    ensures NoTitle(a) && NoTitle(b) ==> NoTitle(a + b)
  {
  }

  /** The blocks the body of the document produces, from line `start` on. */
  function Assemble(lines: seq<string>, start: nat): (r: seq<Block>)
    requires start <= |lines|
    ensures NoTitle(r)
    ensures start == |lines| ==> r == []
  {
    var s := RunBody(lines, Start(start));
    Finish(s)
  }
}
