/**
  The Markdown shapes the reformatter pushes onto its output. Every group of
  lines it pushes is one `Block`, and every block ends with an empty
  separator line.
 */
module Markdown {
  import opened JsText

  datatype Block =
    | Title(text: string)      // "# " + the bracketed title line
    | Paragraph(text: string)  // metadata line, or a reader thought
    | Heading(text: string)    // "## " + a chapter heading
    | Fence(text: string)      // a highlight inside a ```txt block
    | BlockQuote(text: string) // "> " + an original passage

  /** The output lines of one block. */
  function Render(b: Block): (r: seq<string>)
    ensures 2 <= |r| && r[|r| - 1] == []
    ensures b.Fence? ==> |r| == 4 && r[1] == b.text
    ensures b.Paragraph? ==> |r| == 2 && r[0] == b.text
  {
    match b
    case Title(t) => ["# " + t, ""]
    case Paragraph(t) => [t, ""]
    case Heading(t) => ["## " + t, ""]
    case Fence(t) => ["```txt", t, "```", ""]
    case BlockQuote(t) => ["> " + t, ""]
  }

  /** The output lines of a sequence of blocks, in order. */
  function RenderAll(bs: seq<Block>): (r: seq<string>)
    ensures bs == [] <==> r == []
    ensures bs != [] ==> 2 <= |r| && r[|r| - 1] == []
    ensures 2 * |bs| <= |r| <= 4 * |bs|
    decreases |bs|
  {
    if bs == [] then [] else Render(bs[0]) + RenderAll(bs[1..])
  }

  /** Rendering distributes over concatenation of block sequences. */
  lemma {:induction false} RenderAllAppend(a: seq<Block>, b: seq<Block>)
    ensures RenderAll(a + b) == RenderAll(a) + RenderAll(b)
    decreases |a|
  {
    if a == [] {
      assert a + b == b;
    } else {
      assert (a + b)[0] == a[0];
      assert (a + b)[1..] == a[1..] + b;
      RenderAllAppend(a[1..], b);
    }
  }

  /** Rendered output joined with newlines is empty exactly when there are no
      blocks, and otherwise ends with a newline. */
  lemma RenderedTextShape(bs: seq<Block>)
    ensures Join(RenderAll(bs), '\n') == [] <==> bs == []
    ensures bs != [] ==> var t := Join(RenderAll(bs), '\n'); |t| > 0 && t[|t| - 1] == '\n'
  {
    if bs != [] {
      JoinEndsWithSep(RenderAll(bs), '\n');
    }
  }
}
