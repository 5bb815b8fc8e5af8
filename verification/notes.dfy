/**
  What the note assembler does with quotes, thoughts, highlights and
  headings: the pairing of a quote with a thought in either order, the ways
  an unpaired buffer is lost, and the content that is never lost.
 */
module NoteFacts {
  import opened JsText
  import opened Classifier
  import opened Markdown
  import opened Assembler

  /** A quote line followed by a thought line emits the current highlight
      (the quote flushes it), then the quote, then the thought, and leaves
      the note and both buffers empty. */
  lemma QuoteThenThought(s: Body, a: string, b: string)
    requires Inv(s) && s.pendingThought == []
    requires a != []
    ensures var r := Apply(Apply(s, QuoteLine(a)), ThoughtLine(b));
            && r.out == s.out
                        + (if s.note.highlight != [] then [Fence(s.note.highlight)] else [])
                        + [BlockQuote(a), Paragraph(b)]
            && r.pendingOriginal == [] && r.pendingThought == [] && r.note == EmptyNote
  {
  }

  /** A thought line followed by a quote line emits the same two blocks, in
      the same order: quote first. */
  lemma ThoughtThenQuote(s: Body, a: string, b: string)
    requires Inv(s) && s.pendingOriginal == []
    requires b != []
    ensures var r := Apply(Apply(s, ThoughtLine(b)), QuoteLine(a));
            && r.out == s.out + [BlockQuote(a), Paragraph(b)]
            && r.pendingOriginal == [] && r.pendingThought == [] && r.note == s.note
  {
  }

  /** From a state with no current highlight and nothing pending, the two
      orders lead to the same state. */
  lemma PairingOrderIndependent(s: Body, a: string, b: string)
    requires Inv(s) && s.note.highlight == [] && s.pendingOriginal == [] && s.pendingThought == []
    requires a != [] && b != []
    ensures Apply(Apply(s, QuoteLine(a)), ThoughtLine(b)) == Apply(Apply(s, ThoughtLine(b)), QuoteLine(a))
  {
    QuoteThenThought(s, a, b);
    ThoughtThenQuote(s, a, b);
  }

  /** With a current highlight the two orders differ: quote-first flushes
      the highlight before the pair, thought-first emits the pair and keeps
      the highlight for a later flush. */
  lemma PairingOrderMattersAfterHighlight(s: Body, a: string, b: string)
    requires Inv(s) && s.note.highlight != [] && s.pendingThought == []
    requires a != [] && b != []
    ensures var qt := Apply(Apply(s, QuoteLine(a)), ThoughtLine(b));
            var tq := Apply(Apply(s, ThoughtLine(b)), QuoteLine(a));
            && qt.out == s.out + [Fence(s.note.highlight), BlockQuote(a), Paragraph(b)]
            && qt.note == EmptyNote
            && tq.out == s.out + [BlockQuote(a), Paragraph(b)]
            && tq.note == s.note
            && qt != tq
  {
    QuoteThenThought(s, a, b);
    ThoughtThenQuote(s, a, b);
  }

  /** A bare "原文：" stores an empty quote, which counts as absent: the next
      thought is buffered instead of paired, and nothing is emitted. */
  lemma BareQuoteDoesNotPair(s: Body, b: string)
    requires Inv(s) && s.note.highlight == [] && s.pendingThought == []
    ensures var r := Apply(Apply(s, QuoteLine([])), ThoughtLine(b));
            r.out == s.out && r.pendingThought == b && r.pendingOriginal == []
  {
  }

  /** A pending thought has no influence on what a heading or highlight line
      does: it is dropped without being emitted. */
  lemma ThoughtDroppedAtBoundary(s: Body, k: LineKind)
    requires k.HeadingLine? || k.HighlightLine?
    ensures Apply(s, k) == Apply(s.(pendingThought := []), k)
  {
  }

  /** A second thought with no quote pending replaces the first one, and
      nothing is emitted. */
  lemma ThoughtOverwritten(s: Body, y: string)
    requires Inv(s) && s.pendingOriginal == []
    ensures Apply(s, ThoughtLine(y)) == s.(pendingThought := y)
  {
  }

  /** A second quote with no thought pending and no highlight replaces the
      first one, and nothing is emitted. */
  lemma QuoteOverwritten(s: Body, q: string)
    requires Inv(s) && s.pendingThought == [] && s.note.highlight == []
    ensures Apply(s, QuoteLine(q)) == s.(pendingOriginal := q)
  {
  }

  /** A heading flushes the note and the pending quote before it is emitted,
      and drops the pending thought: no highlight or quote waits across a
      chapter boundary. */
  lemma HeadingFlushesNote(s: Body, h: string)
    requires Inv(s)
    ensures var r := Apply(s, HeadingLine(h));
            && r.out == s.out
                        + (if s.note.highlight != [] then [Fence(s.note.highlight)] else [])
                        + (if s.pendingOriginal != [] then [BlockQuote(s.pendingOriginal)] else [])
                        + [Heading(h)]
            && r.note == EmptyNote && r.pendingOriginal == [] && r.pendingThought == []
  {
    var g := Flush(s);
    var d := Flushed(s);
    assert g.out == s.out + d;
    assert Apply(s, HeadingLine(h)).out == s.out + d + [Heading(h)];
  }

  /** A quote that closes a pending thought emits the pair at once but keeps
      the current highlight, which is emitted only at the next flush, after
      the pair. */
  lemma HighlightHeldAcrossThoughtPair(s: Body, q: string)
    requires Inv(s) && s.pendingThought != []
    ensures var r := Apply(s, QuoteLine(q));
            && r.out == s.out + [BlockQuote(q), Paragraph(s.pendingThought)]
            && r.note == s.note && r.pendingThought == []
  {
  }

  /** The highlight `h` is either already emitted or still the current one. */
  predicate Holds(s: Body, h: string) {
    Fence(h) in s.out || s.note.highlight == h
  }

  lemma InPrefix<T>(x: T, a: seq<T>, b: seq<T>)
    requires x in a && a <= b
    ensures x in b
  {
    var j :| 0 <= j < |a| && a[j] == x;
    assert b[j] == x;
  }

  lemma ApplyKeepsHighlight(s: Body, k: LineKind, h: string)
    requires h != [] && Holds(s, h)
    ensures Holds(Apply(s, k), h)
  {
    var r := Apply(s, k);
    if Fence(h) in s.out {
      InPrefix(Fence(h), s.out, r.out);
    } else if r.note.highlight != h {
      assert Fence(h) in Flush(s).out[|s.out|..];
      var f := Flush(s);
      match k
      case SkipLine =>
      case HeadingLine(_) =>
        InPrefix(Fence(h), f.out, r.out);
      case HighlightLine(_) =>
      case QuoteLine(_) =>
      case ThoughtLine(_) =>
    }
  }

  lemma {:induction false} RunKeepsHighlight(lines: seq<string>, s: Body, h: string)
    requires s.i <= |lines| && h != [] && Holds(s, h)
    ensures Holds(RunBody(lines, s), h)
    decreases |lines| - s.i
  {
    if s.i < |lines| {
      ApplyKeepsHighlight(s, Classify(lines, s.i), h);
      RunKeepsHighlight(lines, Step(lines, s), h);
    }
  }

  lemma {:induction false} RunReachesHighlight(lines: seq<string>, s: Body, k: nat)
    requires s.i <= k < |lines| && Classify(lines, k).HighlightLine?
    ensures Holds(RunBody(lines, s), Classify(lines, k).text)
    decreases k - s.i
  {
    var h := Classify(lines, k).text;
    var next := Step(lines, s);
    if s.i == k {
      RunKeepsHighlight(lines, next, h);
    } else {
      RunReachesHighlight(lines, next, k);
    }
  }

  /** Every highlight line of the body ends up in the output as a fenced
      block: highlights are never dropped. */
  lemma HighlightsNeverLost(lines: seq<string>, start: nat, k: nat)
    requires start <= k < |lines|
    ensures Classify(lines, k).HighlightLine? ==> Fence(Classify(lines, k).text) in Assemble(lines, start)
  {
    if !Classify(lines, k).HighlightLine? {
      return;
    }
    var h := Classify(lines, k).text;
    var s := RunBody(lines, Start(start));
    RunReachesHighlight(lines, Start(start), k);
    if Fence(h) in s.out {
      InPrefix(Fence(h), s.out, Finish(s));
    } else {
      assert Fence(h) in Flush(s).out[|s.out|..];
      InPrefix(Fence(h), Flush(s).out, Finish(s));
    }
  }

  lemma {:induction false} RunKeepsBlock(lines: seq<string>, s: Body, b: Block)
    requires s.i <= |lines| && b in s.out
    ensures b in RunBody(lines, s).out
  {
    InPrefix(b, s.out, RunBody(lines, s).out);
  }

  lemma {:induction false} RunReachesHeading(lines: seq<string>, s: Body, k: nat)
    requires s.i <= k < |lines| && Classify(lines, k).HeadingLine?
    ensures Heading(Classify(lines, k).text) in RunBody(lines, s).out
    decreases k - s.i
  {
    var next := Step(lines, s);
    if s.i == k {
      RunKeepsBlock(lines, next, Heading(Classify(lines, k).text));
    } else {
      RunReachesHeading(lines, next, k);
    }
  }

  /** Every heading line of the body ends up in the output as a heading. */
  lemma HeadingsNeverLost(lines: seq<string>, start: nat, k: nat)
    requires start <= k < |lines|
    ensures Classify(lines, k).HeadingLine? ==> Heading(Classify(lines, k).text) in Assemble(lines, start)
  {
    if !Classify(lines, k).HeadingLine? {
      return;
    }
    var s := RunBody(lines, Start(start));
    RunReachesHeading(lines, Start(start), k);
    InPrefix(Heading(Classify(lines, k).text), s.out, Finish(s));
  }
}
