/**
  A worked export: the sample WeChat Read paste of a book with one metadata
  line, two highlights and a quote/thought pair, run through the model line
  by line.
 */
module Scenarios {
  import opened JsText
  import opened Classifier
  import opened Markdown
  import opened Assembler
  import opened Reformatter

  const Sample: seq<string> := [
    "《示例之书》",
    "作者：某人  10个笔记",
    "◆ 第一章",
    "◆ 这是一句高亮",
    "原文：这是原文内容",
    "这是我的想法"
  ]

  /** A line with no whitespace at either end that mentions neither marker
      phrase is not noise. */
  lemma PlainLine(line: string)
    requires line != [] && !IsWhitespace(line[0]) && !IsWhitespace(line[|line| - 1])
    requires ThoughtStamp[0] !in line && AppSignature[3] !in line
    ensures Trim(line) == line && !IsNoise(line)
  {
    TrimmedIsFixed(line);
    NotIncludes(line, ThoughtStamp, 0);
    NotIncludes(line, AppSignature, 3);
  }

  lemma HighlightKind(lines: seq<string>, i: nat)
    requires i < |lines| && lines[i] != []
    requires !IsWhitespace(lines[i][0]) && !IsWhitespace(lines[i][|lines[i]| - 1])
    requires ThoughtStamp[0] !in lines[i] && AppSignature[3] !in lines[i]
    requires StartsWith(lines[i], HighlightMark)
    ensures Classify(lines, i) == HighlightLine(lines[i])
  {
    PlainLine(lines[i]);
    HighlightIsNeverHeading(lines, i);
  }

  lemma QuoteKind(lines: seq<string>, i: nat, q: string)
    requires i < |lines| && lines[i] == QuoteMark + q
    requires !IsWhitespace(lines[i][|lines[i]| - 1])
    requires ThoughtStamp[0] !in lines[i] && AppSignature[3] !in lines[i]
    ensures Classify(lines, i) == QuoteLine(q)
  {
    PlainLine(lines[i]);
    assert StartsWith(lines[i], QuoteMark);
  }

  /** A long plain line with nothing after it is a thought. */
  lemma LastThoughtKind(lines: seq<string>)
    requires |lines| > 0 && var line := lines[|lines| - 1];
      && line != [] && !IsWhitespace(line[0]) && !IsWhitespace(line[|line| - 1])
      && ThoughtStamp[0] !in line && AppSignature[3] !in line
      && !IsContentShaped(line) && |line| > ShortHeadingMax
    ensures Classify(lines, |lines| - 1) == ThoughtLine(lines[|lines| - 1])
  {
    PlainLine(lines[|lines| - 1]);
  }

  /** `KindN` pins the classification of sample line N: lines 2 and 3 are
      highlights, line 4 a quote, line 5 (the last) a thought. */
  lemma Kind2()
    ensures Classify(Sample, 2) == HighlightLine(Sample[2])
  {
    HighlightKind(Sample, 2);
  }

  lemma Kind3()
    ensures Classify(Sample, 3) == HighlightLine(Sample[3])
  {
    HighlightKind(Sample, 3);
  }

  lemma Kind4()
    ensures Classify(Sample, 4) == QuoteLine("这是原文内容")
  {
    QuoteKind(Sample, 4, "这是原文内容");
  }

  lemma Kind5()
    ensures Classify(Sample, 5) == ThoughtLine(Sample[5])
  {
    LastThoughtKind(Sample);
  }

  /** `TrimmedN` pins that sample line N has no whitespace to trim. */
  lemma Trimmed0()
    ensures Trim(Sample[0]) == Sample[0]
  {
    PlainLine(Sample[0]);
  }

  lemma Trimmed1()
    ensures Trim(Sample[1]) == Sample[1]
  {
    PlainLine(Sample[1]);
  }

  lemma Trimmed2()
    ensures Trim(Sample[2]) == Sample[2]
  {
    PlainLine(Sample[2]);
  }

  lemma SampleTitle()
    ensures FirstTitle(Sample, 0)
  {
    Trimmed0();
    assert IsTitleLine(Sample[0]);
  }

  lemma SampleMetaEnd()
    ensures PreambleEnd(Sample, 1, 2)
  {
    Trimmed1();
    Trimmed2();
    assert !IsContentStart(Sample[1]);
    assert IsContentStart(Sample[2]);
  }

  lemma SampleMeta()
    ensures Cleaned(Sample[1..2]) == [Sample[1]]
  {
    Trimmed1();
    assert Sample[1..2] == [Sample[1]];
  }

  /** The title loop stops at the first line; the metadata loop keeps the
      second line and stops at the third, which starts with "◆". */
  lemma SampleHeader()
    ensures TitleScan(Sample, 0) == 0
    ensures MetaScan(Sample, 1) == Preamble([Sample[1]], 2)
  {
    SampleTitle();
    SampleMetaEnd();
    SampleMeta();
    TitleScanFindsFirst(Sample, 0);
    MetaScanStopsAt(Sample, 1, 2);
  }

  /** `SN` is the loop state before sample line N (S6: after the last line):
      S3 holds the first highlight, S4 the second with the first fenced, S5
      the pending quote with both highlights fenced, S6 everything emitted. */
  const S3: Body := Body(3, Note(Sample[2], []), [], [], [])
  const S4: Body := Body(4, Note(Sample[3], []), [], [], [Fence(Sample[2])])
  const S5: Body := Body(5, EmptyNote, "这是原文内容", [], [Fence(Sample[2]), Fence(Sample[3])])
  const S6: Body := Body(6, EmptyNote, [], [], [Fence(Sample[2]), Fence(Sample[3]), BlockQuote("这是原文内容"), Paragraph(Sample[5])])

  lemma SampleStep2()
    ensures Step(Sample, Start(2)) == S3
  {
    Kind2();
  }

  lemma SampleStep3()
    ensures Step(Sample, S3) == S4
  {
    Kind3();
  }

  lemma SampleStep4()
    ensures Step(Sample, S4) == S5
  {
    Kind4();
  }

  lemma SampleStep5()
    ensures Step(Sample, S5) == S6
  {
    Kind5();
  }

  lemma SampleRun()
    ensures RunBody(Sample, Start(2)) == S6
  {
    SampleStep2();
    SampleStep3();
    SampleStep4();
    SampleStep5();
    RunFrom(S3);
    RunFrom(S4);
    RunFrom(S5);
    RunFrom(Start(2));
  }

  lemma RunFrom(s: Body)
    requires 2 <= s.i < |Sample|
    ensures RunBody(Sample, s) == RunBody(Sample, Step(Sample, s))
  {
  }

  /** The body: the "◆ 第一章" line is a fenced highlight, not a heading,
      because a "◆" line is never a heading; the quote/thought pair follows
      the second highlight. */
  lemma SampleBody()
    ensures Assemble(Sample, 2)
         == [Fence("◆ 第一章"), Fence("◆ 这是一句高亮"), BlockQuote("这是原文内容"), Paragraph("这是我的想法")]
  {
    SampleRun();
  }
}
