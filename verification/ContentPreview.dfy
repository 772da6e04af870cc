// The preview of an article (src/content-preview/content-preview-analyzer.service.ts).
module ContentPreview {
  import opened Rounding
  import opened TextRuns

  const MAX_EXCERPT_LENGTH := 160
  const WORDS_PER_MINUTE := 200

  // A UTF-16 code unit, of which JavaScript strings are made. All white space is of one unit.
  newtype Unit = n: int | 0 <= n < 0x1_0000

  type Text = seq<Unit>

  const BLANK: Unit := 0x20

  datatype ArticlePreview = ArticlePreview(excerpt: Text, wordCount: nat, readingTimeMinutes: nat)
  datatype Analysis = BlankBody | Analysed(preview: ArticlePreview)

  // The units matched by `\s` and removed by `trim`: white space and line terminators of ECMA-262.
  predicate IsSpace(c: Unit) {
    || 0x09 <= c <= 0x0d || c == 0x20 || c == 0xa0 || c == 0x1680 || 0x2000 <= c <= 0x200a
    || c == 0x2028 || c == 0x2029 || c == 0x202f || c == 0x205f || c == 0x3000 || c == 0xfeff
  }

  // One by one.
  lemma SpaceIff(c: Unit)
    ensures IsSpace(c) <==>
            c in {0x09, 0x0a, 0x0b, 0x0c, 0x0d, 0x20, 0xa0, 0x1680, 0x2000, 0x2001, 0x2002, 0x2003, 0x2004, 0x2005,
                  0x2006, 0x2007, 0x2008, 0x2009, 0x200a, 0x2028, 0x2029, 0x202f, 0x205f, 0x3000, 0xfeff}
  {
  }

  function Space(): Unit -> bool {
    c => IsSpace(c)
  }

  function Normalized(body: Text): Text {
    Strip(Collapse(body, Space(), BLANK), Space())
  }

  function Analyze(body: Text): Analysis {
    if Strip(body, Space()) == [] then BlankBody
    else
      var normalized := Normalized(body);
      var wordCount := if normalized == [] then 0 else |Split(normalized, BLANK)|;
      Analysed(ArticlePreview(
        if |normalized| <= MAX_EXCERPT_LENGTH then normalized else normalized[..MAX_EXCERPT_LENGTH],
        wordCount,
        CeilDiv(wordCount, WORDS_PER_MINUTE)))
  }

  // ---------- Blank bodies ----------

  ghost predicate Blank(body: Text) {
    forall i :: 0 <= i < |body| ==> IsSpace(body[i])
  }

  lemma {:induction false} StripsToNothing(s: Text, drop: Unit -> bool)
    ensures SkipLeft(s, drop) == [] <==> forall i :: 0 <= i < |s| ==> drop(s[i])
    decreases |s|
  {
    if s != [] && drop(s[0]) {
      StripsToNothing(s[1..], drop);
      assert forall i :: 0 <= i < |s| ==> s[i] == if i == 0 then s[0] else s[1..][i - 1];
    }
  }

  lemma {:induction false} KeepsTheFirst(s: Text, drop: Unit -> bool)
    requires s != [] && !drop(s[0])
    ensures SkipRight(s, drop) != []
    decreases |s|
  {
    if drop(s[|s| - 1]) {
      KeepsTheFirst(s[..|s| - 1], drop);
    }
  }

  lemma {:induction false} BlankHasNoRuns(s: Text)
    ensures Blank(s) <==> Runs(s, Space()) == []
    decreases |s|
  {
    if s != [] {
      BlankHasNoRuns(s[1..]);
      assert forall i :: 0 <= i < |s| ==> s[i] == if i == 0 then s[0] else s[1..][i - 1];
    }
  }

  // The call is refused exactly for a body of nothing but white space.
  lemma RefusedIffBlank(body: Text)
    ensures Analyze(body) == BlankBody <==> Blank(body)
  {
    StripsToNothing(body, Space());
    if SkipLeft(body, Space()) != [] {
      KeepsTheFirst(SkipLeft(body, Space()), Space());
    }
  }

  // ---------- What is counted ----------

  // The normalised text is the words of the body, in order, one space apart; the pipeline counts exactly
  // those words: one for each place where a maximal run of non-space begins.
  lemma WordsOfBody(body: Text)
    requires !Blank(body)
    ensures Analyze(body).Analysed?
    ensures var words := Runs(body, Space());
            && Normalized(body) == Join(words, BLANK)
            && Split(Normalized(body), BLANK) == words
            && Analyze(body).preview.wordCount == |words| == Starts(body, Space(), |body|)
            && |words| >= 1
  {
    var words := Runs(body, Space());
    RefusedIffBlank(body);
    BlankHasNoRuns(body);
    CollapseStripIsJoin(body, Space(), Space(), BLANK);
    RunsAreRuns(body, Space());
    JoinEnds(words, Space(), BLANK);
    SplitJoin(words, BLANK);
    RunsCountStarts(body, Space());
  }

  // Analysing the normalised text gives the same preview.
  lemma AnalysisOfNormalized(body: Text)
    requires !Blank(body)
    ensures Normalized(Normalized(body)) == Normalized(body)
    ensures Analyze(Normalized(body)) == Analyze(body)
  {
    PipelineIdempotent(body, Space(), Space(), BLANK);
    WordsOfBody(body);
    RunsAreRuns(body, Space());
    JoinEnds(Runs(body, Space()), Space(), BLANK);
    assert !IsSpace(Normalized(body)[0]);
    RefusedIffBlank(Normalized(body));
  }

  // The excerpt is the longest prefix of the words within its bound; it is neither empty nor padded on the
  // left. The reading time is the least number of minutes that covers the words.
  lemma ExcerptAndTime(body: Text)
    requires !Blank(body)
    ensures Analyze(body).Analysed?
    ensures var p := Analyze(body).preview;
            && 1 <= |p.excerpt| <= 160
            && p.excerpt <= Join(Runs(body, Space()), BLANK)
            && (|p.excerpt| < 160 ==> p.excerpt == Join(Runs(body, Space()), BLANK))
            && !IsSpace(p.excerpt[0])
            && p.readingTimeMinutes >= 1
            && 200 * (p.readingTimeMinutes - 1) < p.wordCount <= 200 * p.readingTimeMinutes
  {
    WordsOfBody(body);
    RunsAreRuns(body, Space());
    JoinEnds(Runs(body, Space()), Space(), BLANK);
    CeilDivBounds(Analyze(body).preview.wordCount, WORDS_PER_MINUTE);
  }
}
