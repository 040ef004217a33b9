/** The two renderings of one run: the structured report object and the
    Markdown document (`makeMarkdownReport`). */
module Rendering {
  import opened Text
  import opened Headlines
  import opened Aggregation

  /** How many analysed headlines the structured report lists. */
  const TopCount: nat := 20
  /** How many analysed headlines the Markdown document lists. */
  const BulletCount: nat := 30
  /** How many lines precede the bullets in the Markdown document. */
  const HeaderLines: nat := 8

  /** The structured report. `date` and `timestamp` come from the clock. */
  datatype Report = Report(
    date: string,
    overallSentiment: Label,
    stats: Stats,
    totalHeadlines: nat,
    topHeadlines: seq<ScoredHeadline>,
    timestamp: string)

  /** The report object built from the summary and the analysed headlines. */
  function BuildReport(date: string, summary: Summary, analyzed: seq<ScoredHeadline>, timestamp: string): (r: Report)
    ensures r.date == date && r.timestamp == timestamp
    ensures r.overallSentiment == summary.overall && r.stats == summary.stats
    ensures r.totalHeadlines == |analyzed|
    ensures |r.topHeadlines| == Min(TopCount, |analyzed|)
    ensures forall i :: 0 <= i < |r.topHeadlines| ==> r.topHeadlines[i] == analyzed[i]
  {
    Report(date, summary.overall, summary.stats, |analyzed|,
           analyzed[..Min(TopCount, |analyzed|)], timestamp)
  }

  /** With at most twenty headlines the report lists all of them, so its
      total equals the length of its list; otherwise the list is cut to the
      first twenty. */
  lemma ReportListsAllWhenSmall(date: string, summary: Summary, analyzed: seq<ScoredHeadline>, timestamp: string)
    ensures var r := BuildReport(date, summary, analyzed, timestamp);
      if |analyzed| <= TopCount
      then r.topHeadlines == analyzed && r.totalHeadlines == |r.topHeadlines|
      else r.topHeadlines == analyzed[..TopCount] && r.totalHeadlines > |r.topHeadlines|
  {
  }

  // ----- Markdown -----

  /** The mojibake byte sequences the source prints: an em dash and three
      emoji whose UTF-8 bytes were read as Windows-1252 (the bytes that have
      no Windows-1252 character are lost). */
  const Dash: string := "\U{00E2}\U{20AC}\U{201D}"
  const ThumbsUp: string := "\U{00F0}\U{0178}\U{2018}"
  const ThumbsDown: string := "\U{00F0}\U{0178}\U{2018}\U{017D}"
  const NeutralFace: string := "\U{00F0}\U{0178}\U{02DC}"

  /** The glyph a bullet carries for its label. */
  function Glyph(l: Label): string {
    match l
    case Positive => ThumbsUp
    case Negative => ThumbsDown
    case Neutral => NeutralFace
  }

  /** The title line, with the report's date. */
  function TitleLine(date: string): string {
    "# Crypto News Sentiment Report " + Dash + " " + date
  }

  /** The line with the upper-cased overall label. */
  function OverallLine(overall: Label): string {
    "**Overall sentiment:** **" + overall.UpperName() + "**"
  }

  /** The line with the three counts in decimal. */
  function StatsLine(st: Stats): string {
    "**Stats:** Positive: " + NatToString(st.positive)
      + " " + Dash + " Negative: " + NatToString(st.negative)
      + " " + Dash + " Neutral: " + NatToString(st.neutral)
  }

  /** The eight lines before the list of headlines. */
  function Header(date: string, summary: Summary): (h: seq<string>)
    ensures |h| == HeaderLines
  {
    [TitleLine(date), "", OverallLine(summary.overall), "", StatsLine(summary.stats),
     "", "## Top headlines", ""]
  }

  /** The bullet line of one analysed headline. */
  function Bullet(it: ScoredHeadline): string {
    "- " + Glyph(it.sentiment) + " **" + it.sentiment.UpperName() + "** " + Dash
      + " " + Interpolate(it.title) + " (" + it.source + ")"
  }

  /** The bullets of the given headlines, in order. */
  function Bullets(items: seq<ScoredHeadline>): (b: seq<string>)
    ensures |b| == |items|
    ensures forall i :: 0 <= i < |items| ==> b[i] == Bullet(items[i])
  {
    seq(|items|, i requires 0 <= i < |items| => Bullet(items[i]))
  }

  /** Extending the listed prefix by one headline adds its bullet. */
  lemma BulletsSnoc(items: seq<ScoredHeadline>, i: nat)
    requires i < |items|
    ensures Bullets(items[..i + 1]) == Bullets(items[..i]) + [Bullet(items[i])]
  {
    var l, r := Bullets(items[..i + 1]), Bullets(items[..i]) + [Bullet(items[i])];
    assert |l| == |r|;
    forall k | 0 <= k < |l| ensures l[k] == r[k] {
      assert items[..i + 1][k] == items[k];
    }
  }

  /** The lines of the Markdown document before they are joined. */
  function MarkdownLines(date: string, summary: Summary, items: seq<ScoredHeadline>): seq<string> {
    Header(date, summary) + Bullets(items[..Min(BulletCount, |items|)])
  }

  /** `makeMarkdownReport`: pushes the header lines, then one bullet for each
      of the first thirty headlines, and joins the lines with newlines. */
  method MakeMarkdownReport(date: string, summary: Summary, items: seq<ScoredHeadline>) returns (md: string)
    ensures md == Join(MarkdownLines(date, summary, items))
  {
    var header := Header(date, summary);
    var lines := header;
    var n := Min(BulletCount, |items|);
    var i := 0;
    while i < n
      invariant 0 <= i <= n
      invariant lines == header + Bullets(items[..i])
    {
      BulletsSnoc(items, i);
      lines := lines + [Bullet(items[i])];
      i := i + 1;
    }
    md := Join(lines);
  }

  /** Shape of the document: eight fixed lines, then one bullet per listed
      headline, in order, for at most thirty headlines. */
  lemma MarkdownShape(date: string, summary: Summary, items: seq<ScoredHeadline>)
    ensures var lines := MarkdownLines(date, summary, items);
      && |lines| == HeaderLines + Min(BulletCount, |items|)
      && lines[0] == TitleLine(date)
      && lines[2] == OverallLine(summary.overall)
      && lines[4] == StatsLine(summary.stats)
      && lines[6] == "## Top headlines"
      && forall i :: 0 <= i < |lines| - HeaderLines ==> lines[HeaderLines + i] == Bullet(items[i])
  {
  }

  /** Reads the label back from the glyph that starts a bullet line. */
  function GlyphLabel(line: string): Label {
    if |line| > 4 && line[4] == '\U{02DC}' then Neutral
    else if |line| > 5 && line[5] == '\U{017D}' then Negative
    else Positive
  }

  /** Each bullet's glyph identifies its headline's label, so the rendering
      keeps every label apart (although the thumbs-up glyph is a prefix of the
      thumbs-down glyph). */
  lemma GlyphIdentifiesLabel(it: ScoredHeadline)
    ensures GlyphLabel(Bullet(it)) == it.sentiment
  {
    var b := Bullet(it);
    assert b[..2] == "- ";
    assert b[2..2 + |Glyph(it.sentiment)| + 1] == Glyph(it.sentiment) + " ";
  }

  /** Lines with no newline: a headline's title and source. */
  predicate OneLine(it: ScoredHeadline) {
    NoNewline(Interpolate(it.title)) && NoNewline(it.source)
  }

  lemma BulletIsOneLine(it: ScoredHeadline)
    requires OneLine(it)
    ensures NoNewline(Bullet(it))
  {
    var g, u := Glyph(it.sentiment), it.sentiment.UpperName();
    assert NoNewline(g) && NoNewline(u) && NoNewline(Dash);
    var b := "- " + g;
    NoNewlineConcat("- ", g);
    NoNewlineConcat(b, " **");
    b := b + " **";
    NoNewlineConcat(b, u);
    b := b + u;
    NoNewlineConcat(b, "** ");
    b := b + "** ";
    NoNewlineConcat(b, Dash);
    b := b + Dash;
    NoNewlineConcat(b, " ");
    b := b + " ";
    NoNewlineConcat(b, Interpolate(it.title));
    b := b + Interpolate(it.title);
    NoNewlineConcat(b, " (");
    b := b + " (";
    NoNewlineConcat(b, it.source);
    b := b + it.source;
    NoNewlineConcat(b, ")");
  }

  lemma TitleLineIsOneLine(date: string)
    requires NoNewline(date)
    ensures NoNewline(TitleLine(date))
  {
    var t := "# Crypto News Sentiment Report ";
    assert NoNewline(t) && NoNewline(Dash);
    NoNewlineConcat(t, Dash);
    NoNewlineConcat(t + Dash, " ");
    NoNewlineConcat(t + Dash + " ", date);
  }

  lemma OverallLineIsOneLine(overall: Label)
    ensures NoNewline(OverallLine(overall))
  {
    var t, u := "**Overall sentiment:** **", overall.UpperName();
    assert NoNewline(t) && NoNewline(u);
    NoNewlineConcat(t, u);
    NoNewlineConcat(t + u, "**");
  }

  lemma StatsLineIsOneLine(st: Stats)
    ensures NoNewline(StatsLine(st))
  {
    var p, n, z := NatToString(st.positive), NatToString(st.negative), NatToString(st.neutral);
    var sep := " " + Dash;
    assert NoNewline(Dash);
    NoNewlineConcat(" ", Dash);
    var l := "**Stats:** Positive: ";
    NoNewlineConcat(l, p);
    l := l + p;
    NoNewlineConcat(l, sep);
    l := l + sep;
    NoNewlineConcat(l, " Negative: ");
    l := l + " Negative: ";
    NoNewlineConcat(l, n);
    l := l + n;
    NoNewlineConcat(l, sep);
    l := l + sep;
    NoNewlineConcat(l, " Neutral: ");
    l := l + " Neutral: ";
    NoNewlineConcat(l, z);
    l := l + z;
    assert StatsLine(st) == l;
  }

  /** Every line of the rendered document is free of newlines when the date,
      titles and sources are. */
  lemma LinesAreOneLine(date: string, summary: Summary, items: seq<ScoredHeadline>)
    requires NoNewline(date)
    requires forall i :: 0 <= i < Min(BulletCount, |items|) ==> OneLine(items[i])
    ensures forall i :: 0 <= i < |MarkdownLines(date, summary, items)| ==>
      NoNewline(MarkdownLines(date, summary, items)[i])
  {
    var h := Header(date, summary);
    var b := Bullets(items[..Min(BulletCount, |items|)]);
    TitleLineIsOneLine(date);
    OverallLineIsOneLine(summary.overall);
    StatsLineIsOneLine(summary.stats);
    assert forall i :: 0 <= i < |h| ==> NoNewline(h[i]);
    forall i | 0 <= i < |b| ensures NoNewline(b[i]) {
      BulletIsOneLine(items[i]);
    }
    assert MarkdownLines(date, summary, items) == h + b;
  }

  /** Line count of the rendered document: when the date, titles and
      sources hold no newline, splitting the document at newlines gives back
      exactly its eight header lines and min(30, n) bullets. */
  lemma MarkdownLineCount(date: string, summary: Summary, items: seq<ScoredHeadline>)
    requires NoNewline(date)
    requires forall i :: 0 <= i < Min(BulletCount, |items|) ==> OneLine(items[i])
    ensures var lines := Split(Join(MarkdownLines(date, summary, items)));
      && lines == MarkdownLines(date, summary, items)
      && |lines| == HeaderLines + Min(BulletCount, |items|)
  {
    LinesAreOneLine(date, summary, items);
    SplitJoin(MarkdownLines(date, summary, items));
  }
}
