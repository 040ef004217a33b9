/** One run of the analyser (`main`) without its side effects: fetch the
    headlines, score them, summarise them and render both outputs. Writing the
    two files, posting to the webhook and logging are not modelled; the clock
    readings are parameters. */
module Pipeline {
  import opened Text
  import opened Headlines
  import opened Scoring
  import opened Aggregation
  import opened Rendering
  import opened Sources

  /** What a run produces: the report object and the Markdown document, or
      the message it logs before exiting when no source could be read. */
  datatype RunOutcome = Completed(report: Report, markdown: string) | Failed(message: string)

  /** The process exit status of a run. */
  function ExitCode(o: RunOutcome): (code: nat)
    ensures code == 0 <==> o.Completed?
  {
    if o.Completed? then 0 else 1
  }

  /** The run: fetch with fallback, analyse, summarise, build the report and
      render the Markdown. It fails only when every source failed, with the
      feed's error; otherwise both outputs come from the same analysed
      headlines, and the report's counts add up to its total. */
  method Run(env: Env, net: Network, score: string -> int, date: string, timestamp: string)
    returns (outcome: RunOutcome)
    ensures var fetched := FirstSuccess(Attempts(env, net));
      && (outcome.Failed? <==> fetched.Err?)
      && (outcome.Failed? ==> outcome.message == Message(FromCoinDesk(net.coinDesk).error))
      && (outcome.Completed? ==>
            var analyzed := Analyze(score, fetched.value);
            && outcome.report == BuildReport(date, SummaryOf(analyzed), analyzed, timestamp)
            && outcome.markdown == Join(MarkdownLines(date, SummaryOf(analyzed), analyzed)))
    ensures outcome.Completed? ==>
      outcome.report.stats.Total() == outcome.report.totalHeadlines
  {
    var raw, _ := FetchHeadlines(env, net);
    if raw.Err? {
      OnlyFeedErrorEscapes(env, net);
      return Failed(Message(raw.error));
    }
    var analyzed := Analyze(score, raw.value);
    var summary := Summarize(analyzed);
    StatsTotal(analyzed);
    var report := BuildReport(date, summary, analyzed, timestamp);
    var md := MakeMarkdownReport(date, summary, analyzed);
    outcome := Completed(report, md);
  }

  /** How many headlines satisfy `p`. */
  function CountWhere(hs: seq<Headline>, p: Headline -> bool): nat {
    if |hs| == 0 then 0
    else CountWhere(hs[..|hs| - 1], p) + (if p(hs[|hs| - 1]) then 1 else 0)
  }

  /** End to end: the positive, negative and neutral counts of a run are the
      numbers of fetched headlines whose title scores above, below and at
      zero. */
  lemma {:induction false} StatsCountScores(score: string -> int, hs: seq<Headline>)
    ensures SummaryOf(Analyze(score, hs)).stats == Stats(
      CountWhere(hs, h => score(ScoredText(h)) > 0),
      CountWhere(hs, h => score(ScoredText(h)) < 0),
      CountWhere(hs, h => score(ScoredText(h)) == 0))
  {
    if |hs| > 0 {
      var init, last := hs[..|hs| - 1], hs[|hs| - 1];
      assert hs == init + [last];
      StatsCountScores(score, init);
      AnalyzeAppend(score, init, [last]);
      var a, b := Analyze(score, init), Analyze(score, [last]);
      CountAppend(a, b, Positive);
      CountAppend(a, b, Negative);
      CountAppend(a, b, Neutral);
      assert Labels(b) == [Classify(score(ScoredText(last)))];
    }
  }
}
