/** Sentiment classification of fetched headlines (`analyzeHeadlines`).
    The lexicon scorer is an external library; it is a parameter here, any
    total function from the text scored to an integer score. */
module Scoring {
  import opened Headlines

  /** The label of a score: its sign. */
  function Classify(score: int): (l: Label)
    ensures l == Positive <==> score > 0
    ensures l == Negative <==> score < 0
    ensures l == Neutral <==> score == 0
  {
    if score < 0 then Negative
    else if score > 0 then Positive
    else Neutral
  }

  /** The text handed to the scorer, `h.title || ''`: the match on the
      title agrees with JavaScript's `||` with an empty default, an empty
      title and a missing one both giving the empty string. */
  function ScoredText(h: Headline): (t: string)
    ensures t == OrDefault(h.title, "")
  {
    match h.title
    case Some(t) => t
    case None => ""
  }

  /** The scored form of one headline. */
  function AnalyzeOne(score: string -> int, h: Headline): (r: ScoredHeadline)
    ensures r.title == h.title
    ensures r.source == OrDefault(h.source, "unknown")
    ensures r.source != ""
    ensures r.score == score(ScoredText(h))
    ensures r.sentiment == Classify(r.score)
  {
    var s := score(ScoredText(h));
    ScoredHeadline(h.title, OrDefault(h.source, "unknown"), s, Classify(s))
  }

  /** `analyzeHeadlines`: scores every headline, keeping length and order. */
  function Analyze(score: string -> int, hs: seq<Headline>): (r: seq<ScoredHeadline>)
    ensures |r| == |hs|
    ensures forall i :: 0 <= i < |hs| ==>
      && r[i].title == hs[i].title
      && (Truthy(hs[i].source) ==> r[i].source == hs[i].source.value)
      && (!Truthy(hs[i].source) ==> r[i].source == "unknown")
      && r[i].score == score(ScoredText(hs[i]))
      && (r[i].sentiment == Positive <==> r[i].score > 0)
      && (r[i].sentiment == Negative <==> r[i].score < 0)
      && (r[i].sentiment == Neutral <==> r[i].score == 0)
  {
    seq(|hs|, i requires 0 <= i < |hs| => AnalyzeOne(score, hs[i]))
  }

  /** Analysing a batch is analysing its parts one after the other: no
      headline's result depends on its neighbours. */
  lemma AnalyzeAppend(score: string -> int, a: seq<Headline>, b: seq<Headline>)
    ensures Analyze(score, a + b) == Analyze(score, a) + Analyze(score, b)
  {
    var l, r := Analyze(score, a + b), Analyze(score, a) + Analyze(score, b);
    assert |l| == |r|;
    forall i | 0 <= i < |l| ensures l[i] == r[i] {
      if i < |a| {
        assert (a + b)[i] == a[i];
      } else {
        assert (a + b)[i] == b[i - |a|];
      }
    }
  }
}
