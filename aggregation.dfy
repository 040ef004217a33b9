/** Aggregation of scored headlines (`summarize`): the count of each label
    and the overall label by majority, ties going to neutral. */
module Aggregation {
  import opened Headlines

  /** The `stats` object: one count per label. */
  datatype Stats = Stats(positive: nat, negative: nat, neutral: nat) {
    function Total(): nat {
      positive + negative + neutral
    }
  }

  datatype Summary = Summary(stats: Stats, overall: Label)

  /** The labels of the scored headlines, in order. */
  function Labels(items: seq<ScoredHeadline>): (ls: seq<Label>)
    ensures |ls| == |items|
    ensures forall i :: 0 <= i < |items| ==> ls[i] == items[i].sentiment
  {
    seq(|items|, i requires 0 <= i < |items| => items[i].sentiment)
  }

  /** How many of the items carry label `l`. */
  function CountOf(items: seq<ScoredHeadline>, l: Label): nat {
    multiset(Labels(items))[l]
  }

  /** The overall label: the majority of positive over negative, neutral when
      they tie (including when there are no items at all). */
  function Overall(s: Stats): (l: Label)
    ensures l == Positive <==> s.positive > s.negative
    ensures l == Negative <==> s.negative > s.positive
    ensures l == Neutral <==> s.positive == s.negative
  {
    if s.positive > s.negative then Positive
    else if s.negative > s.positive then Negative
    else Neutral
  }

  /** What `summarize` returns for `items`, stated by counting. */
  function SummaryOf(items: seq<ScoredHeadline>): Summary {
    var stats := Stats(CountOf(items, Positive), CountOf(items, Negative), CountOf(items, Neutral));
    Summary(stats, Overall(stats))
  }

  /** `summarize`: one pass over the items, counting each label from zero. */
  method Summarize(items: seq<ScoredHeadline>) returns (s: Summary)
    ensures s.stats.positive == CountOf(items, Positive)
    ensures s.stats.negative == CountOf(items, Negative)
    ensures s.stats.neutral == CountOf(items, Neutral)
    ensures s.overall == Overall(s.stats)
    ensures s == SummaryOf(items)
  {
    var stats := Stats(0, 0, 0);
    var i := 0;
    while i < |items|
      invariant 0 <= i <= |items|
      invariant stats.positive == CountOf(items[..i], Positive)
      invariant stats.negative == CountOf(items[..i], Negative)
      invariant stats.neutral == CountOf(items[..i], Neutral)
    {
      assert Labels(items[..i + 1]) == Labels(items[..i]) + [items[i].sentiment];
      match items[i].sentiment {
        case Positive => stats := stats.(positive := stats.positive + 1);
        case Negative => stats := stats.(negative := stats.negative + 1);
        case Neutral => stats := stats.(neutral := stats.neutral + 1);
      }
      i := i + 1;
    }
    assert items[..i] == items;
    s := Summary(stats, Overall(stats));
  }

  /** Counting a batch is counting its parts. */
  lemma {:induction false} CountAppend(a: seq<ScoredHeadline>, b: seq<ScoredHeadline>, l: Label)
    ensures CountOf(a + b, l) == CountOf(a, l) + CountOf(b, l)
  {
    assert Labels(a + b) == Labels(a) + Labels(b);
  }

  /** One item is counted once, under its own label. */
  lemma CountSingle(x: ScoredHeadline)
    ensures CountOf([x], Positive) + CountOf([x], Negative) + CountOf([x], Neutral) == 1
  {
    assert Labels([x]) == [x.sentiment];
  }

  /** Count conservation: every item is counted under exactly one label, so
      the three counts add up to the number of items. */
  lemma {:induction false} StatsTotal(items: seq<ScoredHeadline>)
    ensures SummaryOf(items).stats.Total() == |items|
  {
    if |items| > 0 {
      var init, last := items[..|items| - 1], items[|items| - 1];
      StatsTotal(init);
      assert items == init + [last];
      CountAppend(init, [last], Positive);
      CountAppend(init, [last], Negative);
      CountAppend(init, [last], Neutral);
      CountSingle(last);
    }
  }

  /** With no items every count is zero and the overall label is neutral. */
  lemma EmptySummary()
    ensures SummaryOf([]) == Summary(Stats(0, 0, 0), Neutral)
  {
    assert Labels([]) == [];
  }
}
