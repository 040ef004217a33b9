/** The records that flow through the pipeline: a fetched headline, the three
    sentiment labels and a scored headline. */
module Headlines {
  import opened Wrappers

  /** A headline as an adapter produces it. Either field may be `undefined`
      (an upstream item without a title, an article without a source name). */
  datatype Headline = Headline(title: Option<string>, source: Option<string>)

  /** The three sentiment labels. */
  datatype Label = Positive | Negative | Neutral {

    /** The label as the source spells it (`'positive'`, ...). */
    function Name(): string {
      match this
      case Positive => "positive"
      case Negative => "negative"
      case Neutral => "neutral"
    }

    /** `label.toUpperCase()`. */
    function UpperName(): (s: string)
      ensures |s| == |Name()|
      ensures forall i :: 0 <= i < |s| ==> s[i] == UpperChar(Name()[i])
    {
      match this
      case Positive => "POSITIVE"
      case Negative => "NEGATIVE"
      case Neutral => "NEUTRAL"
    }
  }

  /** `Min(n, len)`: the length of `xs.slice(0, n)` when `xs` has length `len`. */
  function Min(a: nat, b: nat): nat {
    if a < b then a else b
  }

  /** Upper-casing of one ASCII letter; other characters are kept. */
  function UpperChar(c: char): char {
    if 'a' <= c <= 'z' then (c as int - 32) as char else c
  }

  /** A headline after scoring. `source` is always a string here, and
      `sentiment` is the label of `score`. The float `comparative` field is
      not modelled. */
  datatype ScoredHeadline = ScoredHeadline(
    title: Option<string>,
    source: string,
    score: int,
    sentiment: Label)

  /** JavaScript truthiness of an optional string: `undefined`, `null` and the
      empty string are falsy. */
  predicate Truthy(s: Option<string>) {
    s.Some? && s.value != ""
  }

  /** `a || b` on optional strings: one of the two operands, truthy exactly
      when either operand is, and the left one whenever it is truthy. */
  function Or(a: Option<string>, b: Option<string>): (r: Option<string>)
    ensures r == a || r == b
    ensures Truthy(r) <==> Truthy(a) || Truthy(b)
    ensures Truthy(a) ==> r == a
  {
    if Truthy(a) then a else b
  }

  /** `a || d` with a string default `d`: a non-empty default makes the
      result non-empty, whatever `a` is. */
  function OrDefault(a: Option<string>, d: string): (r: string)
    ensures d != "" ==> r != ""
    ensures r == d || (a.Some? && r == a.value)
    ensures Truthy(a) ==> r == a.value
    ensures !Truthy(a) ==> r == d
  {
    if Truthy(a) then a.value else d
  }

  /** `${x}` of an optional string inside a template literal: an absent value
      prints as `undefined`. */
  function Interpolate(s: Option<string>): string {
    match s
    case Some(v) => v
    case None => "undefined"
  }
}
