/** The sentiment classifier of app.py: a polarity score, produced by an
    external text-scoring library, is bucketed into one of five labels by a
    first-match-wins chain of threshold comparisons. */
module Sentiment {
  import opened Wrappers

  /** The five labels the classifier can return, in increasing order of mood. */
  datatype Label = VeryNegative | Negative | Neutral | Positive | VeryPositive

  /** Position of a label on the scale VeryNegative < ... < VeryPositive. */
  function Rank(l: Label): nat {
    match l
    case VeryNegative => 0
    case Negative => 1
    case Neutral => 2
    case Positive => 3
    case VeryPositive => 4
  }

  /** The string the program uses for each label (the keys of the strategy table). */
  function Name(l: Label): string {
    match l
    case VeryNegative => "Very Negative"
    case Negative => "Negative"
    case Neutral => "Neutral"
    case Positive => "Positive"
    case VeryPositive => "Very Positive"
  }

  /** The label a display string stands for, if any: the key match the
      program's strategy dictionary performs. */
  function ParseLabel(s: string): (r: Option<Label>)
    ensures r.Some? ==> Name(r.value) == s
  {
    if s == Name(VeryPositive) then Some(VeryPositive)
    else if s == Name(Positive) then Some(Positive)
    else if s == Name(Neutral) then Some(Neutral)
    else if s == Name(Negative) then Some(Negative)
    else if s == Name(VeryNegative) then Some(VeryNegative)
    else None
  }

  /** Every label's display string parses back to that label. */
  lemma ParseName(l: Label)
    ensures ParseLabel(Name(l)) == Some(l)
  {
  }

  /** A string parses to nothing exactly when it is no label's display string. */
  lemma ParseLabelNoneIffUnnamed(s: string)
    ensures ParseLabel(s) == None <==> forall l :: Name(l) != s
  {
  }

  /** Distinct labels have distinct display strings. */
  lemma NameInjective(a: Label, b: Label)
    ensures Name(a) == Name(b) <==> a == b
  {
  }

  /** The interval of polarities each label stands for, stated per label and
      independently of the order in which the program tests them. */
  predicate InBucket(l: Label, p: real) {
    match l
    case VeryPositive => 0.5 < p
    case Positive => 0.1 < p <= 0.5
    case Neutral => -0.1 <= p <= 0.1
    case Negative => -0.5 < p < -0.1
    case VeryNegative => p <= -0.5
  }

  /** The number of thresholds a polarity reaches, reading the five buckets
      as four cut points: -0.5 (strict), -0.1 (inclusive), 0.1 (strict) and
      0.5 (strict). */
  function ThresholdsReached(p: real): (n: nat)
    ensures n <= 4
  {
    (if -0.5 < p then 1 else 0)
    + (if -0.1 <= p then 1 else 0)
    + (if 0.1 < p then 1 else 0)
    + (if 0.5 < p then 1 else 0)
  }

  /** The bucketing chain of analyze_sentiment, tested in the program's order. */
  function Classify(p: real): (l: Label)
    ensures InBucket(l, p)
    ensures Rank(l) == ThresholdsReached(p)
  {
    if p > 0.5 then VeryPositive
    else if 0.1 < p <= 0.5 then Positive
    else if -0.1 <= p <= 0.1 then Neutral
    else if -0.5 < p < -0.1 then Negative
    else VeryNegative
  }

  /** Exactly one bucket holds any polarity, and it is the one Classify picks. */
  lemma BucketsPartition(p: real)
    ensures InBucket(Classify(p), p)
    ensures forall l :: InBucket(l, p) ==> l == Classify(p)
  {
  }

  /** Classify(p) is l exactly when p lies in l's bucket. */
  lemma ClassifyIffInBucket(l: Label, p: real)
    ensures Classify(p) == l <==> InBucket(l, p)
  {
  }

  /** A higher polarity never gets a lower label. */
  lemma ClassifyMonotone(p: real, q: real)
    requires p <= q
    ensures Rank(Classify(p)) <= Rank(Classify(q))
  {
  }

  /** The exact values at and beside each threshold. */
  lemma ClassifyBoundaries()
    ensures Classify(0.51) == VeryPositive
    ensures Classify(0.5) == Positive
    ensures Classify(0.11) == Positive
    ensures Classify(0.1) == Neutral
    ensures Classify(0.0) == Neutral
    ensures Classify(-0.1) == Neutral
    ensures Classify(-0.11) == Negative
    ensures Classify(-0.49) == Negative
    ensures Classify(-0.5) == VeryNegative
  {
  }

  /** What analyze_sentiment returns: the label and the unchanged polarity. */
  datatype Analysis = Analysis(sentiment: Label, polarity: real)

  /** analyze_sentiment; `score` stands for the external polarity scorer. */
  function AnalyzeSentiment(score: string -> real, text: string): (a: Analysis)
    ensures a.polarity == score(text)
    ensures InBucket(a.sentiment, a.polarity)
  {
    var polarity := score(text);
    Analysis(Classify(polarity), polarity)
  }

  /** The label depends on the text only through its polarity. */
  lemma AnalysisDependsOnlyOnPolarity(score: string -> real, t1: string, t2: string)
    requires score(t1) == score(t2)
    ensures AnalyzeSentiment(score, t1) == AnalyzeSentiment(score, t2)
  {
  }
}
