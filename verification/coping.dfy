/** The coping-strategy advisor of app.py: a fixed dictionary from label
    strings to suggestions, looked up with a generic fallback for any other
    string. */
module Coping {
  import opened Wrappers
  import opened Sentiment

  /** The reply for a sentiment string the dictionary does not know. */
  const Fallback: string := "Keep going, you're doing great!"

  /** The dictionary's entry for each label. */
  function Advice(l: Label): string {
    match l
    case VeryPositive => "Keep up the positive vibes! Consider sharing your good mood with others."
    case Positive => "It's great to see you're feeling positive. Keep doing what you're doing!"
    case Neutral => "Feeling neutral is okay. Consider engaging in activities you enjoy."
    case Negative => "It seems you're feeling down. Try to take a break and do something relaxing."
    case VeryNegative => "I'm sorry to hear that you're feeling very negative. Consider talking to a friend or seeking professional help."
  }

  /** No label's suggestion is the fallback text. */
  lemma AdviceIsNotFallback(l: Label)
    ensures Advice(l) != Fallback
  {
    match l
    case VeryPositive => assert Advice(VeryPositive) != Fallback;
    case Positive => assert Advice(Positive) != Fallback;
    case Neutral => assert Advice(Neutral) != Fallback;
    case Negative => assert Advice(Negative) != Fallback;
    case VeryNegative => assert Advice(VeryNegative) != Fallback;
  }

  /** provide_coping_strategy: the dictionary's keys are exactly the five label
      strings, so a lookup hits when the string parses as a label and misses
      otherwise, in which case the fallback is returned. */
  function ProvideCopingStrategy(sentiment: string): (s: string)
    ensures forall l :: Name(l) == sentiment ==> s == Advice(l)
    ensures (forall l :: Name(l) != sentiment) ==> s == Fallback
  {
    ParseLabelNoneIffUnnamed(sentiment);
    match ParseLabel(sentiment)
    case Some(l) =>
      assert forall k :: Name(k) == sentiment ==> k == l by {
        forall k ensures Name(k) == sentiment ==> k == l {
          NameInjective(k, l);
        }
      }
      Advice(l)
    case None => Fallback
  }

  /** The fallback is produced exactly for strings that name no label. */
  lemma FallbackIffUnknown(sentiment: string)
    ensures ProvideCopingStrategy(sentiment) == Fallback <==> forall l :: Name(l) != sentiment
  {
    if l :| Name(l) == sentiment {
      AdviceIsNotFallback(l);
    }
  }

  /** Whatever the scorer says about whatever text, the label analyze_sentiment
      returns always has its own suggestion: the fallback is dead code. */
  lemma FallbackUnreachable(score: string -> real, text: string)
    ensures ProvideCopingStrategy(Name(AnalyzeSentiment(score, text).sentiment)) != Fallback
  {
    AdviceIsNotFallback(AnalyzeSentiment(score, text).sentiment);
  }
}
