# Mental-health support chatbot: decision and session core

This project models, in Dafny, the small deterministic core of a single-script
Streamlit chatbot (`app.py`). Each time the user submits a non-empty message,
the script does the following:

1. It appends the user turn `("You", text)` to the session's `messages` list.
2. It classifies the text. An external library gives a polarity score, and
   `analyze_sentiment` puts that score into one of five buckets: "Very
   Positive", "Positive", "Neutral", "Negative" or "Very Negative".
3. It looks up a canned coping suggestion for the label
   (`provide_coping_strategy`). A dictionary lookup has a fallback string.
4. It asks an external text generator for a reply (`generate_response`). A
   success is whitespace-stripped. A failure becomes the reply text
   `"Error: " + description`.
5. It appends the bot turn `("Bot", reply)`, then the mood record
   `(text, label, polarity)` to `mood_tracker`.

Modules:

- `Sentiment` (sentiment.dfy): the closed `Label` datatype, its display strings
  and their parse, the bucketing chain `Classify`, and an independent per-label
  interval definition `InBucket`. It also gives a threshold-count definition
  `ThresholdsReached` that the label's rank equals. `AnalyzeSentiment` takes
  the polarity scorer as a function parameter `score: string -> real`.
- `Coping` (coping.dfy): the suggestion table and the lookup with its fallback.
- `Generator` (generator.dfy): the abstract outcome of the generator call
  (`Generated(text)` or `Failed(description)`). It also models Python's
  `str.strip()` over the characters `str.isspace` accepts, and the
  error-to-string conversion.
- `Session` (session.dfy): the two append-only lists, their
  initialise-if-absent rule, one script run (`Step`) and a whole session
  (`Run`). `Consistent` is the invariant that ties the transcript to the mood
  history.
- `Wrappers` (wrappers.dfy): `Option`.

In the code the Negative test is the strict `-0.5 < polarity` (app.py:32),
so -0.5 falls through to "Very Negative".

The source stores the label's display string in `mood_tracker`. The model
stores the `Label` value. The string is always `Name(label)`.

## Model

| member | source | states |
|---|---|---|
| Sentiment.Classify | app.py:26-35 | The label chosen by the first-match chain lies in that label's own polarity interval, and its rank equals the number of the four thresholds (-0.5 strict, -0.1 inclusive, 0.1 strict, 0.5 strict) that the polarity reaches |
| Sentiment.BucketsPartition | app.py:26-35 | The five buckets are exhaustive and do not overlap: the chosen label's interval holds p, and every label whose interval holds p is the chosen one |
| Sentiment.ClassifyIffInBucket | app.py:26-35 | Classify(p) is l if and only if p lies in l's interval |
| Sentiment.ClassifyMonotone | app.py:26-35 | If p <= q, then the label of p ranks no higher than the label of q on Very Negative < Negative < Neutral < Positive < Very Positive |
| Sentiment.ClassifyBoundaries | app.py:26-35 | Pins the boundaries: 0.51 is Very Positive; 0.5 and 0.11 are Positive; 0.1, 0.0 and -0.1 are Neutral; -0.11 and -0.49 are Negative; -0.5 is Very Negative |
| Sentiment.AnalyzeSentiment | app.py:23-35 | Returns the scorer's polarity for the text unchanged, together with a label whose interval holds that polarity |
| Sentiment.AnalysisDependsOnlyOnPolarity | app.py:24-35 | Two texts with the same polarity get the same result, so the label is a deterministic function of the polarity |
| Sentiment.ParseLabel | app.py:38-45 | A string matched as a dictionary key maps to the label whose display string it is. The display strings (`Name`) are the five labels of app.py:27-35, verbatim: "Very Positive", "Positive", "Neutral", "Negative", "Very Negative" |
| Sentiment.ParseName | app.py:27-45 | Every label's display string is matched back to that same label |
| Sentiment.ParseLabelNoneIffUnnamed | app.py:38-45 | A string fails to match if and only if no label has it as its display string |
| Sentiment.NameInjective | app.py:27-35 | The five labels have five distinct display strings |
| Coping.AdviceIsNotFallback | app.py:38-45 | No label's suggestion equals the fallback text |
| Coping.ProvideCopingStrategy | app.py:37-45 | A label's display string gets that label's fixed suggestion (`Advice`, the five strings of app.py:39-43, verbatim). Any string that names no label gets "Keep going, you're doing great!" |
| Coping.FallbackIffUnknown | app.py:37-45 | The fallback is returned if and only if the string names no label |
| Coping.FallbackUnreachable | app.py:23-45 | For any scorer and any text, the label from analyze_sentiment never gets the fallback |
| Generator.LeadingSpaces | app.py:19 | Counts the leading characters that strip removes. They are all whitespace, and the next character is not |
| Generator.TrailingSpaces | app.py:19 | Counts the trailing characters that strip removes. They are all whitespace, and the character before them is not |
| Generator.Strip | app.py:19 | The result starts and ends with a non-whitespace character (or is empty). The input is that result with only whitespace before and after it. Whitespace (`IsSpace`) is the set Python's `str.isspace` accepts: U+0009-U+000D, U+001C-U+0020, U+0085, U+00A0, U+1680, U+2000-U+200A, U+2028, U+2029, U+202F, U+205F, U+3000 |
| Generator.StripPadded | app.py:19 | Cutting the leading whitespace and then the trailing whitespace leaves a trimmed string that the input pads with whitespace |
| Generator.StripUnique | app.py:19 | Any trimmed string that the input pads with whitespace on both sides is the strip result. So Strip's contract determines it |
| Generator.StripIdempotent | app.py:19 | Stripping a stripped reply changes nothing |
| Generator.GenerateResponse | app.py:15-21 | On success the reply is the generated text stripped of surrounding whitespace. On failure it is exactly "Error: " followed by the failure description |
| Generator.FailureIndistinguishable | app.py:15-21 | A failure with description d gives the same reply as a successful generation of "Error: " + d (d non-empty, not ending in whitespace), so there is no separate error signal |
| Session.Initialise | app.py:82-85 | Each list keeps its existing value if present and starts empty if absent, independently of the other |
| Session.InitialiseKeeps | app.py:82-85 | A rerun over a session that already holds both lists leaves the state unchanged, so a session is one initialisation followed by a chain of submit steps |
| Session.Step | app.py:99-112 | An accepted submission appends ("You", text) and then ("Bot", reply) to messages, and appends one (text, label, polarity) record to mood_tracker. Earlier entries stay unchanged. Without a submit, or with an empty message, the state is unchanged. Acceptance (`Accepted`) is the guard of app.py:99: Send pressed and a non-empty message |
| Session.SuggestedStrategy | app.py:99-105 | A coping strategy is computed exactly when the submission is accepted. It is the suggestion for the message's label and never the fallback |
| Session.FailedTurnStillAnswered | app.py:108-112 | A generator failure still appends the user turn and a bot turn reading "Error: " + description, and still appends a mood record |
| Session.StepExtends | app.py:99-112 | One run extends the state by its own text if the submission is accepted, and by nothing otherwise: two transcript entries and one mood record with that message, earlier entries kept |
| Session.ExtendsTransitive | app.py:99-112 | Two successive extensions of the lists compose into one extension by the concatenated texts |
| Session.AcceptedTexts | app.py:99 | Defined as the texts of the submissions that pass the submit guard, in order. Its contract adds only that there are at most as many texts as submissions and that none is empty. Membership and order are stated by the two lemmas below |
| Session.AcceptedTextsMembers | app.py:99 | Every submission that passes the guard has its text among the accepted texts. Every accepted text is the text of some submission that passes the guard |
| Session.AcceptedTextsSnoc | app.py:99 | One more submission adds its text at the end of the accepted texts if it passes the guard, and adds nothing otherwise. So the accepted texts are in submission order |
| Session.Run | app.py:99-112 | Over a sequence of script runs, the result `Extends` the start state by the accepted texts. Both lists only grow, and the old entries are a prefix of the new ones. Each accepted submission adds two transcript entries and one mood record. The new mood records carry the accepted messages, in order |
| Session.EmptyConsistent | app.py:82-85 | A fresh session (both lists absent) starts with two empty lists, which satisfy the invariant |
| Session.StepPreservesConsistent | app.py:99-112 | One run keeps the invariant. The transcript length is twice the mood-history length. Transcript pairs alternate a You entry holding record i's message with a Bot entry. Each record holds the scorer's polarity for its message and that polarity's label |
| Session.RunPreservesConsistent | app.py:99-112 | Any sequence of runs keeps the invariant |
| Session.SessionInvariant | app.py:82-112 | From a fresh session, after any submissions: the mood history has one record per accepted message, and the transcript has twice as many entries |

## Left out

- The polarity computation of the external text-scoring library (app.py:24-25) is not modelled. It is the function parameter `score`. No range is assumed for it, because no property here needs one.
- The generative-model configuration, the API key and the network call (app.py:9-10, 17-18) are not modelled. They are the `Outcome` parameter of each submission. What exception text `str(e)` would produce is likewise left to the `description` field.
- Floating-point semantics (rounding, NaN) are not modelled. Polarity is a Dafny `real`, and only comparisons against the constants ±0.1 and ±0.5 matter.
- The dictionary in `provide_coping_strategy` is modelled as the equivalent key match (`ParseLabel`) followed by a label-indexed table (`Advice`), not as a literal `map`.
- Streamlit rendering is not modelled: the message bubbles (app.py:59-77), the disclaimer (app.py:47-57), the form widgets (app.py:95-97), the polarity line chart (app.py:123-125), the coping-strategy banner (app.py:130-138), the sidebar resources and the session-summary listing (app.py:143-152). These are presentation. The only decision in the banner, when it is shown and what it says, is `Session.SuggestedStrategy`.
- Streamlit's rerun and session lifecycle beyond initialise-if-absent is not modelled. Each rerun of the script is one `Step`, with the form's state as the `Submission`.
