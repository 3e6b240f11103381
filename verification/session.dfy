/** The session state of app.py and what one run of the script does to it:
    two append-only lists, the chat transcript `messages` and the mood history
    `mood_tracker`, extended by each accepted submission. */
module Session {
  import opened Wrappers
  import opened Sentiment
  import opened Coping
  import opened Generator

  /** Who a transcript entry is from: the program writes "You" and "Bot". */
  datatype Speaker = You | Bot

  /** One entry of `messages`: a (sender, text) pair. */
  datatype Message = Message(sender: Speaker, text: string)

  /** One entry of `mood_tracker`: the user's message, its label and its
      polarity. */
  datatype MoodRecord = MoodRecord(message: string, sentiment: Label, polarity: real)

  datatype State = State(messages: seq<Message>, moodTracker: seq<MoodRecord>)

  /** What one run of the script sees: whether Send was pressed, the contents
      of the text box, and the outcome the external generator produces for
      that text. */
  datatype Submission = Submission(submitted: bool, text: string, outcome: Outcome)

  /** The guard of the submit block: Send pressed and a non-empty message. */
  predicate Accepted(sub: Submission) {
    sub.submitted && sub.text != ""
  }

  /** Session-state initialisation: each list keeps its value when the session
      already holds it and starts empty otherwise, independently of the other. */
  function Initialise(messages: Option<seq<Message>>, moodTracker: Option<seq<MoodRecord>>): (s: State)
    ensures messages.Some? ==> s.messages == messages.value
    ensures messages.None? ==> s.messages == []
    ensures moodTracker.Some? ==> s.moodTracker == moodTracker.value
    ensures moodTracker.None? ==> s.moodTracker == []
  {
    State(
      match messages case Some(m) => m case None => [],
      match moodTracker case Some(t) => t case None => [])
  }

  /** A rerun of the script over a session that already holds both lists
      leaves them as they are, so a session is a chain of Steps from one
      initialisation. */
  lemma InitialiseKeeps(s: State)
    ensures Initialise(Some(s.messages), Some(s.moodTracker)) == s
  {
  }

  /** The state of a fresh session. */
  function Empty(): State {
    Initialise(None, None)
  }

  /** The submit block: append the user turn, classify the text, ask the
      generator, append the bot turn, then append the mood record. Without an
      accepted submission nothing changes. */
  function Step(s: State, score: string -> real, sub: Submission): (r: State)
    ensures !Accepted(sub) ==> r == s
    ensures Accepted(sub) ==>
      && |r.messages| == |s.messages| + 2
      && r.messages[..|s.messages|] == s.messages
      && r.messages[|s.messages|] == Message(You, sub.text)
      && r.messages[|s.messages| + 1] == Message(Bot, GenerateResponse(sub.outcome))
    ensures Accepted(sub) ==>
      && |r.moodTracker| == |s.moodTracker| + 1
      && r.moodTracker[..|s.moodTracker|] == s.moodTracker
      && r.moodTracker[|s.moodTracker|] == MoodRecord(sub.text, Classify(score(sub.text)), score(sub.text))
  {
    if Accepted(sub) then
      var messages := s.messages + [Message(You, sub.text)];
      var analysis := AnalyzeSentiment(score, sub.text);
      var response := GenerateResponse(sub.outcome);
      var messages' := messages + [Message(Bot, response)];
      State(messages', s.moodTracker + [MoodRecord(sub.text, analysis.sentiment, analysis.polarity)])
    else
      s
  }

  /** The coping strategy the submit block computes for the banner: present
      exactly when the submission is accepted, and always the suggestion of
      the message's own label, never the fallback. */
  function SuggestedStrategy(score: string -> real, sub: Submission): (advice: Option<string>)
    ensures advice.Some? <==> Accepted(sub)
    ensures advice.Some? ==> advice.value == Advice(Classify(score(sub.text)))
    ensures advice.Some? ==> advice.value != Fallback
  {
    if Accepted(sub) then
      var analysis := AnalyzeSentiment(score, sub.text);
      AdviceIsNotFallback(analysis.sentiment);
      Some(ProvideCopingStrategy(Name(analysis.sentiment)))
    else
      None
  }

  /** A generator failure still produces a bot turn, reading "Error: " and
      the failure's description, and the mood record is still appended. */
  lemma FailedTurnStillAnswered(s: State, score: string -> real, text: string, description: string)
    requires text != ""
    ensures Step(s, score, Submission(true, text, Failed(description))).messages
      == s.messages + [Message(You, text), Message(Bot, ErrorPrefix + description)]
    ensures |Step(s, score, Submission(true, text, Failed(description))).moodTracker| == |s.moodTracker| + 1
  {
  }

  /** The texts of the submissions among subs that pass the guard, in order. */
  function AcceptedTexts(subs: seq<Submission>): (texts: seq<string>)
    ensures |texts| <= |subs|
    ensures forall j :: 0 <= j < |texts| ==> texts[j] != ""
  {
    if subs == [] then []
    else if Accepted(subs[0]) then [subs[0].text] + AcceptedTexts(subs[1..])
    else AcceptedTexts(subs[1..])
  }

  /** Every accepted submission's text is among AcceptedTexts, and everything
      there is the text of an accepted submission. */
  lemma {:induction false} AcceptedTextsMembers(subs: seq<Submission>)
    ensures forall i :: 0 <= i < |subs| && Accepted(subs[i]) ==> subs[i].text in AcceptedTexts(subs)
    ensures forall t :: t in AcceptedTexts(subs) ==>
      exists i :: 0 <= i < |subs| && Accepted(subs[i]) && subs[i].text == t
    decreases |subs|
  {
    if subs != [] {
      AcceptedTextsMembers(subs[1..]);
      forall t | t in AcceptedTexts(subs)
        ensures exists i :: 0 <= i < |subs| && Accepted(subs[i]) && subs[i].text == t
      {
        if Accepted(subs[0]) && t == subs[0].text {
          assert Accepted(subs[0]) && subs[0].text == t;
        } else {
          var i :| 0 <= i < |subs[1..]| && Accepted(subs[1..][i]) && subs[1..][i].text == t;
          assert subs[i + 1] == subs[1..][i];
        }
      }
      forall i | 0 <= i < |subs| && Accepted(subs[i])
        ensures subs[i].text in AcceptedTexts(subs)
      {
        if i > 0 {
          assert subs[i] == subs[1..][i - 1];
        }
      }
    }
  }

  /** The order of AcceptedTexts is the order of submission: one more
      submission adds its text at the end exactly when it is accepted. */
  lemma {:induction false} AcceptedTextsSnoc(subs: seq<Submission>, sub: Submission)
    ensures AcceptedTexts(subs + [sub]) == AcceptedTexts(subs) + (if Accepted(sub) then [sub.text] else [])
    decreases |subs|
  {
    if subs != [] {
      assert (subs + [sub])[1..] == subs[1..] + [sub];
      AcceptedTextsSnoc(subs[1..], sub);
    } else {
      assert (subs + [sub])[1..] == [];
    }
  }

  /** r is s with the two lists extended by the turns of the given accepted
      texts: two transcript entries and one mood record per text, the old
      entries untouched, and the new records carrying the texts in order. */
  predicate Extends(s: State, r: State, texts: seq<string>) {
    && |r.messages| == |s.messages| + 2 * |texts|
    && |r.moodTracker| == |s.moodTracker| + |texts|
    && r.messages[..|s.messages|] == s.messages
    && r.moodTracker[..|s.moodTracker|] == s.moodTracker
    && forall j :: 0 <= j < |texts| ==> r.moodTracker[|s.moodTracker| + j].message == texts[j]
  }

  /** One run of the script extends the state by its text when accepted, and
      by nothing otherwise. */
  lemma StepExtends(s: State, score: string -> real, sub: Submission)
    ensures Extends(s, Step(s, score, sub), if Accepted(sub) then [sub.text] else [])
  {
  }

  /** Extensions compose: the texts of two successive extensions concatenate. */
  lemma ExtendsTransitive(a: State, b: State, c: State, t1: seq<string>, t2: seq<string>)
    requires Extends(a, b, t1)
    requires Extends(b, c, t2)
    ensures Extends(a, c, t1 + t2)
  {
    assert c.messages[..|a.messages|] == c.messages[..|b.messages|][..|a.messages|];
    assert c.moodTracker[..|a.moodTracker|] == c.moodTracker[..|b.moodTracker|][..|a.moodTracker|];
    forall j | 0 <= j < |t1 + t2|
      ensures c.moodTracker[|a.moodTracker| + j].message == (t1 + t2)[j]
    {
      if j < |t1| {
        assert c.moodTracker[|a.moodTracker| + j] == c.moodTracker[..|b.moodTracker|][|a.moodTracker| + j];
      }
    }
  }

  /** A session: the script run once per submission, in order. Both lists
      only grow, the old entries stay as they were, each accepted submission
      adds two transcript entries and one mood record, and the mood records
      added are those of the accepted messages, in order. */
  function Run(s: State, score: string -> real, subs: seq<Submission>): (r: State)
    ensures Extends(s, r, AcceptedTexts(subs))
    decreases |subs|
  {
    if subs == [] then
      s
    else
      var head := if Accepted(subs[0]) then [subs[0].text] else [];
      var s' := Step(s, score, subs[0]);
      var r := Run(s', score, subs[1..]);
      assert AcceptedTexts(subs) == head + AcceptedTexts(subs[1..]);
      StepExtends(s, score, subs[0]);
      ExtendsTransitive(s, s', r, head, AcceptedTexts(subs[1..]));
      r
  }

  /** The invariant of the session state: the transcript alternates user and
      bot turns, one pair per mood record; the user turn of pair i is the
      message of record i; and every record carries the scorer's polarity for
      its non-empty message and the label Classify gives that polarity. */
  predicate Consistent(s: State, score: string -> real) {
    && |s.messages| == 2 * |s.moodTracker|
    && forall i :: 0 <= i < |s.moodTracker| ==>
      && s.messages[2 * i] == Message(You, s.moodTracker[i].message)
      && s.messages[2 * i + 1].sender == Bot
      && s.moodTracker[i].message != ""
      && s.moodTracker[i].polarity == score(s.moodTracker[i].message)
      && s.moodTracker[i].sentiment == Classify(s.moodTracker[i].polarity)
  }

  /** A fresh session is consistent. */
  lemma EmptyConsistent(score: string -> real)
    ensures Consistent(Empty(), score)
    ensures Empty().messages == [] && Empty().moodTracker == []
  {
  }

  /** One run of the script keeps the state consistent. */
  lemma StepPreservesConsistent(s: State, score: string -> real, sub: Submission)
    requires Consistent(s, score)
    ensures Consistent(Step(s, score, sub), score)
  {
  }

  /** Any sequence of runs keeps the state consistent. */
  lemma {:induction false} RunPreservesConsistent(s: State, score: string -> real, subs: seq<Submission>)
    requires Consistent(s, score)
    ensures Consistent(Run(s, score, subs), score)
    decreases |subs|
  {
    if subs != [] {
      StepPreservesConsistent(s, score, subs[0]);
      RunPreservesConsistent(Step(s, score, subs[0]), score, subs[1..]);
    }
  }

  /** From a fresh session, after any submissions, the transcript holds two
      entries per accepted submission and the mood history one, in step. */
  lemma SessionInvariant(score: string -> real, subs: seq<Submission>)
    ensures Consistent(Run(Empty(), score, subs), score)
    ensures |Run(Empty(), score, subs).moodTracker| == |AcceptedTexts(subs)|
    ensures |Run(Empty(), score, subs).messages| == 2 * |AcceptedTexts(subs)|
  {
    EmptyConsistent(score);
    RunPreservesConsistent(Empty(), score, subs);
  }
}
