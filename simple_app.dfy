/** The stand-alone chat app (simple_app.py): canned replies chosen by keyword groups
    tested in a fixed order on the lower-cased message, and the chat callback that
    appends the user's message and the reply to the displayed history.  A reply is
    represented by its topic. */
module SimpleApp {
  import opened Base
  import opened Chat

  datatype Topic =
    | Greeting | HotFlashes | Periods | Mood | Sleep | Hormones | NaturalOptions | Weight
    | Healthcare | EmotionalSupport | Thanks | General

  /** The groups of get_basic_response, in the order they are tested. */
  const Groups: seq<(Topic, seq<string>)> := [
    (Greeting, ["hello", "hi", "hey", "start"]),
    (HotFlashes, ["hot flash", "hot flush", "sweating"]),
    (Periods, ["period", "irregular", "menstrual", "cycle"]),
    (Mood, ["mood", "depression", "anxiety", "emotional", "feeling"]),
    (Sleep, ["sleep", "insomnia", "tired", "fatigue"]),
    (Hormones, ["hrt", "hormone", "treatment", "therapy"]),
    (NaturalOptions, ["natural", "supplement", "alternative", "herbal"]),
    (Weight, ["weight", "gain", "diet", "eating"]),
    (Healthcare, ["doctor", "healthcare", "provider", "appointment"]),
    (EmotionalSupport, ["help", "support", "scared", "alone", "difficult"]),
    (Thanks, ["thank", "thanks", "grateful"])
  ]

  /** get_basic_response */
  function BasicResponse(message: string): Topic {
    Classify(Lower(message), Groups, General)
  }

  lemma GroupsTagged()
    ensures DistinctTags(Groups, General)
  {
  }

  /** The reply of group i is given exactly when one of its keywords occurs in the
      lower-cased message and no keyword of an earlier group does. */
  lemma BasicResponseFirstGroupWins(message: string, i: nat)
    requires i < |Groups|
    ensures BasicResponse(message) == Groups[i].0 <==>
      ContainsAny(Lower(message), Groups[i].1) &&
      forall j | 0 <= j < i :: !ContainsAny(Lower(message), Groups[j].1)
  {
    GroupsTagged();
    ClassifyPicksFirst(Lower(message), Groups, General, i);
  }

  /** The general reply is given exactly when no keyword of any group occurs. */
  lemma BasicResponseDefault(message: string)
    ensures BasicResponse(message) == General <==>
      forall j | 0 <= j < |Groups| :: !ContainsAny(Lower(message), Groups[j].1)
  {
    GroupsTagged();
    ClassifyDefault(Lower(message), Groups, General);
  }

  /** Matching is on substrings, not words, and ignores case: "hi" occurs in "THIS", so a
      question about therapy that contains it gets the greeting. */
  lemma SubstringMatching()
    ensures BasicResponse("Is THIS therapy safe?") == Greeting
  {
    var lower := Lower("Is THIS therapy safe?");
    assert lower[4] == LowerChar('H') == 'h' && lower[5] == LowerChar('I') == 'i';
    assert lower[4..6] == "hi";
    ContainsAt(lower, "hi", 4);
    assert Groups[0].1[1] == "hi";
    BasicResponseFirstGroupWins("Is THIS therapy safe?", 0);
  }

  /** chat_function: a blank message leaves the history as it was; otherwise the user's
      message and then the reply are appended.  The input box is always cleared. */
  method ChatFunction(message: string, history: History<Topic>) returns (cleared: string)
    modifies history
    ensures cleared == ""
    ensures IsBlank(message) ==> history.entries == old(history.entries)
    ensures !IsBlank(message) ==>
      history.entries == old(history.entries) +
        [UserEntry(message), AssistantEntry(BasicResponse(message))]
  {
    StripEmptyIffBlank(message);
    if Strip(message) == [] {
      return "";
    }
    var response := BasicResponse(message);
    history.entries := history.entries + [UserEntry(message), AssistantEntry(response)];
    return "";
  }
}
