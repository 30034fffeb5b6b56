/** What the two Gradio chat front ends share: the message list a chat box displays
    (a list of {"role", "content"} dicts the handlers append to in place) and the
    keyword classifier both built-in reply functions use, where the first group with a
    keyword occurring in the lower-cased message decides the reply. */
module Chat {
  import opened Base

  /** {"role": "user", "content": ...} or {"role": "assistant", "content": ...}; the
      type parameter is the representation of a reply. */
  datatype Entry<C> = UserEntry(message: string) | AssistantEntry(reply: C)

  /** The chat history list the front end passes in and gets back. */
  class History<C> {
    var entries: seq<Entry<C>>

    constructor(entries: seq<Entry<C>>)
      ensures this.entries == entries
    {
      this.entries := entries;
    }
  }

  /** The index of the first group one of whose keywords occurs in `lower`, or |groups|. */
  function FirstGroup<T>(lower: string, groups: seq<(T, seq<string>)>): (k: nat)
    ensures k <= |groups|
    ensures forall i | 0 <= i < k :: !ContainsAny(lower, groups[i].1)
    ensures k < |groups| ==> ContainsAny(lower, groups[k].1)
  {
    if groups == [] then 0
    else if ContainsAny(lower, groups[0].1) then 0
    else 1 + FirstGroup(lower, groups[1..])
  }

  /** The if/elif chain of `any(word in message_lower for word in [...])` tests. */
  function Classify<T>(lower: string, groups: seq<(T, seq<string>)>, otherwise: T): T {
    var k := FirstGroup(lower, groups);
    if k < |groups| then groups[k].0 else otherwise
  }

  ghost predicate DistinctTags<T>(groups: seq<(T, seq<string>)>, otherwise: T) {
    (forall i, j | 0 <= i < j < |groups| :: groups[i].0 != groups[j].0) &&
    (forall i | 0 <= i < |groups| :: groups[i].0 != otherwise)
  }

  /** A group's reply is chosen exactly when one of its keywords occurs and no keyword of
      an earlier group does. */
  lemma ClassifyPicksFirst<T>(lower: string, groups: seq<(T, seq<string>)>, otherwise: T, i: nat)
    requires DistinctTags(groups, otherwise) && i < |groups|
    ensures Classify(lower, groups, otherwise) == groups[i].0 <==>
      ContainsAny(lower, groups[i].1) && forall j | 0 <= j < i :: !ContainsAny(lower, groups[j].1)
  {
    var k := FirstGroup(lower, groups);
    if Classify(lower, groups, otherwise) == groups[i].0 {
      assert k < |groups| && groups[k].0 == groups[i].0;
      assert k == i;
    }
  }

  /** The default reply is chosen exactly when no group matches. */
  lemma ClassifyDefault<T>(lower: string, groups: seq<(T, seq<string>)>, otherwise: T)
    requires DistinctTags(groups, otherwise)
    ensures Classify(lower, groups, otherwise) == otherwise <==>
      forall j | 0 <= j < |groups| :: !ContainsAny(lower, groups[j].1)
  {
    var k := FirstGroup(lower, groups);
    if k < |groups| {
      assert groups[k].0 != otherwise;
    }
  }
}
