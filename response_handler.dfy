/** The reply handler of the Gradio front end (response_handler.py): it checks the
    message and the session, updates the account's activity and conversation counter,
    asks the best available back end (the main router, then the knowledge pipeline,
    then built-in keyword replies), and the chat callback displays and saves the
    exchange.  The back ends are parameters that may raise; the user store is the
    UserManager of the account module. */
module ResponseHandler {
  import opened Base
  import opened Chat
  import UserAuth

  // ------------------------------------------------------------ built-in replies

  datatype BasicTopic = Greeting | Symptoms | Support | General

  /** The groups of _get_basic_response, in the order they are tested. */
  const BasicGroups: seq<(BasicTopic, seq<string>)> := [
    (Greeting, ["hello", "hi", "hey"]),
    (Symptoms, ["symptom", "hot flash", "period", "mood"]),
    (Support, ["help", "support", "guidance"])
  ]

  /** _get_basic_response */
  function BasicResponse(message: string): BasicTopic {
    Classify(Lower(message), BasicGroups, General)
  }

  function BasicText(t: BasicTopic): string {
    match t
    case Greeting =>
      "Hello! Welcome to Thalia, your menopause support companion. \n\nI'm here to help you navigate your menopause journey with reliable information and support. While some of my advanced features aren't currently available, I can still provide basic guidance and be a listening ear.\n\nWhat would you like to know about menopause today?"
    case Symptoms =>
      "I understand you're experiencing symptoms that might be related to menopause. This is completely normal and you're not alone in this journey.\n\nCommon menopause symptoms include:\n- Hot flashes and night sweats\n- Irregular periods\n- Mood changes\n- Sleep disturbances\n- Changes in energy levels\n\nFor personalized guidance and symptom assessment, I recommend consulting with your healthcare provider. They can help determine the best approach for your specific situation.\n\nIs there anything specific you'd like to know more about?"
    case Support =>
      "I'm here to support you through your menopause journey. While my full capabilities aren't currently available, I can still offer:\n\n- General information about menopause\n- Emotional support and understanding\n- Basic guidance on common concerns\n- Encouragement that you're not alone\n\nRemember, every woman's menopause experience is unique, and it's always best to consult with healthcare professionals for personalized medical advice.\n\nWhat aspect of menopause would you like to explore?"
    case General =>
      "Thank you for reaching out. I'm Thalia, and I'm here to support you through your menopause journey. \n\nWhile some of my advanced features aren't currently available, I'm still here to listen and provide what guidance I can. Please feel free to share what's on your mind, and I'll do my best to help.\n\nFor comprehensive medical advice, always consult with your healthcare provider."
  }

  lemma BasicGroupsTagged()
    ensures DistinctTags(BasicGroups, General)
  {
  }

  /** The reply of group i is given exactly when one of its keywords occurs in the
      lower-cased message and no keyword of an earlier group does; the general reply
      exactly when no keyword occurs. */
  lemma BasicResponseFirstGroupWins(message: string, i: nat)
    requires i < |BasicGroups|
    ensures BasicResponse(message) == BasicGroups[i].0 <==>
      ContainsAny(Lower(message), BasicGroups[i].1) &&
      forall j | 0 <= j < i :: !ContainsAny(Lower(message), BasicGroups[j].1)
    ensures BasicResponse(message) == General <==>
      forall j | 0 <= j < |BasicGroups| :: !ContainsAny(Lower(message), BasicGroups[j].1)
  {
    BasicGroupsTagged();
    ClassifyPicksFirst(Lower(message), BasicGroups, General, i);
    ClassifyDefault(Lower(message), BasicGroups, General);
  }

  // ------------------------------------------------------------ get_chatbot_response

  /** What process_user_input returned ("response" and "status" may be missing), or that
      it raised. */
  datatype RouterResult = RouterRaised | RouterReturned(response: Option<string>, status: Option<string>)

  /** What rag_response returned, or that it raised. */
  datatype RagResult = RagRaised | RagReturned(text: string)

  /** The back ends the handler was built with; a missing callable is None. */
  datatype Backends = Backends(mainRouterAvailable: bool,
                               processUserInput: Option<(string, string) -> RouterResult>,
                               ragAvailable: bool, ragResponse: Option<string -> RagResult>)

  datatype Reply =
    | AskPrompt | PleaseLogIn | Routed(text: string) | RagAnswer(text: string)
    | Basic(topic: BasicTopic) | ProcessingError

  function ReplyText(r: Reply): string {
    match r
    case AskPrompt => "I'm here to help with your menopause journey. What would you like to know?"
    case PleaseLogIn => "Please log in to continue our conversation."
    case Routed(text) => text
    case RagAnswer(text) => text
    case Basic(topic) => BasicText(topic)
    case ProcessingError =>
      "I encountered an error processing your request. Please try rephrasing your question or try again."
  }

  /** The router's reply gets "Hello <preferred name>! " in front for a logged-in account
      that says hello when the conversation starts. */
  predicate Personalized(st: Option<UserAuth.Store>, message: string, sessionId: string, status: string) {
    st.Some? && sessionId != "default" && UserAuth.IsLoggedIn(st.value, sessionId) &&
    UserAuth.GetUserInfo(st.value, sessionId).Some? && Contains(Lower(message), "hello") &&
    status == "conversation_start"
  }

  /** The try block: router, else knowledge pipeline, else built-in replies; anything
      raised gives the processing error. */
  function BackendReply(b: Backends, st: Option<UserAuth.Store>, message: string, sessionId: string): Reply {
    if b.mainRouterAvailable && b.processUserInput.Some? then
      match b.processUserInput.value(message, sessionId)
      case RouterRaised => ProcessingError
      case RouterReturned(response, status) =>
        var text := response.GetOr("I'm having trouble processing your request.");
        if Personalized(st, message, sessionId, status.GetOr("unknown"))
        then Routed("Hello " + UserAuth.GetUserInfo(st.value, sessionId).value.preferredName + "! " + text)
        else Routed(text)
    else if b.ragAvailable && b.ragResponse.Some? then
      match b.ragResponse.value(message)
      case RagRaised => ProcessingError
      case RagReturned(text) => RagAnswer(text)
    else Basic(BasicResponse(message))
  }

  /** get_chatbot_response: the reply and the user store afterwards (None without a user
      manager). */
  function ChatbotResponse(b: Backends, st: Option<UserAuth.Store>, message: string,
                           sessionId: string, now: string): (r: (Reply, Option<UserAuth.Store>))
    ensures r.1.Some? == st.Some?
  {
    if IsBlank(message) then (AskPrompt, st)
    else if st.Some? && sessionId != "default" then
      if !UserAuth.IsLoggedIn(st.value, sessionId) then (PleaseLogIn, st)
      else
        var st' := UserAuth.IncrementConversationCount(
          UserAuth.UpdateUserActivity(st.value, sessionId, now), sessionId);
        (BackendReply(b, Some(st'), message, sessionId), Some(st'))
    else (BackendReply(b, st, message, sessionId), st)
  }

  /** A blank message gets the fixed prompt and changes nothing; with a user manager, a
      named session that is not logged in gets the log-in request and changes nothing. */
  lemma ChatbotGuards(b: Backends, st: Option<UserAuth.Store>, message: string,
                      sessionId: string, now: string)
    ensures var (reply, st') := ChatbotResponse(b, st, message, sessionId, now);
      (reply == AskPrompt <==> IsBlank(message)) &&
      (reply == PleaseLogIn <==>
         !IsBlank(message) && st.Some? && sessionId != "default" &&
         !UserAuth.IsLoggedIn(st.value, sessionId)) &&
      (reply in {AskPrompt, PleaseLogIn} ==> st' == st)
  {
  }

  /** A message answered for a logged-in session raises the account's conversation
      counter by exactly one and changes no other account's data. */
  lemma ChatbotCountsOnce(b: Backends, st: UserAuth.Store, message: string, sessionId: string,
                          now: string, u: string)
    requires !IsBlank(message) && sessionId != "default" && UserAuth.IsLoggedIn(st, sessionId)
    requires u in st.users
    ensures var st' := ChatbotResponse(b, Some(st), message, sessionId, now).1.value;
      st'.users.Keys == st.users.Keys &&
      st'.users[u].totalConversations ==
        st.users[u].totalConversations + (if UserAuth.SessionUser(st, sessionId) == Some(u) then 1 else 0) &&
      st'.users[u].conversations == st.users[u].conversations
  {
    var mid := UserAuth.UpdateUserActivity(st, sessionId, now);
    assert mid.users == st.users;
    assert UserAuth.SessionUser(mid, sessionId) == UserAuth.SessionUser(st, sessionId);
    UserAuth.IncrementSpec(mid, sessionId);
  }

  /** The back ends are tried in priority order, and a back end that raises gives the
      processing error. */
  lemma BackendPriority(b: Backends, st: Option<UserAuth.Store>, message: string, sessionId: string)
    ensures var reply := BackendReply(b, st, message, sessionId);
      var routed := b.mainRouterAvailable && b.processUserInput.Some?;
      var rag := !routed && b.ragAvailable && b.ragResponse.Some?;
      (reply.Routed? <==> routed && b.processUserInput.value(message, sessionId).RouterReturned?) &&
      (reply.RagAnswer? <==> rag && b.ragResponse.value(message).RagReturned?) &&
      (reply.Basic? <==> !routed && !rag) &&
      (reply == ProcessingError <==>
         (routed && b.processUserInput.value(message, sessionId).RouterRaised?) ||
         (rag && b.ragResponse.value(message).RagRaised?)) &&
      (reply.Basic? ==> reply.topic == BasicResponse(message))
  {
  }

  // ------------------------------------------------------------ custom_chat_function

  /** The body of custom_chat_function: the user store afterwards and the reply it
      displays, None when it displays nothing. */
  function ChatExchange(b: Backends, st: Option<UserAuth.Store>, message: string,
                        sessionId: Option<string>, now: string): (Option<UserAuth.Store>, Option<string>)
  {
    if IsBlank(message) then (st, None)
    else if st.Some? && sessionId.Some? && sessionId.value != "" then
      if !UserAuth.IsLoggedIn(st.value, sessionId.value) then (st, None)
      else
        var (reply, st1) := ChatbotResponse(b, st, message, sessionId.value, now);
        var content := ReplyText(reply);
        var (st2, _) := UserAuth.SaveMessage(st1.value, sessionId.value, message, content, now);
        (Some(st2), Some(content))
    else
      var (reply, st1) := ChatbotResponse(b, st, message, "default", now);
      (st1, Some(ReplyText(reply)))
  }

  /** custom_chat_function: the user store and the displayed history afterwards. */
  function CustomChat(b: Backends, st: Option<UserAuth.Store>, entries: seq<Entry<string>>,
                      message: string, sessionId: Option<string>, now: string)
    : (Option<UserAuth.Store>, seq<Entry<string>>)
  {
    var (st', content) := ChatExchange(b, st, message, sessionId, now);
    (st', if content.Some? then entries + [UserEntry(message), AssistantEntry(content.value)] else entries)
  }

  /** The history is left as it was exactly for a blank message or a session that is not
      logged in; otherwise exactly the user's message and then the reply are appended. */
  lemma CustomChatHistory(b: Backends, st: Option<UserAuth.Store>, entries: seq<Entry<string>>,
                          message: string, sessionId: Option<string>, now: string)
    ensures var h := CustomChat(b, st, entries, message, sessionId, now).1;
      var rejected := IsBlank(message) ||
        (st.Some? && sessionId.Some? && sessionId.value != "" &&
         !UserAuth.IsLoggedIn(st.value, sessionId.value));
      (rejected ==> h == entries) &&
      (!rejected ==> |h| == |entries| + 2 && h[..|entries|] == entries &&
                     h[|entries|] == UserEntry(message) && h[|entries| + 1].AssistantEntry?)
  {
  }

  /** For a logged-in account the displayed reply is also the last saved conversation of
      the account, with the user's message. */
  lemma CustomChatSavesExchange(b: Backends, st: UserAuth.Store, entries: seq<Entry<string>>,
                                message: string, sessionId: string, now: string)
    requires !IsBlank(message) && sessionId != "" && UserAuth.IsLoggedIn(st, sessionId)
    requires UserAuth.SessionUser(st, sessionId).Some?
    ensures var (st', h) := CustomChat(b, Some(st), entries, message, Some(sessionId), now);
      var u := UserAuth.SessionUser(st, sessionId).value;
      st'.Some? && u in st'.value.users &&
      var saved := st'.value.users[u].conversations;
      |saved| > 0 &&
      saved[|saved| - 1] == UserAuth.Conversation(now, message, h[|h| - 1].reply)
  {
    var u := UserAuth.SessionUser(st, sessionId).value;
    var (reply, st1) := ChatbotResponse(b, Some(st), message, sessionId, now);
    if sessionId != "default" {
      var mid := UserAuth.UpdateUserActivity(st, sessionId, now);
      assert UserAuth.SessionUser(mid, sessionId) == Some(u);
      UserAuth.IncrementSpec(mid, sessionId);
    }
    assert UserAuth.SessionUser(st1.value, sessionId) == Some(u);
    UserAuth.SaveMessageSpec(st1.value, sessionId, message, ReplyText(reply), now);
  }

  // ------------------------------------------------------------ the handler object

  /** ThaliaResponseHandler; auth_available is `userManager.Some?`. */
  class Handler {
    const userManager: Option<UserAuth.UserManager>
    const backends: Backends

    constructor(userManager: Option<UserAuth.UserManager>, backends: Backends)
      ensures this.userManager == userManager && this.backends == backends
    {
      this.userManager := userManager;
      this.backends := backends;
    }

    function Manager(): set<object> {
      if userManager.Some? then {userManager.value} else {}
    }

    function State(): Option<UserAuth.Store>
      reads Manager()
    {
      if userManager.Some? then Some(userManager.value.Snapshot()) else None
    }

    method Backend(message: string, sessionId: string) returns (reply: Reply)
      ensures reply == BackendReply(backends, State(), message, sessionId)
    {
      if backends.mainRouterAvailable && backends.processUserInput.Some? {
        var result := backends.processUserInput.value(message, sessionId);
        if result.RouterRaised? {
          return ProcessingError;
        }
        var text := result.response.GetOr("I'm having trouble processing your request.");
        if Personalized(State(), message, sessionId, result.status.GetOr("unknown")) {
          var info := UserAuth.GetUserInfo(State().value, sessionId).value;
          text := "Hello " + info.preferredName + "! " + text;
        }
        return Routed(text);
      } else if backends.ragAvailable && backends.ragResponse.Some? {
        var result := backends.ragResponse.value(message);
        if result.RagRaised? {
          return ProcessingError;
        }
        return RagAnswer(result.text);
      }
      return Basic(BasicResponse(message));
    }

    method GetChatbotResponse(message: string, sessionId: string, now: string) returns (reply: Reply)
      modifies Manager()
      ensures (reply, State()) == ChatbotResponse(backends, old(State()), message, sessionId, now)
    {
      StripEmptyIffBlank(message);
      if Strip(message) == [] {
        return AskPrompt;
      }
      if userManager.Some? && sessionId != "default" {
        var manager := userManager.value;
        if !UserAuth.IsLoggedIn(manager.Snapshot(), sessionId) {
          return PleaseLogIn;
        }
        manager.UpdateActivity(sessionId, now);
        manager.IncrementCount(sessionId);
      }
      reply := Backend(message, sessionId);
    }

    /** custom_chat_function up to the update of the displayed history. */
    method Exchange(message: string, sessionId: Option<string>, now: string)
      returns (content: Option<string>)
      modifies Manager()
      ensures (State(), content) == ChatExchange(backends, old(State()), message, sessionId, now)
    {
      StripEmptyIffBlank(message);
      if Strip(message) == [] {
        return None;
      }
      if userManager.Some? && sessionId.Some? && sessionId.value != "" {
        var manager := userManager.value;
        if !UserAuth.IsLoggedIn(manager.Snapshot(), sessionId.value) {
          return None;
        }
        var reply := GetChatbotResponse(message, sessionId.value, now);
        var text := ReplyText(reply);
        var _ := manager.SaveMessageM(sessionId.value, message, text, now);
        return Some(text);
      }
      var reply := GetChatbotResponse(message, "default", now);
      return Some(ReplyText(reply));
    }

    method CustomChatFunction(message: string, history: History<string>, sessionId: Option<string>,
                              now: string) returns (cleared: string)
      modifies Manager(), history
      ensures cleared == ""
      ensures (State(), history.entries) ==
        CustomChat(backends, old(State()), old(history.entries), message, sessionId, now)
    {
      var content := Exchange(message, sessionId, now);
      if content.Some? {
        history.entries := history.entries + [UserEntry(message), AssistantEntry(content.value)];
      }
      return "";
    }
  }
}
