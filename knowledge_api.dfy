/** The knowledge and support endpoint (menopause_knowledge_api.py): the answer of the
    retrieval pipeline is classified by phrases, the caller's session data records the
    query (the last ten are kept), and an unavailable pipeline or a failing call gets a
    fixed reply.  The pipeline is a parameter; confidences are kept in tenths. */
module KnowledgeApi {
  import opened Base

  datatype Intent = EmotionalSupport | OutOfScope | KnowledgeQuery | GeneralQuery | SystemError

  function IntentLabel(i: Intent): string {
    match i
    case EmotionalSupport => "emotional_support"
    case OutOfScope => "out_of_scope"
    case KnowledgeQuery => "knowledge_query"
    case GeneralQuery => "general_query"
    case SystemError => "system_error"
  }

  datatype NextAction = Continue | Redirect | Retry

  /** The metadata _analyze_response returns. */
  datatype Analysis = Analysis(intent: Intent, confidenceTenths: int, sources: seq<string>,
                               nextAction: NextAction)

  const EmotionalPhrases: seq<string> :=
    ["i understand", "you're not alone", "it's normal to feel", "many women experience"]
  const OutOfScopePhrases: seq<string> :=
    ["not in my expertise", "recommend consulting", "outside my scope"]
  const QuestionWords: seq<string> := ["what", "how", "why", "explain", "tell me"]

  function AnalyzeIntent(userMessage: string, ragResponse: string): (Intent, int) {
    var responseLower := Lower(ragResponse);
    if ContainsAny(responseLower, EmotionalPhrases) then (EmotionalSupport, 8)
    else if ContainsAny(responseLower, OutOfScopePhrases) then (OutOfScope, 9)
    else if ContainsAny(Lower(userMessage), QuestionWords) then (KnowledgeQuery, 7)
    else (GeneralQuery, 6)
  }

  /** _analyze_response */
  function AnalyzeResponse(userMessage: string, ragResponse: string): Analysis {
    var (intent, confidence) := AnalyzeIntent(userMessage, ragResponse);
    Analysis(intent, confidence, if intent != OutOfScope then ["medical_guidelines"] else [],
             if intent == OutOfScope then Redirect else Continue)
  }

  /** The phrases of the answer are tested before the words of the question: emotional
      phrases first, then out-of-scope phrases, then question words. */
  lemma AnalyzePriority(userMessage: string, ragResponse: string)
    ensures var a := AnalyzeResponse(userMessage, ragResponse);
      var answer := Lower(ragResponse);
      (a.intent == EmotionalSupport <==> ContainsAny(answer, EmotionalPhrases)) &&
      (a.intent == OutOfScope <==>
         !ContainsAny(answer, EmotionalPhrases) && ContainsAny(answer, OutOfScopePhrases)) &&
      (a.intent == KnowledgeQuery <==>
         !ContainsAny(answer, EmotionalPhrases) && !ContainsAny(answer, OutOfScopePhrases) &&
         ContainsAny(Lower(userMessage), QuestionWords)) &&
      a.intent != SystemError
  {
  }

  /** Sources are empty, and the caller is sent elsewhere, exactly for out-of-scope answers. */
  lemma OutOfScopeRedirects(userMessage: string, ragResponse: string)
    ensures var a := AnalyzeResponse(userMessage, ragResponse);
      (a.sources == [] <==> a.intent == OutOfScope) &&
      (a.nextAction == Redirect <==> a.intent == OutOfScope) &&
      a.nextAction != Retry
  {
  }

  // ------------------------------------------------------------ session data

  datatype QueryRecord = QueryRecord(intent: Intent, confidenceTenths: int, sourceFlow: string)

  const HistoryLimit := 10

  /** query_history after one more query: the entry appended and the last ten kept. */
  function UpdatedHistory(previous: Option<seq<QueryRecord>>, record: QueryRecord): (h: seq<QueryRecord>)
    ensures var all := previous.GetOr([]) + [record];
      |h| == (if |all| > HistoryLimit then HistoryLimit else |all|) && h == all[|all| - |h|..]
  {
    var all := previous.GetOr([]) + [record];
    if |all| > HistoryLimit then all[|all| - HistoryLimit..] else all
  }

  /** The new entry is the last one, preceded by the most recent earlier entries, and the
      history never grows beyond ten once it has ten. */
  lemma HistoryKeepsLastTen(previous: Option<seq<QueryRecord>>, record: QueryRecord)
    ensures var before := previous.GetOr([]);
      var h := UpdatedHistory(previous, record);
      h[|h| - 1] == record && h[..|h| - 1] == before[|before| + 1 - |h|..] &&
      (|before| >= HistoryLimit ==> |h| == HistoryLimit) &&
      (|before| < HistoryLimit ==> |h| == |before| + 1)
  {
    var before := previous.GetOr([]);
    var all := before + [record];
    var h := UpdatedHistory(previous, record);
    assert h[..|h| - 1] == all[|all| - |h|..|all| - 1];
  }

  /** A session_data dictionary; the object is shared with the caller's context. */
  class SessionData {
    var queryHistory: Option<seq<QueryRecord>>

    /** `{}` */
    constructor()
      ensures queryHistory == None
    {
      queryHistory := None;
    }
  }

  /** The context the router passes: a session_data dict and a source_flow, each optional. */
  datatype Context = Context(sessionData: Option<SessionData>, sourceFlow: Option<string>)

  function Footprint(context: Option<Context>): set<SessionData> {
    if context.Some? && context.value.sessionData.Some? then {context.value.sessionData.value} else {}
  }

  /** _update_session_data: the caller's session_data when it has one, else a new dict. */
  method UpdateSessionData(context: Context, analysis: Analysis) returns (sessionData: SessionData)
    modifies Footprint(Some(context))
    ensures context.sessionData.Some? ==> sessionData == context.sessionData.value
    ensures context.sessionData.None? ==> fresh(sessionData)
    ensures sessionData.queryHistory == Some(UpdatedHistory(
      if context.sessionData.Some? then old(context.sessionData.value.queryHistory) else None,
      QueryRecord(analysis.intent, analysis.confidenceTenths, context.sourceFlow.GetOr("unknown"))))
  {
    if context.sessionData.Some? {
      sessionData := context.sessionData.value;
    } else {
      sessionData := new SessionData();
    }
    var history := if sessionData.queryHistory.Some? then sessionData.queryHistory.value else [];
    history := history + [QueryRecord(analysis.intent, analysis.confidenceTenths,
                                      context.sourceFlow.GetOr("unknown"))];
    if |history| > HistoryLimit {
      history := history[|history| - HistoryLimit..];
    }
    sessionData.queryHistory := Some(history);
  }

  // ------------------------------------------------------------ process_query

  /** The pipeline's answer, or the exception it raised. */
  datatype RagResult = Answered(text: string) | Failed(error: string)

  datatype ReplyText = RagAnswer(text: string) | Unavailable | ProcessingError

  function Text(t: ReplyText): string {
    match t
    case RagAnswer(text) => text
    case Unavailable =>
      "I apologize, but my knowledge system is currently unavailable. Please consult with a healthcare professional for menopause-related questions."
    case ProcessingError => "I'm sorry, I encountered an error processing your request. Please try again."
  }

  datatype Reply = Reply(response: ReplyText, intent: Intent, confidenceTenths: int,
                         sources: seq<string>, nextAction: NextAction, sessionData: SessionData,
                         error: Option<string>)

  /** process_query: a missing context counts as `{}`; an unavailable pipeline passes the
      session data through; an exception from the pipeline gives the retry reply with new,
      empty session data and the session left as it was. */
  method ProcessQuery(userMessage: string, context: Option<Context>, ragAvailable: bool,
                      rag: string -> RagResult) returns (r: Reply)
    modifies Footprint(context)
    ensures !ragAvailable ==>
      r.response == Unavailable && r.intent == SystemError && r.confidenceTenths == 10 &&
      r.sources == [] && r.nextAction == Redirect && r.error == None &&
      (if Footprint(context) != {} then r.sessionData in Footprint(context)
       else fresh(r.sessionData) && r.sessionData.queryHistory == None) &&
      unchanged(Footprint(context))
    ensures ragAvailable && rag(userMessage).Failed? ==>
      r.response == ProcessingError && r.intent == SystemError && r.confidenceTenths == 10 &&
      r.sources == [] && r.nextAction == Retry && r.error == Some(rag(userMessage).error) &&
      fresh(r.sessionData) && r.sessionData.queryHistory == None && unchanged(Footprint(context))
    ensures ragAvailable && rag(userMessage).Answered? ==>
      var answer := rag(userMessage).text;
      var a := AnalyzeResponse(userMessage, answer);
      var sourceFlow := if context.Some? then context.value.sourceFlow.GetOr("unknown") else "unknown";
      var previous := if Footprint(context) != {} then old(context.value.sessionData.value.queryHistory) else None;
      r == Reply(RagAnswer(answer), a.intent, a.confidenceTenths, a.sources, a.nextAction,
                 r.sessionData, None) &&
      (Footprint(context) != {} ==> r.sessionData in Footprint(context)) &&
      (Footprint(context) == {} ==> fresh(r.sessionData)) &&
      r.sessionData.queryHistory ==
        Some(UpdatedHistory(previous, QueryRecord(a.intent, a.confidenceTenths, sourceFlow)))
  {
    var ctx := if context.Some? then context.value else Context(None, None);
    if !ragAvailable {
      var sessionData: SessionData;
      if ctx.sessionData.Some? {
        sessionData := ctx.sessionData.value;
      } else {
        sessionData := new SessionData();
      }
      return Reply(Unavailable, SystemError, 10, [], Redirect, sessionData, None);
    }
    match rag(userMessage)
    case Failed(error) =>
      var empty := new SessionData();
      return Reply(ProcessingError, SystemError, 10, [], Retry, empty, Some(error));
    case Answered(answer) =>
      var a := AnalyzeResponse(userMessage, answer);
      var sessionData := UpdateSessionData(ctx, a);
      return Reply(RagAnswer(answer), a.intent, a.confidenceTenths, a.sources, a.nextAction,
                   sessionData, None);
  }
}
