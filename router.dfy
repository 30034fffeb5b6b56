/** The outer dispatcher: one SessionState per session id holding the flow the
    session is in and its conversation history, global commands, intent
    classification with a keyword fallback, and the translation of the assessment's
    replies into router replies.  The assessment is the one module-level MRSFlow
    every session shares; the classifier model, the RAG answerer and the
    availability switches fixed at import time are parameters. */
module Router {
  import opened Base
  import Flow

  // ------------------------------------------------------------ intents

  datatype Intent = SymptomAssessment | KnowledgeQuery | EmotionalSupport | OutOfScope

  function IntentLabel(i: Intent): string {
    match i
    case SymptomAssessment => "SYMPTOM_ASSESSMENT"
    case KnowledgeQuery => "KNOWLEDGE_QUERY"
    case EmotionalSupport => "EMOTIONAL_SUPPORT"
    case OutOfScope => "OUT_OF_SCOPE"
  }

  /** The label among the four, if the text is one of them. */
  function ParseIntent(text: string): (r: Option<Intent>)
    ensures r.Some? ==> IntentLabel(r.value) == text
  {
    if text == "SYMPTOM_ASSESSMENT" then Some(SymptomAssessment)
    else if text == "KNOWLEDGE_QUERY" then Some(KnowledgeQuery)
    else if text == "EMOTIONAL_SUPPORT" then Some(EmotionalSupport)
    else if text == "OUT_OF_SCOPE" then Some(OutOfScope)
    else None
  }

  lemma IntentLabelsParse(i: Intent)
    ensures ParseIntent(IntentLabel(i)) == Some(i)
  {
  }

  const SymptomWords: seq<string> := ["symptom", "having", "experience", "assess", "evaluate"]
  const EmotionWords: seq<string> := ["worried", "scared", "anxious", "feel", "emotional"]
  const QuestionWords: seq<string> := ["what", "how", "why", "explain", "tell me"]

  /** SimpleIntentClassifier._keyword_fallback: the first word list any of whose words
      occurs in the lower-cased input decides. */
  function KeywordFallback(userInput: string): Intent {
    var lower := Lower(userInput);
    if FirstMatch(lower, SymptomWords) < |SymptomWords| then SymptomAssessment
    else if FirstMatch(lower, EmotionWords) < |EmotionWords| then EmotionalSupport
    else if FirstMatch(lower, QuestionWords) < |QuestionWords| then KnowledgeQuery
    else OutOfScope
  }

  /** Symptom words win over emotion words, which win over question words; with none
      of them the input is out of scope. */
  lemma KeywordPriority(userInput: string)
    ensures var lower := Lower(userInput);
      var r := KeywordFallback(userInput);
      (r == SymptomAssessment <==> ContainsAny(lower, SymptomWords)) &&
      (r == EmotionalSupport <==> !ContainsAny(lower, SymptomWords) && ContainsAny(lower, EmotionWords)) &&
      (r == KnowledgeQuery <==>
        !ContainsAny(lower, SymptomWords) && !ContainsAny(lower, EmotionWords) && ContainsAny(lower, QuestionWords)) &&
      (r == OutOfScope <==>
        !ContainsAny(lower, SymptomWords) && !ContainsAny(lower, EmotionWords) && !ContainsAny(lower, QuestionWords))
  {
    var lower := Lower(userInput);
    ContainsAnyIsFirstMatch(lower, SymptomWords);
    ContainsAnyIsFirstMatch(lower, EmotionWords);
    ContainsAnyIsFirstMatch(lower, QuestionWords);
  }

  /** What the router depends on outside itself. `gemini` answers the classification
      prompt built from a message (None when the call raises); `rag` answers a query. */
  datatype Services = Services(
    assessmentAvailable: bool,
    ragAvailable: bool,
    classifierAvailable: bool,
    gemini: string -> Option<string>,
    rag: string -> string,
    flowEnv: Flow.Env)

  /** SimpleIntentClassifier.classify_intent */
  function Classify(userInput: string, svc: Services): Intent {
    if !svc.classifierAvailable then KeywordFallback(userInput)
    else match svc.gemini(userInput)
      case None => KeywordFallback(userInput)
      case Some(text) =>
        match ParseIntent(Upper(Strip(text)))
        case Some(intent) => intent
        case None => KeywordFallback(userInput)
  }

  /** The model's answer is taken only when it is exactly one of the four labels (after
      strip and upper-casing); a missing classifier, a failed call or any other text
      falls back to the keywords. */
  lemma ClassifyFallsBack(userInput: string, svc: Services)
    ensures var answer := svc.gemini(userInput);
      if svc.classifierAvailable && answer.Some? && ParseIntent(Upper(Strip(answer.value))).Some?
      then IntentLabel(Classify(userInput, svc)) == Upper(Strip(answer.value))
      else Classify(userInput, svc) == KeywordFallback(userInput)
  {
  }

  // ------------------------------------------------------------ replies

  /** session.current_flow, and the "flow" of a reply ("ended" only in replies). */
  datatype FlowName = MainMenu | AssessmentFlow | KnowledgeFlow | EmotionalFlow | Ended | OtherFlow(name: string)

  /** The four flows the router itself ever stores. */
  predicate Known(f: FlowName) {
    f.MainMenu? || f.AssessmentFlow? || f.KnowledgeFlow? || f.EmotionalFlow?
  }

  function FlowLabel(f: FlowName): string {
    match f
    case MainMenu => "main_menu"
    case AssessmentFlow => "symptom_assessment"
    case KnowledgeFlow => "knowledge_query"
    case EmotionalFlow => "emotional_support"
    case Ended => "ended"
    case OtherFlow(name) => name
  }

  /** The "response" of a reply: each fixed text by name, with the parts that vary. */
  datatype Response =
    | Welcome                                            // the welcome message
    | Goodbye                                            // the farewell of "quit" and friends
    | RouterError                                        // "Sorry, I encountered an error. ..."
    | OutOfScopeText                                     // the out-of-scope message
    | LostTrack                                          // "I seem to have lost track ..." + welcome
    | Relayed(message: string)                           // the assessment's message as it is
    | RetryAfterError(message: string)                   // the message + "Let's try again. ..."
    | ScoreSummary(message: string, mrsScore: Option<int>)  // the message + "Your MRS Score: ..." ("N/A" for None)
    | WithWelcome(message: string)                       // the message + the welcome message
    | AnswerAfterExit(message: string, ragAnswer: string) // the message + "Regarding your original question:" + answer
    | AssessIntro(inner: Response)                       // "I understand you want to assess your symptoms. ..." + inner
    | MenuAssessOffer(answer: Option<string>)            // main menu, no assessment: RAG answer or a referral
    | KnowledgeAssessOffer(answer: Option<string>)       // knowledge flow, no assessment: RAG answer or a referral
    | AssessContinue(answer: Option<string>)             // assessment flow, no assessment: RAG answer or "unavailable"
    | KnowledgeAnswer(answer: Option<string>)            // RAG answer + a follow-up question, or "unavailable"
    | EmotionalAnswer(answer: Option<string>)            // RAG answer + encouragement, or a fixed supportive text

  datatype RouterStatus = Success | Failure

  datatype ActionNeeded = NoAction | Restart

  datatype RouterReply = RouterReply(response: Response, status: RouterStatus, flow: FlowName, actionNeeded: ActionNeeded)

  function Ok(response: Response, flow: FlowName): RouterReply {
    RouterReply(response, Success, flow, NoAction)
  }

  datatype Entry = UserEntry(content: string) | AssistantEntry(reply: Response)

  /** What a handler leaves: the session's current flow, the assessment's state, and
      its reply, or None when an exception escaped. */
  datatype Handled = Handled(current: FlowName, assessment: Flow.FlowState, reply: Option<RouterReply>)

  /** get_chatbot_response(query) when RAG is available. */
  function RagOr(svc: Services, query: string): Option<string> {
    if svc.ragAvailable then Some(svc.rag(query)) else None
  }

  /** Facts every handler keeps: the assessment keeps its invariant, a reply needs no
      restart, and a known flow stays known. */
  ghost predicate Keeps(h: Handled, current: FlowName) {
    Flow.Inv(h.assessment) &&
    (h.reply.Some? ==> h.reply.value.actionNeeded == NoAction) &&
    (Known(current) ==> Known(h.current))
  }

  /** Without the assessment nothing can raise and the assessment is untouched. */
  ghost predicate Untouched(h: Handled, fs: Flow.FlowState, svc: Services) {
    !svc.assessmentAvailable ==> h.assessment == fs && h.reply.Some?
  }

  /** menopause_support_enhanced: one turn of the shared assessment. */
  function Assess(userInput: string, fs: Flow.FlowState, svc: Services): (r: (Flow.FlowState, Flow.Outcome))
    requires Flow.Inv(fs)
    ensures Flow.Inv(r.0)
  {
    Flow.StepPreservesInv(fs, userInput, svc.flowEnv);
    Flow.Step(fs, userInput, svc.flowEnv)
  }

  /** The reply of a handler that starts an assessment from another flow. */
  function Intro(h: Handled): Handled {
    match h.reply
    case None => h
    case Some(r) => h.(reply := Some(r.(response := AssessIntro(r.response))))
  }

  /** One assessment turn on the input, translated by _process_symptom_result. */
  function StartAssessment(userInput: string, current: FlowName, fs: Flow.FlowState, svc: Services): (h: Handled)
    requires Flow.Inv(fs)
    ensures Keeps(h, current)
    decreases 2
  {
    var (fs1, out) := Assess(userInput, fs, svc);
    ProcessSymptomResult(out, current, fs1, svc)
  }

  /** _process_symptom_result */
  function ProcessSymptomResult(result: Flow.Outcome, current: FlowName, fs: Flow.FlowState, svc: Services): (h: Handled)
    requires Flow.Inv(fs)
    ensures Keeps(h, current) && (result.Reply? ==> Untouched(h, fs, svc))
    decreases 1
  {
    match result
    case Raised(_) => Handled(current, fs, None)
    case Reply(status, message, mrsScore, originalQuestion) =>
      var text := Flow.Text(message);
      match status
      case ScoringCompletedAndExited =>
        Handled(KnowledgeFlow, fs, Some(Ok(ScoreSummary(text, mrsScore), KnowledgeFlow)))
      case ExitConfirmed =>
        if originalQuestion.Some? && originalQuestion.value != "" then
          var question := originalQuestion.value;
          var intent := Classify(question, svc);
          if intent == KnowledgeQuery then HandleKnowledgeQuery(question, KnowledgeFlow, fs, svc)
          else if intent == EmotionalSupport then HandleEmotionalSupport(question, EmotionalFlow, fs, svc)
          else
            var response := if svc.ragAvailable then AnswerAfterExit(text, svc.rag(question)) else WithWelcome(text);
            Handled(KnowledgeFlow, fs, Some(Ok(response, KnowledgeFlow)))
        else Handled(MainMenu, fs, Some(Ok(WithWelcome(text), MainMenu)))
      case Error =>
        Handled(current, fs, Some(RouterReply(RetryAfterError(text), Failure, AssessmentFlow, NoAction)))
      case _ =>
        Handled(current, fs, Some(Ok(Relayed(text), AssessmentFlow)))
  }

  /** _handle_knowledge_query */
  function HandleKnowledgeQuery(userInput: string, current: FlowName, fs: Flow.FlowState, svc: Services): (h: Handled)
    requires Flow.Inv(fs)
    ensures Keeps(h, current) && Untouched(h, fs, svc)
    decreases if Classify(userInput, svc) == SymptomAssessment || Classify(userInput, svc) == EmotionalSupport then 3 else 0
  {
    match Classify(userInput, svc)
    case SymptomAssessment =>
      if svc.assessmentAvailable then
        Intro(StartAssessment(userInput, AssessmentFlow, fs, svc))
      else
        Handled(AssessmentFlow, fs, Some(Ok(KnowledgeAssessOffer(RagOr(svc, "symptom assessment: " + userInput)), AssessmentFlow)))
    case EmotionalSupport => HandleEmotionalSupport(userInput, EmotionalFlow, fs, svc)
    case OutOfScope => Handled(current, fs, Some(Ok(OutOfScopeText, KnowledgeFlow)))
    case KnowledgeQuery => Handled(current, fs, Some(Ok(KnowledgeAnswer(RagOr(svc, userInput)), KnowledgeFlow)))
  }

  /** _handle_emotional_support: a symptom intent without the assessment falls through
      to the supportive reply, with the session left in the assessment flow. */
  function HandleEmotionalSupport(userInput: string, current: FlowName, fs: Flow.FlowState, svc: Services): (h: Handled)
    requires Flow.Inv(fs)
    ensures Keeps(h, current) && Untouched(h, fs, svc)
    decreases if Classify(userInput, svc) == SymptomAssessment || Classify(userInput, svc) == KnowledgeQuery then 3 else 0
  {
    var intent := Classify(userInput, svc);
    if intent == SymptomAssessment && svc.assessmentAvailable then
      Intro(StartAssessment(userInput, AssessmentFlow, fs, svc))
    else if intent == KnowledgeQuery then HandleKnowledgeQuery(userInput, KnowledgeFlow, fs, svc)
    else if intent == OutOfScope then Handled(current, fs, Some(Ok(OutOfScopeText, EmotionalFlow)))
    else
      var stays := if intent == SymptomAssessment then AssessmentFlow else current;
      Handled(stays, fs, Some(Ok(EmotionalAnswer(RagOr(svc, "emotional support needed: " + userInput)), EmotionalFlow)))
  }

  /** _handle_main_menu */
  function HandleMainMenu(userInput: string, current: FlowName, fs: Flow.FlowState, svc: Services): (h: Handled)
    requires Flow.Inv(fs)
    ensures Keeps(h, current) && Untouched(h, fs, svc)
  {
    match Classify(userInput, svc)
    case OutOfScope => Handled(current, fs, Some(Ok(OutOfScopeText, MainMenu)))
    case SymptomAssessment =>
      if svc.assessmentAvailable then
        StartAssessment(userInput, AssessmentFlow, fs, svc)
      else
        Handled(AssessmentFlow, fs, Some(Ok(MenuAssessOffer(RagOr(svc, "symptom assessment: " + userInput)), AssessmentFlow)))
    case EmotionalSupport => HandleEmotionalSupport(userInput, EmotionalFlow, fs, svc)
    case KnowledgeQuery => HandleKnowledgeQuery(userInput, KnowledgeFlow, fs, svc)
  }

  /** _handle_symptom_assessment */
  function HandleSymptomAssessment(userInput: string, current: FlowName, fs: Flow.FlowState, svc: Services): (h: Handled)
    requires Flow.Inv(fs)
    ensures Keeps(h, current) && Untouched(h, fs, svc)
  {
    if svc.assessmentAvailable then
      StartAssessment(userInput, current, fs, svc)
    else
      Handled(current, fs, Some(Ok(AssessContinue(RagOr(svc, "symptom assessment: " + userInput)), AssessmentFlow)))
  }

  /** _handle_unknown_state */
  function HandleUnknownState(fs: Flow.FlowState): Handled {
    Handled(MainMenu, fs, Some(Ok(LostTrack, MainMenu)))
  }

  /** The handler the session's current flow selects. */
  function DispatchFlow(userInput: string, current: FlowName, fs: Flow.FlowState, svc: Services): (h: Handled)
    requires Flow.Inv(fs)
    ensures Keeps(h, current) && Untouched(h, fs, svc) && Known(h.current)
  {
    match current
    case MainMenu => HandleMainMenu(userInput, current, fs, svc)
    case AssessmentFlow => HandleSymptomAssessment(userInput, current, fs, svc)
    case KnowledgeFlow => HandleKnowledgeQuery(userInput, current, fs, svc)
    case EmotionalFlow => HandleEmotionalSupport(userInput, current, fs, svc)
    case _ => HandleUnknownState(fs)
  }

  predicate IsHomeCommand(command: string) {
    command in ["help", "?", "start", "restart", "main menu", "home"]
  }

  predicate IsQuitCommand(command: string) {
    command in ["quit", "exit", "goodbye", "bye"]
  }

  /** A session's part of a turn, and the shared assessment's state after it. */
  datatype Turn = Turn(current: FlowName, history: seq<Entry>, assessment: Flow.FlowState, reply: RouterReply)

  /** route_request for one session. */
  function Route(current: FlowName, history: seq<Entry>, fs: Flow.FlowState, userInput: string, svc: Services): (t: Turn)
    requires Flow.Inv(fs)
    ensures Flow.Inv(t.assessment)
  {
    var input := Strip(userInput);
    if input == "" then Turn(current, history, fs, Ok(Welcome, MainMenu))
    else
      var logged := history + [UserEntry(input)];
      var command := Lower(input);
      if IsHomeCommand(command) then Turn(MainMenu, logged, fs, Ok(Welcome, MainMenu))
      else if IsQuitCommand(command) then Turn(MainMenu, logged, fs, Ok(Goodbye, Ended))
      else
        var h := DispatchFlow(input, current, fs, svc);
        match h.reply
        case None => Turn(h.current, logged, h.assessment, RouterReply(RouterError, Failure, h.current, Restart))
        case Some(r) => Turn(h.current, logged + [AssistantEntry(r.response)], h.assessment, r)
  }

  // ------------------------------------------------------------ properties

  /** Whitespace-only input gets the welcome text and changes nothing. */
  lemma BlankInputChangesNothing(current: FlowName, history: seq<Entry>, fs: Flow.FlowState, userInput: string, svc: Services)
    requires Flow.Inv(fs) && IsBlank(userInput)
    ensures Route(current, history, fs, userInput, svc) == Turn(current, history, fs, Ok(Welcome, MainMenu))
  {
    StripEmptyIffBlank(userInput);
  }

  /** The global commands return to the main menu without reaching any flow; the
      quit commands report the flow "ended". */
  lemma GlobalCommandsGoHome(current: FlowName, history: seq<Entry>, fs: Flow.FlowState, userInput: string, svc: Services)
    requires Flow.Inv(fs) && !IsBlank(userInput)
    requires IsHomeCommand(Lower(Strip(userInput))) || IsQuitCommand(Lower(Strip(userInput)))
    ensures var t := Route(current, history, fs, userInput, svc);
      t.current == MainMenu && t.assessment == fs && t.history == history + [UserEntry(Strip(userInput))] &&
      t.reply.status == Success &&
      t.reply.flow == (if IsHomeCommand(Lower(Strip(userInput))) then MainMenu else Ended)
  {
    StripEmptyIffBlank(userInput);
  }

  /** Every other turn logs the stripped input, and logs the reply too unless an
      exception escaped, which is exactly when the reply asks for a restart. */
  lemma HistoryLogsTurn(current: FlowName, history: seq<Entry>, fs: Flow.FlowState, userInput: string, svc: Services)
    requires Flow.Inv(fs) && !IsBlank(userInput)
    ensures var t := Route(current, history, fs, userInput, svc);
      t.history == history + [UserEntry(Strip(userInput))] +
        (if t.reply.actionNeeded == Restart then [] else
         if IsHomeCommand(Lower(Strip(userInput))) || IsQuitCommand(Lower(Strip(userInput))) then []
         else [AssistantEntry(t.reply.response)])
    ensures var t := Route(current, history, fs, userInput, svc);
      t.reply.actionNeeded == Restart ==> t.reply.response == RouterError && t.reply.status == Failure
  {
    StripEmptyIffBlank(userInput);
    var input := Strip(userInput);
    if !IsHomeCommand(Lower(input)) && !IsQuitCommand(Lower(input)) {
      var h := DispatchFlow(input, current, fs, svc);
      var logged := history + [UserEntry(input)];
      if h.reply.None? {
        assert Route(current, history, fs, userInput, svc) ==
          Turn(h.current, logged, h.assessment, RouterReply(RouterError, Failure, h.current, Restart));
      } else {
        assert h.reply.value.actionNeeded == NoAction;
        assert Route(current, history, fs, userInput, svc) ==
          Turn(h.current, logged + [AssistantEntry(h.reply.value.response)], h.assessment, h.reply.value);
      }
    }
  }

  /** After any non-blank input the session is in one of the four flows, whatever it
      was in before; "ended" is never stored. */
  lemma FlowStaysKnown(current: FlowName, history: seq<Entry>, fs: Flow.FlowState, userInput: string, svc: Services)
    requires Flow.Inv(fs) && !IsBlank(userInput)
    ensures Known(Route(current, history, fs, userInput, svc).current)
  {
    StripEmptyIffBlank(userInput);
    var input := Strip(userInput);
    if !IsHomeCommand(Lower(input)) && !IsQuitCommand(Lower(input)) {
      var h := DispatchFlow(input, current, fs, svc);
      assert Known(h.current);
    }
  }

  /** Without the assessment no turn raises and the assessment's state is untouched. */
  lemma NoAssessmentNoCrash(current: FlowName, history: seq<Entry>, fs: Flow.FlowState, userInput: string, svc: Services)
    requires Flow.Inv(fs) && !svc.assessmentAvailable
    ensures Route(current, history, fs, userInput, svc).assessment == fs
    ensures Route(current, history, fs, userInput, svc).reply.actionNeeded == NoAction
  {
    var input := Strip(userInput);
    if input != "" && !IsHomeCommand(Lower(input)) && !IsQuitCommand(Lower(input)) {
      var h := DispatchFlow(input, current, fs, svc);
      assert h.assessment == fs && h.reply.Some? && h.reply.value.actionNeeded == NoAction;
      assert Route(current, history, fs, userInput, svc) ==
        Turn(h.current, history + [UserEntry(input)] + [AssistantEntry(h.reply.value.response)], fs, h.reply.value);
    }
  }

  /** The five in-progress statuses are relayed as successes of the assessment flow,
      leaving the session where it was; "error" is relayed as an error with the retry
      sentence. */
  lemma InProgressStaysInAssessment(status: Flow.Status, message: Flow.Message, score: Option<int>, question: Option<string>,
                                    current: FlowName, fs: Flow.FlowState, svc: Services)
    requires Flow.Inv(fs)
    requires status != Flow.ScoringCompletedAndExited && status != Flow.ExitConfirmed
    ensures ProcessSymptomResult(Flow.Reply(status, message, score, question), current, fs, svc) ==
      Handled(current, fs, Some(
        if status == Flow.Error then RouterReply(RetryAfterError(Flow.Text(message)), Failure, AssessmentFlow, NoAction)
        else Ok(Relayed(Flow.Text(message)), AssessmentFlow)))
  {
  }

  /** A scored assessment moves the session to the knowledge flow with the score. */
  lemma ScoredAssessmentMovesToKnowledge(message: Flow.Message, score: Option<int>, question: Option<string>,
                                         current: FlowName, fs: Flow.FlowState, svc: Services)
    requires Flow.Inv(fs)
    ensures ProcessSymptomResult(Flow.Reply(Flow.ScoringCompletedAndExited, message, score, question), current, fs, svc) ==
      Handled(KnowledgeFlow, fs, Some(Ok(ScoreSummary(Flow.Text(message), score), KnowledgeFlow)))
  {
  }

  /** Leaving the assessment returns to the main menu when there is no stored
      question; otherwise the question is answered in the emotional-support flow when
      it classifies so, and in the knowledge flow in every other case. */
  lemma ExitReroutesQuestion(message: Flow.Message, score: Option<int>, question: Option<string>,
                             current: FlowName, fs: Flow.FlowState, svc: Services)
    requires Flow.Inv(fs)
    ensures var h := ProcessSymptomResult(Flow.Reply(Flow.ExitConfirmed, message, score, question), current, fs, svc);
      h.assessment == fs && h.reply.Some? &&
      (question.None? || question.value == "" ==>
        h.current == MainMenu && h.reply.value == Ok(WithWelcome(Flow.Text(message)), MainMenu)) &&
      (question.Some? && question.value != "" ==>
        h.current == (if Classify(question.value, svc) == EmotionalSupport then EmotionalFlow else KnowledgeFlow))
  {
    if question.Some? && question.value != "" {
      ExitWithQuestionReroutes(message, score, question, current, fs, svc);
    } else {
      ExitWithoutQuestionReturnsToMenu(message, score, question, current, fs, svc);
    }
  }

  lemma ExitWithoutQuestionReturnsToMenu(message: Flow.Message, score: Option<int>, question: Option<string>,
                                         current: FlowName, fs: Flow.FlowState, svc: Services)
    requires Flow.Inv(fs) && (question.None? || question.value == "")
    ensures ProcessSymptomResult(Flow.Reply(Flow.ExitConfirmed, message, score, question), current, fs, svc) ==
      Handled(MainMenu, fs, Some(Ok(WithWelcome(Flow.Text(message)), MainMenu)))
  {
  }

  lemma ExitWithQuestionReroutes(message: Flow.Message, score: Option<int>, question: Option<string>,
                                 current: FlowName, fs: Flow.FlowState, svc: Services)
    requires Flow.Inv(fs) && question.Some? && question.value != ""
    ensures var h := ProcessSymptomResult(Flow.Reply(Flow.ExitConfirmed, message, score, question), current, fs, svc);
      h.assessment == fs && h.reply.Some? &&
      h.current == (if Classify(question.value, svc) == EmotionalSupport then EmotionalFlow else KnowledgeFlow)
  {
    var q := question.value;
    var result := Flow.Reply(Flow.ExitConfirmed, message, score, question);
    HandlersKeepOwnIntent(q, fs, svc);
    if Classify(q, svc) == KnowledgeQuery {
      assert ProcessSymptomResult(result, current, fs, svc) == HandleKnowledgeQuery(q, KnowledgeFlow, fs, svc);
    } else if Classify(q, svc) == EmotionalSupport {
      assert ProcessSymptomResult(result, current, fs, svc) == HandleEmotionalSupport(q, EmotionalFlow, fs, svc);
    }
  }

  /** The knowledge and emotional-support handlers answer their own intent in their
      own flow, without touching the assessment. */
  lemma HandlersKeepOwnIntent(userInput: string, fs: Flow.FlowState, svc: Services)
    requires Flow.Inv(fs)
    ensures Classify(userInput, svc) == KnowledgeQuery ==>
      var h := HandleKnowledgeQuery(userInput, KnowledgeFlow, fs, svc);
      h.current == KnowledgeFlow && h.assessment == fs && h.reply.Some?
    ensures Classify(userInput, svc) == EmotionalSupport ==>
      var h := HandleEmotionalSupport(userInput, EmotionalFlow, fs, svc);
      h.current == EmotionalFlow && h.assessment == fs && h.reply.Some?
  {
  }

  /** From the main menu, a symptom intent with the assessment available hands the
      input to one assessment turn and enters the assessment flow. */
  lemma MenuStartsAssessment(userInput: string, current: FlowName, fs: Flow.FlowState, svc: Services)
    requires Flow.Inv(fs) && svc.assessmentAvailable && Classify(userInput, svc) == SymptomAssessment
    ensures HandleMainMenu(userInput, current, fs, svc) == StartAssessment(userInput, AssessmentFlow, fs, svc)
  {
  }

  /** An assessment turn takes the flow's new state; when it raises, or replies with a
      status still in progress, the session stays in the flow it was in. */
  lemma AssessmentTurnOutcome(userInput: string, current: FlowName, fs: Flow.FlowState, svc: Services)
    requires Flow.Inv(fs)
    ensures var (fs1, out) := Flow.Step(fs, userInput, svc.flowEnv);
      var h := StartAssessment(userInput, current, fs, svc);
      (out.Raised? ==> h == Handled(current, fs1, None)) &&
      (out.Reply? && out.status != Flow.ScoringCompletedAndExited && out.status != Flow.ExitConfirmed ==>
        h.current == current && h.assessment == fs1 && h.reply.Some? && h.reply.value.flow == AssessmentFlow)
  {
    var (fs1, out) := Flow.Step(fs, userInput, svc.flowEnv);
    Flow.StepPreservesInv(fs, userInput, svc.flowEnv);
    assert StartAssessment(userInput, current, fs, svc) == ProcessSymptomResult(out, current, fs1, svc);
    if out.Reply? && out.status != Flow.ScoringCompletedAndExited && out.status != Flow.ExitConfirmed {
      InProgressStaysInAssessment(out.status, out.message, out.mrsScore, out.originalQuestion, current, fs1, svc);
    }
  }

  /** When a symptom intent reaches the emotional-support flow without the assessment,
      the reply is the supportive one, labelled "emotional_support", while the session
      is left in the assessment flow. */
  lemma EmotionalFallthroughLeavesAssessmentFlow(userInput: string, current: FlowName, fs: Flow.FlowState, svc: Services)
    requires Flow.Inv(fs) && !svc.assessmentAvailable && Classify(userInput, svc) == SymptomAssessment
    ensures var h := HandleEmotionalSupport(userInput, current, fs, svc);
      h.current == AssessmentFlow && h.reply.Some? && h.reply.value.flow == EmotionalFlow
  {
  }

  // ------------------------------------------------------------ the objects

  class SessionState {
    const sessionId: string
    var currentFlow: FlowName
    var conversationHistory: seq<Entry>

    constructor (sessionId: string)
      ensures this.sessionId == sessionId && currentFlow == MainMenu && conversationHistory == []
    {
      this.sessionId := sessionId;
      currentFlow := MainMenu;
      conversationHistory := [];
    }

    /** reset_assessment: the flow's own reset happens inside the flow. */
    method ResetAssessment()
      modifies this
      ensures currentFlow == MainMenu && conversationHistory == old(conversationHistory)
    {
      currentFlow := MainMenu;
    }
  }

  class MainFlowRouter {
    var sessions: map<string, SessionState>
    const assessment: Flow.MRSFlow

    /** Sessions are stored under their own ids; the shared assessment keeps its invariant. */
    ghost predicate Valid()
      reads this, sessions.Values, assessment, assessment.tracker
    {
      (forall id | id in sessions :: sessions[id].sessionId == id) &&
      assessment.Valid() && Flow.Inv(assessment.Snapshot())
    }

    constructor (assessment: Flow.MRSFlow)
      requires assessment.Valid() && Flow.Inv(assessment.Snapshot())
      ensures Valid() && sessions == map[] && this.assessment == assessment
    {
      sessions := map[];
      this.assessment := assessment;
    }

    /** get_session: a session is created once per id and then always returned. */
    method GetSession(sessionId: string) returns (session: SessionState)
      requires Valid()
      modifies this
      ensures Valid() && sessionId in sessions && session == sessions[sessionId]
      ensures sessionId in old(sessions) ==> sessions == old(sessions)
      ensures sessionId !in old(sessions) ==>
        fresh(session) && sessions == old(sessions)[sessionId := session] &&
        session.currentFlow == MainMenu && session.conversationHistory == []
    {
      if sessionId !in sessions {
        var created := new SessionState(sessionId);
        sessions := sessions[sessionId := created];
      }
      session := sessions[sessionId];
    }

    method StartAssessmentM(userInput: string, session: SessionState, svc: Services) returns (reply: Option<RouterReply>)
      requires assessment.Valid() && Flow.Inv(assessment.Snapshot())
      modifies session, assessment, assessment.tracker
      ensures assessment.Valid() && Flow.Inv(assessment.Snapshot())
      ensures session.conversationHistory == old(session.conversationHistory)
      ensures Handled(session.currentFlow, assessment.Snapshot(), reply) ==
        StartAssessment(userInput, old(session.currentFlow), old(assessment.Snapshot()), svc)
      decreases 2
    {
      var result := assessment.ProcessInput(userInput, svc.flowEnv);
      Flow.StepPreservesInv(old(assessment.Snapshot()), userInput, svc.flowEnv);
      reply := ProcessSymptomResultM(result, session, svc);
    }

    method ProcessSymptomResultM(result: Flow.Outcome, session: SessionState, svc: Services) returns (reply: Option<RouterReply>)
      requires assessment.Valid() && Flow.Inv(assessment.Snapshot())
      modifies session, assessment, assessment.tracker
      ensures assessment.Valid() && Flow.Inv(assessment.Snapshot())
      ensures session.conversationHistory == old(session.conversationHistory)
      ensures Handled(session.currentFlow, assessment.Snapshot(), reply) ==
        ProcessSymptomResult(result, old(session.currentFlow), old(assessment.Snapshot()), svc)
      decreases 1
    {
      if result.Raised? {
        return None;
      }
      var text := Flow.Text(result.message);
      match result.status
      case ScoringCompletedAndExited =>
        session.currentFlow := KnowledgeFlow;
        reply := Some(Ok(ScoreSummary(text, result.mrsScore), KnowledgeFlow));
      case ExitConfirmed =>
        session.ResetAssessment();
        var question := result.originalQuestion;
        if question.Some? && question.value != "" {
          var intent := Classify(question.value, svc);
          if intent == KnowledgeQuery {
            session.currentFlow := KnowledgeFlow;
            reply := HandleKnowledgeQueryM(question.value, session, svc);
          } else if intent == EmotionalSupport {
            session.currentFlow := EmotionalFlow;
            reply := HandleEmotionalSupportM(question.value, session, svc);
          } else {
            session.currentFlow := KnowledgeFlow;
            var response := if svc.ragAvailable then AnswerAfterExit(text, svc.rag(question.value)) else WithWelcome(text);
            reply := Some(Ok(response, KnowledgeFlow));
          }
        } else {
          reply := Some(Ok(WithWelcome(text), MainMenu));
        }
      case Error =>
        reply := Some(RouterReply(RetryAfterError(text), Failure, AssessmentFlow, NoAction));
      case _ =>
        reply := Some(Ok(Relayed(text), AssessmentFlow));
    }

    method HandleKnowledgeQueryM(userInput: string, session: SessionState, svc: Services) returns (reply: Option<RouterReply>)
      requires assessment.Valid() && Flow.Inv(assessment.Snapshot())
      modifies session, assessment, assessment.tracker
      ensures assessment.Valid() && Flow.Inv(assessment.Snapshot())
      ensures session.conversationHistory == old(session.conversationHistory)
      ensures Handled(session.currentFlow, assessment.Snapshot(), reply) ==
        HandleKnowledgeQuery(userInput, old(session.currentFlow), old(assessment.Snapshot()), svc)
      decreases if Classify(userInput, svc) == SymptomAssessment || Classify(userInput, svc) == EmotionalSupport then 3 else 0
    {
      var intent := Classify(userInput, svc);
      if intent == SymptomAssessment {
        session.currentFlow := AssessmentFlow;
        if svc.assessmentAvailable {
          reply := StartAssessmentM(userInput, session, svc);
          if reply.Some? {
            reply := Some(reply.value.(response := AssessIntro(reply.value.response)));
          }
        } else {
          reply := Some(Ok(KnowledgeAssessOffer(RagOr(svc, "symptom assessment: " + userInput)), AssessmentFlow));
        }
      } else if intent == EmotionalSupport {
        session.currentFlow := EmotionalFlow;
        reply := HandleEmotionalSupportM(userInput, session, svc);
      } else if intent == OutOfScope {
        reply := Some(Ok(OutOfScopeText, KnowledgeFlow));
      } else {
        reply := Some(Ok(KnowledgeAnswer(RagOr(svc, userInput)), KnowledgeFlow));
      }
    }

    method HandleEmotionalSupportM(userInput: string, session: SessionState, svc: Services) returns (reply: Option<RouterReply>)
      requires assessment.Valid() && Flow.Inv(assessment.Snapshot())
      modifies session, assessment, assessment.tracker
      ensures assessment.Valid() && Flow.Inv(assessment.Snapshot())
      ensures session.conversationHistory == old(session.conversationHistory)
      ensures Handled(session.currentFlow, assessment.Snapshot(), reply) ==
        HandleEmotionalSupport(userInput, old(session.currentFlow), old(assessment.Snapshot()), svc)
      decreases if Classify(userInput, svc) == SymptomAssessment || Classify(userInput, svc) == KnowledgeQuery then 3 else 0
    {
      var intent := Classify(userInput, svc);
      if intent == SymptomAssessment {
        session.currentFlow := AssessmentFlow;
        if svc.assessmentAvailable {
          reply := StartAssessmentM(userInput, session, svc);
          if reply.Some? {
            reply := Some(reply.value.(response := AssessIntro(reply.value.response)));
          }
          return;
        }
      } else if intent == KnowledgeQuery {
        session.currentFlow := KnowledgeFlow;
        reply := HandleKnowledgeQueryM(userInput, session, svc);
        return;
      } else if intent == OutOfScope {
        return Some(Ok(OutOfScopeText, EmotionalFlow));
      }
      reply := Some(Ok(EmotionalAnswer(RagOr(svc, "emotional support needed: " + userInput)), EmotionalFlow));
    }

    method HandleMainMenuM(userInput: string, session: SessionState, svc: Services) returns (reply: Option<RouterReply>)
      requires assessment.Valid() && Flow.Inv(assessment.Snapshot())
      modifies session, assessment, assessment.tracker
      ensures assessment.Valid() && Flow.Inv(assessment.Snapshot())
      ensures session.conversationHistory == old(session.conversationHistory)
      ensures Handled(session.currentFlow, assessment.Snapshot(), reply) ==
        HandleMainMenu(userInput, old(session.currentFlow), old(assessment.Snapshot()), svc)
    {
      var intent := Classify(userInput, svc);
      if intent == OutOfScope {
        reply := Some(Ok(OutOfScopeText, MainMenu));
      } else if intent == SymptomAssessment {
        session.currentFlow := AssessmentFlow;
        if svc.assessmentAvailable {
          reply := StartAssessmentM(userInput, session, svc);
        } else {
          reply := Some(Ok(MenuAssessOffer(RagOr(svc, "symptom assessment: " + userInput)), AssessmentFlow));
        }
      } else if intent == EmotionalSupport {
        session.currentFlow := EmotionalFlow;
        reply := HandleEmotionalSupportM(userInput, session, svc);
      } else {
        session.currentFlow := KnowledgeFlow;
        reply := HandleKnowledgeQueryM(userInput, session, svc);
      }
    }

    method HandleSymptomAssessmentM(userInput: string, session: SessionState, svc: Services) returns (reply: Option<RouterReply>)
      requires assessment.Valid() && Flow.Inv(assessment.Snapshot())
      modifies session, assessment, assessment.tracker
      ensures assessment.Valid() && Flow.Inv(assessment.Snapshot())
      ensures session.conversationHistory == old(session.conversationHistory)
      ensures Handled(session.currentFlow, assessment.Snapshot(), reply) ==
        HandleSymptomAssessment(userInput, old(session.currentFlow), old(assessment.Snapshot()), svc)
    {
      if svc.assessmentAvailable {
        reply := StartAssessmentM(userInput, session, svc);
      } else {
        reply := Some(Ok(AssessContinue(RagOr(svc, "symptom assessment: " + userInput)), AssessmentFlow));
      }
    }

    /** The handler the session's current flow selects. */
    method DispatchFlowM(userInput: string, session: SessionState, svc: Services) returns (reply: Option<RouterReply>)
      requires assessment.Valid() && Flow.Inv(assessment.Snapshot())
      modifies session, assessment, assessment.tracker
      ensures assessment.Valid() && Flow.Inv(assessment.Snapshot())
      ensures session.conversationHistory == old(session.conversationHistory)
      ensures Handled(session.currentFlow, assessment.Snapshot(), reply) ==
        DispatchFlow(userInput, old(session.currentFlow), old(assessment.Snapshot()), svc)
    {
      match session.currentFlow
      case MainMenu =>
        reply := HandleMainMenuM(userInput, session, svc);
      case AssessmentFlow =>
        reply := HandleSymptomAssessmentM(userInput, session, svc);
      case KnowledgeFlow =>
        reply := HandleKnowledgeQueryM(userInput, session, svc);
      case EmotionalFlow =>
        reply := HandleEmotionalSupportM(userInput, session, svc);
      case _ =>
        session.ResetAssessment();
        reply := Some(Ok(LostTrack, MainMenu));
    }

    /** route_request once the session is found. */
    method RouteSession(userInput: string, session: SessionState, svc: Services) returns (reply: RouterReply)
      requires assessment.Valid() && Flow.Inv(assessment.Snapshot())
      modifies session, assessment, assessment.tracker
      ensures assessment.Valid() && Flow.Inv(assessment.Snapshot())
      ensures Turn(session.currentFlow, session.conversationHistory, assessment.Snapshot(), reply) ==
        Route(old(session.currentFlow), old(session.conversationHistory), old(assessment.Snapshot()), userInput, svc)
    {
      var input := Strip(userInput);
      if input == "" {
        return Ok(Welcome, MainMenu);
      }
      session.conversationHistory := session.conversationHistory + [UserEntry(input)];
      var command := Lower(input);
      if IsHomeCommand(command) {
        session.ResetAssessment();
        return Ok(Welcome, MainMenu);
      }
      if IsQuitCommand(command) {
        session.ResetAssessment();
        return Ok(Goodbye, Ended);
      }
      var result := DispatchFlowM(input, session, svc);
      if result.None? {
        return RouterReply(RouterError, Failure, session.currentFlow, Restart);
      }
      session.conversationHistory := session.conversationHistory + [AssistantEntry(result.value.response)];
      reply := result.value;
    }

    /** route_request */
    method RouteRequest(userInput: string, sessionId: string, svc: Services) returns (reply: RouterReply)
      requires Valid()
      modifies this, sessions.Values, assessment, assessment.tracker
      ensures Valid() && sessionId in sessions
      ensures sessions.Keys == old(sessions.Keys) + {sessionId}
      ensures forall id | id in old(sessions) :: sessions[id] == old(sessions[id])
      ensures forall id | id in old(sessions) && id != sessionId ::
        sessions[id].currentFlow == old(sessions[id].currentFlow) &&
        sessions[id].conversationHistory == old(sessions[id].conversationHistory)
      ensures var s := sessions[sessionId];
        Turn(s.currentFlow, s.conversationHistory, assessment.Snapshot(), reply) ==
          Route(if sessionId in old(sessions) then old(sessions[sessionId].currentFlow) else MainMenu,
                if sessionId in old(sessions) then old(sessions[sessionId].conversationHistory) else [],
                old(assessment.Snapshot()), userInput, svc)
    {
      var session := GetSession(sessionId);
      reply := RouteSession(userInput, session, svc);
    }
  }
}
