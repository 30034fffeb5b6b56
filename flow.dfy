/** The MRS assessment conversation: one user turn at a time, with the zero-score
    confirmation and exit confirmation sub-dialogues, the next-question step and
    the final scoring.  The state is the tracker's table, the collector's memory
    (previous question, symptoms last asked) and the three fields of the flow.
    Step is the specification of one turn; class MRSFlow is the object the router
    keeps, whose methods are proved to follow Step. */
module Flow {
  import opened Base
  import opened Tracker
  import opened TemplateLoading
  import opened Processors

  datatype Status =
    | ExitConfirmationPending | ClarificationNeeded | AskingNextSymptom | ContinueAssessment
    | ZeroConfirmationPending | ScoringCompletedAndExited | ExitConfirmed | Error

  function StatusName(st: Status): string {
    match st
    case ExitConfirmationPending => "exit_confirmation_pending"
    case ClarificationNeeded => "clarification_needed"
    case AskingNextSymptom => "asking_next_symptom"
    case ContinueAssessment => "continue_assessment"
    case ZeroConfirmationPending => "zero_confirmation_pending"
    case ScoringCompletedAndExited => "scoring_completed_and_exited"
    case ExitConfirmed => "exit_confirmed"
    case Error => "error"
  }

  /** A reply dict ("flow": "symptom_assessment" throughout; "mrs_score" only after
      scoring, "original_question" only on exit), or an exception that escapes. */
  datatype Outcome =
    | Reply(status: Status, message: Message, mrsScore: Option<int>, originalQuestion: Option<string>)
    | Raised(error: string)

  /** A reply's message, kept as the parts it is formatted from; Text renders it. */
  datatype Message =
    | Relayed(text: string)                    // the collector's next_message, as it is
    | Failed(detail: string)                   // an error reply
    | Asking(lead: string, question: string)   // the collector's message, then the next question
    | Continuing(previousQuestion: string)     // resuming after "no" to the exit confirmation
    | ZeroCheck(zeros: seq<Symptom>)           // the symptoms assumed absent
    | Scored(interpretation: string)           // the scorer's interpretation
    | Ended                                    // the assessment was left

  function Say(st: Status, message: Message): Outcome {
    Reply(st, message, None, None)
  }

  /** The prompt templates as load_prompt_template returns them, and the model. */
  datatype Env = Env(analyzerTemplate: Option<string>, questionTemplate: Option<string>,
                     scoreTemplate: Option<string>, llm: Llm)

  datatype FlowState = FlowState(
    records: Table,
    previousQuestion: string,
    lastAsked: seq<string>,
    pendingZero: bool,
    pendingExit: bool,
    originalQuestion: string)

  /** MRSFlow.__init__: a fresh tracker and collector, no confirmation pending. */
  function Fresh(): (s: FlowState)
    ensures WellFormed(s.records) && !s.pendingZero && !s.pendingExit && s.lastAsked == []
  {
    InitialTableIsFresh();
    FlowState(InitialTable(), "", [], false, false, "")
  }

  predicate IsYes(reply: string) {
    reply == "yes" || reply == "y"
  }

  predicate IsNo(reply: string) {
    reply == "no" || reply == "n"
  }

  /** user_input.strip().lower() */
  function Normalize(userInput: string): string {
    Lower(Strip(userInput))
  }

  function SymptomNames(symptoms: seq<Symptom>): (r: seq<string>)
    ensures |r| == |symptoms| && forall i :: 0 <= i < |r| ==> r[i] == Name(symptoms[i])
  {
    seq(|symptoms|, i requires 0 <= i < |symptoms| => Name(symptoms[i]))
  }

  // ------------------------------------------------------------ the zero check

  function ZerosIn(t: Table, names: seq<Symptom>): (r: seq<Symptom>)
    requires WellFormed(t)
    ensures IsSubsequence(r, names)
    ensures forall s :: s in r <==> s in names && Lookup(t, s).mrsScore == Some(0)
  {
    if names == [] then []
    else
      var rest := ZerosIn(t, names[1..]);
      if Lookup(t, names[0]).mrsScore == Some(0) then [names[0]] + rest else rest
  }

  /** The symptoms whose score is 0, in table order. */
  function ZeroSymptoms(t: Table): seq<Symptom>
    requires WellFormed(t)
  {
    ZerosIn(t, Catalog)
  }

  /** A symptom key with its underscores turned into spaces. */
  function ReadableName(x: Symptom): string {
    ReplaceAll(Name(x), "_", " ")
  }

  /** ", ".join(s.replace("_", " ") for s in zero_symptoms) */
  function Readable(zeros: seq<Symptom>): string {
    Join(", ", seq(|zeros|, i requires 0 <= i < |zeros| => ReadableName(zeros[i])))
  }

  /** The text around the list of symptoms assumed absent. */
  const ZeroCheckOpening := "Assessment completed! Before calculating your score, I assumed you don't have these symptoms: "
  const ZeroCheckClosing := ". Is this accurate? (yes) If not, please share any updates and I\U{2019}ll make adjustments."

  /** The "message" text of a reply. */
  function Text(m: Message): string {
    match m
    case Relayed(text) => text
    case Failed(detail) => "Error: " + detail
    case Asking(lead, question) => Strip(lead + " " + question)
    case Continuing(q) => Strip("Great, let's continue. " + q)
    case ZeroCheck(zeros) =>
      ZeroCheckOpening + Readable(zeros) + ZeroCheckClosing
    case Scored(interpretation) => interpretation + " (Session finished. Assessment exited.)"
    case Ended => "Assessment ended. Is there anything else you'd like to talk about?"
  }

  /** The zero confirmation names every symptom it assumes absent. */
  lemma ZeroCheckNamesEach(zeros: seq<Symptom>, k: nat)
    requires k < |zeros|
    ensures Contains(Text(ZeroCheck(zeros)), ReadableName(zeros[k]))
  {
    var parts := seq(|zeros|, i requires 0 <= i < |zeros| => ReadableName(zeros[i]));
    JoinContainsParts(", ", parts, k);
    ContainsInfix(ZeroCheckOpening, Readable(zeros), ZeroCheckClosing, ReadableName(zeros[k]));
  }

  // ------------------------------------------------------------ one turn

  /** _exit_flow: reset, and report the question the user left with (None on an emergency exit). */
  function ExitFlow(originalQuestion: Option<string>): (FlowState, Outcome) {
    (Fresh(), Reply(ExitConfirmed, Ended, None, originalQuestion))
  }

  /** _score_and_respond: both keys are read before the reset, so a reply missing one
      raises with the state untouched. */
  function ScoreAndRespond(s: FlowState, env: Env): (r: (FlowState, Outcome))
    requires WellFormed(s.records)
    ensures r.0 == s || r.0 == Fresh()
  {
    var data := Score(s.records, env.scoreTemplate, env.llm);
    if data.totalScore.None? || data.interpretation.None? then (s, Raised("KeyError"))
    else (Fresh(), Reply(ScoringCompletedAndExited, Scored(data.interpretation.value),
                         Some(data.totalScore.value), None))
  }

  /** _check_zero_before_score */
  function CheckZero(s: FlowState, env: Env): (r: (FlowState, Outcome))
    requires WellFormed(s.records)
    ensures r.0 == Fresh() || (r.0.records == s.records && r.0.pendingExit == s.pendingExit)
  {
    var zeros := ZeroSymptoms(s.records);
    if zeros != [] then (s.(pendingZero := true), Say(ZeroConfirmationPending, ZeroCheck(zeros)))
    else ScoreAndRespond(s, env)
  }

  function QuestionPrompt(template: string, target: seq<Symptom>): string {
    FormatSpec(template, [("target_symptoms", TextList(SymptomNames(target)))])
  }

  /** _ask_next_question(next_message) as written: None stands for the omitted argument,
      which line 97 adds to a str, raising after the collector's memory was updated. */
  function AskNextQuestion(s: FlowState, nextMessage: Option<string>, env: Env): (r: (FlowState, Outcome))
    requires WellFormed(s.records)
    ensures r.0 == Fresh() || (r.0.records == s.records && r.0.pendingExit == s.pendingExit)
    ensures r.1.Reply? && r.1.status == AskingNextSymptom ==>
      !IsAssessmentComplete(s.records) && r.0.lastAsked != [] && r.0.pendingZero == s.pendingZero
  {
    if IsAssessmentComplete(s.records) then CheckZero(s, env)
    else
      var (target, _) := GetBundleQuestionSymptoms(s.records, 2);
      if target == [] then CheckZero(s, env)
      else if !Usable(env.questionTemplate) then (s, Say(Error, Failed("Prompt template loading failed")))
      else
        var output := env.llm.complete(QuestionPrompt(env.questionTemplate.value, target));
        if output == "" then (s, Say(Error, Failed("LLM calling failed")))
        else match env.llm.decodeQuestion(output)
          case None => (s, Say(Error, Failed("LLM output parsing failed")))
          case Some(question) =>
            var s1 := s.(previousQuestion := question, lastAsked := SymptomNames(target));
            match nextMessage
            case None => (s1, Raised("TypeError"))
            case Some(m) => (s1, Say(AskingNextSymptom, Asking(m, question)))
  }

  /** _handle_zero_confirmation: "yes" scores; anything else asks again, which, the
      assessment being complete, re-runs the zero check. */
  function HandleZero(s: FlowState, userInput: string, env: Env): (FlowState, Outcome)
    requires WellFormed(s.records)
  {
    if IsYes(Normalize(userInput)) then ScoreAndRespond(s.(pendingZero := false), env)
    else AskNextQuestion(s, None, env)
  }

  /** _handle_exit_confirmation as written: an unclear reply calls _ask_next_question()
      without a message. */
  function HandleExitAsWritten(s: FlowState, userInput: string, env: Env): (r: (FlowState, Outcome))
    requires WellFormed(s.records)
    ensures !r.0.pendingExit && (r.0 == Fresh() || r.0.records == s.records)
    ensures IsYes(Normalize(userInput)) ==> r == ExitFlow(Some(s.originalQuestion))
    ensures IsNo(Normalize(userInput)) ==> r.1 == Say(ContinueAssessment, Continuing(s.previousQuestion))
  {
    var s1 := s.(pendingExit := false);
    var reply := Normalize(userInput);
    if IsYes(reply) then ExitFlow(Some(s.originalQuestion))
    else if IsNo(reply) then (s1, Say(ContinueAssessment, Continuing(s.previousQuestion)))
    else AskNextQuestion(s1, None, env)
  }

  /** _handle_exit_confirmation with the message defaulting to "" as intended. */
  function HandleExit(s: FlowState, userInput: string, env: Env): (r: (FlowState, Outcome))
    requires WellFormed(s.records)
    ensures !r.0.pendingExit && (r.0 == Fresh() || r.0.records == s.records)
    ensures IsYes(Normalize(userInput)) ==> r == ExitFlow(Some(s.originalQuestion))
    ensures IsNo(Normalize(userInput)) ==> r.1 == Say(ContinueAssessment, Continuing(s.previousQuestion))
  {
    var s1 := s.(pendingExit := false);
    var reply := Normalize(userInput);
    if IsYes(reply) then ExitFlow(Some(s.originalQuestion))
    else if IsNo(reply) then (s1, Say(ContinueAssessment, Continuing(s.previousQuestion)))
    else AskNextQuestion(s1, Some(""), env)
  }

  /** The collector's action_type ("" when absent), told apart once. */
  datatype Action = EmergencyExit | ExitIntent | SeverityUnclear | SeverityClear | OtherAction

  function ParseAction(action: string): (r: Action)
    ensures r == EmergencyExit <==> action == "emergency_exit"
    ensures r == ExitIntent <==> action == "exit_intent"
    ensures r == SeverityUnclear <==> action == "severity_unclear"
    ensures r == SeverityClear <==> action == "severity_clear"
  {
    if action == "emergency_exit" then EmergencyExit
    else if action == "exit_intent" then ExitIntent
    else if action == "severity_unclear" then SeverityUnclear
    else if action == "severity_clear" then SeverityClear
    else OtherAction
  }

  /** The collector's reply acted on, once the records were updated. */
  function Dispatch(s: FlowState, userInput: string, a: Analysis, env: Env): (FlowState, Outcome)
    requires WellFormed(s.records)
  {
    var message := a.nextMessage.GetOr("");
    match ParseAction(a.actionType.GetOr(""))
    case EmergencyExit => ExitFlow(None)
    case ExitIntent => (s.(pendingExit := true, originalQuestion := userInput), Say(ExitConfirmationPending, Relayed(message)))
    case SeverityUnclear => (s, Say(ClarificationNeeded, Relayed(message)))
    case SeverityClear => AskNextQuestion(s, Some(message), env)
    case OtherAction => (s, Say(Error, Failed(message)))
  }

  /** process_input, as written: an unclear answer to the exit confirmation goes
      through HandleExitAsWritten. */
  function Step(s: FlowState, userInput: string, env: Env): (r: (FlowState, Outcome))
    requires WellFormed(s.records)
    ensures WellFormed(r.0.records)
    ensures s.pendingZero || s.pendingExit ==> r.0 == Fresh() || r.0.records == s.records
  {
    if s.pendingZero then HandleZero(s, userInput, env)
    else if s.pendingExit then HandleExitAsWritten(s, userInput, env)
    else
      var a := Collect(userInput, s.previousQuestion, env.analyzerTemplate, env.llm);
      var (t1, ok) := UpdateRecordsSpec(s.records, s.lastAsked, a.symptomsScored.GetOr([]));
      UpdateRecordsEffect(s.records, s.lastAsked, a.symptomsScored.GetOr([]));
      if !ok then (s.(records := t1), Raised("KeyError"))
      else Dispatch(s.(records := t1), userInput, a, env)
  }

  // ------------------------------------------------------------ properties

  /** The state the flow keeps between turns. */
  ghost predicate Inv(s: FlowState) {
    WellFormed(s.records) &&
    !(s.pendingZero && s.pendingExit) &&
    (s.pendingZero ==> IsAssessmentComplete(s.records) && ZeroSymptoms(s.records) != []) &&
    (forall i :: 0 <= i < |s.lastAsked| ==> Catalogued(s.lastAsked[i]))
  }

  lemma FreshInv()
    ensures Inv(Fresh())
  {
  }

  /** The zero check lists exactly the symptoms scored 0, in table order. */
  lemma ZeroSymptomsSpec(t: Table)
    requires WellFormed(t)
    ensures IsSubsequence(ZeroSymptoms(t), Catalog)
    ensures forall s :: s in ZeroSymptoms(t) <==> Lookup(t, s).mrsScore == Some(0)
  {
    CatalogFacts();
  }

  lemma NamesCatalogued(symptoms: seq<Symptom>)
    ensures forall i :: 0 <= i < |SymptomNames(symptoms)| ==> Catalogued(SymptomNames(symptoms)[i])
  {
    forall i | 0 <= i < |symptoms| ensures Catalogued(Name(symptoms[i])) {
      NamesParse(symptoms[i], Somatic);
    }
  }

  lemma CheckZeroInv(s: FlowState, env: Env)
    requires Inv(s) && !s.pendingExit && IsAssessmentComplete(s.records)
    ensures Inv(CheckZero(s, env).0)
  {
    if ZeroSymptoms(s.records) == [] {
      FreshInv();
      assert ScoreAndRespond(s, env).0 == s || ScoreAndRespond(s, env).0 == Fresh();
    }
  }

  lemma AskNextInv(s: FlowState, nextMessage: Option<string>, env: Env)
    requires Inv(s) && !s.pendingExit
    ensures Inv(AskNextQuestion(s, nextMessage, env).0)
  {
    if IsAssessmentComplete(s.records) {
      CheckZeroInv(s, env);
    } else {
      var (target, _) := GetBundleQuestionSymptoms(s.records, 2);
      BundleEmptyIffComplete(s.records, 2);
      NamesCatalogued(target);
    }
  }

  lemma HandleZeroInv(s: FlowState, userInput: string, env: Env)
    requires Inv(s) && s.pendingZero
    ensures Inv(HandleZero(s, userInput, env).0)
  {
    FreshInv();
    if !IsYes(Normalize(userInput)) {
      AskNextInv(s, None, env);
    }
  }

  lemma HandleExitInv(s: FlowState, userInput: string, env: Env)
    requires Inv(s) && s.pendingExit
    ensures Inv(HandleExitAsWritten(s, userInput, env).0)
  {
    FreshInv();
    AskNextInv(s.(pendingExit := false), None, env);
  }

  lemma DispatchInv(s: FlowState, userInput: string, a: Analysis, env: Env)
    requires Inv(s) && !s.pendingZero && !s.pendingExit
    ensures Inv(Dispatch(s, userInput, a, env).0)
  {
    FreshInv();
    AskNextInv(s, Some(a.nextMessage.GetOr("")), env);
  }

  /** Every turn keeps the invariant: the table keeps its 11 records, the two
      confirmations are never pending together, a pending zero confirmation means
      the assessment is complete with some zero score, and the collector's last asked
      names are catalogue names. */
  lemma StepPreservesInv(s: FlowState, userInput: string, env: Env)
    requires Inv(s)
    ensures Inv(Step(s, userInput, env).0)
  {
    if s.pendingZero {
      HandleZeroInv(s, userInput, env);
    } else if s.pendingExit {
      HandleExitInv(s, userInput, env);
    } else {
      var a := Collect(userInput, s.previousQuestion, env.analyzerTemplate, env.llm);
      UpdateRecordsEffect(s.records, s.lastAsked, a.symptomsScored.GetOr([]));
      var (t1, ok) := UpdateRecordsSpec(s.records, s.lastAsked, a.symptomsScored.GetOr([]));
      if ok {
        DispatchInv(s.(records := t1), userInput, a, env);
      }
    }
  }

  /** The services a turn uses once the collector is out of the picture. */
  ghost predicate SameServices(env1: Env, env2: Env) {
    env1.questionTemplate == env2.questionTemplate && env1.scoreTemplate == env2.scoreTemplate &&
    env1.llm.complete == env2.llm.complete && env1.llm.decodeQuestion == env2.llm.decodeQuestion &&
    env1.llm.decodeScore == env2.llm.decodeScore
  }

  lemma ScoreSameServices(s: FlowState, env1: Env, env2: Env)
    requires WellFormed(s.records) && SameServices(env1, env2)
    ensures ScoreAndRespond(s, env1) == ScoreAndRespond(s, env2)
  {
    var t := env1.scoreTemplate;
    var d1, d2 := Score(s.records, t, env1.llm), Score(s.records, t, env2.llm);
    if Usable(t) {
      var output := env1.llm.complete(ScorePrompt(t.value, s.records));
      assert output == env2.llm.complete(ScorePrompt(t.value, s.records));
      if output != "" && ExtractBraces(output).Some? {
        assert env1.llm.decodeScore(ExtractBraces(output).value) == env2.llm.decodeScore(ExtractBraces(output).value);
      }
    }
    assert d1 == d2;
  }

  lemma AskNextSameServices(s: FlowState, nextMessage: Option<string>, env1: Env, env2: Env)
    requires WellFormed(s.records) && SameServices(env1, env2)
    ensures AskNextQuestion(s, nextMessage, env1) == AskNextQuestion(s, nextMessage, env2)
  {
    ScoreSameServices(s, env1, env2);
  }

  /** Whatever a pending confirmation is answered with, the collector is not consulted:
      the analyzer template and the analysis decoder make no difference. */
  lemma ConfirmationSkipsCollector(s: FlowState, userInput: string, env: Env,
                                   otherTemplate: Option<string>, otherDecoder: string -> Option<Analysis>)
    requires WellFormed(s.records) && (s.pendingZero || s.pendingExit)
    ensures Step(s, userInput, env) ==
      Step(s, userInput, env.(analyzerTemplate := otherTemplate, llm := env.llm.(decodeAnalysis := otherDecoder)))
  {
    var env2 := env.(analyzerTemplate := otherTemplate, llm := env.llm.(decodeAnalysis := otherDecoder));
    ScoreSameServices(s.(pendingZero := false), env, env2);
    AskNextSameServices(s, None, env, env2);
    AskNextSameServices(s.(pendingExit := false), None, env, env2);
  }

  /** A reply that ends the assessment (scored or exited) comes with a fresh flow. */
  predicate ResetIfFinal(r: (FlowState, Outcome)) {
    r.1.Reply? && (r.1.status == ScoringCompletedAndExited || r.1.status == ExitConfirmed) ==> r.0 == Fresh()
  }

  lemma AskNextResetIfFinal(s: FlowState, nextMessage: Option<string>, env: Env)
    requires WellFormed(s.records)
    ensures ResetIfFinal(AskNextQuestion(s, nextMessage, env))
  {
  }

  lemma DispatchResetIfFinal(s: FlowState, userInput: string, a: Analysis, env: Env)
    requires WellFormed(s.records)
    ensures ResetIfFinal(Dispatch(s, userInput, a, env))
  {
    AskNextResetIfFinal(s, Some(a.nextMessage.GetOr("")), env);
  }

  /** A reply that ends the assessment (scored or exited) always leaves a fresh flow. */
  lemma TerminalRepliesReset(s: FlowState, userInput: string, env: Env)
    requires WellFormed(s.records)
    ensures ResetIfFinal(Step(s, userInput, env))
  {
    if s.pendingZero {
      ZeroTurnResetIfFinal(s, userInput, env);
    } else if s.pendingExit {
      ExitTurnResetIfFinal(s, userInput, env);
    } else {
      AnswerTurnResetIfFinal(s, userInput, env);
    }
  }

  lemma ZeroTurnResetIfFinal(s: FlowState, userInput: string, env: Env)
    requires WellFormed(s.records) && s.pendingZero
    ensures ResetIfFinal(Step(s, userInput, env))
  {
    AskNextResetIfFinal(s, None, env);
  }

  lemma ExitTurnResetIfFinal(s: FlowState, userInput: string, env: Env)
    requires WellFormed(s.records) && !s.pendingZero && s.pendingExit
    ensures ResetIfFinal(Step(s, userInput, env))
  {
    AskNextResetIfFinal(s.(pendingExit := false), None, env);
  }

  lemma AnswerTurnResetIfFinal(s: FlowState, userInput: string, env: Env)
    requires WellFormed(s.records) && !s.pendingZero && !s.pendingExit
    ensures ResetIfFinal(Step(s, userInput, env))
  {
    var a := Collect(userInput, s.previousQuestion, env.analyzerTemplate, env.llm);
    UpdateRecordsEffect(s.records, s.lastAsked, a.symptomsScored.GetOr([]));
    var (t1, ok) := UpdateRecordsSpec(s.records, s.lastAsked, a.symptomsScored.GetOr([]));
    if ok {
      DispatchResetIfFinal(s.(records := t1), userInput, a, env);
    }
  }

  /** A non-"yes" answer to the zero confirmation changes nothing and repeats the
      confirmation: the answer itself is not read. */
  lemma ZeroConfirmationRepeats(s: FlowState, userInput: string, env: Env)
    requires Inv(s) && s.pendingZero && !IsYes(Normalize(userInput))
    ensures Step(s, userInput, env) == (s, Say(ZeroConfirmationPending, ZeroCheck(ZeroSymptoms(s.records))))
  {
  }

  /** "yes" to the zero confirmation goes straight to scoring, and a complete scorer
      reply ends the flow with its total and interpretation. */
  lemma ZeroConfirmationYesScores(s: FlowState, userInput: string, env: Env)
    requires Inv(s) && s.pendingZero && IsYes(Normalize(userInput))
    ensures Step(s, userInput, env) == ScoreAndRespond(s.(pendingZero := false), env)
    ensures var data := Score(s.records, env.scoreTemplate, env.llm);
      data.totalScore.Some? && data.interpretation.Some? ==>
        Step(s, userInput, env) ==
          (Fresh(), Reply(ScoringCompletedAndExited, Scored(data.interpretation.value),
                          data.totalScore, None))
  {
  }

  lemma AskNextClearsExit(s: FlowState, nextMessage: Option<string>, env: Env)
    requires WellFormed(s.records) && !s.pendingExit
    ensures !AskNextQuestion(s, nextMessage, env).0.pendingExit
  {
  }

  /** Any answer to the exit confirmation clears it: "yes" exits with the stored
      question, "no" resumes with the previous question, and anything else goes on to
      the next question without a message, which while symptoms remain either fails
      with an error reply or raises TypeError once the question was generated. */
  lemma ExitConfirmationResolves(s: FlowState, userInput: string, env: Env)
    requires WellFormed(s.records) && !s.pendingZero && s.pendingExit
    ensures !Step(s, userInput, env).0.pendingExit
    ensures IsYes(Normalize(userInput)) ==>
      Step(s, userInput, env) == (Fresh(), Reply(ExitConfirmed, Ended, None, Some(s.originalQuestion)))
    ensures IsNo(Normalize(userInput)) ==>
      Step(s, userInput, env) ==
        (s.(pendingExit := false), Say(ContinueAssessment, Continuing(s.previousQuestion)))
    ensures !IsYes(Normalize(userInput)) && !IsNo(Normalize(userInput)) ==>
      Step(s, userInput, env) == AskNextQuestion(s.(pendingExit := false), None, env)
    ensures !IsYes(Normalize(userInput)) && !IsNo(Normalize(userInput)) && !IsAssessmentComplete(s.records) ==>
      var out := Step(s, userInput, env).1;
      (out.Raised? ==> out.error == "TypeError") && (out.Reply? ==> out.status == Error)
  {
    assert Step(s, userInput, env) == HandleExitAsWritten(s, userInput, env);
    if !IsYes(Normalize(userInput)) && !IsNo(Normalize(userInput)) {
      AskNextClearsExit(s.(pendingExit := false), None, env);
      if !IsAssessmentComplete(s.records) {
        AskNextWithoutMessage(s.(pendingExit := false), env);
      }
    }
  }

  /** Without a message, the next-question step on an incomplete assessment never
      asks: it fails with an error reply and the memory untouched, or raises TypeError
      after remembering the new question. */
  lemma AskNextWithoutMessage(s: FlowState, env: Env)
    requires WellFormed(s.records) && !IsAssessmentComplete(s.records)
    ensures var (s2, out) := AskNextQuestion(s, None, env);
      (out.Raised? ==> out.error == "TypeError" && s2 == s.(previousQuestion := s2.previousQuestion,
                                                           lastAsked := s2.lastAsked)) &&
      (out.Reply? ==> out.status == Error && s2 == s)
  {
    BundleEmptyIffComplete(s.records, 2);
  }

  /** An exit intent stores the user's words and asks for confirmation with the
      collector's message; the records were updated first. */
  lemma ExitIntentStoresQuestion(s: FlowState, userInput: string, env: Env)
    requires WellFormed(s.records) && !s.pendingZero && !s.pendingExit
    requires Collect(userInput, s.previousQuestion, env.analyzerTemplate, env.llm).actionType == Some("exit_intent")
    ensures var a := Collect(userInput, s.previousQuestion, env.analyzerTemplate, env.llm);
      var (t1, ok) := UpdateRecordsSpec(s.records, s.lastAsked, a.symptomsScored.GetOr([]));
      ok ==>
        Step(s, userInput, env) ==
          (s.(records := t1, pendingExit := true, originalQuestion := userInput),
           Say(ExitConfirmationPending, Relayed(a.nextMessage.GetOr(""))))
  {
  }

  /** When the collector fails (no template, no output, unparsable output) the turn
      still marks every symptom last asked as answered with 0, and the reply repeats
      the collector's "Error: ..." message behind another "Error: ". */
  lemma CollectorFailureDefaultsAsked(s: FlowState, userInput: string, env: Env)
    requires Inv(s) && !s.pendingZero && !s.pendingExit
    requires Collect(userInput, s.previousQuestion, env.analyzerTemplate, env.llm).actionType == Some("error")
    requires Collect(userInput, s.previousQuestion, env.analyzerTemplate, env.llm).symptomsScored.None?
    ensures var (s2, out) := Step(s, userInput, env);
      WellFormed(s2.records) &&
      s2 == s.(records := s2.records) &&
      out == Say(Error, Failed(Collect(userInput, s.previousQuestion, env.analyzerTemplate, env.llm).nextMessage.GetOr(""))) &&
      forall x :: Lookup(s2.records, x) == if Name(x) in s.lastAsked then Record(Some(0), true) else Lookup(s.records, x)
  {
    UpdateRecordsEffect(s.records, s.lastAsked, []);
  }

  /** An emergency exit, once the records were updated, ends the assessment at once:
      a fresh flow and no stored question. */
  lemma EmergencyExitResets(s: FlowState, userInput: string, env: Env)
    requires WellFormed(s.records) && !s.pendingZero && !s.pendingExit
    requires Collect(userInput, s.previousQuestion, env.analyzerTemplate, env.llm).actionType == Some("emergency_exit")
    ensures var a := Collect(userInput, s.previousQuestion, env.analyzerTemplate, env.llm);
      UpdateRecordsSpec(s.records, s.lastAsked, a.symptomsScored.GetOr([])).1 ==>
        Step(s, userInput, env) == (Fresh(), Reply(ExitConfirmed, Ended, None, None))
  {
  }

  /** An unclear severity relays the collector's message as a clarification request;
      only the records change: both confirmations and the memory stay. */
  lemma SeverityUnclearClarifies(s: FlowState, userInput: string, env: Env)
    requires WellFormed(s.records) && !s.pendingZero && !s.pendingExit
    requires Collect(userInput, s.previousQuestion, env.analyzerTemplate, env.llm).actionType == Some("severity_unclear")
    ensures var a := Collect(userInput, s.previousQuestion, env.analyzerTemplate, env.llm);
      var (t1, ok) := UpdateRecordsSpec(s.records, s.lastAsked, a.symptomsScored.GetOr([]));
      ok ==>
        Step(s, userInput, env) ==
          (s.(records := t1), Say(ClarificationNeeded, Relayed(a.nextMessage.GetOr(""))))
  {
  }

  /** Any action_type other than the four known ones (a missing one included) gives the
      error reply built from the collector's message; only the records change. */
  lemma UnknownActionErrors(s: FlowState, userInput: string, env: Env)
    requires WellFormed(s.records) && !s.pendingZero && !s.pendingExit
    requires var action := Collect(userInput, s.previousQuestion, env.analyzerTemplate, env.llm).actionType.GetOr("");
      action != "emergency_exit" && action != "exit_intent" &&
      action != "severity_unclear" && action != "severity_clear"
    ensures var a := Collect(userInput, s.previousQuestion, env.analyzerTemplate, env.llm);
      var (t1, ok) := UpdateRecordsSpec(s.records, s.lastAsked, a.symptomsScored.GetOr([]));
      ok ==>
        Step(s, userInput, env) == (s.(records := t1), Say(Error, Failed(a.nextMessage.GetOr(""))))
  {
  }

  /** The next-question step fails with an error reply exactly when, with symptoms
      remaining, the question template is unusable, the model returns nothing or its
      output does not parse; the state is then untouched and the reply names the stage. */
  lemma AskNextFailureKeepsMemory(s: FlowState, nextMessage: Option<string>, env: Env)
    requires WellFormed(s.records)
    ensures var (s2, out) := AskNextQuestion(s, nextMessage, env);
      out.Reply? && out.status == Error ==>
        s2 == s && !IsAssessmentComplete(s.records) &&
        (out.message == Failed("Prompt template loading failed") ||
         out.message == Failed("LLM calling failed") ||
         out.message == Failed("LLM output parsing failed"))
    ensures var (s2, out) := AskNextQuestion(s, nextMessage, env);
      var target := GetBundleQuestionSymptoms(s.records, 2).0;
      !IsAssessmentComplete(s.records) ==>
        (out.Reply? && out.status == Error <==>
          !Usable(env.questionTemplate) ||
          env.llm.complete(QuestionPrompt(env.questionTemplate.value, target)) == "" ||
          env.llm.decodeQuestion(env.llm.complete(QuestionPrompt(env.questionTemplate.value, target))).None?)
  {
    BundleEmptyIffComplete(s.records, 2);
    if IsAssessmentComplete(s.records) {
      CompleteGoesToZeroCheckOrScore(s, nextMessage, env);
    }
  }

  /** On a complete assessment the next-question step always goes to the zero
      confirmation when some score is 0, and to the scorer otherwise. */
  lemma CompleteGoesToZeroCheckOrScore(s: FlowState, nextMessage: Option<string>, env: Env)
    requires WellFormed(s.records) && IsAssessmentComplete(s.records)
    ensures var zeros := ZeroSymptoms(s.records);
      AskNextQuestion(s, nextMessage, env) ==
        if zeros != [] then (s.(pendingZero := true), Say(ZeroConfirmationPending, ZeroCheck(zeros)))
        else ScoreAndRespond(s, env)
    ensures var out := AskNextQuestion(s, nextMessage, env).1;
      (out.Reply? && out.status in {ZeroConfirmationPending, ScoringCompletedAndExited}) ||
      out == Raised("KeyError")
  {
  }

  lemma AskNextSucceeds(s: FlowState, nextMessage: string, env: Env)
    requires WellFormed(s.records)
    ensures var (s2, out) := AskNextQuestion(s, Some(nextMessage), env);
      out.Reply? && out.status == AskingNextSymptom ==>
        !IsAssessmentComplete(s.records) &&
        s2 == s.(previousQuestion := s2.previousQuestion,
                 lastAsked := SymptomNames(GetBundleQuestionSymptoms(s.records, 2).0)) &&
        out.message == Asking(nextMessage, s2.previousQuestion)
  {
  }

  /** A successful next question asks about one to two unaddressed symptoms of the
      first domain with any, remembers them and the question, and the reply is the
      collector's message followed by the question. */
  lemma NextQuestionTargetsBundle(s: FlowState, nextMessage: string, env: Env)
    requires WellFormed(s.records)
    ensures var (s2, out) := AskNextQuestion(s, Some(nextMessage), env);
      out.Reply? && out.status == AskingNextSymptom ==>
        var (bundle, domain) := GetBundleQuestionSymptoms(s.records, 2);
        !IsAssessmentComplete(s.records) &&
        1 <= |bundle| <= 2 && domain.Some? &&
        (forall x :: x in bundle ==> DomainOf(x) == domain.value && !Lookup(s.records, x).isAddressed) &&
        s2 == s.(previousQuestion := s2.previousQuestion, lastAsked := SymptomNames(bundle)) &&
        out.message == Asking(nextMessage, s2.previousQuestion)
  {
    AskNextSucceeds(s, nextMessage, env);
    BundleEmptyIffComplete(s.records, 2);
    BundleComesFromFirstOpenDomain(s.records, 2);
  }

  /** The next-question step scores only a complete assessment: while some symptom is
      unaddressed it never reaches the zero check or the scorer. */
  lemma AskNextOnlyScoresComplete(s: FlowState, nextMessage: Option<string>, env: Env)
    requires WellFormed(s.records)
    ensures var out := AskNextQuestion(s, nextMessage, env).1;
      out.Reply? && (out.status == ZeroConfirmationPending || out.status == ScoringCompletedAndExited) ==>
        IsAssessmentComplete(s.records)
  {
    BundleEmptyIffComplete(s.records, 2);
  }

  // ------------------------------------------------------------ the finding

  /** As written, answering the exit confirmation with something other than yes/no
      while symptoms remain raises (None + str) once the next question was generated;
      with the message defaulting to "" the same turn asks that question. */
  lemma ExitReplyCrashesAsWritten(s: FlowState, userInput: string, env: Env)
    requires WellFormed(s.records) && !IsAssessmentComplete(s.records)
    requires !IsYes(Normalize(userInput)) && !IsNo(Normalize(userInput))
    requires Usable(env.questionTemplate)
    requires env.llm.decodeQuestion(env.llm.complete(
      QuestionPrompt(env.questionTemplate.value, GetBundleQuestionSymptoms(s.records, 2).0))).Some?
    requires env.llm.complete(QuestionPrompt(env.questionTemplate.value, GetBundleQuestionSymptoms(s.records, 2).0)) != ""
    ensures HandleExitAsWritten(s, userInput, env).1 == Raised("TypeError")
    ensures var question := env.llm.decodeQuestion(env.llm.complete(
              QuestionPrompt(env.questionTemplate.value, GetBundleQuestionSymptoms(s.records, 2).0))).value;
      HandleExit(s, userInput, env) ==
        (s.(pendingExit := false, previousQuestion := question,
            lastAsked := SymptomNames(GetBundleQuestionSymptoms(s.records, 2).0)),
         Say(AskingNextSymptom, Asking("", question)))
  {
    BundleEmptyIffComplete(s.records, 2);
  }

  /** A pending exit confirmation at the start of the assessment. */
  function MidAssessment(): (s: FlowState)
    ensures WellFormed(s.records)
  {
    Fresh().(pendingExit := true, originalQuestion := "what helps with sleep?")
  }

  /** A working question generator. */
  function WorkingEnv(): Env {
    Env(None, Some("Ask about {target_symptoms}"), None,
        Llm(p => "{\"next_question\": \"How strong are your hot flashes?\"}",
            j => None,
            o => Some("How strong are your hot flashes?"),
            j => None))
  }

  lemma MidAssessmentIncomplete()
    ensures !IsAssessmentComplete(MidAssessment().records)
  {
    InitialTableIsFresh();
    assert !Lookup(MidAssessment().records, HotFlashes).isAddressed;
  }

  lemma MaybeIsUnclear()
    ensures !IsYes(Normalize("maybe")) && !IsNo(Normalize("maybe"))
  {
    assert !IsSpace('m') && !IsSpace('e');
    assert TrimLeft("maybe") == "maybe" && TrimRight("maybe") == "maybe";
    assert |Normalize("maybe")| == 5;
  }

  /** The crash on a concrete turn: the user answers "maybe" to the exit confirmation
      before any symptom was scored. */
  lemma ExitReplyCrashExample()
    ensures HandleExitAsWritten(MidAssessment(), "maybe", WorkingEnv()).1 == Raised("TypeError")
    ensures HandleExit(MidAssessment(), "maybe", WorkingEnv()).1.Reply?
  {
    MidAssessmentIncomplete();
    MaybeIsUnclear();
    ExitReplyCrashesAsWritten(MidAssessment(), "maybe", WorkingEnv());
  }

  /** With the message defaulting to "", no answer to the exit confirmation raises while
      symptoms remain: an unclear answer gets the next question or the error reply. */
  lemma HandleExitRepliesMidAssessment(s: FlowState, userInput: string, env: Env)
    requires WellFormed(s.records) && !IsAssessmentComplete(s.records)
    ensures HandleExit(s, userInput, env).1.Reply?
    ensures !IsYes(Normalize(userInput)) && !IsNo(Normalize(userInput)) ==>
      var (s2, out) := HandleExit(s, userInput, env);
      !s2.pendingExit && (out.status == AskingNextSymptom || out.status == Error)
  {
    var s1 := s.(pendingExit := false);
    if !IsYes(Normalize(userInput)) && !IsNo(Normalize(userInput)) {
      assert HandleExit(s, userInput, env) == AskNextQuestion(s1, Some(""), env);
      AskNextAsksWhileIncomplete(s1, Some(""), env);
    }
  }

  /** While symptoms remain, the next-question step asks or reports an error reply and
      leaves the confirmations as they were. */
  lemma AskNextAsksWhileIncomplete(s: FlowState, nextMessage: Option<string>, env: Env)
    requires WellFormed(s.records) && !IsAssessmentComplete(s.records) && nextMessage.Some?
    ensures var (s2, out) := AskNextQuestion(s, nextMessage, env);
      out.Reply? && (out.status == AskingNextSymptom || out.status == Error) &&
      s2.pendingExit == s.pendingExit && s2.pendingZero == s.pendingZero
  {
    BundleEmptyIffComplete(s.records, 2);
  }

  // ------------------------------------------------------------ the object

  class MRSFlow {
    var tracker: MRSTracker
    var previousQuestion: string
    var lastAskedSymptoms: seq<string>
    var pendingZeroConfirmation: bool
    var pendingExitConfirmation: bool
    var originalQuestion: string

    ghost predicate Valid()
      reads this, tracker
    {
      tracker.Valid()
    }

    function Snapshot(): FlowState
      reads this, tracker
    {
      FlowState(tracker.records, previousQuestion, lastAskedSymptoms,
                pendingZeroConfirmation, pendingExitConfirmation, originalQuestion)
    }

    constructor ()
      ensures Valid() && Snapshot() == Fresh() && fresh(tracker)
    {
      tracker := new MRSTracker();
      previousQuestion := "";
      lastAskedSymptoms := [];
      pendingZeroConfirmation := false;
      pendingExitConfirmation := false;
      originalQuestion := "";
    }

    /** self.__init__() called on a live flow. */
    method Reset()
      modifies this
      ensures Valid() && Snapshot() == Fresh() && fresh(tracker)
    {
      tracker := new MRSTracker();
      previousQuestion := "";
      lastAskedSymptoms := [];
      pendingZeroConfirmation := false;
      pendingExitConfirmation := false;
      originalQuestion := "";
    }

    method ExitFlowM(original: Option<string>) returns (out: Outcome)
      modifies this
      ensures Valid() && (Snapshot(), out) == ExitFlow(original)
      ensures tracker == old(tracker) || fresh(tracker)
    {
      Reset();
      out := Reply(ExitConfirmed, Ended, None, original);
    }

    method ScoreAndRespondM(env: Env) returns (out: Outcome)
      requires Valid()
      modifies this
      ensures Valid() && (Snapshot(), out) == ScoreAndRespond(old(Snapshot()), env)
      ensures tracker == old(tracker) || fresh(tracker)
    {
      var data := Score(tracker.records, env.scoreTemplate, env.llm);
      if data.totalScore.None? || data.interpretation.None? {
        return Raised("KeyError");
      }
      var totalScore := data.totalScore.value;
      var interpretation := data.interpretation.value;
      Reset();
      out := Reply(ScoringCompletedAndExited, Scored(interpretation), Some(totalScore), None);
    }

    method CheckZeroBeforeScore(env: Env) returns (out: Outcome)
      requires Valid()
      modifies this
      ensures Valid() && (Snapshot(), out) == CheckZero(old(Snapshot()), env)
      ensures tracker == old(tracker) || fresh(tracker)
    {
      var zeros := ZeroSymptoms(tracker.records);
      ghost var s0 := Snapshot();
      if zeros != [] {
        pendingZeroConfirmation := true;
        assert Snapshot() == s0.(pendingZero := true);
        return Say(ZeroConfirmationPending, ZeroCheck(zeros));
      }
      out := ScoreAndRespondM(env);
    }

    method AskNextQuestionM(nextMessage: Option<string>, env: Env) returns (out: Outcome)
      requires Valid()
      modifies this
      ensures Valid() && (Snapshot(), out) == AskNextQuestion(old(Snapshot()), nextMessage, env)
      ensures tracker == old(tracker) || fresh(tracker)
    {
      ghost var s0 := Snapshot();
      if IsAssessmentComplete(tracker.records) {
        out := CheckZeroBeforeScore(env);
        return;
      }
      var (target, _) := GetBundleQuestionSymptoms(tracker.records, 2);
      if target == [] {
        out := CheckZeroBeforeScore(env);
        return;
      }
      if !Usable(env.questionTemplate) {
        return Say(Error, Failed("Prompt template loading failed"));
      }
      var prompt := FormatTemplate(env.questionTemplate.value, [("target_symptoms", TextList(SymptomNames(target)))]);
      assert prompt == QuestionPrompt(env.questionTemplate.value, target);
      var output := env.llm.complete(prompt);
      if output == "" {
        return Say(Error, Failed("LLM calling failed"));
      }
      var decoded := env.llm.decodeQuestion(output);
      if decoded.None? {
        return Say(Error, Failed("LLM output parsing failed"));
      }
      var question := decoded.value;
      previousQuestion := question;
      lastAskedSymptoms := SymptomNames(target);
      assert Snapshot() == s0.(previousQuestion := question, lastAsked := SymptomNames(target));
      if nextMessage.None? {
        return Raised("TypeError");
      }
      out := Say(AskingNextSymptom, Asking(nextMessage.value, question));
    }

    method HandleZeroConfirmation(userInput: string, env: Env) returns (out: Outcome)
      requires Valid()
      modifies this
      ensures Valid() && (Snapshot(), out) == HandleZero(old(Snapshot()), userInput, env)
      ensures tracker == old(tracker) || fresh(tracker)
    {
      if IsYes(Normalize(userInput)) {
        pendingZeroConfirmation := false;
        out := ScoreAndRespondM(env);
      } else {
        out := AskNextQuestionM(None, env);
      }
    }

    method HandleExitConfirmation(userInput: string, env: Env) returns (out: Outcome)
      requires Valid()
      modifies this
      ensures Valid() && (Snapshot(), out) == HandleExitAsWritten(old(Snapshot()), userInput, env)
      ensures tracker == old(tracker) || fresh(tracker)
    {
      ghost var s0 := Snapshot();
      pendingExitConfirmation := false;
      assert Snapshot() == s0.(pendingExit := false);
      var response := Normalize(userInput);
      if IsYes(response) {
        out := ExitFlowM(Some(originalQuestion));
      } else if IsNo(response) {
        out := Say(ContinueAssessment, Continuing(previousQuestion));
      } else {
        out := AskNextQuestionM(None, env);
        assert (Snapshot(), out) == AskNextQuestion(s0.(pendingExit := false), None, env);
      }
    }

    /** process_input */
    method ProcessInput(userInput: string, env: Env) returns (out: Outcome)
      requires Valid()
      modifies this, tracker
      ensures Valid() && (Snapshot(), out) == Step(old(Snapshot()), userInput, env)
      ensures tracker == old(tracker) || fresh(tracker)
    {
      if pendingZeroConfirmation {
        out := HandleZeroConfirmation(userInput, env);
        return;
      }
      if pendingExitConfirmation {
        out := HandleExitConfirmation(userInput, env);
        return;
      }
      var parsed := Collect(userInput, previousQuestion, env.analyzerTemplate, env.llm);
      var ok := tracker.UpdateRecords(lastAskedSymptoms, parsed.symptomsScored.GetOr([]));
      if !ok {
        return Raised("KeyError");
      }
      var nextMessage := parsed.nextMessage.GetOr("");
      match ParseAction(parsed.actionType.GetOr(""))
      case EmergencyExit =>
        out := ExitFlowM(None);
      case ExitIntent =>
        pendingExitConfirmation := true;
        originalQuestion := userInput;
        out := Say(ExitConfirmationPending, Relayed(nextMessage));
      case SeverityUnclear =>
        out := Say(ClarificationNeeded, Relayed(nextMessage));
      case SeverityClear =>
        out := AskNextQuestionM(Some(nextMessage), env);
      case OtherAction =>
        out := Say(Error, Failed(nextMessage));
    }
  }
}
