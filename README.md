# Thalia menopause-support assistant: verified model of its core

This project is a Dafny model of the Thalia assistant's logic. Its centre is the
Menopause Rating Scale (MRS) symptom-assessment dialogue engine, made of five parts:

- **MRSTracker** is a table of eleven symptom records across three domains. A record holds a score (0..4 or none) and an "addressed" flag.
- **MRSFlow** is a three-state dialogue: awaiting input, pending zero-confirmation and pending exit-confirmation.
- **MRSCollector** and **MRSScorer** wrap a language-model call and extract a `{...}` payload from its reply.
- **format_template** substitutes values into a prompt template.
- **TemplateLoader** keeps a cache of prompt templates.

The model also covers the code around the engine:

- the outer intent router with its per-session state machine;
- the three variants of the MRS arithmetic: the demo server, the insights server's PDF summary and the browser client;
- the keyword symptom detector and the two-hour time-window histogram;
- the browser's pending-log de-duplication;
- the in-memory user and session store;
- the SQL schema statement splitter;
- the knowledge-API intent analysis;
- the two Gradio chat handlers;
- the small utilities module.

Each source file becomes one Dafny module:

| module | models |
|---|---|
| `Base` | shared helpers: Option, ASCII case mapping and whitespace, substring search, `str()` of integers |
| `Tracker` | backend/flows/mrs_symptom_tracker.py |
| `Flow` | backend/flows/symptom_assessment_flow.py |
| `Processors` | backend/flows/symptom_assessment_processors.py |
| `TemplateLoading` | backend/utils/template_loader.py |
| `Router` | main_flow_router.py |
| `DemoReport` | thalia_demo/app.py |
| `Insights` | thalia_demo/thalia_ai/app.py |
| `ThaliaIndex` | thalia_demo/thalia_ai/index.js |
| `UserAuth` | user_auth_with_conversations.py |
| `RunSchema` | backend/db/run_schema.py |
| `KnowledgeApi` | menopause_knowledge_api.py |
| `Chat`, `ResponseHandler` | response_handler.py |
| `Chat`, `SimpleApp` | simple_app.py |
| `Utils` | utils.py |

Code that updates objects in place becomes a Dafny `class` whose methods carry `modifies` clauses. This covers the tracker, the flow, the template loader, the router and its sessions, the user manager, the knowledge API's session data, the chat history and SystemStatus. Each such method is proved against a pure specification function. Loops become `while` loops with invariants. The demo server's stable sort is an in-place insertion sort on an array.

Design choices:

- **Foreign calls are parameters.** The language-model calls, the Gemini classifier, the RAG pipelines and the template files are inputs of type `Option<string>` or functions. So are the password hash, session ids, clocks and the YAML and JSON decoders.
- **Python exceptions on the modelled paths are explicit.** An exception that propagates is an explicit outcome: `Raised` in the flow, `None` in the router's handlers, `false` from `UpdateRecords` and `None` from `CalculateResults`. Exceptions raised by ill-typed model output are not among them: the decoders return only well-typed values (see "Left out").
- **Reply texts.** The assessment flow and the router represent replies as tags or message datatypes. `KnowledgeApi`, `ResponseHandler` and `Utils` carry the exact texts.
- **Missing domain.** The tracker's "domain" return value `""` (no domain) is `None`.

Where the prose design and the code disagree, the model follows the code:

- **The zero check flags any zero.** The design says it flags scores that were defaulted to 0. The code flags every score of exactly 0, including one the user gave explicitly (symptom_assessment_flow.py:101-107).
- **Records are updated before the action is examined.** The design describes the update as part of normal answering. The code calls `update_records` before it looks at `action_type` (symptom_assessment_flow.py:23-25). So the last-asked symptoms are defaulted to 0 on every action, including `error`, `exit_intent`, `emergency_exit` and `severity_unclear`.
- **An unclear answer to the exit confirmation raises.** `Flow.Step` takes the code's path: such an answer calls the next-question step without a message, which raises a TypeError while symptoms remain (symptom_assessment_flow.py:71, 97). `Flow.HandleExit` is the corrected handler, with the message defaulting to `""` (see "Findings").
- **The MRS severity bands differ between variants.** The demo server uses 4/16/27 and the insights server and browser use 4/8/15. Each module keeps its own bands, and `Insights.PdfBandsStricter` states how they differ.

## Model

| member | source | states |
|---|---|---|
| Tracker.NewRecord | backend/flows/mrs_symptom_tracker.py:5-15 | a new record has no score and is not addressed |
| Tracker.DomainOf | backend/flows/mrs_symptom_tracker.py:23-32 | every symptom belongs to the domain the catalogue lists it under |
| Tracker.NamesParse | backend/flows/mrs_symptom_tracker.py:23-32 | every catalogued symptom and domain name parses back to the symptom or domain it names |
| Tracker.ParseSymptom | backend/flows/mrs_symptom_tracker.py:23-32 | a name parses only to the symptom that carries that name |
| Tracker.ParseSymptomIsName | backend/flows/mrs_symptom_tracker.py:23-32 | a name that does not parse belongs to no symptom |
| Tracker.ParseDomain | backend/flows/mrs_symptom_tracker.py:23-32 | a name parses only to the domain that carries that name |
| Tracker.ParseDomainIsName | backend/flows/mrs_symptom_tracker.py:23-32 | a name that does not parse belongs to no domain |
| Tracker.InDomainIff | backend/flows/mrs_symptom_tracker.py:23-32 | a symptom is listed under a domain iff that is its domain |
| Tracker.CatalogFacts | backend/flows/mrs_symptom_tracker.py:23-32 | the catalogue holds 11 distinct symptoms, every symptom, split 4 somatic / 4 psychological / 3 urogenital |
| Tracker.NamesInjective | backend/flows/mrs_symptom_tracker.py:23-32 | different symptoms, and different domains, have different names |
| Tracker.InitialTableIsFresh | backend/flows/mrs_symptom_tracker.py:34-39 | the initial table has one record per catalogued symptom, none scored or addressed |
| Tracker.FindSymptomDomain | backend/flows/mrs_symptom_tracker.py:102-107 | the domain found holds the named symptom; a domain is found iff the name is catalogued, and it is then the symptom's domain |
| Tracker.MissingIn | backend/flows/mrs_symptom_tracker.py:41-63 | the missing symptoms of a domain are exactly its unaddressed ones, in catalogue order |
| Tracker.MissingSymptomsAreUnaddressed | backend/flows/mrs_symptom_tracker.py:41-63 | get_missing_symptoms returns exactly the unaddressed symptoms of its scope, in catalogue order |
| Tracker.BundleComesFromFirstOpenDomain | backend/flows/mrs_symptom_tracker.py:65-84 | the bundle holds at most max_symptoms unaddressed symptoms, all from the first domain in somatic, psychological, urogenital order that has a missing symptom, in catalogue order |
| Tracker.BundleEmptyIffComplete | backend/flows/mrs_symptom_tracker.py:65-84 | with a positive bound the bundle is empty, with no domain, iff nothing is missing |
| Tracker.CompleteIffAllAddressed | backend/flows/mrs_symptom_tracker.py:86-92 | the assessment is complete iff every record is addressed |
| Tracker.CompleteIffNothingMissing | backend/flows/mrs_symptom_tracker.py:86-92 | the assessment is complete iff get_missing_symptoms() is empty |
| Tracker.SetRecordLookup | backend/flows/mrs_symptom_tracker.py:116-124 | writing one record keeps the table's shape and changes only that record |
| Tracker.Names | backend/flows/mrs_symptom_tracker.py:110-118 | the names of the scored items, one per item, in order |
| Tracker.ApplyScoredEffect | backend/flows/mrs_symptom_tracker.py:109-118 | the scored pass succeeds iff every scored name is catalogued; each scored symptom then takes its last given score and is addressed |
| Tracker.ApplyDefaultsEffect | backend/flows/mrs_symptom_tracker.py:120-125 | the default pass succeeds iff every asked name is catalogued; each asked symptom without a score becomes 0 and addressed |
| Tracker.UpdateRecordsEffect | backend/flows/mrs_symptom_tracker.py:94-125 | scored symptoms take their last score and are addressed, asked unscored symptoms become 0 and addressed, every other record is unchanged; the update succeeds iff every name it writes is catalogued |
| Tracker.CountAddressed | backend/flows/mrs_symptom_tracker.py:127-164 | the addressed count of a domain never exceeds its size |
| Tracker.CountScored | backend/flows/mrs_symptom_tracker.py:127-164 | the scored count of a domain never exceeds its size |
| Tracker.CountAddressedAll | backend/flows/mrs_symptom_tracker.py:127-164 | a domain's addressed count equals its size iff all its records are addressed |
| Tracker.DomainCounts | backend/flows/mrs_symptom_tracker.py:127-164 | a domain's total is its catalogue size, and its addressed count reaches it iff the domain is fully addressed |
| Tracker.GetAssessmentProgress | backend/flows/mrs_symptom_tracker.py:127-164 | the per-domain entries come in the order somatic, psychological, urogenital, and the overall counts are at most 11 |
| Tracker.CountAmongAppend | backend/flows/mrs_symptom_tracker.py:134-143 | counting addressed or scored records over two lists of names adds up |
| Tracker.CountAmongDomain | backend/flows/mrs_symptom_tracker.py:134-154 | over the names of one domain, the overall loop's counts equal that domain's counts |
| Tracker.OverallCountsSplit | backend/flows/mrs_symptom_tracker.py:134-154 | the overall loop's addressed and scored counts equal the sums of the per-domain counts |
| Tracker.ProgressCounts | backend/flows/mrs_symptom_tracker.py:127-164 | total is 11; the overall addressed and scored counts, taken over every record, are the sums of the per-domain counts; domain totals add up to 11; and is_complete holds iff every record is addressed |
| Tracker.GetRecordsByDomain | backend/flows/mrs_symptom_tracker.py:166-168 | a known domain's records, and an empty mapping for any other name |
| Tracker.ToDictLookup | backend/flows/mrs_symptom_tracker.py:170-177 | the exported dictionary has every domain and symptom of the table under its name, with the record's score and flag |
| Tracker.FromDictAt | backend/flows/mrs_symptom_tracker.py:179-191 | import keeps the table's keys, and each record is the imported one where the data names it and the old one elsewhere |
| Tracker.ImportDomainSpecStep | backend/flows/mrs_symptom_tracker.py:185-191 | importing one more symptom name updates the record of the symptom it names, and an unknown name changes nothing |
| Tracker.ImportDomainsStep | backend/flows/mrs_symptom_tracker.py:181-191 | importing one more domain name updates the domain it names and ignores an unknown one |
| Tracker.ExportImportRoundTrip | backend/flows/mrs_symptom_tracker.py:170-191 | from_dict(to_dict()) restores every record, whatever the table held before |
| Tracker.ImportOverwritesNamed | backend/flows/mrs_symptom_tracker.py:179-191 | import keeps the table's shape; a record changes only where the data names its domain and symptom |
| Tracker.MRSTracker.constructor | backend/flows/mrs_symptom_tracker.py:23-39 | a new tracker holds the initial table of 11 fresh records |
| Tracker.MRSTracker.UpdateRecords | backend/flows/mrs_symptom_tracker.py:94-125 | the loops of update_records produce the specified table and report whether an unknown name raised |
| Tracker.MRSTracker.ImportDomain | backend/flows/mrs_symptom_tracker.py:185-191 | the inner loop of from_dict imports one domain's data into its records |
| Tracker.MRSTracker.FromDict | backend/flows/mrs_symptom_tracker.py:179-191 | the loop over the data's domains yields the specified import |
| Flow.Fresh | backend/flows/symptom_assessment_flow.py:9-15 | a new flow has a well-formed table, no pending confirmation and no last-asked symptoms |
| Flow.SymptomNames | backend/flows/symptom_assessment_flow.py:77-94 | the names of the bundle, one per symptom, in order |
| Flow.ZerosIn | backend/flows/symptom_assessment_flow.py:101-107 | the symptoms scored exactly 0, in table order |
| Flow.ZeroCheckNamesEach | backend/flows/symptom_assessment_flow.py:108-116 | the zero confirmation names every symptom it assumes absent, with underscores as spaces |
| Flow.ScoreAndRespond | backend/flows/symptom_assessment_flow.py:121-131 | scoring either leaves the state untouched (a missing key raises) or resets the flow |
| Flow.CheckZero | backend/flows/symptom_assessment_flow.py:101-119 | the zero check resets the flow or keeps the records and the exit confirmation |
| Flow.AskNextQuestion | backend/flows/symptom_assessment_flow.py:74-99 | the next-question step never changes a score: it resets the flow or keeps the records and the exit confirmation; it asks only while the table is incomplete, remembering the symptoms asked |
| Flow.HandleExitAsWritten | backend/flows/symptom_assessment_flow.py:59-71 | any answer clears the exit confirmation and changes no score; yes exits with the stored question and no resumes with the previous one |
| Flow.HandleExit | backend/flows/symptom_assessment_flow.py:59-71 | the corrected handler: any answer clears the exit confirmation and changes no score; yes exits with the stored question and no resumes with the previous one |
| Flow.Step | backend/flows/symptom_assessment_flow.py:17-51 | a turn keeps the table well-formed, and a turn answering a pending confirmation changes no score unless it resets the flow |
| Flow.ParseAction | backend/flows/symptom_assessment_flow.py:27-51 | each action_type string maps to its branch; any other string is the unknown action |
| Flow.FreshInv | backend/flows/symptom_assessment_flow.py:9-15 | a new flow satisfies the flow invariant |
| Flow.ZeroSymptomsSpec | backend/flows/symptom_assessment_flow.py:101-107 | the zero check lists exactly the symptoms scored 0, explicit or defaulted, in catalogue order |
| Flow.StepPreservesInv | backend/flows/symptom_assessment_flow.py:17-51 | every turn keeps the invariant: 11 records, the two confirmations never pending together, a pending zero confirmation only on a complete table with a zero |
| Flow.ConfirmationSkipsCollector | backend/flows/symptom_assessment_flow.py:17-21 | while a confirmation is pending, the collector's template and decoder make no difference to the turn |
| Flow.TerminalRepliesReset | backend/flows/symptom_assessment_flow.py:121-140 | a reply that scores or exits the assessment leaves a fresh flow |
| Flow.ZeroTurnResetIfFinal | backend/flows/symptom_assessment_flow.py:53-57 | a turn answering the zero confirmation that scores leaves a fresh flow |
| Flow.ExitTurnResetIfFinal | backend/flows/symptom_assessment_flow.py:59-71 | a turn answering the exit confirmation that exits leaves a fresh flow |
| Flow.AnswerTurnResetIfFinal | backend/flows/symptom_assessment_flow.py:121-140 | an answer turn that scores or exits leaves a fresh flow |
| Flow.ZeroConfirmationRepeats | backend/flows/symptom_assessment_flow.py:53-57 | on a complete table, any answer but yes/y to the zero confirmation changes nothing and repeats the confirmation |
| Flow.ZeroConfirmationYesScores | backend/flows/symptom_assessment_flow.py:53-57 | yes/y to the zero confirmation clears it and goes straight to scoring |
| Flow.ExitConfirmationResolves | backend/flows/symptom_assessment_flow.py:59-71 | any answer clears the exit confirmation: yes exits with the stored question, no resumes with the previous question, anything else is the next-question step without a message, which on an incomplete table raises a TypeError or gives the error reply |
| Flow.AskNextWithoutMessage | backend/flows/symptom_assessment_flow.py:74-99 | without a message and with symptoms remaining, the next-question step either raises a TypeError after remembering the question, or gives the error reply with the state untouched |
| Flow.ExitIntentStoresQuestion | backend/flows/symptom_assessment_flow.py:23-38 | an exit intent updates the records, stores the raw input as the original question and asks for confirmation |
| Flow.CollectorFailureDefaultsAsked | backend/flows/symptom_assessment_flow.py:23-51 | a failed collector still defaults every last-asked symptom to 0 and addressed, and the reply is the collector's error |
| Flow.AskNextSucceeds | backend/flows/symptom_assessment_flow.py:74-99 | on an incomplete table with a working model, the next question is asked and remembered |
| Flow.NextQuestionTargetsBundle | backend/flows/symptom_assessment_flow.py:74-99 | a new question asks about one or two unaddressed symptoms of the first open domain, remembers them and the question, and prefixes the given message |
| Flow.EmergencyExitResets | backend/flows/symptom_assessment_flow.py:23-30 | for any input, an emergency_exit action leaves a fresh flow and reports the exit without an original question |
| Flow.SeverityUnclearClarifies | backend/flows/symptom_assessment_flow.py:23-44 | for any input, severity_unclear relays the collector's message as clarification_needed; only the records change, both confirmations and the collector's memory stay |
| Flow.UnknownActionErrors | backend/flows/symptom_assessment_flow.py:23-51 | any action_type other than the four known ones, a missing one included, gives the error reply with the collector's message; only the records change |
| Flow.AskNextFailureKeepsMemory | backend/flows/symptom_assessment_flow.py:74-92 | with symptoms remaining, the error reply comes exactly when the template is unusable, the model returns nothing or the output does not parse; the state is then untouched and the reply names the stage |
| Flow.CompleteGoesToZeroCheckOrScore | backend/flows/symptom_assessment_flow.py:74-79 | on a complete table the next-question step goes to the zero confirmation when some score is 0 and to the scorer otherwise; it replies with one of those or raises the scorer's KeyError |
| Flow.AskNextOnlyScoresComplete | backend/flows/symptom_assessment_flow.py:74-79 | the next-question step reaches the zero check or the scorer only on a complete table |
| Flow.ExitReplyCrashesAsWritten | backend/flows/symptom_assessment_flow.py:59-99 | as written, an unclear answer to the exit confirmation on an incomplete table raises a TypeError after the next question was generated |
| Flow.ExitReplyCrashExample | backend/flows/symptom_assessment_flow.py:59-99 | the answer "maybe" at the start of the assessment raises as written and gets a question when corrected |
| Flow.MRSFlow.constructor | backend/flows/symptom_assessment_flow.py:9-15 | a new flow object is in the fresh state with a new tracker |
| Flow.MRSFlow.Reset | backend/flows/symptom_assessment_flow.py:133-140 | re-running __init__ puts the object back into the fresh state |
| Flow.MRSFlow.ExitFlowM | backend/flows/symptom_assessment_flow.py:133-140 | _exit_flow resets and reports the exit with the original question |
| Flow.MRSFlow.ScoreAndRespondM | backend/flows/symptom_assessment_flow.py:121-131 | _score_and_respond follows the scoring specification |
| Flow.MRSFlow.CheckZeroBeforeScore | backend/flows/symptom_assessment_flow.py:101-119 | _check_zero_before_score follows the zero-check specification |
| Flow.MRSFlow.AskNextQuestionM | backend/flows/symptom_assessment_flow.py:74-99 | _ask_next_question follows the next-question specification as written, raising when called without a message |
| Flow.MRSFlow.HandleZeroConfirmation | backend/flows/symptom_assessment_flow.py:53-57 | _handle_zero_confirmation follows its specification |
| Flow.MRSFlow.HandleExitConfirmation | backend/flows/symptom_assessment_flow.py:59-71 | _handle_exit_confirmation follows the handler as written |
| Flow.HandleExitRepliesMidAssessment | backend/flows/symptom_assessment_flow.py:59-99 | with the message defaulting to "", no answer to the exit confirmation raises while symptoms remain, and an unclear one gets the next question or the error reply |
| Flow.AskNextAsksWhileIncomplete | backend/flows/symptom_assessment_flow.py:74-99 | while symptoms remain, the next-question step asks or replies with the error, and leaves both confirmations as they were |
| Flow.MRSFlow.ProcessInput | backend/flows/symptom_assessment_flow.py:17-51 | process_input performs one turn of the specified state machine on the object and its tracker |
| Processors.FirstIndex | backend/flows/symptom_assessment_processors.py:28-29 | the position of the first '{' of the reply, or its length when there is none |
| Processors.LastIndex | backend/flows/symptom_assessment_processors.py:28-29 | the position of the last '}' of the reply, or -1 when there is none |
| Processors.ExtractBracesSpec | backend/flows/symptom_assessment_processors.py:28-32 | a payload is found iff some '{' precedes some '}', and it spans the first '{' to the last '}' |
| Processors.CollectError | backend/flows/symptom_assessment_processors.py:34-39 | the collector's error carries no scores and the action "error" |
| Processors.Collect | backend/flows/symptom_assessment_processors.py:14-39 | scores or an action other than "error" reach the flow only from a model reply whose braces payload decodes to exactly that analysis |
| Processors.CollectStages | backend/flows/symptom_assessment_processors.py:14-32 | collect gives the template, call or parse error of the first stage that fails, and otherwise the decoded reply |
| Processors.CollectNeedsTemplate | backend/flows/symptom_assessment_processors.py:15-19 | without a usable template the model is never consulted |
| Processors.ScoreError | backend/flows/symptom_assessment_processors.py:65-69 | the scorer's error has total 0 |
| Processors.Score | backend/flows/symptom_assessment_processors.py:46-69 | a total other than 0 comes only from a model reply whose braces payload decodes to exactly that result |
| Processors.ScoreStages | backend/flows/symptom_assessment_processors.py:46-69 | score gives total 0 and an "Error: ..." interpretation at the first failing stage, and otherwise the decoded reply |
| TemplateLoading.Get | backend/utils/template_loader.py:27-30 | a key is found iff the mapping has an entry for it |
| TemplateLoading.ReadTemplateShape | backend/utils/template_loader.py:20-37 | a template is read only from a file with one top-level key whose value is a mapping with a "template" string |
| TemplateLoading.TemplateLoader.constructor | backend/utils/template_loader.py:10-12 | a new loader has its base path and an empty cache |
| TemplateLoading.TemplateLoader.LoadPromptTemplate | backend/utils/template_loader.py:14-37 | a cached template is returned without reading the file; otherwise a template that was read is cached, and a missing or malformed file caches nothing |
| TemplateLoading.Placeholder | backend/utils/template_loader.py:43 | the placeholder is the key in braces |
| TemplateLoading.FormatTemplate | backend/utils/template_loader.py:39-44 | the substitution loop computes the sequential substitution, with strings inserted as they are and lists of strings JSON-encoded |
| TemplateLoading.PlaceholderNamesAgree | backend/utils/template_loader.py:43 | where the placeholder of one brace-free name starts, that of another starts iff the names are equal |
| TemplateLoading.ReplaceKeepsPlaceholder | backend/utils/template_loader.py:43 | replacing the placeholder of one brace-free name leaves the placeholder of another in place |
| TemplateLoading.FormatKeepsUnmatchedPlaceholder | backend/utils/template_loader.py:39-44 | a placeholder no argument names is still in the result, whatever the arguments render to, when the names are brace-free |
| TemplateLoading.FormatWithoutPlaceholders | backend/utils/template_loader.py:39-44 | a template without '{' comes back unchanged, whatever the arguments |
| TemplateLoading.FillSinglePlaceholder | backend/utils/template_loader.py:39-44 | a template that is exactly one placeholder becomes the rendered value |
| Router.ParseIntent | main_flow_router.py:73-76 | text parses only to the intent whose label it is |
| Router.IntentLabelsParse | main_flow_router.py:73-76 | every intent label parses back to its intent |
| Router.KeywordPriority | main_flow_router.py:87-98 | symptom words win over emotion words, which win over question words; with none of them the input is out of scope |
| Router.ClassifyFallsBack | main_flow_router.py:58-85 | the model's answer is used only when it is one of the four labels; otherwise the keywords decide |
| Router.Assess | main_flow_router.py:256-276 | one assessment turn, process_input as written, keeps the flow invariant |
| Router.StartAssessment | main_flow_router.py:209-254 | starting the assessment keeps the session in a known flow |
| Router.ProcessSymptomResult | main_flow_router.py:278-409 | a relayed reply leaves the assessment as the turn left it, and the session's flow stays known |
| Router.HandleKnowledgeQuery | main_flow_router.py:411-463 | the knowledge handler never touches the assessment and leaves a known flow |
| Router.HandleEmotionalSupport | main_flow_router.py:465-510 | the emotional-support handler never touches the assessment and leaves a known flow |
| Router.HandleMainMenu | main_flow_router.py:209-254 | the main-menu handler leaves a known flow |
| Router.HandleSymptomAssessment | main_flow_router.py:256-276 | the assessment handler leaves a known flow |
| Router.DispatchFlow | main_flow_router.py:183-193 | the current flow selects its handler, and an unknown flow resets to the main menu |
| Router.Route | main_flow_router.py:146-207 | every request keeps the assessment's invariant |
| Router.BlankInputChangesNothing | main_flow_router.py:149-157 | whitespace-only input gets the welcome text and changes nothing |
| Router.GlobalCommandsGoHome | main_flow_router.py:164-181 | the global commands return to the main menu without reaching any flow, and the quit commands report "ended" |
| Router.HistoryLogsTurn | main_flow_router.py:158-207 | every other turn logs the stripped input, and logs the reply unless an exception escaped |
| Router.FlowStaysKnown | main_flow_router.py:146-207 | after any non-blank input the session is in one of the four flows |
| Router.NoAssessmentNoCrash | main_flow_router.py:146-207 | without the assessment no turn raises and the assessment's state is untouched |
| Router.InProgressStaysInAssessment | main_flow_router.py:280-336 | the five in-progress statuses are relayed as successes of the assessment flow; "error" gets the retry sentence |
| Router.ScoredAssessmentMovesToKnowledge | main_flow_router.py:338-352 | a scored assessment moves the session to the knowledge flow with the score |
| Router.ExitReroutesQuestion | main_flow_router.py:350-390 | an exit returns to the main menu, and a stored question is re-routed to emotional support or knowledge |
| Router.ExitWithQuestionReroutes | main_flow_router.py:350-382 | after an exit, a stored question is answered in the emotional-support flow when it classifies so and in the knowledge flow otherwise, with the assessment untouched |
| Router.ExitWithoutQuestionReturnsToMenu | main_flow_router.py:383-390 | an exit with no stored question goes back to the main menu with the welcome text appended |
| Router.HandlersKeepOwnIntent | main_flow_router.py:411-510 | the knowledge and emotional-support handlers answer their own intent in their own flow without touching the assessment |
| Router.MenuStartsAssessment | main_flow_router.py:209-254 | a symptom intent from the menu hands the input to one assessment turn |
| Router.AssessmentTurnOutcome | main_flow_router.py:256-276 | an assessment turn takes the flow's new state, and the session stays put on an exception or an in-progress status |
| Router.EmotionalFallthroughLeavesAssessmentFlow | main_flow_router.py:465-510 | a symptom intent without the assessment gets the supportive reply while the session is left in the assessment flow |
| Router.SessionState.constructor | main_flow_router.py:100-105 | a new session is in the main menu with an empty history |
| Router.SessionState.ResetAssessment | main_flow_router.py:107-112 | reset_assessment returns to the main menu and keeps the history |
| Router.MainFlowRouter.constructor | main_flow_router.py:117-138 | a new router has no sessions |
| Router.MainFlowRouter.GetSession | main_flow_router.py:140-144 | a session is created once per id and then always returned |
| Router.MainFlowRouter.StartAssessmentM | main_flow_router.py:209-254 | the method follows the specification of starting an assessment |
| Router.MainFlowRouter.ProcessSymptomResultM | main_flow_router.py:278-409 | the method follows the specification of _process_symptom_result |
| Router.MainFlowRouter.HandleKnowledgeQueryM | main_flow_router.py:411-463 | the method follows the specification of _handle_knowledge_query |
| Router.MainFlowRouter.HandleEmotionalSupportM | main_flow_router.py:465-510 | the method follows the specification of _handle_emotional_support |
| Router.MainFlowRouter.HandleMainMenuM | main_flow_router.py:209-254 | the method follows the specification of _handle_main_menu |
| Router.MainFlowRouter.HandleSymptomAssessmentM | main_flow_router.py:256-276 | the method follows the specification of _handle_symptom_assessment |
| Router.MainFlowRouter.DispatchFlowM | main_flow_router.py:183-193 | the method follows the dispatch specification, including _handle_unknown_state |
| Router.MainFlowRouter.RouteSession | main_flow_router.py:146-207 | the method follows route_request for the session found |
| Router.MainFlowRouter.RouteRequest | main_flow_router.py:146-207 | route_request finds or creates the session and follows the routing specification |
| DemoReport.SumItemsAppend | thalia_demo/app.py:37-42 | the sum over two lists of items is the sum of the two sums |
| DemoReport.SubscoresPartition | thalia_demo/app.py:37-42 | the three subscores partition the eleven items, so they add up to the total |
| DemoReport.SeverityMonotone | thalia_demo/app.py:45-56 | a higher total never gets a milder band |
| DemoReport.DetectedEntriesAreItems | thalia_demo/app.py:59-68 | every listed entry is a positively scored item with its own text, score and label |
| DemoReport.DetectedNumbersBounded | thalia_demo/app.py:59-68 | every listed entry is one of the items looked at |
| DemoReport.DetectedInQuestionOrder | thalia_demo/app.py:59-68 | the entries are in question order, so no item is listed twice |
| DemoReport.DetectedListsEveryScoredItem | thalia_demo/app.py:59-68 | every positively scored item is listed |
| DemoReport.InsertAt | thalia_demo/app.py:70 | one insertion step orders the first i + 1 entries and permutes the array |
| DemoReport.SortByScore | thalia_demo/app.py:70 | the stable sort puts higher scores first, ties in question order, as a permutation |
| DemoReport.ListSymptoms | thalia_demo/app.py:59-68 | the loop lists the scored items, and raises exactly when a score has no label |
| DemoReport.CalculateResults | thalia_demo/app.py:35-81 | total, subscores, severity and colour from the bands; symptoms sorted and a permutation of the scored items; the top three symptoms; raises exactly when a score has no label |
| DemoReport.GetRecommendations | thalia_demo/app.py:83-109 | the recommendation follows the same bands as the severity |
| Insights.SeverityPriority | thalia_demo/thalia_ai/app.py:114-119 | severity is 1 with a level-1 keyword, else 3 with a level-3 but no level-2 keyword, else 2 |
| Insights.FindSeverity | thalia_demo/thalia_ai/app.py:114-119 | the loop over the severity levels computes the severity |
| Insights.DetectSymptomsInMessage | thalia_demo/thalia_ai/app.py:102-127 | the nested loops compute the detection specification |
| Insights.DetectFromFields | thalia_demo/thalia_ai/app.py:112-125 | every reported category has a matching keyword, the message's severity and its first 100 characters |
| Insights.DetectFromComplete | thalia_demo/thalia_ai/app.py:112-125 | every category whose keywords occur is reported |
| Insights.DetectFromNoRepeats | thalia_demo/thalia_ai/app.py:112-125 | no category is reported twice |
| Insights.DetectSymptomsSpec | thalia_demo/thalia_ai/app.py:102-127 | without a personal indicator nothing is detected; with one, a category is reported iff its keywords occur, with a severity in 1..3 and the first 100 characters |
| Insights.LetterICountsAsPersonal | thalia_demo/thalia_ai/app.py:104-110 | the indicator "i" is a substring test, so any message containing the letter i counts as personal |
| Insights.MaxCount | thalia_demo/thalia_ai/app.py:167-168 | the largest window count, attained by some window |
| Insights.PeakWindow | thalia_demo/thalia_ai/app.py:167-168 | the peak is the first window with the largest count |
| Insights.BuildWindows | thalia_demo/thalia_ai/app.py:157-162 | the loop builds the kept two-hour windows |
| Insights.AnalyzeTimePattern | thalia_demo/thalia_ai/app.py:139-191 | analyze_time_pattern computes the specified pattern |
| Insights.SumOccurrencesAll | thalia_demo/thalia_ai/app.py:158-162 | every hour falls in exactly one window |
| Insights.WindowCountsSumToTotal | thalia_demo/thalia_ai/app.py:141-174 | the kept windows' counts add up to the number of logs, and the result is absent iff there are fewer than three |
| Insights.LabelsWithCountSpec | thalia_demo/thalia_ai/app.py:172 | peak_hours lists exactly the windows that attain the peak count |
| Insights.MessageNamesPeak | thalia_demo/thalia_ai/app.py:174 | the message names the peak window |
| Insights.RoundHalfEven | thalia_demo/thalia_ai/app.py:238 | round() of a quotient is within half a unit of it, and a quotient exactly halfway goes to the even neighbour |
| Insights.DirectionFollowsCounts | thalia_demo/thalia_ai/app.py:235-252 | improving only when the count fell, worsening only when it rose, stable for an empty first week or an unchanged count |
| Insights.TrendOf | thalia_demo/thalia_ai/app.py:228-252 | no trend iff every weekly count is zero, and otherwise it compares the first and last weeks |
| Insights.PdfSummaryOf | thalia_demo/thalia_ai/app.py:432-439 | the PDF total is the sum of q1..q11, the subscores add up to it, and the band follows 4/8/15 |
| Insights.PdfBandsStricter | thalia_demo/thalia_ai/app.py:437-439 | the PDF band is never milder than the demo server's for the same total, and is stricter exactly for totals 9 to 27 |
| ThaliaIndex.KeysOf | thalia_demo/thalia_ai/index.js:454-456 | the keys of the object, in order |
| ThaliaIndex.ItemKeys | thalia_demo/thalia_ai/index.js:458-460 | the key `q${i}` of each listed item |
| ThaliaIndex.CalculateResultsBands | thalia_demo/thalia_ai/index.js:462-466 | the severity text follows the 4/8/15 bands |
| ThaliaIndex.TotalScoreAnyOrder | thalia_demo/thalia_ai/index.js:454-456 | the total over the "q" keys does not depend on the order of the keys |
| ThaliaIndex.SubscoresPartition | thalia_demo/thalia_ai/index.js:454-460 | when the "q" keys are exactly q1..q11, the three subscores add up to the total |
| ThaliaIndex.ResultsAgreeWithPdf | thalia_demo/thalia_ai/index.js:453-475 | on the same answers the client computes the PDF report's subscores and band |
| ThaliaIndex.FindToday | thalia_demo/thalia_ai/index.js:355-360 | the search finds a log of the symptom for today iff one exists |
| ThaliaIndex.SavePendingSymptoms | thalia_demo/thalia_ai/index.js:352-378 | the loop computes the specified pending-log list |
| ThaliaIndex.SavePendingKeepsStored | thalia_demo/thalia_ai/index.js:353-372 | stored entries are never changed or removed, and new ones are appended at the end |
| ThaliaIndex.SavePendingNewEntries | thalia_demo/thalia_ai/index.js:362-368 | every new entry is a detected symptom, logged today, pending, automatic, with the chat context copied |
| ThaliaIndex.SavePendingNoDuplicates | thalia_demo/thalia_ai/index.js:355-369 | no new entry repeats a symptom already logged today, stored or earlier in the batch |
| ThaliaIndex.SavePendingComplete | thalia_demo/thalia_ai/index.js:355-369 | afterwards every detected symptom has a log for today |
| UserAuth.Empty | user_auth_with_conversations.py:14-18 | a new manager has no users and no sessions |
| UserAuth.FirstWithEmail | user_auth_with_conversations.py:74-77 | the user found has that e-mail |
| UserAuth.FirstWithEmailFinds | user_auth_with_conversations.py:74-77 | no user is found iff no user has that e-mail |
| UserAuth.RegisterValidation | user_auth_with_conversations.py:57-77 | the checks run in order, the first failing one is reported, and a duplicate name or e-mail is refused |
| UserAuth.RegisterInsertsOne | user_auth_with_conversations.py:79-103 | a registration inserts exactly one user, keyed by name, with the hashed password, no conversations and the name as preferred name |
| UserAuth.RegisterPreservesValid | user_auth_with_conversations.py:54-103 | registration keeps the store well formed and e-mails unique |
| UserAuth.Resolve | user_auth_with_conversations.py:108-118 | the login name resolves to an existing account |
| UserAuth.LoginSpec | user_auth_with_conversations.py:105-147 | a login fails with one message for both causes and no session iff no account matches or the password hash differs; success opens the session and sets last_login |
| UserAuth.LoginByEmail | user_auth_with_conversations.py:108-118 | with unique e-mails, an e-mail reaches its account |
| UserAuth.LogoutSpec | user_auth_with_conversations.py:149-162 | logout deletes exactly that session iff it exists, else reports an invalid session |
| UserAuth.SessionUser | user_auth_with_conversations.py:164-172 | the account behind a session is the logged-in session's non-empty, existing username |
| UserAuth.LoginOpensSession | user_auth_with_conversations.py:128-166 | a freshly logged-in session is logged in and belongs to the account |
| UserAuth.IncrementSpec | user_auth_with_conversations.py:186-191 | the account's counter rises by one and nothing else changes; without an account nothing changes |
| UserAuth.KeepLatest | user_auth_with_conversations.py:208-210 | the last 100 conversations are kept |
| UserAuth.SaveMessageSpec | user_auth_with_conversations.py:193-217 | the saved message is the account's newest entry, at most 100 are kept, and nothing else changes |
| UserAuth.GetUserStats | user_auth_with_conversations.py:219-231 | active sessions never exceed the sessions |
| UserAuth.LoginCountsSession | user_auth_with_conversations.py:128-140 | a successful login with a new id adds one active session |
| UserAuth.UserManager.constructor | user_auth_with_conversations.py:14-18 | a new manager is empty |
| UserAuth.UserManager.EmailRegistered | user_auth_with_conversations.py:74-77 | the loop finds a registered e-mail iff there is one |
| UserAuth.UserManager.RegisterUser | user_auth_with_conversations.py:54-103 | register_user follows the registration specification |
| UserAuth.UserManager.FindByEmail | user_auth_with_conversations.py:110-118 | the loop stops at the first user with the e-mail |
| UserAuth.UserManager.LoginUser | user_auth_with_conversations.py:105-147 | login_user follows the login specification |
| UserAuth.UserManager.LogoutUser | user_auth_with_conversations.py:149-162 | logout_user follows the logout specification |
| UserAuth.UserManager.UpdateActivity | user_auth_with_conversations.py:181-184 | update_user_activity follows its specification |
| UserAuth.UserManager.IncrementCount | user_auth_with_conversations.py:186-191 | increment_conversation_count follows its specification |
| UserAuth.UserManager.SaveMessageM | user_auth_with_conversations.py:193-217 | save_message follows its specification |
| RunSchema.Emit | backend/db/run_schema.py:68-70 | no executed statement is of a skipped kind |
| RunSchema.ProcessLine | backend/db/run_schema.py:42-75 | one pass of the line loop drops, buffers or closes and executes a statement |
| RunSchema.ApplySchema | backend/db/run_schema.py:39-75 | the line loop executes the specified statements in file order |
| RunSchema.LoadSchema | backend/db/run_schema.py:9-78 | a missing schema file fails before anything runs; otherwise the statements are applied |
| RunSchema.FeedNonTerminating | backend/db/run_schema.py:42-60 | a line that does not end a statement executes nothing and at most joins the buffer |
| RunSchema.ExecutedNotSkipped | backend/db/run_schema.py:29-37 | no executed statement starts with a skipped keyword |
| RunSchema.BufferSinceLastTerminator | backend/db/run_schema.py:42-60 | the buffer holds only kept lines that do not end a statement |
| RunSchema.NonTerminatingLinesExecuteNothing | backend/db/run_schema.py:39-75 | lines without a terminating ';' execute nothing and wait in the buffer |
| RunSchema.TerminatorFlushes | backend/db/run_schema.py:59-73 | a terminating line empties the buffer and executes at most its one statement, after everything before |
| RunSchema.TerminatedStatement | backend/db/run_schema.py:61-66 | the statement is the joined buffer, stripped, with one trailing ';' removed and stripped again |
| KnowledgeApi.AnalyzePriority | menopause_knowledge_api.py:67-88 | emotional phrases in the answer win, then out-of-scope phrases, then question words, else a general query |
| KnowledgeApi.OutOfScopeRedirects | menopause_knowledge_api.py:90-95 | sources are empty and the next action is a redirect iff the intent is out of scope |
| KnowledgeApi.UpdatedHistory | menopause_knowledge_api.py:97-114 | the history after one query ends with it and holds at most the last ten |
| KnowledgeApi.HistoryKeepsLastTen | menopause_knowledge_api.py:97-114 | the new entry is last, after the most recent earlier ones, and the history never exceeds ten |
| KnowledgeApi.SessionData.constructor | menopause_knowledge_api.py:99 | new session data has no query history |
| KnowledgeApi.UpdateSessionData | menopause_knowledge_api.py:97-114 | the caller's session data is updated in place, or new data is created, with the history after one query |
| KnowledgeApi.ProcessQuery | menopause_knowledge_api.py:29-65 | unavailable pipeline: pass-through and redirect; pipeline error: retry with empty data; answer: analysis and history |
| ResponseHandler.BasicGroupsTagged | response_handler.py:76-118 | the keyword groups have distinct replies |
| ResponseHandler.BasicResponseFirstGroupWins | response_handler.py:76-118 | the first group with a keyword in the lower-cased message decides the reply, and the default reply is given iff none matches |
| ResponseHandler.ChatbotResponse | response_handler.py:22-74 | the user store is present afterwards iff it was before |
| ResponseHandler.ChatbotGuards | response_handler.py:26-32 | a blank message gets the prompt, an unauthenticated named session gets the log-in request, and neither changes anything |
| ResponseHandler.ChatbotCountsOnce | response_handler.py:30-36 | a logged-in session's account counts the message exactly once |
| ResponseHandler.BackendPriority | response_handler.py:43-74 | the router, then RAG, then the keyword replies; any exception gives the processing error |
| ResponseHandler.CustomChatHistory | response_handler.py:120-152 | history is unchanged for a blank message or an invalid session, else the user and assistant entries are appended |
| ResponseHandler.CustomChatSavesExchange | response_handler.py:130-141 | for a logged-in account the reply is saved with the user's message |
| ResponseHandler.Handler.constructor | response_handler.py:11-20 | the handler keeps the user manager and the back ends |
| ResponseHandler.Handler.Backend | response_handler.py:43-74 | the back-end cascade computes the specified reply |
| ResponseHandler.Handler.GetChatbotResponse | response_handler.py:22-74 | get_chatbot_response follows its specification on the user manager |
| ResponseHandler.Handler.Exchange | response_handler.py:124-147 | the exchange follows its specification on the user manager |
| ResponseHandler.Handler.CustomChatFunction | response_handler.py:120-152 | the input is cleared and the history and user manager follow the specification |
| SimpleApp.GroupsTagged | simple_app.py:28-319 | the keyword groups have distinct replies, none of them the default |
| SimpleApp.BasicResponseFirstGroupWins | simple_app.py:30-305 | the first group, greeting to thanks, with a keyword in the lower-cased message decides the reply |
| SimpleApp.BasicResponseDefault | simple_app.py:307-319 | the default reply is given iff no group matches |
| SimpleApp.SubstringMatching | simple_app.py:30-32 | matching is on substrings: "hi" inside "THIS" gives the greeting |
| SimpleApp.ChatFunction | simple_app.py:321-333 | the input is cleared; blank messages leave history unchanged, others append the user entry then the reply |
| Chat.FirstGroup | simple_app.py:30-305 | the first group whose keyword occurs, or the number of groups |
| Chat.ClassifyPicksFirst | response_handler.py:78-118 | a group's reply is chosen iff its keyword occurs and no earlier group's does |
| Chat.ClassifyDefault | response_handler.py:78-118 | the default reply is chosen iff no group matches |
| Chat.History.constructor | simple_app.py:321-333 | a history holds the entries it is given |
| Utils.TruncateSessionIdSpec | utils.py:55-59 | a falsy id is shown as "None", any other is cut to its first `length` characters |
| Utils.ValidateMessageInputSpec | utils.py:62-64 | a message is valid iff it is present and not blank |
| Utils.SafeGetNestedValue | utils.py:67-75 | the loop follows the keys and returns the default when a step fails |
| Utils.LookupFailurePersists | utils.py:67-75 | once a lookup fails, no longer path succeeds |
| Utils.LookupConcat | utils.py:67-75 | following a path in two steps is following it in one |
| Utils.LookupOne | utils.py:67-75 | a one-key path finds the dictionary's entry iff it exists |
| Utils.BaseMessageKnown | utils.py:78-86 | exactly the four keys auth_error, session_error, processing_error and system_error select their own text; every other type falls through to the generic one |
| Utils.CreateErrorResponseDetails | utils.py:87-90 | " Details: " and the details are appended iff there are any |
| Utils.FormatSystemStatsDefaults | utils.py:93-96 | for any stats, a missing total_users or active_sessions prints as 0, whatever the other count holds |
| Utils.UpdateLastWins | utils.py:108-112 | each flag takes its last given value and keeps its old value otherwise; other names change nothing |
| Utils.StatusSummary | utils.py:114-121 | the summary reports exactly the four flags by name |
| Utils.SummaryRestores | utils.py:108-121 | passing the summary back to update_status restores the flags |
| Utils.SystemStatus.constructor | utils.py:102-106 | every flag starts false |
| Utils.SystemStatus.UpdateStatus | utils.py:108-112 | the loop over the arguments applies the specified update |
| Utils.SystemStatus.GetStatusSummary | utils.py:114-121 | the summary of the current flags |
| Base.NatToStringInjective | utils.py:93-96 | str() of a non-negative integer is one-to-one |

## Left out

- Language-model, Gemini and RAG calls are function parameters: their prompts, network use and randomness are not modelled. Their replies are decoded by a parameter standing in for `json.loads`.
- Template files and YAML parsing are a map from path to an already parsed document. File I/O is not modelled.
- `UserManager`'s JSON persistence (`load_users`/`save_users`), SHA-256 hashing, uuid session ids and timestamps are left out. The hash is a function parameter, session ids and "now" are arguments.
- `datetime.now()` is an argument. In `response_handler.py`, one `custom_chat_function` call reads the clock twice: in `update_user_activity` (user_auth_with_conversations.py:184), reached through `get_chatbot_response`, and in `save_message` (user_auth_with_conversations.py:199). The model passes one value to both.
- Floating point is not modelled:
  - The knowledge API's confidence is held in tenths.
  - `round()` in `analyze_trend` is exact half-to-even rounding on rationals.
  - Progress percentages of `get_assessment_progress` are omitted.
- Case mapping and whitespace follow ASCII only. Python's Unicode `lower`, `upper` and `strip` are not modelled.
- Reply texts of the assessment flow, the router and `simple_app.py` are tags, because these texts are long prose. The flow's messages are a datatype with a rendering function.
- The evidence texts of `analyze_time_pattern` are left out.
- `analyze_trend`'s date arithmetic (`timedelta` windows, ISO timestamp parsing) is left out. The rule starts from the list of weekly counts.
- Hours in `analyze_time_pattern` are integers 0..23. Parsing the timestamp is not modelled.
- In the browser client, "today" is an abstract day key. `localStorage`, the DOM and non-numeric JavaScript values are not modelled: scores are integers, so `|| 0` is the identity.
- The database connection of `run_schema.py` is left out: executing a statement appends it to a list.
- Flask routes, reportlab PDF building, the Gradio UI (`create_app`, `main`), `auth_handlers.py` and the other web layers are not part of this model.
- `utils.py`: `setup_paths`, `log_message`, `format_user_welcome` and `print_status` are left out, because they only do I/O or formatting for the UI.
- `menopause_knowledge_api.py`: `health_check`, `process_knowledge_query` and `get_api_status` are left out. They are a status dictionary and a module-level wrapper around `process_query`.
- `symptom_assessment_main.py` holds a module-level `MRSFlow` singleton. The router holds that one flow object explicitly.
- `Utils.SafeGetNestedValue`: keys are strings and containers are dictionaries. Integer indexes into lists are not modelled.
- `Utils.SystemStatus.UpdateStatus`: only the four flags are attributes. Setting a method's name or another attribute through `setattr` is not modelled.
- `ResponseHandler.Handler`: the unused `self.session_data` field is left out.
- `UserAuth.SaveMessage` returns `false` where the source returns `None` for a session without a user.
- `UserAuth.SaveMessage` creates the conversation list itself. A stored user record without the `conversations` key is not modelled, because registration always creates one.
- `Tracker.GetAssessmentProgress`: the percentages are not modelled, only the counts.
- `Router.ClassifyFallsBack`: an exception from the classifier is modelled as a missing answer.
- `Processors.Collect`, `Processors.Score` and the flow's question decoder (`Llm.decodeAnalysis`, `Llm.decodeScore`, `Llm.decodeQuestion`) return only well-typed values. Ill-typed model output is not modelled, so three exceptions are missing: a scored item without `symptom` or `mrs_score` (KeyError at mrs_symptom_tracker.py:111-113), `"symptoms_scored": null` (TypeError when iterated), and a non-string `next_question` or `next_message` (TypeError at symptom_assessment_flow.py:97).
- `TemplateLoading.ReadTemplateShape` and `TemplateLoading.TemplateLoader.LoadPromptTemplate` accept only a string under `"template"`. The source caches and returns any value found there (template_loader.py:31-33), and the caller's `format_template` then fails on it. The model reports no template in that case and caches nothing.
- `TemplateLoading.FormatTemplate`: arguments are strings or lists of strings. A dict argument, also JSON-encoded by the source, and `str()` of other values are not modelled.

## Findings

| source | as written | input that shows it | evidently intended | confidence | as-written member | corrected member |
|---|---|---|---|---|---|---|
| backend/flows/symptom_assessment_flow.py:71 | an unclear reply to the exit confirmation calls `_ask_next_question()` with no message. On an incomplete table the question is generated and the collector is updated, then `None + " "` at line 97 raises TypeError. `Flow.Step`, and with it the router, follows this code as written | the reply "maybe" to the exit confirmation before the assessment is complete | the message defaults to the empty string, so the next question is asked | not executed | Flow.ExitReplyCrashesAsWritten | Flow.HandleExitRepliesMidAssessment |
