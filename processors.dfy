/** The two model-backed helpers of the assessment: the collector, which asks the
    language model to read a reply (scores, action, next message), and the scorer,
    which asks it to total the MRS records.  The model and the JSON decoder are
    parameters; the code around them (template check, empty output check, the
    greedy `\{.*\}` extraction and the fixed error replies) is modelled. */
module Processors {
  import opened Base
  import opened Tracker
  import opened TemplateLoading

  /** The collector's reply once decoded; None stands for a missing key. */
  datatype Analysis = Analysis(symptomsScored: Option<seq<ScoredItem>>, actionType: Option<string>, nextMessage: Option<string>)

  /** The scorer's reply once decoded; None stands for a missing key. */
  datatype ScoreData = ScoreData(totalScore: Option<int>, interpretation: Option<string>)

  /** The language model and the decoders of its JSON. The model's empty answer stands
      for both None and "" (the code tests falsiness); a decoder answers None when
      json.loads raises. */
  datatype Llm = Llm(
    complete: string -> string,
    decodeAnalysis: string -> Option<Analysis>,
    decodeQuestion: string -> Option<string>,
    decodeScore: string -> Option<ScoreData>)

  // ------------------------------------------------------------ \{.*\} with DOTALL

  /** Index of the first occurrence of c, or |s|. */
  function FirstIndex(s: string, c: char): (i: nat)
    ensures i <= |s| && (i < |s| ==> s[i] == c) && forall k :: 0 <= k < i ==> s[k] != c
  {
    if s == [] then 0 else if s[0] == c then 0 else 1 + FirstIndex(s[1..], c)
  }

  /** Index of the last occurrence of c, or -1. */
  function LastIndex(s: string, c: char): (j: int)
    ensures -1 <= j < |s| && (j >= 0 ==> s[j] == c) && forall k :: j < k < |s| ==> s[k] != c
  {
    if s == [] then -1
    else if s[|s| - 1] == c then |s| - 1
    else LastIndex(s[..|s| - 1], c)
  }

  /** re.search(r'\{.*\}', s, re.DOTALL).group(0): from the first '{' to the last '}'
      after it; None where the search finds nothing (.group then raises). */
  function ExtractBraces(s: string): Option<string> {
    var i := FirstIndex(s, '{');
    var j := LastIndex(s, '}');
    if i < |s| && i < j then Some(s[i..j + 1]) else None
  }

  /** The search succeeds iff some '{' has a '}' after it, and then the match spans
      the first '{' to the last '}', so it begins with '{' and ends with '}'. */
  lemma ExtractBracesSpec(s: string)
    ensures ExtractBraces(s).Some? <==> exists i, j :: 0 <= i < j < |s| && s[i] == '{' && s[j] == '}'
    ensures ExtractBraces(s).Some? ==>
      var m := ExtractBraces(s).value;
      |m| >= 2 && m[0] == '{' && m[|m| - 1] == '}' &&
      exists i :: 0 <= i <= |s| - |m| && s[i] == '{' && s[i..i + |m|] == m &&
        (forall k :: 0 <= k < i ==> s[k] != '{') && (forall k :: i + |m| <= k < |s| ==> s[k] != '}')
  {
    var i := FirstIndex(s, '{');
    var j := LastIndex(s, '}');
    if exists a, b :: 0 <= a < b < |s| && s[a] == '{' && s[b] == '}' {
      var a, b :| 0 <= a < b < |s| && s[a] == '{' && s[b] == '}';
      assert i <= a && b <= j;
    }
    if ExtractBraces(s).Some? {
      var m := ExtractBraces(s).value;
      assert s[i..i + |m|] == m;
    }
  }

  // ------------------------------------------------------------ collector

  function CollectError(message: string): (a: Analysis)
    ensures a.symptomsScored.None? && a.actionType == Some("error")
  {
    Analysis(None, Some("error"), Some("Error: " + message))
  }

  /** A falsy template: None or "". */
  predicate Usable(template: Option<string>) {
    template.Some? && template.value != ""
  }

  /** The prompt the collector sends. */
  function AnalyzerPrompt(template: string, userInput: string, previousQuestion: string): string {
    FormatSpec(template, [("user_input", Text(userInput)), ("previous_question", Text(previousQuestion))])
  }

  /** MRSCollector.collect: scores reach the flow only from a model reply whose braces
      payload decodes to exactly this analysis. */
  function Collect(userInput: string, previousQuestion: string, template: Option<string>, llm: Llm): (r: Analysis)
    ensures r.symptomsScored.Some? || r.actionType != Some("error") ==>
      Usable(template) &&
      var output := llm.complete(AnalyzerPrompt(template.value, userInput, previousQuestion));
      ExtractBraces(output).Some? && llm.decodeAnalysis(ExtractBraces(output).value) == Some(r)
  {
    if !Usable(template) then CollectError("Prompt template loading failed")
    else
      var output := llm.complete(AnalyzerPrompt(template.value, userInput, previousQuestion));
      if output == "" then CollectError("LLM calling failed")
      else match ExtractBraces(output)
        case None => CollectError("LLM output parsing failed")
        case Some(json) =>
          match llm.decodeAnalysis(json)
          case None => CollectError("LLM output parsing failed")
          case Some(a) => a
  }

  /** collect either passes on the model's decoded reply or, at the first stage that
      fails (template, call, parse), gives the fixed error reply for that stage, which
      scores nothing. */
  lemma CollectStages(userInput: string, previousQuestion: string, template: Option<string>, llm: Llm)
    ensures var r := Collect(userInput, previousQuestion, template, llm);
      (!Usable(template) ==> r == Analysis(None, Some("error"), Some("Error: " + "Prompt template loading failed"))) &&
      (Usable(template) ==>
        var output := llm.complete(AnalyzerPrompt(template.value, userInput, previousQuestion));
        (output == "" ==> r == Analysis(None, Some("error"), Some("Error: " + "LLM calling failed"))) &&
        (output != "" && (ExtractBraces(output).None? || llm.decodeAnalysis(ExtractBraces(output).value).None?) ==>
          r == Analysis(None, Some("error"), Some("Error: " + "LLM output parsing failed"))) &&
        (output != "" && ExtractBraces(output).Some? && llm.decodeAnalysis(ExtractBraces(output).value).Some? ==>
          r == llm.decodeAnalysis(ExtractBraces(output).value).value))
  {
  }

  /** Without a usable template the model is never consulted: any two models agree. */
  lemma CollectNeedsTemplate(userInput: string, previousQuestion: string, template: Option<string>, llm1: Llm, llm2: Llm)
    requires !Usable(template)
    ensures Collect(userInput, previousQuestion, template, llm1) == Collect(userInput, previousQuestion, template, llm2)
    ensures Collect(userInput, previousQuestion, template, llm1).symptomsScored.None?
  {
  }

  // ------------------------------------------------------------ scorer

  function ScoreError(message: string): (d: ScoreData)
    ensures d.totalScore == Some(0)
  {
    ScoreData(Some(0), Some("Error: " + message))
  }

  function JsonScore(v: Option<int>): string {
    match v
    case None => "null"
    case Some(n) => IntToString(n)
  }

  function RecordJson(r: Record): string {
    "{\"mrs_score\": " + JsonScore(r.mrsScore) + ", \"is_addressed\": " + (if r.isAddressed then "true" else "false") + "}"
  }

  function DomainJson(t: Table, d: Domain): string
    requires WellFormed(t)
  {
    var names := SymptomsOf(d);
    CatalogFacts();
    "{" + Join(", ", seq(|names|, i requires 0 <= i < |names| =>
      JsonQuote(Name(names[i])) + ": " + RecordJson(t[d][names[i]]))) + "}"
  }

  /** json.dumps(tracker.to_dict(), ensure_ascii=False), keys in insertion order. */
  function RecordsJson(t: Table): string
    requires WellFormed(t)
  {
    "{" + Join(", ", seq(3, i requires 0 <= i < 3 =>
      JsonQuote(DomainName(Domains[i])) + ": " + DomainJson(t, Domains[i]))) + "}"
  }

  function ScorePrompt(template: string, t: Table): string
    requires WellFormed(t)
  {
    FormatSpec(template, [("user_records", Text(RecordsJson(t)))])
  }

  /** MRSScorer.score: a total other than 0 comes only from a model reply whose braces
      payload decodes to exactly this result. */
  function Score(t: Table, template: Option<string>, llm: Llm): (r: ScoreData)
    requires WellFormed(t)
    ensures r.totalScore != Some(0) ==>
      Usable(template) &&
      var output := llm.complete(ScorePrompt(template.value, t));
      ExtractBraces(output).Some? && llm.decodeScore(ExtractBraces(output).value) == Some(r)
  {
    if !Usable(template) then ScoreError("Prompt template loading failed")
    else
      var output := llm.complete(ScorePrompt(template.value, t));
      if output == "" then ScoreError("LLM calling failed")
      else match ExtractBraces(output)
        case None => ScoreError("LLM output parsing failed")
        case Some(json) =>
          match llm.decodeScore(json)
          case None => ScoreError("LLM output parsing failed")
          case Some(d) => d
  }

  /** score either passes on the decoded reply or gives total 0 with the error of the
      first stage that fails; an error reply always carries both keys. */
  lemma ScoreStages(t: Table, template: Option<string>, llm: Llm)
    requires WellFormed(t)
    ensures var r := Score(t, template, llm);
      (!Usable(template) ==> r == ScoreData(Some(0), Some("Error: " + "Prompt template loading failed"))) &&
      (Usable(template) ==>
        var output := llm.complete(ScorePrompt(template.value, t));
        (output == "" ==> r == ScoreData(Some(0), Some("Error: " + "LLM calling failed"))) &&
        (output != "" && (ExtractBraces(output).None? || llm.decodeScore(ExtractBraces(output).value).None?) ==>
          r == ScoreData(Some(0), Some("Error: " + "LLM output parsing failed"))) &&
        (output != "" && ExtractBraces(output).Some? && llm.decodeScore(ExtractBraces(output).value).Some? ==>
          r == llm.decodeScore(ExtractBraces(output).value).value))
    ensures (Score(t, template, llm).totalScore.None? || Score(t, template, llm).interpretation.None?) ==>
      Usable(template) && llm.decodeScore(ExtractBraces(llm.complete(ScorePrompt(template.value, t))).value).Some?
  {
  }
}
