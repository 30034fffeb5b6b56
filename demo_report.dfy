/** The questionnaire report of the stand-alone demo server: the MRS total, the three
    domain subscores, the 4/16/27 severity bands, the list of reported symptoms
    (sorted by score, highest first, ties in question order) and the recommendation
    text.  The submitted form is a map from "q1".."q11" to integer scores. */
module DemoReport {
  import opened Base

  type Form = map<string, int>

  function QKey(i: nat): string {
    "q" + NatToString(i)
  }

  /** data.get(f'q{i}', 0) */
  function Answer(data: Form, i: nat): int {
    if QKey(i) in data then data[QKey(i)] else 0
  }

  /** sum(data.get(f'q{i}', 0) for i in items) */
  function SumItems(data: Form, items: seq<nat>): int {
    if items == [] then 0 else Answer(data, items[0]) + SumItems(data, items[1..])
  }

  const AllItems: seq<nat> := [1, 2, 3, 4, 5, 6, 7, 8, 9, 10, 11]
  const PsychologicalItems: seq<nat> := [4, 5, 6, 7]
  const SomaticItems: seq<nat> := [1, 2, 3, 11]
  const UrogenitalItems: seq<nat> := [8, 9, 10]

  function TotalScore(data: Form): int { SumItems(data, AllItems) }

  lemma {:induction false} SumItemsAppend(data: Form, xs: seq<nat>, ys: seq<nat>)
    ensures SumItems(data, xs + ys) == SumItems(data, xs) + SumItems(data, ys)
    decreases |xs|
  {
    if xs == [] {
      assert xs + ys == ys;
    } else {
      assert (xs + ys)[1..] == xs[1..] + ys;
      SumItemsAppend(data, xs[1..], ys);
    }
  }

  /** The three domains partition the eleven items, so the subscores add up to the total. */
  lemma SubscoresPartition(data: Form)
    ensures TotalScore(data) ==
      SumItems(data, PsychologicalItems) + SumItems(data, SomaticItems) + SumItems(data, UrogenitalItems)
  {
    var first: seq<nat> := [1, 2, 3];
    var last: seq<nat> := [11];
    assert AllItems == first + PsychologicalItems + UrogenitalItems + last;
    assert SomaticItems == first + last;
    SumItemsAppend(data, first + PsychologicalItems + UrogenitalItems, last);
    SumItemsAppend(data, first + PsychologicalItems, UrogenitalItems);
    SumItemsAppend(data, first, PsychologicalItems);
    SumItemsAppend(data, first, last);
  }

  // ------------------------------------------------------------ severity

  datatype Severity = NoLittle | Mild | Moderate | Severe

  datatype Color = Green | Yellow | Orange | Red

  function SeverityLabel(s: Severity): string {
    match s
    case NoLittle => "No/Little symptoms"
    case Mild => "Mild"
    case Moderate => "Moderate"
    case Severe => "Severe"
  }

  function SeverityColor(s: Severity): Color {
    match s
    case NoLittle => Green
    case Mild => Yellow
    case Moderate => Orange
    case Severe => Red
  }

  function Rank(s: Severity): nat {
    match s
    case NoLittle => 0
    case Mild => 1
    case Moderate => 2
    case Severe => 3
  }

  function SeverityOf(total: int): Severity {
    if total <= 4 then NoLittle
    else if total <= 16 then Mild
    else if total <= 27 then Moderate
    else Severe
  }

  /** A higher total never gets a milder band. */
  lemma SeverityMonotone(t1: int, t2: int)
    requires t1 <= t2
    ensures Rank(SeverityOf(t1)) <= Rank(SeverityOf(t2))
  {
  }

  /** The recommendation texts of get_recommendations, by name. */
  datatype Advice = KeepHealthy | LifestyleChanges | SeeProviderSoon | ImmediateAction

  function AdviceFor(s: Severity): Advice {
    match s
    case NoLittle => KeepHealthy
    case Mild => LifestyleChanges
    case Moderate => SeeProviderSoon
    case Severe => ImmediateAction
  }

  // ------------------------------------------------------------ symptoms

  const ScoreLabels: seq<string> := ["None", "Mild", "Moderate", "Severe", "Very Severe"]

  function QuestionText(i: nat): string {
    match i
    case 1 => "Hot flushes, sweating (episodes of sweating)"
    case 2 => "Heart discomfort (unusual awareness of heart beat, heart skipping, heart racing, tightness)"
    case 3 => "Sleep problems (difficulty falling asleep, staying asleep, early awakening)"
    case 4 => "Depressive mood (feeling down, sad, lack of drive, mood swings)"
    case 5 => "Irritability (feeling nervous, inner tension, feeling aggressive)"
    case 6 => "Anxiety (inner restlessness, panic)"
    case 7 => "Physical and mental exhaustion (general decrease in performance, impaired memory, concentration, forgetfulness)"
    case 8 => "Sexual problems (change in sexual desire, activity and satisfaction)"
    case 9 => "Bladder problems (difficulty in urinating, increased need to urinate, incontinence)"
    case 10 => "Dryness of vagina (sensation of dryness or burning in the vagina, difficulty with sexual intercourse)"
    case _ => "Joint and muscular discomfort (pain in the joints, rheumatic complaints)"
  }

  datatype SymptomEntry = SymptomEntry(number: nat, text: string, score: int, scoreLabel: string)

  /** SCORE_LABELS[score] exists for every positive score: no answer is above 4. */
  predicate LabelledScores(data: Form) {
    LabelledUpTo(data, 11)
  }

  predicate LabelledUpTo(data: Form, n: nat) {
    forall i :: 1 <= i <= n ==> Answer(data, i) < |ScoreLabels|
  }

  function EntryFor(data: Form, i: nat): SymptomEntry
    requires 0 < Answer(data, i) < |ScoreLabels|
  {
    SymptomEntry(i, QuestionText(i), Answer(data, i), ScoreLabels[Answer(data, i)])
  }

  /** The entries the loop appends for q1..qn, in question order. */
  function Detected(data: Form, n: nat): (r: seq<SymptomEntry>)
    requires n <= 11 && LabelledUpTo(data, n)
  {
    if n == 0 then []
    else Detected(data, n - 1) + (if Answer(data, n) > 0 then [EntryFor(data, n)] else [])
  }

  /** Every listed entry is a positively scored item among q1..qn, with its own text,
      score and label. */
  lemma {:induction false} DetectedEntriesAreItems(data: Form, n: nat)
    requires n <= 11 && LabelledUpTo(data, n)
    ensures forall e | e in Detected(data, n) ::
      1 <= e.number <= n && 0 < Answer(data, e.number) && e == EntryFor(data, e.number)
  {
    if n > 0 {
      DetectedEntriesAreItems(data, n - 1);
    }
  }

  lemma {:induction false} DetectedNumbersBounded(data: Form, n: nat)
    requires n <= 11 && LabelledUpTo(data, n)
    ensures forall k :: 0 <= k < |Detected(data, n)| ==> 1 <= Detected(data, n)[k].number <= n
  {
    if n > 0 {
      DetectedNumbersBounded(data, n - 1);
    }
  }

  /** The entries are in question order, so each item is listed at most once. */
  lemma {:induction false} DetectedInQuestionOrder(data: Form, n: nat)
    requires n <= 11 && LabelledUpTo(data, n)
    ensures forall k, l :: 0 <= k < l < |Detected(data, n)| ==> Detected(data, n)[k].number < Detected(data, n)[l].number
  {
    if n > 0 {
      DetectedInQuestionOrder(data, n - 1);
      DetectedNumbersBounded(data, n - 1);
      var prev := Detected(data, n - 1);
      if Answer(data, n) > 0 {
        var entry := EntryFor(data, n);
        var cur := prev + [entry];
        assert Detected(data, n) == cur;
        forall k, l | 0 <= k < l < |cur|
          ensures cur[k].number < cur[l].number
        {
          assert cur[k] == prev[k];
          if l == |prev| {
            assert cur[l] == entry;
          } else {
            assert cur[l] == prev[l];
          }
        }
      } else {
        assert Detected(data, n) == prev;
      }
    }
  }

  /** Every positively scored item among q1..qn is listed. */
  lemma {:induction false} DetectedListsEveryScoredItem(data: Form, n: nat, i: nat)
    requires n <= 11 && LabelledUpTo(data, n)
    requires 1 <= i <= n && Answer(data, i) > 0
    ensures EntryFor(data, i) in Detected(data, n)
  {
    if i < n {
      DetectedListsEveryScoredItem(data, n - 1, i);
    }
  }

  // ------------------------------------------------------------ sorting

  /** symptoms.sort(key=score, reverse=True) is stable, and the list it sorts is in
      question order: the result puts higher scores first and keeps equal scores in
      question order. */
  predicate Precedes(x: SymptomEntry, y: SymptomEntry) {
    x.score > y.score || (x.score == y.score && x.number <= y.number)
  }

  predicate Ordered(s: seq<SymptomEntry>) {
    forall i, j :: 0 <= i < j < |s| ==> Precedes(s[i], s[j])
  }

  /** Midway through an insertion step: the first i + 1 entries are ordered apart from
      position j, whose entry precedes every entry after it up to i. */
  ghost predicate Inserting(s: seq<SymptomEntry>, j: int, i: int)
    requires 0 <= j <= i < |s|
  {
    (forall p, q :: 0 <= p < q <= i && p != j && q != j ==> Precedes(s[p], s[q])) &&
    (forall q :: j < q <= i ==> Precedes(s[j], s[q])) &&
    (0 < j < i ==> Precedes(s[j - 1], s[j + 1]))
  }

  lemma InsertingStart(s: seq<SymptomEntry>, i: int)
    requires 0 <= i < |s| && Ordered(s[..i])
    ensures Inserting(s, i, i)
  {
    forall p, q | 0 <= p < q <= i && p != i && q != i
      ensures Precedes(s[p], s[q])
    {
      assert s[..i][p] == s[p] && s[..i][q] == s[q];
    }
  }

  /** Swapping the entry at j with the one before it, which it does not follow. */
  lemma InsertingSwap(s: seq<SymptomEntry>, j: int, i: int)
    requires 0 < j <= i < |s| && Inserting(s, j, i) && !Precedes(s[j - 1], s[j])
    ensures Inserting(s[j - 1 := s[j]][j := s[j - 1]], j - 1, i)
  {
  }

  lemma InsertingDone(s: seq<SymptomEntry>, j: int, i: int)
    requires 0 <= j <= i < |s| && Inserting(s, j, i) && (j == 0 || Precedes(s[j - 1], s[j]))
    ensures Ordered(s[..i + 1])
  {
    forall p, q | 0 <= p < q < i + 1
      ensures Precedes(s[p], s[q])
    {
      if q == j && p < j - 1 {
        assert Precedes(s[p], s[j - 1]);
      }
    }
  }

  /** One insertion step: the entry at position i moves left past the entries it
      precedes, after which the first i + 1 entries are ordered. */
  method InsertAt(a: array<SymptomEntry>, i: int)
    requires 0 <= i < a.Length && Ordered(a[..i])
    modifies a
    ensures Ordered(a[..i + 1]) && multiset(a[..]) == multiset(old(a[..]))
  {
    InsertingStart(a[..], i);
    var j := i;
    while j > 0 && !Precedes(a[j - 1], a[j])
      invariant 0 <= j <= i
      invariant Inserting(a[..], j, i)
      invariant multiset(a[..]) == multiset(old(a[..]))
    {
      ghost var s := a[..];
      InsertingSwap(s, j, i);
      a[j - 1], a[j] := a[j], a[j - 1];
      assert a[..] == s[j - 1 := s[j]][j := s[j - 1]];
      j := j - 1;
    }
    InsertingDone(a[..], j, i);
  }

  /** Insertion sort: symptoms.sort(key=score, reverse=True) in place. */
  method SortByScore(a: array<SymptomEntry>)
    modifies a
    ensures Ordered(a[..]) && multiset(a[..]) == multiset(old(a[..]))
  {
    var i := 0;
    while i < a.Length
      invariant 0 <= i <= a.Length
      invariant Ordered(a[..i])
      invariant multiset(a[..]) == multiset(old(a[..]))
    {
      InsertAt(a, i);
      i := i + 1;
    }
    assert a[..a.Length] == a[..];
  }

  // ------------------------------------------------------------ the report

  datatype Results = Results(
    totalScore: int,
    severity: Severity,
    severityColor: Color,
    psychologicalScore: int,
    somaticScore: int,
    urogenitalScore: int,
    symptoms: seq<SymptomEntry>,
    topSymptoms: seq<SymptomEntry>)

  /** The loop of calculate_results that lists the scored items; None when
      SCORE_LABELS[score] raises IndexError. */
  method ListSymptoms(data: Form) returns (r: Option<seq<SymptomEntry>>)
    ensures r.None? <==> !LabelledScores(data)
    ensures r.Some? ==> r.value == Detected(data, 11)
  {
    var symptoms: seq<SymptomEntry> := [];
    var i := 1;
    while i < 12
      invariant 1 <= i <= 12
      invariant LabelledUpTo(data, i - 1) && symptoms == Detected(data, i - 1)
    {
      var score := Answer(data, i);
      if score > 0 {
        if score >= |ScoreLabels| {
          return None;
        }
        symptoms := symptoms + [EntryFor(data, i)];
      }
      i := i + 1;
    }
    r := Some(symptoms);
  }

  /** calculate_results; None when it raises. */
  method CalculateResults(data: Form) returns (r: Option<Results>)
    ensures r.None? <==> !LabelledScores(data)
    ensures r.Some? ==>
      var res := r.value;
      res.totalScore == TotalScore(data) &&
      res.severity == SeverityOf(res.totalScore) && res.severityColor == SeverityColor(res.severity) &&
      res.psychologicalScore == SumItems(data, PsychologicalItems) &&
      res.somaticScore == SumItems(data, SomaticItems) &&
      res.urogenitalScore == SumItems(data, UrogenitalItems) &&
      Ordered(res.symptoms) && multiset(res.symptoms) == multiset(Detected(data, 11)) &&
      res.topSymptoms == PyPrefix(res.symptoms, 3)
  {
    var listed := ListSymptoms(data);
    if listed.None? {
      return None;
    }
    var symptoms := listed.value;
    var total := TotalScore(data);
    var severity := SeverityOf(total);
    var a := new SymptomEntry[|symptoms|](k requires 0 <= k < |symptoms| => symptoms[k]);
    assert a[..] == symptoms;
    SortByScore(a);
    var sorted := a[..];
    var top := if sorted != [] then sorted[..if 3 < |sorted| then 3 else |sorted|] else [];
    r := Some(Results(total, severity, SeverityColor(severity),
                      SumItems(data, PsychologicalItems), SumItems(data, SomaticItems), SumItems(data, UrogenitalItems),
                      sorted, top));
  }

  /** get_recommendations selects by the same bands as the severity. */
  function GetRecommendations(results: Results): (a: Advice)
    ensures a == AdviceFor(SeverityOf(results.totalScore))
  {
    var score := results.totalScore;
    if score <= 4 then KeepHealthy
    else if score <= 16 then LifestyleChanges
    else if score <= 27 then SeeProviderSoon
    else ImmediateAction
  }
}
