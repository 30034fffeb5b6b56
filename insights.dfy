/** The chat demo's server-side analysis: the keyword detector that spots symptoms
    in a chat message, the two-hour time-window histogram of one symptom's logs, the
    direction rule of the weekly trend, and the score arithmetic of the PDF report
    (bands 4/8/15, unlike the 4/16/27 of the questionnaire report). */
module Insights {
  import opened Base
  import DemoReport

  // ------------------------------------------------------------ detection

  /** The keys of SYMPTOM_KEYWORDS. */
  datatype Category = HotFlash | NightSweat | SleepIssue | Mood | Anxiety | Irritability
                    | Fatigue | Headache | JointPain | Memory

  function CategoryName(c: Category): string {
    match c
    case HotFlash => "Hot Flash"
    case NightSweat => "Night Sweat"
    case SleepIssue => "Sleep Issue"
    case Mood => "Mood"
    case Anxiety => "Anxiety"
    case Irritability => "Irritability"
    case Fatigue => "Fatigue"
    case Headache => "Headache"
    case JointPain => "Joint Pain"
    case Memory => "Memory"
  }

  function Keywords(c: Category): seq<string> {
    match c
    case HotFlash => ["hot flash", "hot flush", "heat wave", "feeling hot", "sudden warmth", "burning up"]
    case NightSweat => ["night sweat", "sweating at night", "wake up sweating", "drenched in sweat"]
    case SleepIssue => ["sleep", "insomnia", "can't sleep", "couldn't sleep", "trouble sleeping",
                        "woke up", "hard to fall asleep", "tossing and turning"]
    case Mood => ["mood", "depressed", "sad", "down", "crying", "emotional", "feeling low"]
    case Anxiety => ["anxious", "anxiety", "worried", "nervous", "panic", "restless", "on edge"]
    case Irritability => ["irritable", "angry", "frustrated", "short temper", "annoyed", "snappy"]
    case Fatigue => ["tired", "exhausted", "fatigue", "no energy", "worn out", "drained"]
    case Headache => ["headache", "head hurts", "migraine", "head pain"]
    case JointPain => ["joint pain", "aching", "stiff", "arthritis", "joints hurt"]
    case Memory => ["memory", "forgetful", "can't remember", "brain fog", "forget things"]
  }

  /** SYMPTOM_KEYWORDS' insertion order. */
  const Categories: seq<Category> :=
    [HotFlash, NightSweat, SleepIssue, Mood, Anxiety, Irritability, Fatigue, Headache, JointPain, Memory]

  const PersonalIndicators: seq<string> := [
    "i", "my", "me", "mine",
    "today", "yesterday", "last night", "this morning", "tonight", "earlier",
    "just had", "having", "experiencing", "feeling", "felt",
    "i'm", "i am", "i have", "i've", "i was", "i had"
  ]

  /** The keys of SEVERITY_KEYWORDS, in order. */
  const SeverityLevels: seq<int> := [1, 2, 3]

  function SeverityWords(level: int): seq<string> {
    if level == 1 then ["mild", "slight", "a little", "bit of", "minor"]
    else if level == 2 then ["moderate", "pretty bad", "quite", "fairly"]
    else ["severe", "terrible", "awful", "really bad", "unbearable", "extreme", "worst"]
  }

  datatype Detection = Detection(symptom: Category, severity: int, messageContext: string)

  /** The first level with a keyword in the text, or the default. */
  function FirstLevel(lower: string, levels: seq<int>, default: int): int {
    if levels == [] then default
    else if ContainsAny(lower, SeverityWords(levels[0])) then levels[0]
    else FirstLevel(lower, levels[1..], default)
  }

  function SeverityFor(lower: string): int {
    FirstLevel(lower, SeverityLevels, 2)
  }

  /** Severity is 1 with a level-1 keyword; otherwise 3 with a level-3 keyword and no
      level-2 one; otherwise 2, the default. */
  lemma SeverityPriority(lower: string)
    ensures var r := SeverityFor(lower);
      (r == 1 <==> ContainsAny(lower, SeverityWords(1))) &&
      (r == 3 <==> !ContainsAny(lower, SeverityWords(1)) && !ContainsAny(lower, SeverityWords(2)) &&
                   ContainsAny(lower, SeverityWords(3))) &&
      (r == 1 || r == 2 || r == 3)
  {
    var three: seq<int> := [3];
    var twoThree: seq<int> := [2, 3];
    assert three[1..] == [];
    assert FirstLevel(lower, three, 2) == if ContainsAny(lower, SeverityWords(3)) then 3 else 2;
    assert twoThree[1..] == three;
    assert FirstLevel(lower, twoThree, 2) ==
      if ContainsAny(lower, SeverityWords(2)) then 2 else FirstLevel(lower, three, 2);
    assert SeverityLevels[1..] == twoThree;
    assert SeverityFor(lower) ==
      if ContainsAny(lower, SeverityWords(1)) then 1 else FirstLevel(lower, twoThree, 2);
  }

  /** The loop over SEVERITY_KEYWORDS that stops at the first matching level. */
  method FindSeverity(lower: string) returns (severity: int)
    ensures severity == SeverityFor(lower)
  {
    severity := 2;
    var k := 0;
    while k < |SeverityLevels|
      invariant 0 <= k <= |SeverityLevels|
      invariant FirstLevel(lower, SeverityLevels[k..], 2) == SeverityFor(lower)
    {
      assert SeverityLevels[k..][1..] == SeverityLevels[k + 1..];
      if ContainsAny(lower, SeverityWords(SeverityLevels[k])) {
        return SeverityLevels[k];
      }
      k := k + 1;
    }
  }

  /** The detections for the categories whose keywords occur in the text, in order. */
  function DetectFrom(message: string, lower: string, categories: seq<Category>): seq<Detection> {
    if categories == [] then []
    else
      var last := categories[|categories| - 1];
      DetectFrom(message, lower, categories[..|categories| - 1]) +
      (if ContainsAny(lower, Keywords(last)) then [Detection(last, SeverityFor(lower), PyPrefix(message, 100))] else [])
  }

  /** detect_symptoms_in_message, as a value. */
  function DetectSymptoms(message: string): seq<Detection> {
    var lower := Lower(message);
    if !ContainsAny(lower, PersonalIndicators) then [] else DetectFrom(message, lower, Categories)
  }

  /** detect_symptoms_in_message */
  method DetectSymptomsInMessage(message: string) returns (detected: seq<Detection>)
    ensures detected == DetectSymptoms(message)
  {
    var lower := Lower(message);
    detected := [];
    if !ContainsAny(lower, PersonalIndicators) {
      return [];
    }
    var k := 0;
    while k < |Categories|
      invariant 0 <= k <= |Categories|
      invariant detected == DetectFrom(message, lower, Categories[..k])
    {
      var symptom := Categories[k];
      assert Categories[..k + 1][..k] == Categories[..k];
      if ContainsAny(lower, Keywords(symptom)) {
        var severity := FindSeverity(lower);
        detected := detected + [Detection(symptom, severity, PyPrefix(message, 100))];
      }
      k := k + 1;
    }
    assert Categories[..k] == Categories;
  }

  /** Each reported category is one of the list whose keywords occur, with the
      message's one severity and its first hundred characters. */
  lemma {:induction false} DetectFromFields(message: string, lower: string, categories: seq<Category>)
    ensures forall d | d in DetectFrom(message, lower, categories) ::
      d.symptom in categories && ContainsAny(lower, Keywords(d.symptom)) &&
      d.severity == SeverityFor(lower) && d.messageContext == PyPrefix(message, 100)
  {
    if categories != [] {
      var init := categories[..|categories| - 1];
      DetectFromFields(message, lower, init);
      assert forall c | c in init :: c in categories;
    }
  }

  /** Every category of the list whose keywords occur is reported. */
  lemma {:induction false} DetectFromComplete(message: string, lower: string, categories: seq<Category>)
    ensures forall c | c in categories && ContainsAny(lower, Keywords(c)) ::
      exists d | d in DetectFrom(message, lower, categories) :: d.symptom == c
  {
    if categories != [] {
      var init := categories[..|categories| - 1];
      var last := categories[|categories| - 1];
      DetectFromComplete(message, lower, init);
      DetectFromLast(message, lower, categories);
      var prev := DetectFrom(message, lower, init);
      var r := DetectFrom(message, lower, categories);
      assert forall d | d in prev :: d in r;
      forall c | c in categories && ContainsAny(lower, Keywords(c))
        ensures exists d | d in r :: d.symptom == c
      {
        if c == last {
          var d := Detection(last, SeverityFor(lower), PyPrefix(message, 100));
          assert r == prev + [d];
          assert d in r;
        } else {
          assert c in init by {
            var k :| 0 <= k < |categories| && categories[k] == c;
            assert k < |categories| - 1 && init[k] == c;
          }
          var d :| d in prev && d.symptom == c;
          assert d in r;
        }
      }
    }
  }

  /** The unfolding of DetectFrom at its last category. */
  lemma DetectFromLast(message: string, lower: string, categories: seq<Category>)
    requires categories != []
    ensures var last := categories[|categories| - 1];
      var prev := DetectFrom(message, lower, categories[..|categories| - 1]);
      DetectFrom(message, lower, categories) ==
        if ContainsAny(lower, Keywords(last))
        then prev + [Detection(last, SeverityFor(lower), PyPrefix(message, 100))]
        else prev
  {
  }

  /** With distinct categories, no category is reported twice. */
  lemma {:induction false} DetectFromNoRepeats(message: string, lower: string, categories: seq<Category>)
    requires Distinct(categories)
    ensures var r := DetectFrom(message, lower, categories);
      forall i, j | 0 <= i < j < |r| :: r[i].symptom != r[j].symptom
  {
    if categories != [] {
      var init := categories[..|categories| - 1];
      var last := categories[|categories| - 1];
      DetectFromNoRepeats(message, lower, init);
      var prev := DetectFrom(message, lower, init);
      var r := DetectFrom(message, lower, categories);
      DetectFromLast(message, lower, categories);
      if ContainsAny(lower, Keywords(last)) {
        DetectFromFields(message, lower, init);
        assert last !in init by {
          forall k | 0 <= k < |init| ensures init[k] != last {
            assert init[k] == categories[k];
          }
        }
        forall i, j | 0 <= i < j < |r|
          ensures r[i].symptom != r[j].symptom
        {
          assert r[i] == prev[i];
          if j < |prev| {
            assert r[j] == prev[j];
          } else {
            assert prev[i] in prev;
            assert r[j].symptom == last;
          }
        }
      }
    }
  }

  lemma CategoriesDistinct()
    ensures Distinct(Categories)
  {
  }

  /** Without a personal indicator nothing is detected; with one, a category is
      reported exactly when one of its keywords occurs, at most once, all with the same
      severity in 1..3 and the first hundred characters of the message. */
  lemma DetectSymptomsSpec(message: string)
    ensures var lower := Lower(message);
      var r := DetectSymptoms(message);
      (!ContainsAny(lower, PersonalIndicators) ==> r == []) &&
      (forall d | d in r :: d.severity == SeverityFor(lower) && 1 <= d.severity <= 3 &&
                            d.messageContext == PyPrefix(message, 100)) &&
      (forall c | c in Categories :: (exists d | d in r :: d.symptom == c) <==>
          ContainsAny(lower, PersonalIndicators) && ContainsAny(lower, Keywords(c))) &&
      (forall i, j | 0 <= i < j < |r| :: r[i].symptom != r[j].symptom)
  {
    var lower := Lower(message);
    var r := DetectSymptoms(message);
    SeverityPriority(lower);
    if ContainsAny(lower, PersonalIndicators) {
      assert r == DetectFrom(message, lower, Categories);
      CategoriesDistinct();
      DetectFromFields(message, lower, Categories);
      DetectFromComplete(message, lower, Categories);
      DetectFromNoRepeats(message, lower, Categories);
    }
  }

  /** The indicator "i" is matched as a substring, so any message with the letter i in
      it counts as personal. */
  lemma LetterICountsAsPersonal(message: string)
    requires Contains(Lower(message), "i")
    ensures ContainsAny(Lower(message), PersonalIndicators)
  {
    assert PersonalIndicators[0] == "i";
  }

  // ------------------------------------------------------------ time pattern

  type Hour = h: int | 0 <= h < 24

  /** A confirmed log, with the hour of its timestamp. */
  datatype SymptomLog = SymptomLog(symptom: string, hour: Hour)

  /** [log for log in logs if log['symptom'] == symptom], keeping only the hours. */
  function HoursOf(logs: seq<SymptomLog>, symptom: string): seq<Hour> {
    if logs == [] then []
    else (if logs[0].symptom == symptom then [logs[0].hour] else []) + HoursOf(logs[1..], symptom)
  }

  /** Counter(hours).get(h, 0) */
  function Occurrences(hours: seq<Hour>, h: int): nat {
    if hours == [] then 0 else (if hours[0] == h then 1 else 0) + Occurrences(hours[1..], h)
  }

  /** The count of the window starting at an even hour: its two hours. */
  function WindowCount(hours: seq<Hour>, start: int): nat {
    Occurrences(hours, start) + Occurrences(hours, start + 1)
  }

  /** The non-empty windows among those starting before `end`, as (start, count). */
  function WindowsBefore(hours: seq<Hour>, end: int): seq<(nat, nat)>
    decreases end
  {
    if end < 2 then []
    else WindowsBefore(hours, end - 2) +
         (if WindowCount(hours, end - 2) > 0 then [((end - 2) as nat, WindowCount(hours, end - 2))] else [])
  }

  function Pad2(n: nat): string {
    if n < 10 then "0" + NatToString(n) else NatToString(n)
  }

  /** f"{hour:02d}:00-{(hour+2):02d}:00" */
  function WindowLabel(start: nat): string {
    Pad2(start) + ":00-" + Pad2(start + 2) + ":00"
  }

  function MaxCount(windows: seq<(nat, nat)>): (m: nat)
    ensures forall k | 0 <= k < |windows| :: windows[k].1 <= m
    ensures windows != [] ==> exists k | 0 <= k < |windows| :: windows[k].1 == m
  {
    if windows == [] then 0
    else if windows[0].1 >= MaxCount(windows[1..]) then windows[0].1
    else MaxCount(windows[1..])
  }

  /** max(windows.items(), key=count): the first window with the largest count. */
  function PeakWindow(windows: seq<(nat, nat)>): (w: (nat, nat))
    requires windows != []
    ensures exists k | 0 <= k < |windows| :: windows[k] == w && forall j | 0 <= j < k :: windows[j].1 < w.1
    ensures w.1 == MaxCount(windows)
  {
    if windows[0].1 == MaxCount(windows) then windows[0]
    else
      var w := PeakWindow(windows[1..]);
      assert forall j | 0 < j < |windows| :: windows[j] == windows[1..][j - 1];
      w
  }

  /** [k for k, v in windows.items() if v == peak] */
  function LabelsWithCount(windows: seq<(nat, nat)>, count: nat): seq<string> {
    if windows == [] then []
    else (if windows[0].1 == count then [WindowLabel(windows[0].0)] else []) + LabelsWithCount(windows[1..], count)
  }

  datatype TimePattern = TimePattern(
    symptom: string, message: string, peakHours: seq<string>, peakCount: nat, totalCount: nat)

  function PatternMessage(symptom: string, peak: (nat, nat), total: nat): string {
    MessageLead(symptom) + WindowLabel(peak.0) + MessageTail(peak.1, total)
  }

  function MessageLead(symptom: string): string {
    "Your " + symptom + "s most often occur between "
  }

  function MessageTail(peakCount: nat, total: nat): string {
    " (" + NatToString(peakCount) + "/" + NatToString(total) + " times)"
  }

  /** analyze_time_pattern, as a value. */
  function TimePatternOf(logs: seq<SymptomLog>, symptom: string): Option<TimePattern> {
    var hours := HoursOf(logs, symptom);
    var windows := WindowsBefore(hours, 24);
    if |hours| < 3 || windows == [] then None
    else
      var peak := PeakWindow(windows);
      Some(TimePattern(symptom, PatternMessage(symptom, peak, |hours|),
                       LabelsWithCount(windows, peak.1), peak.1, |hours|))
  }

  /** The loop over range(0, 24, 2) that fills `windows`. */
  method BuildWindows(hours: seq<Hour>) returns (windows: seq<(nat, nat)>)
    ensures windows == WindowsBefore(hours, 24)
  {
    windows := [];
    var hour := 0;
    while hour < 24
      invariant 0 <= hour <= 24 && hour % 2 == 0
      invariant windows == WindowsBefore(hours, hour)
    {
      var count := Occurrences(hours, hour) + Occurrences(hours, hour + 1);
      if count > 0 {
        windows := windows + [(hour, count)];
      }
      hour := hour + 2;
    }
  }

  /** analyze_time_pattern */
  method AnalyzeTimePattern(logs: seq<SymptomLog>, symptom: string) returns (r: Option<TimePattern>)
    ensures r == TimePatternOf(logs, symptom)
  {
    var hours := HoursOf(logs, symptom);
    if |hours| < 3 {
      return None;
    }
    var windows := BuildWindows(hours);
    if windows == [] {
      return None;
    }
    var peak := PeakWindow(windows);
    r := Some(TimePattern(symptom, PatternMessage(symptom, peak, |hours|),
                          LabelsWithCount(windows, peak.1), peak.1, |hours|));
  }

  /** The number of hours below `hi`, counted bucket by bucket. */
  function SumOccurrences(hours: seq<Hour>, hi: int): nat
    decreases hi
  {
    if hi <= 0 then 0 else SumOccurrences(hours, hi - 1) + Occurrences(hours, hi - 1)
  }

  lemma {:induction false} SumOccurrencesFirst(hours: seq<Hour>, hi: int)
    requires hours != []
    ensures SumOccurrences(hours, hi) == (if hours[0] < hi then 1 else 0) + SumOccurrences(hours[1..], hi)
    decreases hi
  {
    if hi > 0 {
      SumOccurrencesFirst(hours, hi - 1);
    }
  }

  lemma {:induction false} SumOccurrencesEmpty(hi: int)
    ensures SumOccurrences([], hi) == 0
    decreases hi
  {
    if hi > 0 {
      SumOccurrencesEmpty(hi - 1);
    }
  }

  /** Every hour falls in exactly one of the 24 one-hour buckets. */
  lemma {:induction false} SumOccurrencesAll(hours: seq<Hour>)
    ensures SumOccurrences(hours, 24) == |hours|
  {
    if hours == [] {
      SumOccurrencesEmpty(24);
    } else {
      SumOccurrencesFirst(hours, 24);
      SumOccurrencesAll(hours[1..]);
    }
  }

  function SumCounts(windows: seq<(nat, nat)>): nat {
    if windows == [] then 0 else windows[0].1 + SumCounts(windows[1..])
  }

  lemma {:induction false} WindowsSum(hours: seq<Hour>, end: int)
    requires end >= 0 && end % 2 == 0
    ensures SumCounts(WindowsBefore(hours, end)) == SumOccurrences(hours, end)
    decreases end
  {
    if end > 0 {
      WindowsSum(hours, end - 2);
      var last := if WindowCount(hours, end - 2) > 0 then [((end - 2) as nat, WindowCount(hours, end - 2))] else [];
      SumCountsAppend(WindowsBefore(hours, end - 2), last);
      if last != [] {
        assert last[1..] == [];
      }
    }
  }

  lemma {:induction false} SumCountsAppend(xs: seq<(nat, nat)>, ys: seq<(nat, nat)>)
    ensures SumCounts(xs + ys) == SumCounts(xs) + SumCounts(ys)
  {
    if xs == [] {
      assert xs + ys == ys;
    } else {
      assert (xs + ys)[1..] == xs[1..] + ys;
      SumCountsAppend(xs[1..], ys);
    }
  }

  /** The kept windows' counts add up to the number of logs of the symptom; so with
      three logs or more some window is kept and the result is present. */
  lemma WindowCountsSumToTotal(logs: seq<SymptomLog>, symptom: string)
    ensures var hours := HoursOf(logs, symptom);
      SumCounts(WindowsBefore(hours, 24)) == |hours|
    ensures TimePatternOf(logs, symptom).None? <==> |HoursOf(logs, symptom)| < 3
  {
    var hours := HoursOf(logs, symptom);
    WindowsSum(hours, 24);
    SumOccurrencesAll(hours);
  }

  lemma {:induction false} LabelsWithCountSpec(windows: seq<(nat, nat)>, count: nat, start: nat)
    ensures WindowLabel(start) in LabelsWithCount(windows, count) <==>
      exists k | 0 <= k < |windows| :: windows[k].1 == count && WindowLabel(windows[k].0) == WindowLabel(start)
  {
    if windows != [] {
      LabelsWithCountSpec(windows[1..], count, start);
      assert forall k | 0 < k < |windows| :: windows[k] == windows[1..][k - 1];
    }
  }

  /** The message names the peak window. */
  lemma MessageNamesPeak(symptom: string, peak: (nat, nat), total: nat)
    ensures Contains(PatternMessage(symptom, peak, total), WindowLabel(peak.0))
  {
    ContainsWitnessOf(WindowLabel(peak.0));
    ContainsInfix(MessageLead(symptom), WindowLabel(peak.0), MessageTail(peak.1, total), WindowLabel(peak.0));
  }

  lemma ContainsWitnessOf(s: string)
    ensures Contains(s, s)
  {
    ContainsAt(s, s, 0);
  }

  // ------------------------------------------------------------ trend

  datatype Direction = Improving | Worsening | Stable

  /** Python's round() of n / d: to the nearest integer, halves to the even one. */
  function RoundHalfEven(n: int, d: int): (r: int)
    requires d > 0
    ensures 2 * (n - d * r) <= d && -d <= 2 * (n - d * r)
    ensures 2 * (n - d * r) == d || 2 * (n - d * r) == -d ==> r % 2 == 0
  {
    var q := n / d;
    var rem := n % d;
    assert n == d * q + rem;
    if 2 * rem < d then q
    else if 2 * rem > d then q + 1
    else if q % 2 == 0 then q
    else q + 1
  }

  /** change_percent */
  function ChangePercent(week1: nat, current: nat): int {
    if week1 == 0 then 0 else RoundHalfEven((current - week1) * 100, week1)
  }

  function DirectionOf(changePercent: int): Direction {
    if changePercent < -10 then Improving
    else if changePercent > 10 then Worsening
    else Stable
  }

  /** "improving" only when the last week has fewer logs than the first, "worsening"
      only when it has more; an empty first week or an unchanged count is "stable". */
  lemma DirectionFollowsCounts(week1: nat, current: nat)
    ensures var d := DirectionOf(ChangePercent(week1, current));
      (d == Improving ==> current < week1) &&
      (d == Worsening ==> current > week1) &&
      (week1 == 0 || current == week1 ==> d == Stable)
  {
    if week1 > 0 {
      var n := (current - week1) * 100;
      var r := RoundHalfEven(n, week1);
      if r < -10 {
        MulMonotone(week1, r, -11);
      } else if r > 10 {
        MulMonotone(week1, 11, r);
      }
      if current == week1 {
        assert n == 0;
        MulMonotone(week1, r, 0);
        MulMonotone(week1, 0, r);
      }
    }
  }

  lemma MulMonotone(w: int, a: int, b: int)
    requires w > 0 && a <= b
    ensures w * a <= w * b
  {
  }

  datatype Trend = Trend(direction: Direction, changePercent: int, week1Count: nat, currentCount: nat,
                         weeks: nat, weeklyData: seq<nat>)

  /** The direction rule of analyze_trend, from the weekly counts on. */
  function TrendOf(weeklyCounts: seq<nat>, weeks: nat): (r: Option<Trend>)
    ensures r.None? <==> forall k | 0 <= k < |weeklyCounts| :: weeklyCounts[k] == 0
    ensures r.Some? ==> r.value.week1Count == weeklyCounts[0] && r.value.currentCount == weeklyCounts[|weeklyCounts| - 1]
  {
    if weeklyCounts == [] || forall k | 0 <= k < |weeklyCounts| :: weeklyCounts[k] == 0 then None
    else
      var week1 := weeklyCounts[0];
      var current := weeklyCounts[|weeklyCounts| - 1];
      var change := ChangePercent(week1, current);
      Some(Trend(DirectionOf(change), change, week1, current, weeks, weeklyCounts))
  }

  // ------------------------------------------------------------ PDF report

  datatype Band = NoOrLittle | Mild | Moderate | Severe

  function BandLabel(b: Band): string {
    match b
    case NoOrLittle => "No or little"
    case Mild => "Mild"
    case Moderate => "Moderate"
    case Severe => "Severe"
  }

  function BandRank(b: Band): nat {
    match b
    case NoOrLittle => 0
    case Mild => 1
    case Moderate => 2
    case Severe => 3
  }

  function PdfBand(total: int): Band {
    if total <= 4 then NoOrLittle
    else if total <= 8 then Mild
    else if total <= 15 then Moderate
    else Severe
  }

  datatype PdfSummary = PdfSummary(total: int, psychological: int, somatic: int, urogenital: int, band: Band)

  /** The summary table of generate_pdf. */
  function PdfSummaryOf(data: DemoReport.Form): (r: PdfSummary)
    ensures r.total == DemoReport.SumItems(data, DemoReport.AllItems)
    ensures r.total == r.psychological + r.somatic + r.urogenital
    ensures r.band == PdfBand(r.total)
  {
    DemoReport.SubscoresPartition(data);
    var total := DemoReport.TotalScore(data);
    PdfSummary(total, DemoReport.SumItems(data, DemoReport.PsychologicalItems),
               DemoReport.SumItems(data, DemoReport.SomaticItems),
               DemoReport.SumItems(data, DemoReport.UrogenitalItems), PdfBand(total))
  }

  /** The PDF's bands are never milder than the questionnaire report's for the same
      total, and they differ from 9 to 16 and from 17 to 27. */
  lemma PdfBandsStricter(total: int)
    ensures BandRank(PdfBand(total)) >= DemoReport.Rank(DemoReport.SeverityOf(total))
    ensures BandRank(PdfBand(total)) > DemoReport.Rank(DemoReport.SeverityOf(total)) <==> 9 <= total <= 27
  {
  }
}
