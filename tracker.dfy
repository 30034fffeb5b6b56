/** The MRS progress tracker: a fixed table of 11 symptom records in three
    domains, the scans over it (missing symptoms, the next bundle, completion,
    progress counts), the default-to-zero update and the export/import of the
    table.  The table is keyed by the catalogue's domains and symptoms; names
    (strings) are parsed where they come in (the collector's reply, the asked
    list, imported data) and printed where they go out.  Python dicts iterate
    in insertion order; the table's keys are inserted in catalogue order and
    never added to later, so every scan here walks the catalogue lists. */
module Tracker {
  import opened Base

  // ------------------------------------------------------------ the catalogue

  datatype Domain = Somatic | Psychological | Urogenital

  datatype Symptom =
    | HotFlashes | HeartDiscomfort | SleepProblems | JointMuscleDiscomfort
    | DepressiveMood | Irritability | Anxiety | MentalExhaustion
    | SexualProblems | BladderProblems | VaginalDryness

  const Domains: seq<Domain> := [Somatic, Psychological, Urogenital]

  function DomainName(d: Domain): string {
    match d
    case Somatic => "somatic"
    case Psychological => "psychological"
    case Urogenital => "urogenital"
  }

  function Name(s: Symptom): string {
    match s
    case HotFlashes => "hot_flashes"
    case HeartDiscomfort => "heart_discomfort"
    case SleepProblems => "sleep_problems"
    case JointMuscleDiscomfort => "joint_muscle_discomfort"
    case DepressiveMood => "depressive_mood"
    case Irritability => "irritability"
    case Anxiety => "anxiety"
    case MentalExhaustion => "mental_exhaustion"
    case SexualProblems => "sexual_problems"
    case BladderProblems => "bladder_problems"
    case VaginalDryness => "vaginal_dryness"
  }

  /** self.mrs_symptoms[domain], in the source's order. */
  function SymptomsOf(d: Domain): seq<Symptom> {
    match d
    case Somatic => [HotFlashes, HeartDiscomfort, SleepProblems, JointMuscleDiscomfort]
    case Psychological => [DepressiveMood, Irritability, Anxiety, MentalExhaustion]
    case Urogenital => [SexualProblems, BladderProblems, VaginalDryness]
  }

  /** The domain each symptom is filed under. */
  function DomainOf(s: Symptom): (d: Domain)
    ensures s in SymptomsOf(d)
  {
    match s
    case HotFlashes | HeartDiscomfort | SleepProblems | JointMuscleDiscomfort => Somatic
    case DepressiveMood | Irritability | Anxiety | MentalExhaustion => Psychological
    case SexualProblems | BladderProblems | VaginalDryness => Urogenital
  }

  const Catalog: seq<Symptom> := SymptomsOf(Somatic) + SymptomsOf(Psychological) + SymptomsOf(Urogenital)

  /** The symptom a name denotes, if any. */
  function ParseSymptom(name: string): (r: Option<Symptom>)
    ensures r.Some? ==> Name(r.value) == name
  {
    if name == "hot_flashes" then Some(HotFlashes)
    else if name == "heart_discomfort" then Some(HeartDiscomfort)
    else if name == "sleep_problems" then Some(SleepProblems)
    else if name == "joint_muscle_discomfort" then Some(JointMuscleDiscomfort)
    else if name == "depressive_mood" then Some(DepressiveMood)
    else if name == "irritability" then Some(Irritability)
    else if name == "anxiety" then Some(Anxiety)
    else if name == "mental_exhaustion" then Some(MentalExhaustion)
    else if name == "sexual_problems" then Some(SexualProblems)
    else if name == "bladder_problems" then Some(BladderProblems)
    else if name == "vaginal_dryness" then Some(VaginalDryness)
    else None
  }

  function ParseDomain(name: string): (r: Option<Domain>)
    ensures r.Some? ==> DomainName(r.value) == name
  {
    if name == "somatic" then Some(Somatic)
    else if name == "psychological" then Some(Psychological)
    else if name == "urogenital" then Some(Urogenital)
    else None
  }

  /** Names and parsing are inverse: every catalogued name parses back, nothing else parses. */
  lemma NamesParse(s: Symptom, d: Domain)
    ensures ParseSymptom(Name(s)) == Some(s)
    ensures ParseDomain(DomainName(d)) == Some(d)
  {
  }

  lemma ParseSymptomIsName(name: string)
    ensures ParseSymptom(name).None? ==> forall s: Symptom :: Name(s) != name
  {
    if ParseSymptom(name).None? {
      forall s: Symptom ensures Name(s) != name {
        NamesParse(s, Somatic);
      }
    }
  }

  lemma InDomainIff(d: Domain, s: Symptom)
    ensures s in SymptomsOf(d) <==> DomainOf(s) == d
  {
    match s
    case HotFlashes => case HeartDiscomfort => case SleepProblems => case JointMuscleDiscomfort =>
    case DepressiveMood => case Irritability => case Anxiety => case MentalExhaustion =>
    case SexualProblems => case BladderProblems => case VaginalDryness =>
  }

  lemma ParseDomainIsName(name: string)
    ensures ParseDomain(name).None? ==> forall d: Domain :: DomainName(d) != name
  {
    if ParseDomain(name).None? {
      forall d: Domain ensures DomainName(d) != name {
        NamesParse(HotFlashes, d);
      }
    }
  }

  lemma CatalogFacts()
    ensures |Catalog| == 11 && Distinct(Catalog)
    ensures forall s: Symptom :: s in Catalog
    ensures forall d: Domain, s: Symptom :: s in SymptomsOf(d) <==> DomainOf(s) == d
    ensures forall d: Domain :: d in Domains
    ensures forall d: Domain :: Distinct(SymptomsOf(d))
    ensures forall d: Domain, i :: 0 <= i < |SymptomsOf(d)| ==> DomainOf(SymptomsOf(d)[i]) == d
  {
    CatalogDistinct();
    forall d: Domain ensures Distinct(SymptomsOf(d)) {
      DomainSymptomsDistinct(d);
    }
    forall d: Domain ensures d in Domains {
      match d
      case Somatic => case Psychological => case Urogenital =>
    }
    forall d: Domain, i | 0 <= i < |SymptomsOf(d)| ensures DomainOf(SymptomsOf(d)[i]) == d {
      InDomainIff(d, SymptomsOf(d)[i]);
    }
    forall d: Domain, s: Symptom ensures s in SymptomsOf(d) <==> DomainOf(s) == d {
      InDomainIff(d, s);
    }
    forall s: Symptom ensures s in Catalog {
      InDomainIff(DomainOf(s), s);
    }
  }

  lemma CatalogDistinct()
    ensures |Catalog| == 11 && Distinct(Catalog)
  {
    assert Catalog == [HotFlashes, HeartDiscomfort, SleepProblems, JointMuscleDiscomfort,
      DepressiveMood, Irritability, Anxiety, MentalExhaustion,
      SexualProblems, BladderProblems, VaginalDryness];
  }

  lemma DomainSymptomsDistinct(d: Domain)
    ensures Distinct(SymptomsOf(d))
  {
  }

  // ------------------------------------------------------------ the table

  /** One symptom record: a score 0..4 once given, and whether it was addressed. */
  datatype Record = Record(mrsScore: Option<int>, isAddressed: bool)

  /** Record(): the dataclass defaults. */
  function NewRecord(): (r: Record)
    ensures r.mrsScore == None && !r.isAddressed
  {
    Record(None, false)
  }

  /** domain -> symptom -> record */
  type Table = map<Domain, map<Symptom, Record>>

  /** One scored item of the collector's reply: {"symptom": ..., "mrs_score": ...}. */
  datatype ScoredItem = ScoredItem(symptom: string, mrsScore: int)

  /** The table's key structure: all three domains, each holding exactly its catalogued symptoms. */
  ghost predicate WellFormed(t: Table) {
    (forall d: Domain :: d in t) &&
    (forall d, s :: d in t ==> (s in t[d] <==> DomainOf(s) == d))
  }

  /** The record of a symptom. */
  function Lookup(t: Table, s: Symptom): Record
    requires WellFormed(t)
  {
    t[DomainOf(s)][s]
  }

  function InitialTable(): Table {
    map d: Domain | d in Domains :: map s: Symptom | s in SymptomsOf(d) :: NewRecord()
  }

  /** _initialize_records: every one of the 11 symptoms has a fresh record. */
  lemma InitialTableIsFresh()
    ensures WellFormed(InitialTable())
    ensures forall s :: Lookup(InitialTable(), s) == Record(None, false)
  {
    CatalogFacts();
  }

  /** find_symptom_domain: the domain whose records hold the named symptom, None for "".
      On a well-formed table the scan over the domains finds the catalogue's domain. */
  function FindSymptomDomain(t: Table, name: string): (r: Option<Domain>)
    requires WellFormed(t)
    ensures r.Some? ==> exists s :: s in t[r.value] && Name(s) == name
    ensures r.None? ==> forall d, s :: d in t && s in t[d] ==> Name(s) != name
    ensures r.Some? <==> ParseSymptom(name).Some?
    ensures r.Some? ==> r.value == DomainOf(ParseSymptom(name).value)
  {
    ParseSymptomIsName(name);
    match ParseSymptom(name)
    case Some(s) => Some(DomainOf(s))
    case None => None
  }

  // ------------------------------------------------------------ scans

  /** The unaddressed symptoms among `names` (all keys of domain d), in the order of `names`. */
  function MissingIn(t: Table, d: Domain, names: seq<Symptom>): (r: seq<Symptom>)
    requires d in t && forall i :: 0 <= i < |names| ==> names[i] in t[d]
    ensures IsSubsequence(r, names)
    ensures forall s :: s in r <==> s in names && !t[d][s].isAddressed
  {
    if names == [] then []
    else
      var rest := MissingIn(t, d, names[1..]);
      if !t[d][names[0]].isAddressed then [names[0]] + rest else rest
  }

  /** get_missing_symptoms(domain); None means every domain. */
  function GetMissingSymptoms(t: Table, domain: Option<Domain>): seq<Symptom>
    requires WellFormed(t)
  {
    CatalogFacts();
    match domain
    case Some(d) => MissingIn(t, d, SymptomsOf(d))
    case None =>
      MissingIn(t, Somatic, SymptomsOf(Somatic))
      + MissingIn(t, Psychological, SymptomsOf(Psychological))
      + MissingIn(t, Urogenital, SymptomsOf(Urogenital))
  }

  /** The symptoms a call of get_missing_symptoms(domain) ranges over. */
  function Scope(domain: Option<Domain>): seq<Symptom> {
    match domain
    case Some(d) => SymptomsOf(d)
    case None => Catalog
  }

  lemma {:induction false} SubsequenceConcat<T>(a: seq<T>, x: seq<T>, b: seq<T>, y: seq<T>)
    requires IsSubsequence(a, x) && IsSubsequence(b, y)
    ensures IsSubsequence(a + b, x + y)
    decreases |x|
  {
    if x == [] {
      assert a == [] && a + b == b && x + y == y;
    } else if a == [] {
      SubsequenceConcat([], x[1..], b, y);
      assert [] + b == b && (x + y)[1..] == x[1..] + y;
    } else if a[0] == x[0] && IsSubsequence(a[1..], x[1..]) {
      SubsequenceConcat(a[1..], x[1..], b, y);
      assert (a + b)[1..] == a[1..] + b && (x + y)[1..] == x[1..] + y;
    } else {
      SubsequenceConcat(a, x[1..], b, y);
      assert (x + y)[1..] == x[1..] + y;
    }
  }

  /** get_missing_symptoms returns exactly the unaddressed symptoms of its scope, in catalogue order. */
  lemma MissingSymptomsAreUnaddressed(t: Table, domain: Option<Domain>)
    requires WellFormed(t)
    ensures var r := GetMissingSymptoms(t, domain);
      IsSubsequence(r, Scope(domain)) &&
      forall s :: s in r <==> s in Scope(domain) && !Lookup(t, s).isAddressed
  {
    CatalogFacts();
    if domain.None? {
      var m0 := MissingIn(t, Somatic, SymptomsOf(Somatic));
      var m1 := MissingIn(t, Psychological, SymptomsOf(Psychological));
      var m2 := MissingIn(t, Urogenital, SymptomsOf(Urogenital));
      SubsequenceConcat(m0, SymptomsOf(Somatic), m1, SymptomsOf(Psychological));
      SubsequenceConcat(m0 + m1, SymptomsOf(Somatic) + SymptomsOf(Psychological), m2, SymptomsOf(Urogenital));
    }
  }

  /** get_bundle_question_symptoms(max_symptoms): a slice of the missing symptoms of
      the first domain, in the order somatic, psychological, urogenital, that has
      any; ([], None) — the source's ([], "") — when none has. */
  function GetBundleQuestionSymptoms(t: Table, maxSymptoms: int): (seq<Symptom>, Option<Domain>)
    requires WellFormed(t)
  {
    var m0 := GetMissingSymptoms(t, Some(Somatic));
    var m1 := GetMissingSymptoms(t, Some(Psychological));
    var m2 := GetMissingSymptoms(t, Some(Urogenital));
    if m0 != [] then (PyPrefix(m0, maxSymptoms), Some(Somatic))
    else if m1 != [] then (PyPrefix(m1, maxSymptoms), Some(Psychological))
    else if m2 != [] then (PyPrefix(m2, maxSymptoms), Some(Urogenital))
    else ([], None)
  }

  /** The position of a domain in the order bundles are asked. */
  function Priority(d: Domain): nat {
    match d
    case Somatic => 0
    case Psychological => 1
    case Urogenital => 2
  }

  /** A bundle holds at most max_symptoms unaddressed symptoms, all from the first
      domain in priority order that has a missing symptom, in catalogue order. */
  lemma BundleComesFromFirstOpenDomain(t: Table, maxSymptoms: int)
    requires WellFormed(t)
    ensures var (bundle, domain) := GetBundleQuestionSymptoms(t, maxSymptoms);
      (0 <= maxSymptoms ==> |bundle| <= maxSymptoms) &&
      (domain.None? ==> bundle == []) &&
      (domain.Some? ==>
        GetMissingSymptoms(t, domain) != [] &&
        bundle == PyPrefix(GetMissingSymptoms(t, domain), maxSymptoms) &&
        (forall s :: s in bundle ==> DomainOf(s) == domain.value && !Lookup(t, s).isAddressed) &&
        (forall e :: Priority(e) < Priority(domain.value) ==> GetMissingSymptoms(t, Some(e)) == []))
  {
    CatalogFacts();
    var (bundle, domain) := GetBundleQuestionSymptoms(t, maxSymptoms);
    if domain.Some? {
      var m := GetMissingSymptoms(t, domain);
      MissingSymptomsAreUnaddressed(t, domain);
      forall s | s in bundle
        ensures DomainOf(s) == domain.value && !Lookup(t, s).isAddressed
      {
        assert s in m;
      }
    }
  }

  /** is_assessment_complete: every record of every domain is addressed. */
  predicate IsAssessmentComplete(t: Table) {
    forall d | d in t :: forall s | s in t[d] :: t[d][s].isAddressed
  }

  lemma CompleteIffAllAddressed(t: Table)
    requires WellFormed(t)
    ensures IsAssessmentComplete(t) <==> forall s :: Lookup(t, s).isAddressed
  {
    if forall s :: Lookup(t, s).isAddressed {
      forall d, s | d in t && s in t[d] ensures t[d][s].isAddressed {
        assert Lookup(t, s) == t[d][s];
      }
    }
  }

  /** Complete iff all 11 records are addressed iff get_missing_symptoms() is empty. */
  lemma CompleteIffNothingMissing(t: Table)
    requires WellFormed(t)
    ensures IsAssessmentComplete(t) <==> GetMissingSymptoms(t, None) == []
    ensures IsAssessmentComplete(t) <==> forall s :: Lookup(t, s).isAddressed
  {
    CompleteIffAllAddressed(t);
    MissingSymptomsAreUnaddressed(t, None);
    var m := GetMissingSymptoms(t, None);
    if m != [] {
      assert m[0] in m;
    }
    if exists s :: !Lookup(t, s).isAddressed {
      var s :| !Lookup(t, s).isAddressed;
      CatalogFacts();
      assert s in m;
    }
  }

  /** With a positive bound the bundle is empty exactly when the assessment is complete,
      and it is ([], None) then. */
  lemma BundleEmptyIffComplete(t: Table, maxSymptoms: int)
    requires WellFormed(t) && maxSymptoms > 0
    ensures GetBundleQuestionSymptoms(t, maxSymptoms) == ([], None) <==> IsAssessmentComplete(t)
    ensures GetBundleQuestionSymptoms(t, maxSymptoms).0 == [] <==> IsAssessmentComplete(t)
  {
    CompleteIffNothingMissing(t);
  }

  // ------------------------------------------------------------ update_records

  function SetRecord(t: Table, d: Domain, s: Symptom, rec: Record): Table
    requires d in t
  {
    t[d := t[d][s := rec]]
  }

  /** Writing one record keeps the table's shape and changes that record only. */
  lemma SetRecordLookup(t: Table, x: Symptom, rec: Record)
    requires WellFormed(t)
    ensures WellFormed(SetRecord(t, DomainOf(x), x, rec))
    ensures forall s :: Lookup(SetRecord(t, DomainOf(x), x, rec), s) == if s == x then rec else Lookup(t, s)
  {
  }

  function Names(items: seq<ScoredItem>): (r: seq<string>)
    ensures |r| == |items| && forall i :: 0 <= i < |items| ==> r[i] == items[i].symptom
  {
    seq(|items|, i requires 0 <= i < |items| => items[i].symptom)
  }

  /** The score the last item naming `name` gives it. */
  function LastScore(items: seq<ScoredItem>, name: string): int
    requires name in Names(items)
  {
    if name in Names(items[1..]) then LastScore(items[1..], name) else items[0].mrsScore
  }

  /** The explicit-score loop of update_records: the table it reaches, and false when
      a name is not in the table (the source then indexes records[""] and raises). */
  function ApplyScored(t: Table, items: seq<ScoredItem>): (Table, bool)
    requires WellFormed(t)
  {
    if items == [] then (t, true)
    else
      match ParseSymptom(items[0].symptom)
      case None => (t, false)
      case Some(s) =>
        var t1 := SetRecord(t, DomainOf(s), s, Record(Some(items[0].mrsScore), true));
        assert WellFormed(t1);
        ApplyScored(t1, items[1..])
  }

  /** The default-to-zero loop of update_records over the asked names not scored. */
  function ApplyDefaults(t: Table, asked: seq<string>, scoredNames: seq<string>): (Table, bool)
    requires WellFormed(t)
  {
    if asked == [] then (t, true)
    else if asked[0] in scoredNames then ApplyDefaults(t, asked[1..], scoredNames)
    else
      match ParseSymptom(asked[0])
      case None => (t, false)
      case Some(s) =>
        var t1 := SetRecord(t, DomainOf(s), s, Record(Some(0), true));
        assert WellFormed(t1);
        ApplyDefaults(t1, asked[1..], scoredNames)
  }

  /** update_records(last_asked_symptoms, symptoms_scored): the table afterwards and
      whether it returned normally (false: it raised part-way, the earlier writes stay). */
  function UpdateRecordsSpec(t: Table, asked: seq<string>, scored: seq<ScoredItem>): (Table, bool)
    requires WellFormed(t)
  {
    var (t1, ok1) := ApplyScored(t, scored);
    ApplyScoredEffect(t, scored);
    if !ok1 then (t1, false) else ApplyDefaults(t1, asked, Names(scored))
  }

  /** A name is catalogued when some symptom carries it. */
  predicate Catalogued(name: string) {
    ParseSymptom(name).Some?
  }

  lemma {:induction false} ApplyScoredEffect(t: Table, items: seq<ScoredItem>)
    requires WellFormed(t)
    ensures WellFormed(ApplyScored(t, items).0)
    ensures ApplyScored(t, items).1 <==> forall i :: 0 <= i < |items| ==> Catalogued(items[i].symptom)
    ensures ApplyScored(t, items).1 ==>
      forall s :: Lookup(ApplyScored(t, items).0, s) ==
        if Name(s) in Names(items) then Record(Some(LastScore(items, Name(s))), true) else Lookup(t, s)
  {
    if items != [] {
      assert forall i :: 1 <= i < |items| ==> items[i] == items[1..][i - 1];
      match ParseSymptom(items[0].symptom)
      case None =>
        assert ApplyScored(t, items) == (t, false);
      case Some(x) =>
        var rec := Record(Some(items[0].mrsScore), true);
        var t1 := SetRecord(t, DomainOf(x), x, rec);
        SetRecordLookup(t, x, rec);
        ApplyScoredEffect(t1, items[1..]);
        assert ApplyScored(t, items) == ApplyScored(t1, items[1..]);
        var t2 := ApplyScored(t1, items[1..]).0;
        if ApplyScored(t1, items[1..]).1 {
          forall s ensures Lookup(t2, s) ==
            if Name(s) in Names(items) then Record(Some(LastScore(items, Name(s))), true) else Lookup(t, s)
          {
            LastScoreStep(items, x, s);
          }
        }
    }
  }

  /** How the first item decides a symptom's last score. */
  lemma LastScoreStep(items: seq<ScoredItem>, x: Symptom, s: Symptom)
    requires items != [] && ParseSymptom(items[0].symptom) == Some(x)
    ensures Name(s) in Names(items) <==> s == x || Name(s) in Names(items[1..])
    ensures Name(s) in Names(items[1..]) ==> LastScore(items, Name(s)) == LastScore(items[1..], Name(s))
    ensures Name(s) !in Names(items[1..]) && s == x ==> LastScore(items, Name(s)) == items[0].mrsScore
  {
    NamesParse(s, Somatic);
    NamesParse(x, Somatic);
    assert Name(s) in Names(items) <==> Name(s) == items[0].symptom || Name(s) in Names(items[1..]);
  }

  lemma {:induction false} ApplyDefaultsEffect(t: Table, asked: seq<string>, scoredNames: seq<string>)
    requires WellFormed(t)
    ensures WellFormed(ApplyDefaults(t, asked, scoredNames).0)
    ensures ApplyDefaults(t, asked, scoredNames).1 <==>
      forall i :: 0 <= i < |asked| ==> asked[i] in scoredNames || Catalogued(asked[i])
    ensures ApplyDefaults(t, asked, scoredNames).1 ==>
      forall s :: Lookup(ApplyDefaults(t, asked, scoredNames).0, s) ==
        if Name(s) in asked && Name(s) !in scoredNames then Record(Some(0), true) else Lookup(t, s)
  {
    if asked != [] {
      var x := asked[0];
      assert forall i :: 1 <= i < |asked| ==> asked[i] == asked[1..][i - 1];
      assert asked == [x] + asked[1..];
      if x in scoredNames {
        ApplyDefaultsEffect(t, asked[1..], scoredNames);
      } else {
        match ParseSymptom(x)
        case None =>
        case Some(sx) =>
          var t1 := SetRecord(t, DomainOf(sx), sx, Record(Some(0), true));
          SetRecordLookup(t, sx, Record(Some(0), true));
          ApplyDefaultsEffect(t1, asked[1..], scoredNames);
          forall s ensures Name(s) == x ==> s == sx {
            NamesParse(s, Somatic);
          }
      }
    }
  }

  /** update_records: each scored symptom takes its (last) given score and is addressed,
      each asked symptom without a score becomes 0 and addressed, every other record is
      unchanged; it returns normally iff every name involved is catalogued, and the
      table keeps its 11 keys either way. */
  lemma UpdateRecordsEffect(t: Table, asked: seq<string>, scored: seq<ScoredItem>)
    requires WellFormed(t)
    ensures var (t2, ok) := UpdateRecordsSpec(t, asked, scored);
      WellFormed(t2) &&
      (ok <==> (forall i :: 0 <= i < |scored| ==> Catalogued(scored[i].symptom)) &&
               (forall i :: 0 <= i < |asked| ==> asked[i] in Names(scored) || Catalogued(asked[i]))) &&
      (ok ==> forall s ::
        Lookup(t2, s) ==
          if Name(s) in Names(scored) then Record(Some(LastScore(scored, Name(s))), true)
          else if Name(s) in asked then Record(Some(0), true)
          else Lookup(t, s))
  {
    ApplyScoredEffect(t, scored);
    var (t1, ok1) := ApplyScored(t, scored);
    if ok1 {
      ApplyDefaultsEffect(t1, asked, Names(scored));
    }
  }

  // ------------------------------------------------------------ progress

  function CountAddressed(t: Table, d: Domain, names: seq<Symptom>): (n: nat)
    requires d in t && forall i :: 0 <= i < |names| ==> names[i] in t[d]
    ensures n <= |names|
  {
    if names == [] then 0
    else (if t[d][names[0]].isAddressed then 1 else 0) + CountAddressed(t, d, names[1..])
  }

  function CountScored(t: Table, d: Domain, names: seq<Symptom>): (n: nat)
    requires d in t && forall i :: 0 <= i < |names| ==> names[i] in t[d]
    ensures n <= |names|
  {
    if names == [] then 0
    else (if t[d][names[0]].mrsScore.Some? then 1 else 0) + CountScored(t, d, names[1..])
  }

  datatype DomainProgress = DomainProgress(domain: Domain, addressed: nat, total: nat)

  /** get_assessment_progress without the percentages. */
  datatype Progress = Progress(addressed: nat, scored: nat, total: nat,
                               byDomain: seq<DomainProgress>, isComplete: bool)

  function DomainProgressOf(t: Table, d: Domain): DomainProgress
    requires WellFormed(t)
  {
    CatalogFacts();
    DomainProgress(d, CountAddressed(t, d, SymptomsOf(d)), |t[d]|)
  }

  /** How many of a domain's records carry a score. */
  function DomainScoredOf(t: Table, d: Domain): nat
    requires WellFormed(t)
  {
    CatalogFacts();
    CountScored(t, d, SymptomsOf(d))
  }

  /** One of the two counters the overall loop keeps. */
  datatype Counter = AddressedCounter | ScoredCounter

  predicate Counts(c: Counter, r: Record) {
    match c
    case AddressedCounter => r.isAddressed
    case ScoredCounter => r.mrsScore.Some?
  }

  /** The overall loop: how many of the records of `names` the counter counts. */
  function CountAmong(t: Table, names: seq<Symptom>, c: Counter): (n: nat)
    requires WellFormed(t)
    ensures n <= |names|
  {
    if names == [] then 0
    else (if Counts(c, Lookup(t, names[0])) then 1 else 0) + CountAmong(t, names[1..], c)
  }

  /** get_assessment_progress without the percentages: the overall counts run over
      every record, the per-domain ones over each domain's records. */
  function GetAssessmentProgress(t: Table): (p: Progress)
    requires WellFormed(t)
    ensures |p.byDomain| == 3 && p.byDomain[0].domain == Somatic &&
      p.byDomain[1].domain == Psychological && p.byDomain[2].domain == Urogenital
    ensures p.addressed <= 11 && p.scored <= 11
  {
    CatalogFacts();
    Progress(
      CountAmong(t, Catalog, AddressedCounter),
      CountAmong(t, Catalog, ScoredCounter),
      |t[Somatic]| + |t[Psychological]| + |t[Urogenital]|,
      [DomainProgressOf(t, Somatic), DomainProgressOf(t, Psychological), DomainProgressOf(t, Urogenital)],
      IsAssessmentComplete(t))
  }

  lemma {:induction false} CountAmongAppend(t: Table, a: seq<Symptom>, b: seq<Symptom>, c: Counter)
    requires WellFormed(t)
    ensures CountAmong(t, a + b, c) == CountAmong(t, a, c) + CountAmong(t, b, c)
  {
    if a == [] {
      assert a + b == b;
    } else {
      assert (a + b)[0] == a[0] && (a + b)[1..] == a[1..] + b;
      CountAmongAppend(t, a[1..], b, c);
    }
  }

  /** Over one domain's symptoms, the overall counters agree with the domain's. */
  lemma {:induction false} CountAmongDomain(t: Table, d: Domain, names: seq<Symptom>)
    requires WellFormed(t) && forall i :: 0 <= i < |names| ==> DomainOf(names[i]) == d
    ensures forall i :: 0 <= i < |names| ==> names[i] in t[d]
    ensures CountAmong(t, names, AddressedCounter) == CountAddressed(t, d, names)
    ensures CountAmong(t, names, ScoredCounter) == CountScored(t, d, names)
  {
    if names != [] {
      assert forall i :: 1 <= i < |names| ==> names[1..][i - 1] == names[i];
      CountAmongDomain(t, d, names[1..]);
      assert Lookup(t, names[0]) == t[d][names[0]];
    }
  }

  lemma CardOfDistinctKeys(m: map<Symptom, Record>, names: seq<Symptom>)
    requires Distinct(names) && forall s :: s in m <==> s in names
    ensures |m| == |names|
  {
    assert forall s :: s in m.Keys <==> s in names;
    CardOfDistinctSet(m.Keys, names);
  }

  lemma {:induction false} CardOfDistinctSet(ks: set<Symptom>, names: seq<Symptom>)
    requires Distinct(names) && forall s :: s in ks <==> s in names
    ensures |ks| == |names|
    decreases |names|
  {
    if names != [] {
      var rest := ks - {names[0]};
      forall s ensures s in rest <==> s in names[1..] {
        if s in names[1..] {
          var k :| 0 <= k < |names[1..]| && names[1..][k] == s;
          assert names[k + 1] == s;
        }
      }
      CardOfDistinctSet(rest, names[1..]);
    }
  }

  lemma {:induction false} CountAddressedAll(t: Table, d: Domain, names: seq<Symptom>)
    requires d in t && forall i :: 0 <= i < |names| ==> names[i] in t[d]
    ensures CountAddressed(t, d, names) == |names| <==> forall s :: s in names ==> t[d][s].isAddressed
  {
    if names != [] {
      CountAddressedAll(t, d, names[1..]);
      assert forall s :: s in names <==> s == names[0] || s in names[1..];
    }
  }

  lemma DomainCounts(t: Table, d: Domain)
    requires WellFormed(t)
    ensures DomainProgressOf(t, d).total == |SymptomsOf(d)|
    ensures DomainProgressOf(t, d).addressed == |SymptomsOf(d)| <==>
      forall s :: s in t[d] ==> t[d][s].isAddressed
  {
    CatalogFacts();
    forall s ensures s in t[d] <==> s in SymptomsOf(d) {
      InDomainIff(d, s);
    }
    CardOfDistinctKeys(t[d], SymptomsOf(d));
    CountAddressedAll(t, d, SymptomsOf(d));
  }

  /** The progress statistics: 11 symptoms in all, addressed <= total, the overall
      counts (one pass over every record) equal the sums of the per-domain counts, and
      the assessment is complete exactly when every symptom is addressed. */
  lemma ProgressCounts(t: Table)
    requires WellFormed(t)
    ensures var p := GetAssessmentProgress(t);
      p.total == 11 && p.addressed <= p.total && p.scored <= p.total &&
      p.byDomain[0].addressed + p.byDomain[1].addressed + p.byDomain[2].addressed == p.addressed &&
      p.byDomain[0].total + p.byDomain[1].total + p.byDomain[2].total == p.total &&
      DomainScoredOf(t, Somatic) + DomainScoredOf(t, Psychological) + DomainScoredOf(t, Urogenital) == p.scored &&
      p.isComplete == IsAssessmentComplete(t) &&
      (p.isComplete <==> p.addressed == p.total)
  {
    DomainCounts(t, Somatic);
    DomainCounts(t, Psychological);
    DomainCounts(t, Urogenital);
    OverallCountsSplit(t);
    var p := GetAssessmentProgress(t);
    if p.addressed == p.total {
      forall d, s | d in t && s in t[d] ensures t[d][s].isAddressed {
        match d
        case Somatic => case Psychological => case Urogenital =>
      }
    }
  }

  /** The pass over every record counts what the three domain passes count together. */
  lemma OverallCountsSplit(t: Table)
    requires WellFormed(t)
    ensures CountAmong(t, Catalog, AddressedCounter) ==
      DomainProgressOf(t, Somatic).addressed + DomainProgressOf(t, Psychological).addressed +
      DomainProgressOf(t, Urogenital).addressed
    ensures CountAmong(t, Catalog, ScoredCounter) ==
      DomainScoredOf(t, Somatic) + DomainScoredOf(t, Psychological) + DomainScoredOf(t, Urogenital)
  {
    CatalogFacts();
    var a, b, c := SymptomsOf(Somatic), SymptomsOf(Psychological), SymptomsOf(Urogenital);
    assert Catalog == a + b + c;
    CountAmongAppend(t, a + b, c, AddressedCounter);
    CountAmongAppend(t, a, b, AddressedCounter);
    CountAmongAppend(t, a + b, c, ScoredCounter);
    CountAmongAppend(t, a, b, ScoredCounter);
    CountAmongDomain(t, Somatic, a);
    CountAmongDomain(t, Psychological, b);
    CountAmongDomain(t, Urogenital, c);
  }

  /** get_records_by_domain: the domain's records, or an empty mapping. */
  function GetRecordsByDomain(t: Table, domain: string): (r: map<Symptom, Record>)
    ensures ParseDomain(domain).Some? && ParseDomain(domain).value in t ==> r == t[ParseDomain(domain).value]
    ensures ParseDomain(domain).None? ==> r == map[]
  {
    match ParseDomain(domain)
    case Some(d) => if d in t then t[d] else map[]
    case None => map[]
  }

  // ------------------------------------------------------------ export / import

  /** A record as exported: is_addressed None stands for a missing key or a null. */
  datatype RecordData = RecordData(mrsScore: Option<int>, isAddressed: Option<bool>)

  type Data = map<string, map<string, RecordData>>

  /** Distinct symptoms and distinct domains carry distinct names. */
  lemma NamesInjective()
    ensures forall x: Symptom, y: Symptom :: Name(x) == Name(y) ==> x == y
    ensures forall x: Domain, y: Domain :: DomainName(x) == DomainName(y) ==> x == y
  {
    forall x: Symptom, y: Symptom ensures Name(x) == Name(y) ==> x == y {
      NamesParse(x, Somatic);
      NamesParse(y, Somatic);
    }
    forall x: Domain, y: Domain ensures DomainName(x) == DomainName(y) ==> x == y {
      NamesParse(HotFlashes, x);
      NamesParse(HotFlashes, y);
    }
  }

  function ExportDomain(m: map<Symptom, Record>): map<string, RecordData> {
    NamesInjective();
    map s | s in m :: Name(s) := RecordData(m[s].mrsScore, Some(m[s].isAddressed))
  }

  /** to_dict: every record written out under its domain's and symptom's names. */
  function ToDict(t: Table): Data {
    NamesInjective();
    map d | d in t :: DomainName(d) := ExportDomain(t[d])
  }

  /** One record imported: .get('mrs_score') and .get('is_addressed', False). */
  function ImportRecord(rd: RecordData): Record {
    Record(rd.mrsScore, rd.isAddressed.GetOr(false))
  }

  /** One domain's records after importing that domain's data: named symptoms overwritten. */
  function ImportDomainSpec(m: map<Symptom, Record>, domainData: map<string, RecordData>, pending: set<string>): map<Symptom, Record> {
    map s | s in m :: if Name(s) in domainData && Name(s) !in pending then ImportRecord(domainData[Name(s)]) else m[s]
  }

  /** The table after importing the data of every domain name not in `pending`. */
  function ImportDomains(t: Table, data: Data, pending: set<string>): Table {
    map d | d in t ::
      if DomainName(d) in data && DomainName(d) !in pending then ImportDomainSpec(t[d], data[DomainName(d)], {})
      else t[d]
  }

  lemma ImportNothingPending(t: Table, data: Data, m: map<Symptom, Record>, domainData: map<string, RecordData>)
    ensures ImportDomainSpec(m, domainData, domainData.Keys) == m
    ensures ImportDomains(t, data, data.Keys) == t
  {
  }

  /** Importing one more symptom name of a domain: the symptom it names takes the imported record. */
  lemma ImportDomainSpecStep(m: map<Symptom, Record>, domainData: map<string, RecordData>, pending: set<string>, name: string)
    requires name in pending && name in domainData
    ensures var s := ParseSymptom(name);
      ImportDomainSpec(m, domainData, pending - {name}) ==
        if s.Some? && s.value in m
        then ImportDomainSpec(m, domainData, pending)[s.value := ImportRecord(domainData[name])]
        else ImportDomainSpec(m, domainData, pending)
  {
    var s := ParseSymptom(name);
    var lhs := ImportDomainSpec(m, domainData, pending - {name});
    var prev := ImportDomainSpec(m, domainData, pending);
    ParseSymptomIsName(name);
    if s.Some? && s.value in m {
      var rhs := prev[s.value := ImportRecord(domainData[name])];
      assert lhs.Keys == rhs.Keys;
      forall k | k in lhs ensures lhs[k] == rhs[k] {
        if k != s.value {
          NamesParse(k, Somatic);
        }
      }
    } else {
      assert lhs.Keys == prev.Keys;
      forall k | k in lhs ensures lhs[k] == prev[k] {
        NamesParse(k, Somatic);
      }
    }
  }

  /** Importing one more domain name: the known domain it names takes its imported records. */
  lemma ImportDomainsStep(t: Table, data: Data, pending: set<string>, dn: string)
    requires dn in pending && dn in data
    ensures var d := ParseDomain(dn);
      ImportDomains(t, data, pending - {dn}) ==
        if d.Some? && d.value in t
        then ImportDomains(t, data, pending)[d.value := ImportDomainSpec(t[d.value], data[dn], {})]
        else ImportDomains(t, data, pending)
  {
    NamesInjective();
    ParseDomainIsName(dn);
  }

  /** from_dict: records named in the data are overwritten, everything else stays. */
  function FromDictSpec(t: Table, data: Data): Table {
    ImportDomains(t, data, {})
  }

  lemma ToDictLookup(t: Table, d: Domain, s: Symptom)
    ensures DomainName(d) in ToDict(t) <==> d in t
    ensures d in t ==> ToDict(t)[DomainName(d)] == ExportDomain(t[d])
    ensures d in t ==> (Name(s) in ExportDomain(t[d]) <==> s in t[d])
    ensures d in t && s in t[d] ==>
      ExportDomain(t[d])[Name(s)] == RecordData(t[d][s].mrsScore, Some(t[d][s].isAddressed))
  {
    NamesInjective();
  }

  lemma FromDictAt(t: Table, data: Data, d: Domain, s: Symptom)
    ensures var r := FromDictSpec(t, data);
      r.Keys == t.Keys &&
      (d in t ==> r[d].Keys == t[d].Keys) &&
      (d in t && s in t[d] ==>
        r[d][s] == if DomainName(d) in data && Name(s) in data[DomainName(d)]
                   then ImportRecord(data[DomainName(d)][Name(s)]) else t[d][s])
  {
  }

  lemma SameShape(a: Table, b: Table)
    requires WellFormed(a) && WellFormed(b)
    ensures a.Keys == b.Keys && forall d :: d in a ==> a[d].Keys == b[d].Keys
  {
    forall d: Domain ensures d in a && d in b && a[d].Keys == b[d].Keys {
      forall s ensures s in a[d] <==> s in b[d] {
        assert s in a[d] <==> DomainOf(s) == d;
      }
    }
  }

  lemma RoundTripDomain(before: Table, t: Table, d: Domain)
    requires d in before && d in t && before[d].Keys == t[d].Keys
    ensures FromDictSpec(before, ToDict(t))[d] == t[d]
  {
    var data := ToDict(t);
    var r := FromDictSpec(before, data);
    FromDictAt(before, data, d, HotFlashes);
    forall s | s in t[d] ensures s in r[d] && r[d][s] == t[d][s] {
      ToDictLookup(t, d, s);
      FromDictAt(before, data, d, s);
    }
  }

  /** from_dict(to_dict()) restores every record, whatever the table held before. */
  lemma ExportImportRoundTrip(before: Table, t: Table)
    requires WellFormed(before) && WellFormed(t)
    ensures FromDictSpec(before, ToDict(t)) == t
  {
    var r := FromDictSpec(before, ToDict(t));
    SameShape(before, t);
    FromDictAt(before, ToDict(t), Somatic, HotFlashes);
    forall d | d in t ensures d in r && r[d] == t[d] {
      RoundTripDomain(before, t, d);
    }
  }

  /** The record of s after import: the data's entry for it if there is one, else its old record. */
  function ImportedOrKept(t: Table, data: Data, s: Symptom): Record
    requires WellFormed(t)
  {
    var dn := DomainName(DomainOf(s));
    if dn in data && Name(s) in data[dn] then ImportRecord(data[dn][Name(s)]) else Lookup(t, s)
  }

  /** Import keeps the table's shape, and a record changes only where the data names it. */
  lemma ImportOverwritesNamed(t: Table, data: Data)
    requires WellFormed(t)
    ensures WellFormed(FromDictSpec(t, data))
    ensures forall s :: Lookup(FromDictSpec(t, data), s) == ImportedOrKept(t, data, s)
  {
  }

  // ------------------------------------------------------------ the object

  class MRSTracker {
    var records: Table

    ghost predicate Valid()
      reads this
    {
      WellFormed(records)
    }

    /** __init__ and _initialize_records. */
    constructor ()
      ensures Valid() && records == InitialTable()
    {
      var t: Table := map[];
      var i := 0;
      while i < |Domains|
        invariant 0 <= i <= |Domains|
        invariant forall d :: d in t <==> d in Domains[..i]
        invariant forall d :: d in t ==> t[d] == InitialTable()[d]
      {
        var d := Domains[i];
        var names := SymptomsOf(d);
        var domainRecords: map<Symptom, Record> := map[];
        var j := 0;
        while j < |names|
          invariant 0 <= j <= |names|
          invariant forall s :: s in domainRecords <==> s in names[..j]
          invariant forall s :: s in domainRecords ==> domainRecords[s] == NewRecord()
        {
          domainRecords := domainRecords[names[j] := NewRecord()];
          j := j + 1;
        }
        assert names[..j] == names;
        assert domainRecords == InitialTable()[d];
        t := t[d := domainRecords];
        assert Domains[..i + 1] == Domains[..i] + [d];
        i := i + 1;
      }
      assert Domains[..i] == Domains;
      assert t == InitialTable();
      records := t;
      InitialTableIsFresh();
    }

    /** update_records; false when it raises part-way (an unknown name). */
    method UpdateRecords(lastAskedSymptoms: seq<string>, symptomsScored: seq<ScoredItem>) returns (ok: bool)
      requires Valid()
      modifies this
      ensures Valid()
      ensures (records, ok) == UpdateRecordsSpec(old(records), lastAskedSymptoms, symptomsScored)
    {
      ghost var t0 := records;
      var scoredNames: seq<string> := [];
      var i := 0;
      while i < |symptomsScored|
        invariant 0 <= i <= |symptomsScored|
        invariant WellFormed(records)
        invariant scoredNames == Names(symptomsScored[..i])
        invariant ApplyScored(t0, symptomsScored) == ApplyScored(records, symptomsScored[i..])
      {
        var name := symptomsScored[i].symptom;
        var domain := FindSymptomDomain(records, name);
        assert symptomsScored[i..][0] == symptomsScored[i];
        assert symptomsScored[i..][1..] == symptomsScored[i + 1..];
        if domain.None? {
          assert ApplyScored(records, symptomsScored[i..]) == (records, false);
          ok := false;
          return;
        }
        var symptom := ParseSymptom(name).value;
        var rec := Record(Some(symptomsScored[i].mrsScore), true);
        SetRecordLookup(records, symptom, rec);
        assert ApplyScored(records, symptomsScored[i..]) ==
          ApplyScored(SetRecord(records, domain.value, symptom, rec), symptomsScored[i + 1..]);
        records := SetRecord(records, domain.value, symptom, rec);
        assert symptomsScored[..i + 1] == symptomsScored[..i] + [symptomsScored[i]];
        scoredNames := scoredNames + [name];
        i := i + 1;
      }
      assert symptomsScored[..i] == symptomsScored;
      assert ApplyScored(t0, symptomsScored) == (records, true);
      ghost var t1 := records;
      var j := 0;
      while j < |lastAskedSymptoms|
        invariant 0 <= j <= |lastAskedSymptoms|
        invariant WellFormed(records)
        invariant ApplyDefaults(t1, lastAskedSymptoms, scoredNames) ==
                  ApplyDefaults(records, lastAskedSymptoms[j..], scoredNames)
      {
        var name := lastAskedSymptoms[j];
        assert lastAskedSymptoms[j..][0] == name;
        assert lastAskedSymptoms[j..][1..] == lastAskedSymptoms[j + 1..];
        if name !in scoredNames {
          var domain := FindSymptomDomain(records, name);
          if domain.None? {
            ok := false;
            return;
          }
          var symptom := ParseSymptom(name).value;
          SetRecordLookup(records, symptom, Record(Some(0), true));
          records := SetRecord(records, domain.value, symptom, Record(Some(0), true));
        }
        j := j + 1;
      }
      ok := true;
    }

    /** The inner loop of from_dict: one domain's data imported into its records. */
    method ImportDomain(domain: Domain, domainData: map<string, RecordData>)
      requires Valid()
      modifies this
      ensures Valid()
      ensures records == old(records)[domain := ImportDomainSpec(old(records)[domain], domainData, {})]
    {
      NamesInjective();
      ghost var t0 := records;
      var names := domainData.Keys;
      ImportNothingPending(t0, map[], t0[domain], domainData);
      while names != {}
        invariant names <= domainData.Keys
        invariant records == t0[domain := ImportDomainSpec(t0[domain], domainData, names)]
        decreases names
      {
        var name :| name in names;
        var symptom := ParseSymptom(name);
        ImportDomainSpecStep(t0[domain], domainData, names, name);
        if symptom.Some? && symptom.value in records[domain] {
          records := SetRecord(records, domain, symptom.value, ImportRecord(domainData[name]));
        }
        names := names - {name};
      }
    }

    /** from_dict: loops over the data's domains, importing those the table knows. */
    method FromDict(data: Data)
      requires Valid()
      modifies this
      ensures Valid()
      ensures records == FromDictSpec(old(records), data)
    {
      NamesInjective();
      ghost var t0 := records;
      var todo := data.Keys;
      ImportNothingPending(t0, data, map[], map[]);
      while todo != {}
        invariant todo <= data.Keys
        invariant records == ImportDomains(t0, data, todo)
        invariant Valid()
        decreases todo
      {
        var domainName :| domainName in todo;
        var parsed := ParseDomain(domainName);
        ParseDomainIsName(domainName);
        ImportDomainsStep(t0, data, todo, domainName);
        if parsed.Some? {
          ImportDomain(parsed.value, data[domainName]);
        }
        todo := todo - {domainName};
      }
    }
  }
}
