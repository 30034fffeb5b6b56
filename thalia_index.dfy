// The browser client of the Thalia companion (thalia_demo/thalia_ai/index.js):
// the MRS arithmetic of `calculateResults` and the de-duplication of automatically
// detected symptoms in `savePendingSymptoms`. localStorage, the DOM and the clock are
// left out: the stored logs come in as a sequence and "today" as an abstract day key.

module ThaliaIndex {
  import opened Base
  import DemoReport
  import Insights

  // ------------------------------------------------------------ calculateResults

  /** A JavaScript object with integer values, as its entries in `Object.keys` order. */
  type JsObject = seq<(string, int)>

  function KeysOf(data: JsObject): (keys: seq<string>)
    ensures |keys| == |data| && forall i | 0 <= i < |data| :: keys[i] == data[i].0
  {
    seq(|data|, i requires 0 <= i < |data| => data[i].0)
  }

  /** An object never holds the same key twice. */
  predicate WellFormed(data: JsObject) {
    Distinct(KeysOf(data))
  }

  /** `data[key] || 0`: the value stored under `key`, or 0 when there is none. */
  function Value(data: JsObject, key: string): int {
    if data == [] then 0
    else if data[|data| - 1].0 == key then data[|data| - 1].1
    else Value(data[..|data| - 1], key)
  }

  /** `key.startsWith('q')` */
  predicate IsQKey(key: string) {
    |key| > 0 && key[0] == 'q'
  }

  /** What one entry adds to the total. */
  function QValue(entry: (string, int)): int {
    if IsQKey(entry.0) then entry.1 else 0
  }

  /** The reduce over the keys that start with "q". */
  function TotalScore(data: JsObject): int {
    if data == [] then 0 else TotalScore(data[..|data| - 1]) + QValue(data[|data| - 1])
  }

  /** The keys `q${i}` of a list of item numbers. */
  function ItemKeys(items: seq<nat>): (keys: seq<string>)
    ensures |keys| == |items| && forall j | 0 <= j < |items| :: keys[j] == DemoReport.QKey(items[j])
  {
    seq(|items|, j requires 0 <= j < |items| => DemoReport.QKey(items[j]))
  }

  function SumKeys(data: JsObject, keys: seq<string>): int {
    if keys == [] then 0 else Value(data, keys[0]) + SumKeys(data, keys[1..])
  }

  /** `items.reduce((sum, i) => sum + (data[`q${i}`] || 0), 0)` */
  function Subscore(data: JsObject, items: seq<nat>): int {
    SumKeys(data, ItemKeys(items))
  }

  datatype Results = Results(totalScore: int, severity: Insights.Band, psychologicalScore: int,
                             somaticScore: int, urogenitalScore: int)

  /** calculateResults: the same 4/8/15 bands as the PDF report of the Python back end. */
  function CalculateResults(data: JsObject): Results {
    var total := TotalScore(data);
    Results(total, Insights.PdfBand(total), Subscore(data, DemoReport.PsychologicalItems),
            Subscore(data, DemoReport.SomaticItems), Subscore(data, DemoReport.UrogenitalItems))
  }

  /** The severity texts of calculateResults and where their bands start. */
  lemma CalculateResultsBands(data: JsObject)
    ensures var r := CalculateResults(data);
      (Insights.BandLabel(r.severity) == "No or little" <==> r.totalScore <= 4) &&
      (Insights.BandLabel(r.severity) == "Mild" <==> 4 < r.totalScore <= 8) &&
      (Insights.BandLabel(r.severity) == "Moderate" <==> 8 < r.totalScore <= 15) &&
      (Insights.BandLabel(r.severity) == "Severe" <==> 15 < r.totalScore)
  {
  }

  // Lemmas about Value and SumKeys.

  lemma {:induction false} ValueAbsent(data: JsObject, key: string)
    requires key !in KeysOf(data)
    ensures Value(data, key) == 0
  {
    if data != [] {
      var init := data[..|data| - 1];
      assert KeysOf(init) == KeysOf(data)[..|data| - 1];
      ValueAbsent(init, key);
    }
  }

  lemma {:induction false} ValueAt(data: JsObject, i: nat)
    requires WellFormed(data) && i < |data|
    ensures Value(data, data[i].0) == data[i].1
  {
    var n := |data|;
    if i < n - 1 {
      var init := data[..n - 1];
      assert KeysOf(data)[i] != KeysOf(data)[n - 1];
      assert KeysOf(init) == KeysOf(data)[..n - 1];
      ValueAt(init, i);
    }
  }

  lemma {:induction false} SumKeysAppend(data: JsObject, a: seq<string>, b: seq<string>)
    ensures SumKeys(data, a + b) == SumKeys(data, a) + SumKeys(data, b)
    decreases |a|
  {
    if a == [] {
      assert a + b == b;
    } else {
      assert (a + b)[1..] == a[1..] + b;
      SumKeysAppend(data, a[1..], b);
    }
  }

  /** Removing one key from the list removes its value from the sum. */
  lemma SumKeysRemove(data: JsObject, keys: seq<string>, p: nat)
    requires p < |keys|
    ensures SumKeys(data, keys) == Value(data, keys[p]) + SumKeys(data, keys[..p] + keys[p + 1..])
  {
    assert keys == keys[..p] + [keys[p]] + keys[p + 1..];
    SumKeysAppend(data, keys[..p] + [keys[p]], keys[p + 1..]);
    SumKeysAppend(data, keys[..p], [keys[p]]);
    SumKeysAppend(data, keys[..p], keys[p + 1..]);
    assert SumKeys(data, [keys[p]]) == Value(data, keys[p]) by {
      assert [keys[p]][1..] == [];
    }
  }

  /** An entry for another key does not change the sum over `keys`. */
  lemma {:induction false} SumKeysSkip(data: JsObject, entry: (string, int), keys: seq<string>)
    requires entry.0 !in keys
    ensures SumKeys(data + [entry], keys) == SumKeys(data, keys)
  {
    if keys != [] {
      assert (data + [entry])[..|data|] == data;
      assert keys[0] in keys;
      SumKeysSkip(data, entry, keys[1..]);
    }
  }

  /** The set of keys of `data` that start with "q". */
  function QKeys(data: JsObject): set<string> {
    set k | k in KeysOf(data) && IsQKey(k)
  }

  /** Deleting position `p` from a duplicate-free list deletes exactly `keys[p]`. */
  lemma DistinctRemove(keys: seq<string>, p: nat)
    requires Distinct(keys) && p < |keys|
    ensures var rest := keys[..p] + keys[p + 1..];
      Distinct(rest) && (set k | k in rest) == (set k | k in keys) - {keys[p]}
  {
    var rest := keys[..p] + keys[p + 1..];
    forall i, j | 0 <= i < j < |rest| ensures rest[i] != rest[j] {
      var i' := if i < p then i else i + 1;
      var j' := if j < p then j else j + 1;
      assert rest[i] == keys[i'] && rest[j] == keys[j'];
    }
    forall k | k in rest ensures k in keys && k != keys[p] {
      var i :| 0 <= i < |rest| && rest[i] == k;
      var i' := if i < p then i else i + 1;
      assert rest[i] == keys[i'];
    }
    forall k | k in keys && k != keys[p] ensures k in rest {
      var i :| 0 <= i < |keys| && keys[i] == k;
      assert k == rest[if i < p then i else i - 1];
    }
  }

  /** The "q" keys after one more entry. */
  lemma QKeysSnoc(data: JsObject, entry: (string, int))
    ensures QKeys(data + [entry]) == QKeys(data) + (if IsQKey(entry.0) then {entry.0} else {})
  {
    assert KeysOf(data + [entry]) == KeysOf(data) + [entry.0];
  }

  /** The total over the "q" keys in object order equals the sum over any duplicate-free
      listing of those keys. */
  lemma {:induction false} TotalScoreAnyOrder(data: JsObject, keys: seq<string>)
    requires WellFormed(data) && Distinct(keys) && (set k | k in keys) == QKeys(data)
    ensures TotalScore(data) == SumKeys(data, keys)
  {
    var n := |data|;
    assert keys != [] ==> keys[0] in (set k | k in keys) && keys[0] in QKeys(data) && keys[0] in KeysOf(data);
    if n != 0 {
      var init := data[..n - 1];
      var last := data[n - 1];
      assert KeysOf(init) == KeysOf(data)[..n - 1];
      assert last.0 !in KeysOf(init) by {
        forall k | 0 <= k < n - 1 ensures KeysOf(init)[k] != last.0 {
          assert KeysOf(data)[k] != KeysOf(data)[n - 1];
        }
      }
      assert data == init + [last];
      QKeysSnoc(init, last);
      if IsQKey(last.0) {
        assert last.0 in (set k | k in keys);
        var p :| 0 <= p < |keys| && keys[p] == last.0;
        var rest := keys[..p] + keys[p + 1..];
        DistinctRemove(keys, p);
        TotalScoreAnyOrder(init, rest);
        SumKeysRemove(data, keys, p);
        SumKeysSkip(init, last, rest);
        ValueAt(data, n - 1);
      } else {
        assert last.0 !in QKeys(init);
        assert last.0 !in (set k | k in keys);
        TotalScoreAnyOrder(init, keys);
        SumKeysSkip(init, last, keys);
      }
    }
  }

  /** Different item numbers give different keys. */
  lemma ItemKeysDistinct(items: seq<nat>)
    requires Distinct(items)
    ensures Distinct(ItemKeys(items))
  {
    forall i, j | 0 <= i < j < |items| ensures ItemKeys(items)[i] != ItemKeys(items)[j] {
      if ItemKeys(items)[i] == ItemKeys(items)[j] {
        var a := DemoReport.QKey(items[i]);
        var b := DemoReport.QKey(items[j]);
        assert a[1..] == NatToString(items[i]) && b[1..] == NatToString(items[j]);
        NatToStringInjective(items[i], items[j]);
      }
    }
  }

  lemma ItemKeysAppend(a: seq<nat>, b: seq<nat>)
    ensures ItemKeys(a + b) == ItemKeys(a) + ItemKeys(b)
  {
  }

  lemma ItemKeysSet(items: seq<nat>)
    ensures (set k | k in ItemKeys(items)) == (set i | i in items :: DemoReport.QKey(i))
  {
    forall k | k in ItemKeys(items) ensures exists i | i in items :: k == DemoReport.QKey(i) {
      var j :| 0 <= j < |items| && ItemKeys(items)[j] == k;
      assert items[j] in items;
    }
    forall i | i in items ensures DemoReport.QKey(i) in ItemKeys(items) {
      var j :| 0 <= j < |items| && items[j] == i;
      assert ItemKeys(items)[j] == DemoReport.QKey(i);
    }
  }

  /** When the object's "q" keys are exactly q1..q11, the three subscores add up to the
      total. */
  lemma SubscoresPartition(data: JsObject)
    requires WellFormed(data) && QKeys(data) == (set i | i in DemoReport.AllItems :: DemoReport.QKey(i))
    ensures var r := CalculateResults(data);
      r.psychologicalScore + r.somaticScore + r.urogenitalScore == r.totalScore
  {
    var all := DemoReport.AllItems;
    assert Distinct(all);
    ItemKeysDistinct(all);
    ItemKeysSet(all);
    TotalScoreAnyOrder(data, ItemKeys(all));
    var front: seq<nat> := [1, 2, 3];
    var eleven: seq<nat> := [11];
    assert all == front + DemoReport.PsychologicalItems + DemoReport.UrogenitalItems + eleven;
    assert DemoReport.SomaticItems == front + eleven;
    ItemKeysAppend(front + DemoReport.PsychologicalItems + DemoReport.UrogenitalItems, eleven);
    ItemKeysAppend(front + DemoReport.PsychologicalItems, DemoReport.UrogenitalItems);
    ItemKeysAppend(front, DemoReport.PsychologicalItems);
    ItemKeysAppend(front, eleven);
    var k1 := ItemKeys(front);
    var k2 := ItemKeys(DemoReport.PsychologicalItems);
    var k3 := ItemKeys(DemoReport.UrogenitalItems);
    var k4 := ItemKeys(eleven);
    SumKeysAppend(data, k1 + k2 + k3, k4);
    SumKeysAppend(data, k1 + k2, k3);
    SumKeysAppend(data, k1, k2);
    SumKeysAppend(data, k1, k4);
  }

  /** The object as the dictionary that the Python back end reads. */
  function AsForm(data: JsObject): DemoReport.Form {
    map k | k in KeysOf(data) :: Value(data, k)
  }

  lemma {:induction false} SubscoreAsForm(data: JsObject, items: seq<nat>)
    ensures Subscore(data, items) == DemoReport.SumItems(AsForm(data), items)
    decreases |items|
  {
    if items != [] {
      assert ItemKeys(items)[1..] == ItemKeys(items[1..]);
      SubscoreAsForm(data, items[1..]);
      var key := DemoReport.QKey(items[0]);
      if key !in KeysOf(data) {
        ValueAbsent(data, key);
      }
    }
  }

  /** On the same answers the client computes the subscores and band that the PDF report
      computes. */
  lemma ResultsAgreeWithPdf(data: JsObject)
    ensures var r := CalculateResults(data);
      var pdf := Insights.PdfSummaryOf(AsForm(data));
      r.psychologicalScore == pdf.psychological && r.somaticScore == pdf.somatic &&
      r.urogenitalScore == pdf.urogenital &&
      (r.totalScore == pdf.total ==> r.severity == pdf.band)
  {
    SubscoreAsForm(data, DemoReport.PsychologicalItems);
    SubscoreAsForm(data, DemoReport.SomaticItems);
    SubscoreAsForm(data, DemoReport.UrogenitalItems);
  }

  // ------------------------------------------------------------ savePendingSymptoms

  /** A stored symptom log; `day` stands for `new Date(timestamp).toDateString()`. */
  datatype Log = Log(symptom: string, severity: int, messageContext: string, day: int,
                     status: string, logMethod: string, chatContext: string)

  /** The entry pushed for a detected symptom: its fields spread, today's timestamp, and the
      pending/auto markers. */
  function NewLog(d: Insights.Detection, today: int): Log {
    Log(Insights.CategoryName(d.symptom), d.severity, d.messageContext, today,
        "pending", "auto", d.messageContext)
  }

  predicate LoggedToday(logs: seq<Log>, symptom: string, today: int) {
    exists i | 0 <= i < |logs| :: logs[i].symptom == symptom && logs[i].day == today
  }

  /** The pending logs after the forEach over `symptoms`. */
  function SavePending(stored: seq<Log>, symptoms: seq<Insights.Detection>, today: int): seq<Log> {
    if symptoms == [] then stored
    else
      var prev := SavePending(stored, symptoms[..|symptoms| - 1], today);
      var d := symptoms[|symptoms| - 1];
      if LoggedToday(prev, Insights.CategoryName(d.symptom), today) then prev
      else prev + [NewLog(d, today)]
  }

  /** `pendingLogs.find(...)` for a log of the symptom made today. */
  method FindToday(pendingLogs: seq<Log>, symptom: string, today: int) returns (found: bool)
    ensures found == LoggedToday(pendingLogs, symptom, today)
  {
    var i := 0;
    while i < |pendingLogs|
      invariant 0 <= i <= |pendingLogs|
      invariant !LoggedToday(pendingLogs[..i], symptom, today)
    {
      if pendingLogs[i].symptom == symptom && pendingLogs[i].day == today {
        return true;
      }
      assert forall k | 0 <= k < i :: pendingLogs[..i + 1][k] == pendingLogs[..i][k];
      i := i + 1;
    }
    assert pendingLogs[..i] == pendingLogs;
    return false;
  }

  /** savePendingSymptoms: the array read from storage, pushed to inside the loop, and the
      array that is written back. */
  method SavePendingSymptoms(stored: seq<Log>, symptoms: seq<Insights.Detection>, today: int)
    returns (pendingLogs: seq<Log>)
    ensures pendingLogs == SavePending(stored, symptoms, today)
  {
    pendingLogs := stored;
    var k := 0;
    while k < |symptoms|
      invariant 0 <= k <= |symptoms|
      invariant pendingLogs == SavePending(stored, symptoms[..k], today)
    {
      var symptom := symptoms[k];
      assert symptoms[..k + 1][..k] == symptoms[..k];
      var existing := FindToday(pendingLogs, Insights.CategoryName(symptom.symptom), today);
      if !existing {
        pendingLogs := pendingLogs + [NewLog(symptom, today)];
      }
      k := k + 1;
    }
    assert symptoms[..k] == symptoms;
  }

  /** Stored entries are never modified or removed; new ones go at the end. */
  lemma {:induction false} SavePendingKeepsStored(stored: seq<Log>, symptoms: seq<Insights.Detection>, today: int)
    ensures var r := SavePending(stored, symptoms, today);
      |stored| <= |r| <= |stored| + |symptoms| && r[..|stored|] == stored
  {
    if symptoms != [] {
      var prev := SavePending(stored, symptoms[..|symptoms| - 1], today);
      SavePendingKeepsStored(stored, symptoms[..|symptoms| - 1], today);
      assert (prev + [NewLog(symptoms[|symptoms| - 1], today)])[..|stored|] == prev[..|stored|];
    }
  }

  /** Every new entry is a detected symptom of the batch, logged today as pending and
      automatic, with the chat context copied from the message context. */
  lemma {:induction false} SavePendingNewEntries(stored: seq<Log>, symptoms: seq<Insights.Detection>, today: int)
    ensures var r := SavePending(stored, symptoms, today);
      forall i | |stored| <= i < |r| ::
        (exists d | d in symptoms :: r[i] == NewLog(d, today)) &&
        r[i].day == today && r[i].status == "pending" && r[i].logMethod == "auto" &&
        r[i].chatContext == r[i].messageContext
  {
    if symptoms != [] {
      var init := symptoms[..|symptoms| - 1];
      var d := symptoms[|symptoms| - 1];
      var prev := SavePending(stored, init, today);
      SavePendingNewEntries(stored, init, today);
      SavePendingKeepsStored(stored, init, today);
      var r := SavePending(stored, symptoms, today);
      forall i | |stored| <= i < |r|
        ensures exists e | e in symptoms :: r[i] == NewLog(e, today)
      {
        if i < |prev| {
          var e :| e in init && prev[i] == NewLog(e, today);
          assert e in symptoms;
        } else {
          assert r[i] == NewLog(d, today);
        }
      }
    }
  }

  /** No entry from position `from` on repeats a symptom logged today before it. */
  predicate NoRepeatFrom(logs: seq<Log>, from: nat, today: int) {
    forall i | from <= i < |logs| :: !LoggedToday(logs[..i], logs[i].symptom, today)
  }

  /** No new entry repeats a symptom already logged today, whether stored before or pushed
      earlier in the same batch. */
  lemma {:induction false} SavePendingNoDuplicates(stored: seq<Log>, symptoms: seq<Insights.Detection>, today: int)
    ensures NoRepeatFrom(SavePending(stored, symptoms, today), |stored|, today)
  {
    if symptoms != [] {
      var init := symptoms[..|symptoms| - 1];
      var d := symptoms[|symptoms| - 1];
      var prev := SavePending(stored, init, today);
      SavePendingNoDuplicates(stored, init, today);
      var r := SavePending(stored, symptoms, today);
      if !LoggedToday(prev, Insights.CategoryName(d.symptom), today) {
        assert r == prev + [NewLog(d, today)];
        forall i | |stored| <= i < |r|
          ensures !LoggedToday(r[..i], r[i].symptom, today)
        {
          if i < |prev| {
            assert r[..i] == prev[..i] && r[i] == prev[i];
            assert NoRepeatFrom(prev, |stored|, today);
          } else {
            assert r[..i] == prev && r[i] == NewLog(d, today);
          }
        }
      } else {
        assert r == prev;
      }
    }
  }

  /** After the call, every detected symptom of the batch has a log for today. */
  lemma {:induction false} SavePendingComplete(stored: seq<Log>, symptoms: seq<Insights.Detection>, today: int)
    ensures var r := SavePending(stored, symptoms, today);
      forall d | d in symptoms :: LoggedToday(r, Insights.CategoryName(d.symptom), today)
  {
    if symptoms != [] {
      var init := symptoms[..|symptoms| - 1];
      var last := symptoms[|symptoms| - 1];
      var prev := SavePending(stored, init, today);
      SavePendingComplete(stored, init, today);
      var r := SavePending(stored, symptoms, today);
      assert r == prev || r == prev + [NewLog(last, today)];
      forall d | d in symptoms
        ensures LoggedToday(r, Insights.CategoryName(d.symptom), today)
      {
        var name := Insights.CategoryName(d.symptom);
        if d in init {
          var i :| 0 <= i < |prev| && prev[i].symptom == name && prev[i].day == today;
          assert r[i] == prev[i];
        } else {
          assert symptoms == init + [last];
          assert d == last;
          if r != prev {
            assert r[|prev|] == NewLog(last, today);
          }
        }
      }
    }
  }
}
