/** The read-only views of `2.py`. Each returns the content it would print,
    as values; the printed layout (headings, numbering text, dashes,
    `capitalize()`) is not modelled. */
module PatientViews {
  import opened Wrappers
  import opened Ascii
  import opened PatientStore
  import opened PatientOps

  /** Printed in place of a last-taken time that is `None` or empty. */
  const NotYetRecorded: string := "Not yet recorded"

  /** Printed by `show_emergency_info` for a missing key. */
  const NotAvailable: string := "N/A"

  // ---------------------------------------------------------------------
  // view_prescriptions

  /** One printed prescription: its 1-based number and its fields, with the
      last-taken time already replaced by the sentinel where needed. */
  datatype PrescriptionLine = PrescriptionLine(
    number: nat,
    name: string,
    dosage: string,
    frequency: string,
    instructions: string,
    lastTaken: string)

  /** Python truthiness of `p['last_taken']`: `None` and "" are false. */
  function LastTakenText(t: Option<string>): string {
    if t.Some? && t.value != "" then t.value else NotYetRecorded
  }

  function Line(i: nat, p: Prescription): PrescriptionLine {
    PrescriptionLine(i + 1, p.name, p.dosage, p.frequency, p.instructions, LastTakenText(p.lastTaken))
  }

  /** `view_prescriptions`: every prescription in stored order, numbered
      from 1. */
  function ViewPrescriptions(s: Store): (r: seq<PrescriptionLine>)
    ensures |r| == |s.prescriptions|
    ensures forall i :: 0 <= i < |r| ==> r[i].number == i + 1 && r[i].name == s.prescriptions[i].name
    ensures forall i :: 0 <= i < |r| ==> r[i] == Line(i, s.prescriptions[i])
  {
    seq(|s.prescriptions|, i requires 0 <= i < |s.prescriptions| => Line(i, s.prescriptions[i]))
  }

  /** A new prescription is listed last, under number N+1, as not yet
      taken; the lines before it are the ones listed before. */
  lemma AddedPrescriptionIsListedLast(s: Store, name: string, dosage: string, frequency: string, instructions: string)
    ensures var v := ViewPrescriptions(AddPrescription(s, name, dosage, frequency, instructions));
      && |v| == |s.prescriptions| + 1
      && v[..|s.prescriptions|] == ViewPrescriptions(s)
      && v[|s.prescriptions|] == PrescriptionLine(|s.prescriptions| + 1, name, dosage, frequency, instructions, NotYetRecorded)
  {
    var s' := AddPrescription(s, name, dosage, frequency, instructions);
    assert s'.prescriptions[..|s.prescriptions|] == s.prescriptions;
  }

  /** After logging selection `k` at a real clock reading, line `k` shows
      that time and no other line changes. */
  lemma TakenMedicationShowsTime(s: Store, k: int, now: string)
    requires 1 <= k <= |s.prescriptions|
    requires IsTimestamp(now)
    ensures var v := ViewPrescriptions(LogMedicationTaken(s, Number(k), now).store);
      && |v| == |s.prescriptions|
      && v[k - 1].lastTaken == now
      && v[k - 1].name == s.prescriptions[k - 1].name
      && forall j :: 0 <= j < |v| && j != k - 1 ==> v[j] == ViewPrescriptions(s)[j]
  {
  }

  // ---------------------------------------------------------------------
  // view_condition_log

  /** Python's `reversed`. */
  function Reverse<T>(s: seq<T>): (r: seq<T>)
    ensures |r| == |s|
    ensures forall i :: 0 <= i < |s| ==> r[i] == s[|s| - 1 - i]
  {
    if s == [] then [] else [s[|s| - 1]] + Reverse(s[..|s| - 1])
  }

  /** `view_condition_log`: the stored entries, most recent first. */
  function ViewConditionLog(s: Store): (r: seq<ConditionEntry>)
    ensures |r| == |s.conditionLog|
    ensures forall i :: 0 <= i < |r| ==> r[i] == s.conditionLog[|s.conditionLog| - 1 - i]
    ensures multiset(r) == multiset(s.conditionLog)
  {
    var r := Reverse(s.conditionLog);
    ReverseIsPermutation(s.conditionLog);
    r
  }

  lemma {:induction false} ReverseIsPermutation<T>(s: seq<T>)
    ensures multiset(Reverse(s)) == multiset(s)
  {
    if s != [] {
      ReverseIsPermutation(s[..|s| - 1]);
      assert s == s[..|s| - 1] + [s[|s| - 1]];
    }
  }

  /** The entry just logged is shown first, followed by the earlier view. */
  lemma NewestConditionFirst(s: Store, now: string, text: string)
    ensures ViewConditionLog(LogCondition(s, now, text)) == [ConditionEntry(now, text)] + ViewConditionLog(s)
  {
    var v := ViewConditionLog(LogCondition(s, now, text));
    var w := [ConditionEntry(now, text)] + ViewConditionLog(s);
    forall i | 0 <= i < |v|
      ensures v[i] == w[i]
    {
    }
  }

  /** Three entries logged in turn are shown in the opposite order. */
  lemma ConditionLogNewestFirst(s: Store, t1: string, e1: string, t2: string, e2: string, t3: string, e3: string)
    ensures var v := ViewConditionLog(LogCondition(LogCondition(LogCondition(s, t1, e1), t2, e2), t3, e3));
      v == [ConditionEntry(t3, e3), ConditionEntry(t2, e2), ConditionEntry(t1, e1)] + ViewConditionLog(s)
  {
    var s1 := LogCondition(s, t1, e1);
    var s2 := LogCondition(s1, t2, e2);
    var c1, c2, c3 := ConditionEntry(t1, e1), ConditionEntry(t2, e2), ConditionEntry(t3, e3);
    NewestConditionFirst(s, t1, e1);
    NewestConditionFirst(s1, t2, e2);
    NewestConditionFirst(s2, t3, e3);
    var v0 := ViewConditionLog(s);
    assert [c3] + ([c2] + ([c1] + v0)) == [c3, c2, c1] + v0;
  }

  // ---------------------------------------------------------------------
  // view_doctor_advice

  /** The answer to the optional topic search. */
  datatype QueryAnswer =
    | Skipped                          // the user pressed Enter
    | Found(topic: string, advice: string)
    | NotFound(topic: string)

  /** What `view_doctor_advice` shows: nothing but a hint when no advice
      exists (and no search is offered), otherwise the main-condition
      advice if any, every topic with its advice, and the search answer. */
  datatype AdviceView =
    | NoAdviceRecorded
    | AdviceShown(mainCondition: Option<string>, all: map<string, string>, answer: QueryAnswer)

  /** The main-condition branch: the profile's `main_condition` must be a
      non-empty string, its lower-cased form a topic, and the advice
      stored there non-empty (both tests are Python truthiness). */
  function MainConditionAdvice(s: Store): (r: Option<string>)
    ensures r.Some? <==>
      && MainConditionKey in s.profile && s.profile[MainConditionKey] != ""
      && Lower(s.profile[MainConditionKey]) in s.doctorAdvice
      && s.doctorAdvice[Lower(s.profile[MainConditionKey])] != ""
    ensures r.Some? ==> r.value == s.doctorAdvice[Lower(s.profile[MainConditionKey])]
  {
    match Get(s.profile, MainConditionKey)
    case None => None
    case Some(mc) =>
      if mc == "" then None
      else
        match Get(s.doctorAdvice, Lower(mc))
        case None => None
        case Some(a) => if a == "" then None else Some(a)
  }

  /** The topic search: the typed text is lowered, then looked up. */
  function SearchAdvice(s: Store, query: string): (r: QueryAnswer)
    ensures query == "" <==> r == Skipped
    ensures r.Found? <==> query != "" && Lower(query) in s.doctorAdvice
    ensures r.Found? ==> r == Found(Lower(query), s.doctorAdvice[Lower(query)])
    ensures r.NotFound? ==> r.topic == Lower(query)
  {
    var q := Lower(query);
    if q != "" && q in s.doctorAdvice then Found(q, s.doctorAdvice[q])
    else if q != "" then NotFound(q)
    else Skipped
  }

  /** `view_doctor_advice`, with `query` the text typed at the search
      prompt. */
  function ViewDoctorAdvice(s: Store, query: string): (r: AdviceView)
    ensures r == NoAdviceRecorded <==> s.doctorAdvice == map[]
    ensures r.AdviceShown? ==>
      && r.all == s.doctorAdvice
      && r.mainCondition == MainConditionAdvice(s)
      && r.answer == SearchAdvice(s, query)
  {
    if s.doctorAdvice == map[] then NoAdviceRecorded
    else AdviceShown(MainConditionAdvice(s), s.doctorAdvice, SearchAdvice(s, query))
  }

  /** Advice recorded under a topic is found by any search that spells the
      topic the same way ignoring case, whatever was recorded before. */
  lemma AdviceFoundIgnoringCase(s: Store, topic: string, advice: string, query: string)
    requires query != ""
    requires SameIgnoringCase(query, topic)
    ensures ViewDoctorAdvice(AddDoctorAdvice(s, topic, advice), query).answer == Found(Lower(topic), advice)
  {
    LowerEqualIffSameIgnoringCase(query, topic);
  }

  /** In a store in shape every recorded topic is found by searching for
      it as listed. */
  lemma EveryTopicFindable(s: Store, topic: string)
    requires Valid(s)
    requires topic in s.doctorAdvice && topic != ""
    ensures ViewDoctorAdvice(s, topic).answer == Found(topic, s.doctorAdvice[topic])
  {
    LowerKeepsLowerCase(topic);
  }

  /** Advice recorded under the empty topic is listed, but no search finds
      it: an empty query is skipped, and a non-empty one lowers to a
      non-empty key. */
  lemma EmptyTopicListedNotFound(s: Store, advice: string, query: string)
    requires Valid(s)
    ensures var r := AddDoctorAdvice(s, "", advice);
      && Valid(r)
      && ViewDoctorAdvice(r, query).AdviceShown?
      && "" in ViewDoctorAdvice(r, query).all && ViewDoctorAdvice(r, query).all[""] == advice
      && !(ViewDoctorAdvice(r, query).answer.Found? && ViewDoctorAdvice(r, query).answer.topic == "")
  {
  }

  /** Advice recorded for the main condition, in any case, is shown first
      once the profile names that condition. */
  lemma MainConditionAdviceSurfaces(s: Store, f: ProfileForm, topic: string, advice: string)
    requires f.mainCondition != "" && advice != ""
    requires SameIgnoringCase(topic, f.mainCondition)
    ensures ViewDoctorAdvice(AddDoctorAdvice(SetupProfile(s, f), topic, advice), "").mainCondition == Some(advice)
  {
    LowerEqualIffSameIgnoringCase(topic, f.mainCondition);
  }

  // ---------------------------------------------------------------------
  // show_emergency_info

  /** The six values `show_emergency_info` prints. */
  datatype EmergencyView = EmergencyView(
    doctorName: string,
    doctorContact: string,
    contactName: string,
    contactPhone: string,
    allergies: string,
    mainCondition: string)

  /** `show_emergency_info`: each value is read with `.get(key, 'N/A')`, so
      the sentinel replaces a missing key but not an empty string. */
  function ShowEmergencyInfo(s: Store): (r: EmergencyView)
    ensures r.doctorName == (if DoctorNameKey in s.emergencyInfo then s.emergencyInfo[DoctorNameKey] else NotAvailable)
    ensures r.doctorContact == (if DoctorContactKey in s.emergencyInfo then s.emergencyInfo[DoctorContactKey] else NotAvailable)
    ensures r.contactName == (if ContactNameKey in s.emergencyInfo then s.emergencyInfo[ContactNameKey] else NotAvailable)
    ensures r.contactPhone == (if ContactPhoneKey in s.emergencyInfo then s.emergencyInfo[ContactPhoneKey] else NotAvailable)
    ensures r.allergies == (if AllergiesKey in s.profile then s.profile[AllergiesKey] else NotAvailable)
    ensures r.mainCondition == (if MainConditionKey in s.profile then s.profile[MainConditionKey] else NotAvailable)
  {
    var info := s.emergencyInfo;
    EmergencyView(
      Get(info, DoctorNameKey).GetOr(NotAvailable),
      Get(info, DoctorContactKey).GetOr(NotAvailable),
      Get(info, ContactNameKey).GetOr(NotAvailable),
      Get(info, ContactPhoneKey).GetOr(NotAvailable),
      Get(s.profile, AllergiesKey).GetOr(NotAvailable),
      Get(s.profile, MainConditionKey).GetOr(NotAvailable))
  }

  /** After profile setup the view shows exactly the answers given, even
      empty ones: "N/A" is never shown for them. */
  lemma EmergencyInfoShowsSetupAnswers(s: Store, f: ProfileForm)
    ensures ShowEmergencyInfo(SetupProfile(s, f)) ==
      EmergencyView(f.doctorName, f.doctorContact, f.contactName, f.contactPhone, f.allergies, f.mainCondition)
  {
  }

  /** In a store in shape the four emergency values are read straight
      from the record, so "N/A" appears for them only if it was typed. */
  lemma EmergencyFieldsNeverDefaulted(s: Store)
    requires Valid(s)
    ensures var v := ShowEmergencyInfo(s);
      && v.doctorName == s.emergencyInfo[DoctorNameKey]
      && v.doctorContact == s.emergencyInfo[DoctorContactKey]
      && v.contactName == s.emergencyInfo[ContactNameKey]
      && v.contactPhone == s.emergencyInfo[ContactPhoneKey]
  {
  }

  /** The fresh store shows empty emergency values and "N/A" only for the
      two profile values. */
  lemma FreshEmergencyInfo()
    ensures ShowEmergencyInfo(InitialStore) == EmergencyView("", "", "", "", NotAvailable, NotAvailable)
  {
  }
}
