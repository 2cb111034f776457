/** The five mutations of `2.py`, each a pure function from the old store
    and the user's answers to the new store. The `save_data` call that
    follows each of them is `PatientStore.Save`; it never touches the
    in-memory store, so it does not appear here. */
module PatientOps {
  import opened Wrappers
  import opened Ascii
  import opened PatientStore

  /** The seven answers `setup_profile` reads, in prompt order. */
  datatype ProfileForm = ProfileForm(
    name: string,
    mainCondition: string,
    allergies: string,
    doctorName: string,
    doctorContact: string,
    contactName: string,
    contactPhone: string)

  /** `setup_profile`: writes the three profile fields and the four
      emergency fields, keeping any other keys a loaded file may carry. */
  function SetupProfile(s: Store, f: ProfileForm): (r: Store)
    ensures r.profile.Keys == s.profile.Keys + ProfileKeys
    ensures r.profile[NameKey] == f.name
    ensures r.profile[MainConditionKey] == f.mainCondition
    ensures r.profile[AllergiesKey] == f.allergies
    ensures forall k :: k in s.profile && k !in ProfileKeys ==> r.profile[k] == s.profile[k]
    ensures r.emergencyInfo.Keys == s.emergencyInfo.Keys + EmergencyKeys
    ensures r.emergencyInfo[DoctorNameKey] == f.doctorName
    ensures r.emergencyInfo[DoctorContactKey] == f.doctorContact
    ensures r.emergencyInfo[ContactNameKey] == f.contactName
    ensures r.emergencyInfo[ContactPhoneKey] == f.contactPhone
    ensures forall k :: k in s.emergencyInfo && k !in EmergencyKeys ==> r.emergencyInfo[k] == s.emergencyInfo[k]
    ensures r.prescriptions == s.prescriptions
    ensures r.conditionLog == s.conditionLog
    ensures r.doctorAdvice == s.doctorAdvice
    ensures Valid(s) ==> Valid(r) && r.profile != map[]
  {
    var profile := s.profile[NameKey := f.name][MainConditionKey := f.mainCondition][AllergiesKey := f.allergies];
    var info := s.emergencyInfo[DoctorNameKey := f.doctorName][DoctorContactKey := f.doctorContact]
                               [ContactNameKey := f.contactName][ContactPhoneKey := f.contactPhone];
    s.(profile := profile, emergencyInfo := info)
  }

  /** Setting up the profile twice with the same answers is the same as
      setting it up once. */
  lemma SetupProfileIdempotent(s: Store, f: ProfileForm)
    ensures SetupProfile(SetupProfile(s, f), f) == SetupProfile(s, f)
  {
  }

  /** `add_prescription`: appends one prescription that has not been
      taken yet. */
  function AddPrescription(s: Store, name: string, dosage: string, frequency: string, instructions: string): (r: Store)
    ensures |r.prescriptions| == |s.prescriptions| + 1
    ensures r.prescriptions[..|s.prescriptions|] == s.prescriptions
    ensures r.prescriptions[|s.prescriptions|] == Prescription(name, dosage, frequency, instructions, None)
    ensures r.profile == s.profile && r.conditionLog == s.conditionLog
    ensures r.doctorAdvice == s.doctorAdvice && r.emergencyInfo == s.emergencyInfo
    ensures Valid(s) ==> Valid(r)
  {
    s.(prescriptions := s.prescriptions + [Prescription(name, dosage, frequency, instructions, None)])
  }

  /** What the user typed at "Enter the number of the medication you
      took": something `int()` accepts, or something it rejects. */
  datatype Selection = Number(n: int) | NotANumber

  /** The four ways `log_medication_taken` can end. */
  datatype MedOutcome =
    | NoPrescriptions       // the list is empty: returns before asking
    | Logged(index: nat)    // 0-based position whose time was set
    | InvalidChoice         // a number outside 1..N
    | InvalidInput          // `int()` raised ValueError

  datatype MedResult = MedResult(store: Store, outcome: MedOutcome)

  /** `log_medication_taken`: the 1-based selection `k` stamps
      `prescriptions[k-1].last_taken` with `now`; every other outcome
      leaves the store as it was. */
  function LogMedicationTaken(s: Store, sel: Selection, now: string): (r: MedResult)
    ensures s.prescriptions == [] ==> r.outcome == NoPrescriptions
    ensures s.prescriptions != [] && sel.NotANumber? ==> r.outcome == InvalidInput
    ensures s.prescriptions != [] && sel.Number? && !(1 <= sel.n <= |s.prescriptions|) ==> r.outcome == InvalidChoice
    ensures r.outcome.Logged? <==> s.prescriptions != [] && sel.Number? && 1 <= sel.n <= |s.prescriptions|
    ensures !r.outcome.Logged? ==> r.store == s
    ensures r.outcome.Logged? ==>
      var i := r.outcome.index;
      && i == sel.n - 1
      && i < |s.prescriptions| == |r.store.prescriptions|
      && (var p := s.prescriptions[i];
          r.store.prescriptions[i] == Prescription(p.name, p.dosage, p.frequency, p.instructions, Some(now)))
      && (forall j :: 0 <= j < |s.prescriptions| && j != i ==> r.store.prescriptions[j] == s.prescriptions[j])
      && r.store.profile == s.profile && r.store.conditionLog == s.conditionLog
      && r.store.doctorAdvice == s.doctorAdvice && r.store.emergencyInfo == s.emergencyInfo
    ensures Valid(s) ==> Valid(r.store)
  {
    if s.prescriptions == [] then
      MedResult(s, NoPrescriptions)
    else
      match sel
      case NotANumber => MedResult(s, InvalidInput)
      case Number(n) =>
        var choice := n - 1;
        if 0 <= choice < |s.prescriptions| then
          var stamped := s.prescriptions[choice].(lastTaken := Some(now));
          MedResult(s.(prescriptions := s.prescriptions[choice := stamped]), Logged(choice))
        else
          MedResult(s, InvalidChoice)
  }

  /** The boundary selections 0 and N+1 are rejected without a change. */
  lemma LogMedicationBoundaries(s: Store, now: string)
    requires s.prescriptions != []
    ensures LogMedicationTaken(s, Number(0), now) == MedResult(s, InvalidChoice)
    ensures LogMedicationTaken(s, Number(|s.prescriptions| + 1), now) == MedResult(s, InvalidChoice)
  {
  }

  /** `log_condition`: appends one timestamped entry. */
  function LogCondition(s: Store, now: string, text: string): (r: Store)
    ensures |r.conditionLog| == |s.conditionLog| + 1
    ensures r.conditionLog[..|s.conditionLog|] == s.conditionLog
    ensures r.conditionLog[|s.conditionLog|] == ConditionEntry(now, text)
    ensures r.profile == s.profile && r.prescriptions == s.prescriptions
    ensures r.doctorAdvice == s.doctorAdvice && r.emergencyInfo == s.emergencyInfo
    ensures Valid(s) ==> Valid(r)
  {
    s.(conditionLog := s.conditionLog + [ConditionEntry(now, text)])
  }

  /** `add_doctor_advice`: stores `advice` under the lower-cased topic,
      replacing what was there and leaving every other topic alone. */
  function AddDoctorAdvice(s: Store, topic: string, advice: string): (r: Store)
    ensures r.doctorAdvice.Keys == s.doctorAdvice.Keys + {Lower(topic)}
    ensures r.doctorAdvice[Lower(topic)] == advice
    ensures forall t :: t in s.doctorAdvice && t != Lower(topic) ==> r.doctorAdvice[t] == s.doctorAdvice[t]
    ensures r.profile == s.profile && r.prescriptions == s.prescriptions
    ensures r.conditionLog == s.conditionLog && r.emergencyInfo == s.emergencyInfo
    ensures Valid(s) ==> Valid(r)
  {
    s.(doctorAdvice := s.doctorAdvice[Lower(topic) := advice])
  }

  /** Recording the same advice twice is recording it once, and topics
      that differ only in case share one entry. */
  lemma AddDoctorAdviceIdempotent(s: Store, topic: string, topic': string, advice: string)
    requires SameIgnoringCase(topic, topic')
    ensures AddDoctorAdvice(AddDoctorAdvice(s, topic, advice), topic', advice) == AddDoctorAdvice(s, topic, advice)
  {
    LowerEqualIffSameIgnoringCase(topic, topic');
  }

  // ---------------------------------------------------------------------
  // Any sequence of mutations.

  /** One mutation with the answers the user gave (and, where the code
      reads the clock, the time it read). */
  datatype Mutation =
    | SetUp(form: ProfileForm)
    | AddRx(name: string, dosage: string, frequency: string, instructions: string)
    | TakeMed(selection: Selection, now: string)
    | LogCond(now: string, text: string)
    | AddAdvice(topic: string, advice: string)

  function Apply(s: Store, m: Mutation): Store {
    match m
    case SetUp(f) => SetupProfile(s, f)
    case AddRx(n, d, q, i) => AddPrescription(s, n, d, q, i)
    case TakeMed(sel, now) => LogMedicationTaken(s, sel, now).store
    case LogCond(now, text) => LogCondition(s, now, text)
    case AddAdvice(t, a) => AddDoctorAdvice(s, t, a)
  }

  function ApplyAll(s: Store, ms: seq<Mutation>): Store
    decreases |ms|
  {
    if ms == [] then s else ApplyAll(Apply(s, ms[0]), ms[1..])
  }

  /** The same medication: everything but `last_taken`, which is the only
      field a later mutation may change. */
  predicate SameMedication(p: Prescription, q: Prescription) {
    p.name == q.name && p.dosage == q.dosage && p.frequency == q.frequency && p.instructions == q.instructions
  }

  /** Whatever mutations run, in whatever order, a store that starts in
      shape stays in shape, and prescriptions and log entries are never
      removed: every earlier prescription keeps its place and its
      medication, and the store only grows. */
  lemma {:induction false} ApplyAllKeepsShape(s: Store, ms: seq<Mutation>)
    requires Valid(s)
    ensures Valid(ApplyAll(s, ms))
    ensures |ApplyAll(s, ms).prescriptions| >= |s.prescriptions|
    ensures forall i :: 0 <= i < |s.prescriptions| ==> SameMedication(ApplyAll(s, ms).prescriptions[i], s.prescriptions[i])
    ensures s.conditionLog <= ApplyAll(s, ms).conditionLog
    ensures s.doctorAdvice.Keys <= ApplyAll(s, ms).doctorAdvice.Keys
    decreases |ms|
  {
    if ms != [] {
      var s' := Apply(s, ms[0]);
      assert Valid(s');
      assert |s'.prescriptions| >= |s.prescriptions|;
      assert forall i :: 0 <= i < |s.prescriptions| ==> SameMedication(s'.prescriptions[i], s.prescriptions[i]);
      assert s.conditionLog <= s'.conditionLog;
      ApplyAllKeepsShape(s', ms[1..]);
    }
  }
}
