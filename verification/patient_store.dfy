/** The patient record store of `2.py`: one aggregate with five members,
    its two default literals, the shape the operations maintain, and the
    load / save gateway with the file system reduced to an abstract disk. */
module PatientStore {
  import opened Wrappers
  import opened Ascii

  // Field names of the `profile` dictionary.
  const NameKey: string := "name"
  const MainConditionKey: string := "main_condition"
  const AllergiesKey: string := "allergies"
  const ProfileKeys: set<string> := {NameKey, MainConditionKey, AllergiesKey}

  // Field names of the `emergency_info` dictionary.
  const DoctorNameKey: string := "doctor_name"
  const DoctorContactKey: string := "doctor_contact"
  const ContactNameKey: string := "emergency_contact_name"
  const ContactPhoneKey: string := "emergency_contact_phone"
  const EmergencyKeys: set<string> := {DoctorNameKey, DoctorContactKey, ContactNameKey, ContactPhoneKey}

  /** One entry of `prescriptions`; `lastTaken` is `None` until the
      medication is logged as taken. */
  datatype Prescription = Prescription(
    name: string,
    dosage: string,
    frequency: string,
    instructions: string,
    lastTaken: Option<string>)

  /** One entry of `condition_log`. */
  datatype ConditionEntry = ConditionEntry(timestamp: string, entry: string)

  /** The whole `patient_data` aggregate. The three dictionaries are maps
      because the code reads and writes them key by key; the two lists are
      sequences of fixed-shape records. */
  datatype Store = Store(
    profile: map<string, string>,
    prescriptions: seq<Prescription>,
    conditionLog: seq<ConditionEntry>,
    doctorAdvice: map<string, string>,
    emergencyInfo: map<string, string>)

  function BlankEmergencyInfo(): map<string, string> {
    map[DoctorNameKey := "", DoctorContactKey := "", ContactNameKey := "", ContactPhoneKey := ""]
  }

  /** The module-level value of `patient_data` (2.py lines 8-19). */
  const InitialStore: Store := Store(map[], [], [], map[], BlankEmergencyInfo())

  /** The value `load_data` assigns when the file cannot be read or parsed
      (2.py lines 61-67), written out separately as the code does. */
  const CorruptFallback: Store :=
    Store(map[], [], [], map[],
          map[DoctorNameKey := "", DoctorContactKey := "",
              ContactNameKey := "", ContactPhoneKey := ""])

  /** The shape every store built by the operations keeps: the four
      emergency fields exactly, a profile that is either empty or holds
      exactly its three fields, and advice topics already lower case
      (they are lowered on every write). */
  predicate Valid(s: Store) {
    && s.emergencyInfo.Keys == EmergencyKeys
    && (s.profile == map[] || s.profile.Keys == ProfileKeys)
    && forall t :: t in s.doctorAdvice ==> IsLowerCase(t)
  }

  /** `get_timestamp`'s format "%Y-%m-%d %H:%M:%S": nineteen characters,
      digits everywhere except the separators. The clock itself is not
      modelled; timestamps are parameters of the operations. */
  predicate IsTimestamp(t: string) {
    && |t| == 19
    && t[4] == '-' && t[7] == '-' && t[10] == ' ' && t[13] == ':' && t[16] == ':'
    && forall i :: 0 <= i < 19 && i !in {4, 7, 10, 13, 16} ==> '0' <= t[i] <= '9'
  }

  // ---------------------------------------------------------------------
  // Persistence gateway (save_data / load_data).

  /** What the data file holds, as far as `load_data` can tell: no file;
      a file that cannot be opened or whose text is not valid JSON; a file
      whose bytes are not text in the platform encoding; or a parsed store.
      JSON text itself is not modelled. */
  datatype Disk = NoFile | Unreadable | Undecodable | Stored(data: Store)

  /** How one `save_data` call went: the write completed, `open` failed
      (the old file is untouched), or the file was opened, and so
      truncated, but the write failed part way. */
  datatype SaveOutcome = Written | OpenFailed | WriteInterrupted

  datatype LoadStatus = StartingFresh | LoadFailed | Loaded

  datatype LoadResult = LoadResult(store: Store, status: LoadStatus)

  /** `save_data`: the whole store replaces the file. It never changes the
      in-memory store, which the operations return on their own. */
  function Save(d: Disk, s: Store, outcome: SaveOutcome): (r: Disk)
    ensures outcome == Written ==> r == Stored(s)
    ensures outcome == OpenFailed ==> r == d
    ensures outcome == WriteInterrupted ==> r == Unreadable
  {
    match outcome
    case Written => Stored(s)
    case OpenFailed => d
    case WriteInterrupted => Unreadable
  }

  /** `load_data`, run once at start-up while `patient_data` still holds
      the module-level literal. A parsed file is taken as it is, without
      checking its shape; the two caught failures (`IOError`,
      `JSONDecodeError`) end at the same empty store. Bytes that do not
      decode raise `UnicodeDecodeError`, which the `except` clause does not
      name, so the exception leaves `load_data` and ends the program:
      `None`. */
  function Load(d: Disk): (r: Option<LoadResult>)
    ensures r.None? <==> d == Undecodable
    ensures r.Some? ==> (d.Stored? <==> r.value.status == Loaded)
    ensures r.Some? ==> (d == NoFile <==> r.value.status == StartingFresh)
    ensures d.Stored? ==> r == Some(LoadResult(d.data, Loaded))
    ensures r.Some? && !d.Stored? ==> r.value.store == InitialStore && Valid(r.value.store)
  {
    match d
    case NoFile => Some(LoadResult(InitialStore, StartingFresh))
    case Unreadable => Some(LoadResult(CorruptFallback, LoadFailed))
    case Undecodable => None
    case Stored(s) => Some(LoadResult(s, Loaded))
  }

  /** A completed save is read back unchanged; a save whose `open` failed
      leaves the next load exactly as it would have been; a save cut short
      leaves a truncated file (ASCII JSON, so still decodable), which loads
      as the empty store. */
  lemma LoadAfterSave(d: Disk, s: Store)
    ensures Load(Save(d, s, Written)) == Some(LoadResult(s, Loaded))
    ensures Load(Save(d, s, OpenFailed)) == Load(d)
    ensures Load(Save(d, s, WriteInterrupted)) == Some(LoadResult(InitialStore, LoadFailed))
  {
  }
}
