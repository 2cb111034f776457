/** Start-up of `2.py`'s `main`: load the data file, then decide once
    whether profile setup is forced before the menu. The menu loop itself
    is not modelled. */
module PatientSession {
  import opened Wrappers
  import opened PatientStore
  import opened PatientOps

  /** What the start-up test at 2.py line 233 leads to. */
  datatype StartupDecision =
    | ForceSetup      // the profile is empty or the doctor's name is empty
    | GoToMenu
    | MissingKey      // profile present but no "doctor_name" key: KeyError

  /** `not profile or not emergency_info["doctor_name"]`, evaluated left to
      right: the key is only read when the profile is non-empty, and
      reading a missing key raises. */
  function StartupCheck(s: Store): (r: StartupDecision)
    ensures r == ForceSetup <==>
      s.profile == map[] || (DoctorNameKey in s.emergencyInfo && s.emergencyInfo[DoctorNameKey] == "")
    ensures r == MissingKey <==> s.profile != map[] && DoctorNameKey !in s.emergencyInfo
  {
    if s.profile == map[] then ForceSetup
    else if DoctorNameKey !in s.emergencyInfo then MissingKey
    else if s.emergencyInfo[DoctorNameKey] == "" then ForceSetup
    else GoToMenu
  }

  /** For a store in shape the test never raises: setup is forced exactly
      when the profile is empty or no doctor's name was given, and the
      menu is reached exactly when both are present. */
  lemma StartupRuleInShape(s: Store)
    requires Valid(s)
    ensures StartupCheck(s) != MissingKey
    ensures StartupCheck(s) == GoToMenu <==> s.profile != map[] && s.emergencyInfo[DoctorNameKey] != ""
  {
  }

  /** After one setup the next start goes straight to the menu exactly when
      a doctor's name was given; an empty one forces setup again. */
  lemma SetupDecidesNextStart(s: Store, f: ProfileForm)
    ensures StartupCheck(SetupProfile(s, f)) == (if f.doctorName == "" then ForceSetup else GoToMenu)
  {
  }

  datatype BootResult = BootResult(store: Store, status: LoadStatus, forcedSetup: bool)

  /** `main` up to the menu: `load_data`, then the start-up test, running
      `setup_profile` with `form` when it is forced. `None` stands for an
      exception that ends the program before the menu: the
      `UnicodeDecodeError` of an undecodable file, or the KeyError a
      malformed loaded store can raise. */
  function Boot(d: Disk, form: ProfileForm): (r: Option<BootResult>)
    ensures r.None? <==> d == Undecodable || (d.Stored? && StartupCheck(d.data) == MissingKey)
    ensures r.Some? ==> Load(d).Some? && r.value.status == Load(d).value.status
    ensures r.Some? ==> r.value.forcedSetup == (StartupCheck(Load(d).value.store) == ForceSetup)
    ensures r.Some? && r.value.forcedSetup ==> r.value.store == SetupProfile(Load(d).value.store, form)
    ensures r.Some? && !r.value.forcedSetup ==> r.value.store == Load(d).value.store
    ensures d == NoFile || d == Unreadable ==> r.Some? && r.value.forcedSetup && Valid(r.value.store)
  {
    match Load(d)
    case None => None
    case Some(loaded) =>
      match StartupCheck(loaded.store)
      case MissingKey => None
      case ForceSetup => Some(BootResult(SetupProfile(loaded.store, form), loaded.status, true))
      case GoToMenu => Some(BootResult(loaded.store, loaded.status, false))
  }
}
