# Offline patient monitor and portfolio script, modelled in Dafny

This project models two small programs.

The first is the offline patient monitor `2.py`. It keeps one patient record store (`patient_data`) with five members:

- `profile`: name, main condition, allergies;
- `prescriptions`: an ordered list;
- `condition_log`: an append-only list of timestamped entries;
- `doctor_advice`: a dictionary keyed by lower-cased topic;
- `emergency_info`: four contact fields.

The program loads this store from a JSON file and changes it through five operations. It shows it through four read-only views. At start-up it decides once whether profile setup is forced.

The second is the portfolio page script `script.js`. The model covers its typing effect, a small state machine over `(wordIndex, charIndex, isDeleting)`, and its project filter click handler.

Everything is pure functions over immutable datatypes. Each mutation maps the old store and the user's answers to the new store. The clock reading (`get_timestamp`) and the user's typed answers are parameters. Each view returns the values it would print, not text.

Modules:

- `Wrappers`: `Option`, the stand-in for `None` / `null` / `undefined`.
- `Ascii`: ASCII lowering, the stand-in for `str.lower`.
- `PatientStore`: the store datatype and its two default literals. It also holds the shape predicate `Valid` and the `save_data` / `load_data` gateway over an abstract disk.
- `PatientOps`: the five mutations, plus any sequence of them.
- `PatientViews`: `view_prescriptions`, `view_condition_log`, `view_doctor_advice` and `show_emergency_info`.
- `PatientSession`: the start-up test and `main` up to the menu.
- `Typewriter`: `type()` as a step function, and runs of many steps.
- `ProjectFilter`: the filter-button click handler.

Behaviours of the code the model keeps as written:

- Start-up goes straight to the menu only when the profile is non-empty and the doctor's name is non-empty (2.py:233).
- `show_emergency_info` prints "N/A" only for a missing key, because it uses `.get(key, 'N/A')`. An empty string is printed as it is.
- The main-condition advice is shown only when the stored advice is itself non-empty (2.py:188). The sentinel text for an unlogged medication is "Not yet recorded".
- `add_doctor_advice` accepts an empty topic (2.py:172-174), and the listing shows it (2.py:194). A search for it is always skipped, because the search tests the query for truthiness (2.py:197-201), so that advice can be listed but not searched for.
- A data file whose bytes do not decode as text raises `UnicodeDecodeError` inside `json.load`. The `except` clause at 2.py:58 names only `IOError` and `json.JSONDecodeError`, so that exception leaves `load_data` and ends the program.

## Model

| member | source | states |
|---|---|---|
| Ascii.Lower | 2.py:172 | Lowering keeps the length and leaves no upper-case letter. It shifts exactly the letters A-Z and keeps every other character. |
| Ascii.LowerIdempotent | 2.py:196 | Lowering an already lowered topic or query changes nothing. |
| Ascii.LowerEqualIffSameIgnoringCase | 2.py:196-197 | Two texts lower to the same key if and only if they agree character by character ignoring case. This is the case-insensitive match that the lookup relies on. |
| PatientStore.Save | 2.py:41-48 | A completed save replaces the file with the whole store. A failed `open` leaves the file as it was. A write that fails after the file was opened leaves an unreadable file. |
| PatientStore.Load | 2.py:50-69 | A parsed file is taken as-is and reported as loaded. A missing file, and a file that cannot be opened or is not valid JSON, give the same empty store. That store equals the module-level literal (lines 8-19) and is in shape. Only a missing file counts as a fresh start. A file whose bytes do not decode ends the program, and only that case does. |
| PatientStore.LoadAfterSave | 2.py:41-69 | Loading after a completed save returns exactly the saved store. After a failed `open`, the next load is what it would have been. After an interrupted write, the truncated file loads as the empty store, reported as a failed load. |
| PatientOps.SetupProfile | 2.py:84-97 | Exactly the three profile fields and the four emergency fields take the given answers. Other keys keep their values. The other three members are unchanged. The shape is kept and the profile becomes non-empty. |
| PatientOps.SetupProfileIdempotent | 2.py:87-95 | Running setup twice with the same answers equals running it once. |
| PatientOps.AddPrescription | 2.py:99-114 | The list grows by exactly one, at the end, with a prescription not yet taken. Earlier prescriptions and every other member are unchanged. |
| PatientOps.LogMedicationTaken | 2.py:131-146 | An empty list returns before asking. Input that is not a number is an invalid-input outcome. A number outside 1..N is an invalid choice. All three leave the store unchanged. Only selection k in 1..N sets `last_taken` of element k-1 to the time given, and nothing else changes. |
| PatientOps.LogMedicationBoundaries | 2.py:137-144 | Selections 0 and N+1 are both rejected as invalid choices and leave the store unchanged. |
| PatientOps.LogCondition | 2.py:149-158 | Exactly one entry with the given time and text is appended. Earlier entries and the other members are unchanged. |
| PatientOps.AddDoctorAdvice | 2.py:169-176 | The advice is stored under the lower-cased topic, replacing any earlier advice there. Every other topic and every other member is unchanged. |
| PatientOps.AddDoctorAdviceIdempotent | 2.py:172-174 | Recording the same advice again under the same topic, in any case, leaves the store as after the first call. |
| PatientOps.ApplyAllKeepsShape | 2.py:84-176 | For any sequence of mutations, a store in shape stays in shape. Prescriptions are never removed: every earlier prescription keeps its position, name, dosage, frequency and instructions, and only its `last_taken` may change. The condition log only grows at its end, and advice topics are never removed. |
| PatientViews.ViewPrescriptions | 2.py:116-129 | There is one line per prescription, in stored order, numbered from 1. Each line carries that prescription's fields, with the sentinel when `last_taken` is `None` or empty. |
| PatientViews.AddedPrescriptionIsListedLast | 2.py:106-128 | A new prescription is listed last, as number N+1, with "Not yet recorded". The earlier lines are unchanged. |
| PatientViews.TakenMedicationShowsTime | 2.py:127-140 | After selection k is logged at a well-formed timestamp, line k shows that time. No other line changes. |
| PatientViews.ViewConditionLog | 2.py:160-167 | The view holds exactly the stored entries, as a permutation, with position i holding stored entry N-1-i. |
| PatientViews.NewestConditionFirst | 2.py:153-166 | After an entry is logged, the view is that entry followed by the previous view. |
| PatientViews.ConditionLogNewestFirst | 2.py:153-166 | Entries logged at t1, t2, t3 are shown as t3, t2, t1, ahead of the older ones. |
| PatientViews.MainConditionAdvice | 2.py:186-190 | Main-condition advice is shown if and only if `main_condition` is present and non-empty, its lowered form is a topic, and the advice there is non-empty. It is then that advice. |
| PatientViews.SearchAdvice | 2.py:196-201 | An empty query is skipped. A non-empty query is found if and only if its lowered form is a topic, and the answer is that topic's advice. Otherwise the lowered query is reported as not found. |
| PatientViews.ViewDoctorAdvice | 2.py:178-201 | With no advice there is only the hint, and no search is offered. Otherwise the view holds the main-condition advice, every topic with its advice, and the search answer. |
| PatientViews.AdviceFoundIgnoringCase | 2.py:172-199 | After advice is recorded under topic t, any non-empty query equal to t ignoring case finds exactly that advice. |
| PatientViews.EveryTopicFindable | 2.py:174-199 | In a store in shape, searching for any non-empty listed topic finds its advice. The empty topic is excluded because the search skips an empty query. |
| PatientViews.EmptyTopicListedNotFound | 2.py:172-201 | Advice recorded under the empty topic keeps the store in shape and is listed with its advice, yet no search finds the empty topic. |
| PatientViews.MainConditionAdviceSurfaces | 2.py:88-190 | Non-empty advice recorded under the main condition, in any case, is shown as the main-condition advice. |
| PatientViews.ShowEmergencyInfo | 2.py:213-226 | Each of the six values is the stored value when its key is present, and "N/A" only when the key is missing. |
| PatientViews.EmergencyInfoShowsSetupAnswers | 2.py:87-95 | After setup the emergency view shows exactly the answers given for the four emergency fields, allergies and main condition. Empty answers are shown as empty, never as "N/A". |
| PatientViews.EmergencyFieldsNeverDefaulted | 2.py:218-223 | In a store in shape, the four emergency values are read straight from the record. |
| PatientViews.FreshEmergencyInfo | 2.py:8-19 | The fresh store shows four empty emergency values. It shows "N/A" only for allergies and main condition. |
| PatientSession.StartupCheck | 2.py:233-235 | Setup is forced if and only if the profile is empty or the doctor's name is present and empty. A non-empty profile without a `doctor_name` key raises. |
| PatientSession.StartupRuleInShape | 2.py:233 | For a store in shape the test never raises. The menu is reached if and only if the profile is non-empty and the doctor's name is non-empty. |
| PatientSession.SetupDecidesNextStart | 2.py:233-235 | After setup, the next start goes to the menu exactly when a doctor's name was given. |
| PatientSession.Boot | 2.py:230-235 | Start-up loads, then runs setup exactly when the test forces it. With no file, or a file that cannot be opened or parsed, setup is always forced and the result is in shape. Among the modelled disk states, start-up ends with an exception exactly for a file whose bytes do not decode, or a parsed store with a profile but no `doctor_name` key. |
| Typewriter.Substring | script.js:121-124 | `substring(0, k)` returns a prefix of the word: empty for k <= 0, the whole word for k >= length, and otherwise of length k. |
| Typewriter.CurrentWord | script.js:114 | The current word is defined exactly for indices inside the list. |
| Typewriter.Step | script.js:111-146 | The step is a no-op if and only if the element is missing, or the current word is undefined or empty. Otherwise: end and start of word never coincide, and the text shown is the prefix of the word up to the new charIndex. charIndex moves by -1 while deleting and +1 while typing. Deleting turns on exactly at the end of a word and off exactly at its start. The word index advances cyclically only at the start of a word. The delay is 1500 at the end of a word, else 500 at the start, else 50 while deleting, else 100. |
| Typewriter.StepKeepsBounds | script.js:117-140 | A step keeps the word index valid, and keeps charIndex in [0, len+1] while deleting and in [-1, len] while typing. |
| Typewriter.RunKeepsBounds | script.js:117-145 | Any number of steps from a state in bounds stays in bounds. |
| Typewriter.StartInBounds | script.js:103-106 | The initial state over the page's five words is in bounds, and so is every state the animation reaches from it. |
| Typewriter.TypingPhase | script.js:117-125 | Typing from charIndex c reaches the end of the word, still typing, after len - c steps. |
| Typewriter.DeletingPhase | script.js:118-122 | Deleting from charIndex c reaches index 0, still deleting, after c steps. |
| Typewriter.WordCycle | script.js:117-143 | A word is typed, overshot, deleted, and the next word begun at charIndex -1, after 2 len + 3 - c steps. |
| Typewriter.FirstWordCycle | script.js:103-106 | From the initial state, "Android Developer" is finished and "Web Developer" begun after 2 * 17 + 3 = 37 steps. |
| ProjectFilter.ApplyFilter | script.js:179-191 | Every card keeps its category. A card is hidden if and only if the filter is neither "all" nor equal to its category. |
| ProjectFilter.Activate | script.js:174-175 | Exactly the clicked button is active. The filters are unchanged. |
| ProjectFilter.Click | script.js:159-192 | Without buttons, cards or grid, a click changes nothing. Otherwise exactly the clicked button is active, and a card is shown if and only if the clicked filter is "all" or equals its category. Attributes never change. |
| ProjectFilter.LastClickWins | script.js:173-192 | Clicking b and then c equals clicking c alone. So a repeated click equals a single one. |
| ProjectFilter.AllShowsEveryCard | script.js:181 | The "all" button shows every card. |

## Left out

- JSON encoding and file I/O (`open`, `json.dump`, `json.load`, `os.path.exists`): the disk is abstract. It has four states: no file, unreadable, undecodable, or a parsed store. A file that cannot be opened and a file that is not valid JSON are one case, because the code catches both and treats them alike. An undecodable file is its own case, because the exception it raises is not caught.
- Only parsed files that match the `Store` type are modelled: a JSON object with exactly the five members, dictionaries whose values are strings, prescriptions and log entries with exactly their keys, and `last_taken` a string or null. Within that type a parsed store is taken unchecked, as the code does, and its three dictionaries may have any keys. Other parsed files are not representable. A missing member or key, or `"profile": null` (a TypeError at 2.py:87), or a top-level list (a TypeError at 2.py:233) would end the program in ways the model does not cover. Extra top-level members or extra prescription keys would survive a load and save in the code but have no place in the model.
- Typewriter.Step: a word's length is its number of characters, while `currentWord.length` (script.js:117) counts UTF-16 code units. The two differ only for characters outside the Basic Multilingual Plane. The page's five words are ASCII, so they are unaffected.
- The clock (`datetime.now().strftime`) and input parsing (`input()`, `int()`): timestamps and answers are parameters. `PatientStore.IsTimestamp` describes only the format string.
- The menu loop of `main` (2.py:241-281), `print_disclaimer`, all printed formatting (including `topic.capitalize()`), `HOME_REMEDIES_DB` and `view_home_remedies`: these are text output and static data.
- PatientViews.ViewDoctorAdvice: returns all advice as a map, so it does not state the listing order, which is the dictionary's insertion order in Python.
- Ascii.Lower: lowers ASCII letters only. Python's `str.lower` also lowers non-ASCII letters, which the model does not cover.
- The tsParticles configuration (script.js:4-98), every DOM and CSS side effect, `setTimeout` scheduling, the `display` style and the `transitionend` listener (script.js:161-169). These are browser effects. The first call of `type()` after `delayBetweenWords / 2` (script.js:148-151) is not modelled, since it only schedules the first step.
