# Profile manager core: registry, active flag, proxy input and launch decisions

This project models the core of a desktop browser-profile manager (`Profile_Manager.py`).
Each profile is a record with these fields:

- `fingerprint`: the id.
- `name`.
- `proxy`: address, port, username and password.
- `active`: a flag.

A persistence layer keeps the records in an insertion-ordered dictionary and writes the dictionary to a JSON file after every change. A `ProfileManager` creates, edits, toggles, deletes and lists profiles. Launching a profile does three things:

- It marks the profile active.
- It chooses how to route the browser through the proxy. The choices are a generated credential extension, a `--proxy-server` argument, or nothing.
- Its worker flips the flag again once its wait for the browser to close ends.

The model has seven modules:

- `Strings` (`strings.dfy`) holds the Python string operations the code relies on: `strip`, `split(":")`, `":".join`, the substring `in` test and `lower`.
- `ProfileStore` (`profile_store.dfy`) holds the profile datatypes and the ordered dictionary (`Table`: an entry map plus a key-order sequence), with `Put`, `Remove` and `Values`. It also holds the file abstraction with `LoadData` and the three ways a save can end, and the class `PersistenceLayer`. Its fields `data: map`, `order: seq` and `file` are updated in place by its methods.
- `ProfileRegistry` (`profile_manager.dfy`) gives create, edit and toggle as functions on `Table`, with lemmas. It also has the class `ProfileManager`, whose methods are proved to perform exactly those functions on the persistence layer.
- `ProxyForm` (`proxy_form.dfy`) covers the form's input handling from `on_save` and the proxy string shown by `_populate_fields`, with both round trips.
- `Launcher` (`launcher.dfy`) covers the guard and background script of `create_proxy_extension`, the strategy choice, and the browser options of `launch_browser_for_profile`.
- `Search` (`search.dfy`) is the search filter of `refresh_profile_list`.
- `LaunchFlow` (`launch_flow.dfy`) is a state machine over the registry and the set of running launch workers. Its events are launch, normal close, spawn failure and the dashboard's registry operations. It states when "active exactly while one launch worker runs" holds and when it breaks.

Where the code and its design intent disagree, the model follows the code:

- Editing an unknown id inserts a new inactive record. It does not fail.
- The only flag operation is a flip. There is no idempotent "set active".
- A failed save is swallowed and not reported. The file is truncated before it is written, so a save that fails part way leaves a file that loads as empty.
- A launch whose worker ends in its `except` branch leaves the flag set. See Findings.

Inputs from the outside world become parameters:

- The fresh `uuid4` string becomes the `fingerprint` argument of `ProfileManager.CreateProfile`, which requires it to be unused.
- How a file write ends (completed, `open` failed, or the dump failed after truncation) becomes a `SaveOutcome` argument.
- The file's content at start-up becomes a `FileState`.
- How a launch worker ends becomes a `CloseOk` event (its polling loop ended and it flipped the flag) or a `SpawnFail` event (it left through its `except` branch).

## Model

| member | source | states |
|---|---|---|
| `Strings.Strip` | Profile_Manager.py:765-766 | the stripped text has no surrounding whitespace (Python's `isspace` set) and is empty exactly when the input is all whitespace |
| `Strings.TrimLeft` | Profile_Manager.py:765-766 | the result is a suffix of the input and every dropped character is whitespace |
| `Strings.TrimRight` | Profile_Manager.py:765-766 | the result is a prefix of the input and every dropped character is whitespace |
| `Strings.StripTrimmed` | Profile_Manager.py:765-766 | a string with no surrounding whitespace is left unchanged by strip |
| `Strings.Split` | Profile_Manager.py:774 | `split(":")` returns at least one part and no part contains a colon |
| `Strings.SplitColonFree` | Profile_Manager.py:774 | a colon-free string splits into itself alone |
| `Strings.SplitAppend` | Profile_Manager.py:774 | splitting `a + ":" + b` is splitting `a` followed by splitting `b` |
| `Strings.JoinSplit` | Profile_Manager.py:779 | `":".join(s.split(":")) == s` for every string |
| `Strings.SplitJoin` | Profile_Manager.py:779 | a non-empty list of colon-free parts is recovered by splitting its join |
| `Strings.Join` | Profile_Manager.py:779 | `":".join`: the parts with a colon between neighbours; its round trips with `Split` are `JoinSplit` and `SplitJoin` |
| `Strings.ContainsInfix` | Profile_Manager.py:500-502 | any text placed between a prefix and a suffix is found by `in` |
| `Strings.Contains` | Profile_Manager.py:500-502 | Python's `t in s` on strings: `t` is a prefix of some suffix of `s`; `ContainsInfix` states that every infix is found |
| `Strings.Lower` | Profile_Manager.py:495-500 | `str.lower` on ASCII letters, every other character kept |
| `ProfileStore.Put` | Profile_Manager.py:45-51 | `d[k] = v` stores v under k, keeps every other entry, appends a new key to the order and keeps an existing key's place; well-formedness is preserved |
| `ProfileStore.RemoveKey` | Profile_Manager.py:53-56 | dropping a key from the order keeps exactly the other keys and their distinctness; an absent key leaves the order unchanged |
| `ProfileStore.RemoveKeyAt` | Profile_Manager.py:55 | `del d[k]` cuts the key out at its position: every other key keeps its relative order |
| `ProfileStore.Remove` | Profile_Manager.py:53-56 | deleting removes exactly that key, keeps every other entry, and changes nothing for an absent key |
| `ProfileStore.Values` | Profile_Manager.py:109-110 | `list(d.values())`: the record of each key, read in key order; its properties are the `Values…` lemmas below |
| `ProfileStore.ValuesLength` | Profile_Manager.py:109-110 | the listing holds one record per stored key |
| `ProfileStore.ValuesHoldEntries` | Profile_Manager.py:109-110 | a record is listed exactly when it is stored under some key |
| `ProfileStore.ValuesPutNew` | Profile_Manager.py:109-110 | inserting a new key lists its record after the unchanged earlier listing |
| `ProfileStore.ValuesPutExisting` | Profile_Manager.py:109-110 | overwriting a key changes its record in place and nothing else in the listing |
| `ProfileStore.ValuesRemove` | Profile_Manager.py:53-110 | deleting a stored key removes exactly its record from the listing; the others stay in their order |
| `ProfileStore.RemoveKeyAppended` | Profile_Manager.py:45-56 | deleting the key that was appended last gives back the previous order |
| `ProfileStore.RemovePutNew` | Profile_Manager.py:45-56 | deleting a key just inserted gives back the previous dictionary |
| `ProfileStore.LoadData` | Profile_Manager.py:24-33 | loading gives the stored table, or an empty one when the file is missing or unreadable |
| `ProfileStore.SavedFile` | Profile_Manager.py:35-40 | after a completed dump the file loads as the saved dictionary; after a failed `open` it is untouched; after a dump that fails once `open(..., "w")` has truncated the file it loads as empty |
| `ProfileStore.InterruptedSaveLosesProfiles` | Profile_Manager.py:29-40 | a save interrupted after truncation changes what the next start loads whenever the file held profiles, and never loads the dictionary being saved unless it is empty |
| `ProfileStore.PersistenceLayer.GetProfiles` | Profile_Manager.py:42-43 | `get_profiles`: the in-memory dictionary as a value |
| `ProfileStore.PersistenceLayer.constructor` | Profile_Manager.py:20-22 | the layer starts with the loaded dictionary and remembers the file |
| `ProfileStore.PersistenceLayer.SaveData` | Profile_Manager.py:35-40 | the file becomes `SavedFile` of the dictionary for the given outcome: it loads as the dictionary after a completed dump and as empty after an interrupted one; nothing is raised |
| `ProfileStore.PersistenceLayer.AddProfile` | Profile_Manager.py:45-47 | the dictionary becomes `Put` of the record under its own fingerprint, then it is saved with the given outcome |
| `ProfileStore.PersistenceLayer.UpdateProfile` | Profile_Manager.py:49-51 | the dictionary becomes `Put` of the record under the given fingerprint, then it is saved with the given outcome |
| `ProfileStore.PersistenceLayer.DeleteProfile` | Profile_Manager.py:53-56 | the dictionary becomes `Remove` of the key; it is saved, with the given outcome, only when the key was present |
| `ProfileRegistry.Create` | Profile_Manager.py:65-78 | `create_profile` on the dictionary value: an inactive record stored under the fresh fingerprint; `CreateSpec` states its effect |
| `ProfileRegistry.ActiveOf` | Profile_Manager.py:81-82 | the flag `edit_profile` keeps: the stored one, or false for an unknown id |
| `ProfileRegistry.Edit` | Profile_Manager.py:80-95 | `edit_profile` on the dictionary value: a record with the kept flag stored under the given id; `EditSpec` states its effect |
| `ProfileRegistry.Toggle` | Profile_Manager.py:97-104 | `toggle_profile_status` on the dictionary value, with the record it returns; `ToggleSpec` and `ToggleTwice` state its effect |
| `ProfileRegistry.CreateSpec` | Profile_Manager.py:65-78 | a fresh fingerprint gets one inactive record with the given name and proxy, listed last; the count grows by one; every other record is unchanged |
| `ProfileRegistry.EditSpec` | Profile_Manager.py:80-95 | edit sets fingerprint, name and proxy and keeps `active` and the listing position; on an unknown id it inserts an inactive record at the end; no other record changes |
| `ProfileRegistry.ToggleSpec` | Profile_Manager.py:97-104 | a known id has `active` negated, no other field or record changes, and the updated record is returned; an unknown id returns None and changes nothing |
| `ProfileRegistry.ToggleTwice` | Profile_Manager.py:97-104 | toggling the same id twice restores the original dictionary |
| `ProfileRegistry.DeleteSpec` | Profile_Manager.py:106-107 | after a delete the count drops by one (or not at all if the id was absent), no listed record has that fingerprint, and all others are still listed |
| `ProfileRegistry.OperationsKeepKeysMatch` | Profile_Manager.py:65-107 | create, edit, toggle and delete keep every record stored under its own fingerprint |
| `ProfileRegistry.ProfileManager.constructor` | Profile_Manager.py:62-63 | the manager works on the given persistence layer |
| `ProfileRegistry.ProfileManager.CreateProfile` | Profile_Manager.py:65-78 | returns the new inactive record and applies `Create` to the stored dictionary, then saves with the given outcome |
| `ProfileRegistry.ProfileManager.EditProfile` | Profile_Manager.py:80-95 | returns the record with the previous (or false) `active` flag and applies `Edit`, then saves with the given outcome |
| `ProfileRegistry.ProfileManager.ToggleProfileStatus` | Profile_Manager.py:97-104 | applies `Toggle` and returns its record or None; saves only for a known id |
| `ProfileRegistry.ProfileManager.DeleteProfile` | Profile_Manager.py:106-107 | applies `Remove`; saves only when the id was present |
| `ProfileRegistry.ProfileManager.ListProfiles` | Profile_Manager.py:109-110 | returns exactly one record per stored key, in key insertion order (which deletions keep, by `ValuesRemove`) |
| `ProxyForm.SplitLength` | Profile_Manager.py:774 | a string with k colons splits into k + 1 parts |
| `ProxyForm.ParseProxy` | Profile_Manager.py:773-786 | the `try` block of `on_save`: four or more parts give address, port, user and the rejoined rest as password; two parts give address and port; anything else is an invalid format; `ParseProxyAccepts` and the round trips state its properties |
| `ProxyForm.FormatProxy` | Profile_Manager.py:761 | the `ip:port:username:password` string the edit form shows; `FormatThenParse` is its round trip |
| `ProxyForm.ReadForm` | Profile_Manager.py:764-792 | an empty stripped name is rejected first, then an empty stripped proxy string, then a stripped proxy string `ParseProxy` rejects (`InvalidFormat`, exactly then); an accepted form carries the stripped, non-empty name and the proxy parsed from the stripped string |
| `ProxyForm.SaveForm` | Profile_Manager.py:764-799 | invalid input reports the form's error and never reaches the registry; valid input yields `Create` (add mode) or `Edit` (edit mode) of the read name and parsed proxy |
| `ProxyForm.AddFormCreates` | Profile_Manager.py:794-795 | saving the add form with valid input and a fresh id adds one inactive profile with the stripped name and the parsed proxy, listed last, and changes no other profile |
| `ProxyForm.ParseProxyAccepts` | Profile_Manager.py:774-786 | a proxy string is accepted exactly when it has one colon or three or more; anything else is an invalid format |
| `ProxyForm.ParseThenFormat` | Profile_Manager.py:774-786 | parsed address, port and user are colon-free; formatting the parse gives back the input (with `::` appended for `IP:PORT`), so the password keeps every further colon |
| `ProxyForm.FormatThenParse` | Profile_Manager.py:761 | the edit form's `ip:port:user:pass` string parses back to the same four fields when address, port and user contain no colon and the string has no surrounding whitespace |
| `ProxyForm.EditFormUnchanged` | Profile_Manager.py:756-799 | opening the edit form on a profile and saving it unchanged leaves the registry exactly as it was, under the same conditions |
| `Launcher.BackgroundScript` | Profile_Manager.py:150-176 | the `background.js` template with the four values placed in it; `ScriptEmbedsProxy` states that they appear |
| `Launcher.CreateProxyExtension` | Profile_Manager.py:115-189 | the builder, returning the script it packages: nothing for an empty address or port; `ExtensionGuard` is its exact condition |
| `Launcher.SelectStrategy` | Profile_Manager.py:203-209 | the strategy branch of `launch_browser_for_profile`; `StrategyCases` gives the exact condition for each strategy |
| `Launcher.UserDataDir` | Profile_Manager.py:192-195 | the profile's session directory `<cwd>/chrome_profiles/<fingerprint>`; `UserDataDirsDistinct` states that it is one per profile |
| `Launcher.ExtensionPath` | Profile_Manager.py:183 | the single fixed package path every launch uses |
| `Launcher.BrowserOptions` | Profile_Manager.py:192-209 | the browser arguments and extensions for one profile; `BrowserOptionsSpec` states their shape |
| `Launcher.ExtensionGuard` | Profile_Manager.py:121-122 | the extension builder returns nothing exactly when the address or the port is empty |
| `Launcher.EmbedsSegments` | Profile_Manager.py:150-176 | values placed between the template's fixed segments occur in the assembled script |
| `Launcher.ScriptEmbedsProxy` | Profile_Manager.py:150-176 | the background script names the profile's host, port, username and password |
| `Launcher.StrategyCases` | Profile_Manager.py:203-209 | extension exactly when all four fields are set; `ip:port` argument exactly when credentials are incomplete and address and port are set; otherwise no proxy, including credentials without an address |
| `Launcher.ExtensionCarriesProfile` | Profile_Manager.py:203-206 | the script the builder produces for a credentialed profile names its host and port |
| `Launcher.BrowserOptionsSpec` | Profile_Manager.py:192-209 | the session directory comes first; a `--proxy-server=ip:port` argument appears only for the plain strategy and an extension only for the credential one |
| `Launcher.UserDataDirsDistinct` | Profile_Manager.py:192-197 | two profiles never share a session directory |
| `Launcher.BuilderExample` | Profile_Manager.py:115-176 | `1.2.3.4:8080` with credentials yields a script naming that host and port; an empty address or port yields nothing |
| `Search.SearchTerm` | Profile_Manager.py:495 | the search text lower-cased, then stripped |
| `Search.Matches` | Profile_Manager.py:500-502 | a profile matches when the term occurs in its lower-cased name, its proxy address or its port |
| `Search.VisibleProfiles` | Profile_Manager.py:494-503 | the listing unchanged for a blank term, filtered otherwise; `VisibleProfilesSpec` states which profiles are shown |
| `Search.Filter` | Profile_Manager.py:498-503 | the filter keeps exactly the matching profiles and never lengthens the list |
| `Search.FilterAppend` | Profile_Manager.py:498-503 | the filter keeps listing order: it distributes over concatenation |
| `Search.FilterIdempotent` | Profile_Manager.py:498-503 | filtering twice with the same term equals filtering once |
| `Search.FilterEmptyTerm` | Profile_Manager.py:495-503 | an empty term matches everything, so skipping the filter for it changes nothing |
| `Search.VisibleProfilesSpec` | Profile_Manager.py:494-503 | a blank search shows the whole listing; otherwise a profile is shown exactly when its lower-cased name, address or port contains the term |
| `LaunchFlow.Init` | Profile_Manager.py:24-33 | the loaded dictionary and no launch workers; `InitConsistent` states when it is consistent |
| `LaunchFlow.Step` | Profile_Manager.py:211-229 | one event as the code handles it: launch flips an inactive profile and starts a worker; a normal end flips again; an `except` end flips nothing; the registry events apply the registry functions; the lemmas below state its properties |
| `LaunchFlow.StepWithRollback` | Profile_Manager.py:228-229 | with the fix, a worker that ends in its `except` branch leaves the profile inactive |
| `LaunchFlow.InitConsistent` | Profile_Manager.py:24-33 | at start-up the flag is consistent exactly when no stored profile is marked active |
| `LaunchFlow.StepWellFormed` | Profile_Manager.py:637-652 | every event keeps the dictionary well formed |
| `LaunchFlow.LaunchKeepsConsistent` | Profile_Manager.py:643-652 | launching a profile with no running worker keeps "active exactly while one launch worker runs" |
| `LaunchFlow.CloseKeepsConsistent` | Profile_Manager.py:224-226 | a worker's normal end, which flips the flag, keeps it consistent |
| `LaunchFlow.PutKeepsConsistent` | Profile_Manager.py:45-51 | storing a record whose flag agrees with its key's workers (as edit and create do on safe input) keeps the flag consistent |
| `LaunchFlow.StepKeepsConsistent` | Profile_Manager.py:637-652 | launch, a worker's normal end, edit, create and delete keep "active exactly while one launch worker runs" |
| `LaunchFlow.RunKeepsConsistent` | Profile_Manager.py:191-229 | over any run of such events the flag stays consistent |
| `LaunchFlow.RollbackKeepsConsistent` | Profile_Manager.py:228-229 | with the rollback fix, workers that end in `except` keep the flag consistent too |
| `LaunchFlow.RollbackRunKeepsConsistent` | Profile_Manager.py:228-229 | with the rollback fix, consistency holds over every safe run, failed launches included |
| `LaunchFlow.LaunchThenClose` | Profile_Manager.py:637-652 | launching an inactive profile marks it active with its worker running; after the worker ends normally (the flip at line 226) the state is exactly as before |
| `LaunchFlow.SpawnFailLeavesActive` | Profile_Manager.py:228-229 | as written, a launch whose worker ends in the `except` branch leaves the profile active with no worker running |
| `LaunchFlow.RollbackRestores` | Profile_Manager.py:228-229 | with the fix, a failed launch leaves the state exactly as before |
| `LaunchFlow.DoubleLaunchDesync` | Profile_Manager.py:643-652 | a second launch of a running profile does not flip the flag; if the second browser starts, the first worker to end clears the flag while the other still runs, and the second sets it with no worker running |
| `LaunchFlow.SecondLaunchSpawnFails` | Profile_Manager.py:643-652 | if the second browser is refused (its session directory is in use) and that worker ends in `except`, the state is the one after the first launch and stays consistent |
| `LaunchFlow.CreateLaunchCloseDelete` | Profile_Manager.py:637-652 | creating, launching, closing and deleting a profile leaves registry and sessions exactly as they were |

## Findings

| source | as written | input that shows it | evidently intended | confidence | as-written member | corrected member |
|---|---|---|---|---|---|---|
| Profile_Manager.py:228-229 | the `except` branch only shows an error box; the flag set by `on_launch_profile` (line 646) is never cleared | launch an inactive profile whose browser cannot start (for example, no browser driver installed) | clear the flag when the worker ends in `except`, so the profile is active only while its launch worker runs | medium, not executed | `LaunchFlow.SpawnFailLeavesActive` | `LaunchFlow.StepWithRollback` |

## Left out

- JSON serialisation and the file system: the file is a `FileState` value. A dump that fails part way is modelled as leaving an unreadable file, since a truncated JSON object never parses. Field names, indentation and parsing are not modelled. A stored file is assumed to hold a well-formed dictionary of complete records (the constructor's `requires`). A record without a field would make the source raise `KeyError` later.
- `uuid.uuid4()`: randomness, replaced by the `fingerprint` parameter with a freshness precondition.
- Extension staging and packaging (`os.makedirs`, `shutil.rmtree`, `zipfile`, lines 124-148 and 178-189): file-system work. `CreateProxyExtension` returns the script it would package in place of the package path. The manifest text is not modelled. The fixed `temp_extension` directory and the single `proxy_auth_extension.crx` path (`ExtensionPath`) are shared by concurrent launches. That is a concurrency hazard the value model cannot exhibit.
- Values are written into the background script without escaping. A `"` in a password would break the script. This is not modelled beyond the embedding lemmas.
- Selenium: creating the driver, `driver.get("https://luckybird.io")` and the `window_handles` polling loop with `time.sleep`. These are an external process and timing, and the end of that loop is the `CloseOk` event. An exception raised while preparing the launch (lines 192-209) ends the worker without a flip, like `SpawnFail`, and is merged into it.
- Workers versus browser windows: the flag is tied to launch workers, not to open windows. They differ on two paths. When `driver.get` (line 214) raises after the browser has started (line 213), the worker ends in `except` (`SpawnFail`) while that browser stays open, so `StepWithRollback` would clear the flag of an open browser. When the polling loop's `except Exception: break` (lines 221-222) ends on a driver error, the worker flips the flag (`CloseOk`) though the window may still be open.
- `Launcher.UserDataDir`: does not model `os.path.join`, because the model joins with `/`. `os.path.join` uses `\` on Windows, and it drops the base directory when a fingerprint (for example one hand-edited into the file) is an absolute path. `UserDataDirsDistinct` holds for the `/` form only.
- The `excludeSwitches` experimental option (line 201): it only silences driver logging and does not affect the proxy or the session directory.
- `threading.Thread`, `app.after` and `messagebox`: concurrency and UI plumbing. Workers are the `running` multiset. Interleavings are sequences of events, with each registry call treated as atomic.
- Aliasing: the worker holds the same dictionary object as the store and the dashboard's cached list. The model reads profiles by value and by fingerprint. A worker does not see an edit made after its launch, and that is not modelled.
- All tkinter, customtkinter and PIL code (dialogs, tree view, icons, hover, resize), apart from the parse, format and filter logic modelled above.
- The default seed profiles in `main`: bootstrap data only.
- `Strings.Lower`: does not model Unicode case mapping, because only ASCII letters are lower-cased. Python's `str.lower` maps every cased character.
- `profile.get("active", False)` defaults: records in the model always carry the flag.
