# Window registries, controller bridge, IPC registry and AI bookkeeping, in Dafny

This project models the main-process core of an Electron desktop shell and proves properties of
that model:

- the window registries:
  - the persisted `WindowManager` of `main/classes/windows/` (module `WindowRegistry`);
  - its `WindowMetaData` record (`WindowMeta`);
  - the `WindowsPersistence` cache (`WindowPersist`);
  - the older `WindowManager` of `main/classes/` (`LegacyWindows`);
  - the `WindowsManager` of `classes/windows.class.ts` (`WindowsClass`);
  - the URL building, the last-active scan and the search by custom id they share (`WindowCommon`);
- the controller bridge of `rt/electron-rt.ts` (`ControllerBridge`). It turns each class the main
  process exports into an object of IPC invokers, plus listener bookkeeping for classes that emit
  events;
- the `IPCRegistry`, which mirrors a channel -> handler map into `ipcMain` (`IpcRegistry`);
- the AI bookkeeping classes:
  - the shared records (`AiTypes`);
  - the `ContextManager` with its 200-query buffer (`ContextMgr`);
  - the two policy managers (`OsAiPolicy`, `AiPolicy`);
  - the `CommandBus` (`Commands`);
  - the `TrainingManager` (`Training`);
  - the two model managers (`OsAiModels`, `AiModels`);
  - the `InferenceEngine` (`Inference`);
  - the `Controlling` stub (`OsAiControlling`);
  - the `OsAIOrchestrator` that composes them (`Orchestration`).

`Common` holds Option/Result, a JSON-like `Value`, JavaScript's `||` and `??` on optional values,
and decimal formatting and parsing of window ids. `OrderedMap` models a JavaScript `Map`: keys in
insertion order, where setting an existing key keeps its place.

Each object whose fields the code updates is a Dafny `class`, with `modifies` clauses and a call
log. The logs record the calls made on BrowserWindows, `ipcMain` and `ipcRenderer`, and the events
emitted. Each method's postcondition states the whole new state, usually through a specification
function, and lemmas state what the code promises about those functions.

Where the code is wrong in ways that are evident, the model keeps the code's behaviour, proves
the consequence as a lemma, and models the evidently intended behaviour beside it with its
property proved (see "## Findings"):

- In the persisted `WindowManager`, the search by custom id reads a `customId` property that no
  code ever writes on a record. So creating a window twice under one id makes a second window and
  orphans the first (`WindowRegistry.DuplicateCreateOrphansFirst`,
  `WindowRegistry.WindowManager.LookupNeverFinds`, `WindowRegistry.CreateTwice`). A search that
  reads the record's data returns the first window instead
  (`WindowRegistry.WindowManager.CreateWindowDeduplicating`).
- Both `WindowManager`s store entries under the custom id, but the lifecycle listeners,
  `getLastActiveWindow` and `closeWindow` look entries up under the window's numeric id.
  - The last active window is never found for custom ids that start with a letter, which
    `Number` reads as NaN (`WindowRegistry.WindowManager.LastActiveMissesCustomKeys`,
    `LegacyWindows.LegacyLastActiveMissesCustomKeys`). Looking the chosen key up as it is finds
    the window focused last (`WindowCommon.LastActiveByKey`,
    `LegacyWindows.LastActiveByKeyFindsCustomKey`).
  - Closing a window by custom id leaves its entry behind
    (`LegacyWindows.CloseByCustomIdLeavesEntry`). Deleting under the key the window was looked up
    by removes it (`LegacyWindows.LegacyWindowManager.CloseWindowFoundKey`).
- The `WindowsManager`'s 'closed' listener deletes the id it captured. After a window was closed
  and recreated under the same id, the old window's listener deletes its successor
  (`WindowsClass.StaleClosedListenerDropsSuccessor`, `WindowsClass.ReopenThenStaleClosed`). A
  listener that deletes only its own window keeps the successor
  (`WindowsClass.WindowsManager.OnClosedOwn`).

The design description of these registries differs from the code in four places. The model
follows the code in each.

- **Query and hash.** The description puts the query's `?` and the hash's `#` back in front of
  them when the load URL is built. The code strips them and does not put them back
  (`WindowCommon.BuildUrl`).
- **Bounds on restore.** The description restores each window with its persisted bounds. The code
  passes the bounds to `createWindow`, which ignores them and records the new window's own bounds.
- **Duplicate ids.** The description says a second `createWindow` with a live id focuses the
  existing window. The persisted manager never finds it, as above.
- **Closing.** The description says `closeWindow` removes the window from the in-memory maps. The
  code deletes under the numeric window id, which is not the key the maps use.

## Model

| member | source | states |
|---|---|---|
| WindowMeta.WithDefaults | electron/src/main/classes/windows/windows.metadata.ts:33-40 | each defaulted field (createdAt, state active, lastFocus) comes from `init` when present, from the defaults otherwise; every other field is init's |
| WindowMeta.WithDefaultsOfComplete | electron/src/main/classes/windows/windows.metadata.ts:33-40 | a record that already has the three defaulted fields passes through the constructor unchanged |
| WindowMeta.WindowMetaData.constructor | electron/src/main/classes/windows/windows.metadata.ts:33-40 | the new object's props are init over the defaults; the properties set directly on the instance are absent |
| WindowMeta.WindowMetaData.ToJson | electron/src/main/classes/windows/windows.metadata.ts:46 | toJSON returns the props record itself |
| WindowMeta.WindowMetaData.Data | electron/src/main/classes/windows/windows.metadata.ts:65 | the data getter returns the props record |
| WindowMeta.WindowMetaData.Id | electron/src/main/classes/windows/windows.metadata.ts:63 | id is the customId, or '' when it is absent or empty |
| WindowMeta.WindowMetaData.Route | electron/src/main/classes/windows/windows.metadata.ts:64 | route is the route, or '' when it is absent or empty |
| WindowMeta.WindowMetaData.Touch | electron/src/main/classes/windows/windows.metadata.ts:51 | lastFocus becomes now and state active; nothing else changes |
| WindowMeta.WindowMetaData.UpdateBounds | electron/src/main/classes/windows/windows.metadata.ts:55 | only the bounds change |
| WindowMeta.WindowMetaData.SetState | electron/src/main/classes/windows/windows.metadata.ts:60 | only the state changes |
| WindowPersist.Saved | electron/src/main/classes/windows/windows.persistence.ts:31-35 | save writes one record per cache entry, each entry's toJSON, in cache order |
| WindowPersist.LoadInto | electron/src/main/classes/windows/windows.persistence.ts:21-23 | load adds each non-null file record, with the constructor's defaults, under its customId, on top of the cache |
| WindowPersist.LoadResult | electron/src/main/classes/windows/windows.persistence.ts:17-28 | a missing or unreadable file leaves the cache as it was; otherwise the records are loaded |
| WindowPersist.LastWithKey | electron/src/main/classes/windows/windows.persistence.ts:21-23 | the last non-null record of the file with a given customId |
| WindowPersist.LoadIntoGet | electron/src/main/classes/windows/windows.persistence.ts:21-23 | after load a key holds the last record the file has for it, so later duplicates win; unmentioned keys keep their entry |
| WindowPersist.SaveLoadRoundTrip | electron/src/main/classes/windows/windows.persistence.ts:17-35 | loading what save wrote into an empty cache restores the same keys in the same order with the same records |
| WindowPersist.WindowsPersistence.constructor | electron/src/main/classes/windows/windows.persistence.ts:12-14 | the cache starts empty over the given file |
| WindowPersist.WindowsPersistence.Load | electron/src/main/classes/windows/windows.persistence.ts:17-28 | the cache becomes LoadResult of its old contents and the file; the file is untouched |
| WindowPersist.WindowsPersistence.LoadRecord | electron/src/main/classes/windows/windows.persistence.ts:22 | a fresh WindowMetaData built from the record is set under the record's customId |
| WindowPersist.WindowsPersistence.Save | electron/src/main/classes/windows/windows.persistence.ts:31-35 | a successful write replaces the file with Saved of the cache; a failed one leaves it and reports an error |
| WindowPersist.WindowsPersistence.Add | electron/src/main/classes/windows/windows.persistence.ts:37-39 | the record is stored under its id getter, replacing what was there |
| WindowPersist.WindowsPersistence.Remove | electron/src/main/classes/windows/windows.persistence.ts:41-43 | only that key is deleted |
| WindowPersist.WindowsPersistence.Get | electron/src/main/classes/windows/windows.persistence.ts:45-47 | the record under the key, or none, exactly when the key is cached |
| WindowPersist.WindowsPersistence.GetAll | electron/src/main/classes/windows/windows.persistence.ts:50 | every record, in insertion order |
| WindowPersist.WindowsPersistence.ClearAll | electron/src/main/classes/windows/windows.persistence.ts:52 | the cache is empty |
| Common.ParseNumber | electron/src/main/classes/windows/windows.manager.ts:127 | Number(key) for a non-empty string of digits is its value; any other string gives nothing (NaN or 0), which is exact for letter-led strings but not for the other forms Number reads |
| Common.ParseFormatRoundTrip | electron/src/main/classes/windows/windows.manager.ts:127-130 | Number of the decimal spelling of a window id is that id |
| Common.NatToStringInjective | electron/src/main/classes/windows/windows.manager.ts:102 | distinct window ids have distinct decimal spellings, so lookups by spelled id do not collide |
| Common.StripLeading | electron/src/main/classes/windows/windows.manager.ts:77-79 | replace(/^c/, '') removes exactly one leading c, if there is one |
| WindowCommon.SchemeOf | electron/src/main/classes/windows/windows.manager.ts:13-17 | the scheme is the one given when it is non-empty, 'capacitor-electron' otherwise |
| WindowCommon.NewHandle | electron/src/main/classes/windows/windows.manager.ts:44-55 | the window is 800x600 unless sized, shown and modal only when modal is true, frameless unless frame is true |
| WindowCommon.BuildUrl | electron/src/main/classes/windows/windows.manager.ts:77-80 | scheme + "://index.html", then "/" + route less one leading "/", then query less one "?", then hash less one "#", each only when non-empty |
| WindowCommon.UrlSeparatorOptional | electron/src/main/classes/windows/windows.manager.ts:77-80 | a route, query or hash written with or without its one leading separator gives the same URL |
| WindowCommon.UrlStripsOnlyOne | electron/src/main/classes/windows/windows.manager.ts:77 | only one separator is stripped: the route "//a" keeps a double slash |
| WindowCommon.SendAll | electron/src/main/classes/windows/windows.manager.ts:139-143 | one send of the channel and payload per window, in order |
| WindowCommon.ScanUpTo | electron/src/main/classes/windows/windows.manager.ts:122-129 | the loop's state after a prefix of the entries; its choice lies within that prefix |
| WindowCommon.LastActiveByKey | electron/src/main/classes/windows/windows.manager.ts:121-131 | getLastActiveWindow as evidently intended: any window returned is stored under the key of an active entry focused at some time |
| WindowCommon.LastActiveByKeyLatest | electron/src/main/classes/windows/windows.manager.ts:121-131 | when one active entry was focused after every other, the lookup by key returns the window under that entry's key |
| WindowCommon.ScanUpToSpec | electron/src/main/classes/windows/windows.manager.ts:121-129 | the scan ends on the first active entry with the greatest lastFocus above 0, or on nothing when there is none |
| WindowCommon.ChosenKey | electron/src/main/classes/windows/windows.manager.ts:121-129 | the scan ends on a key exactly when some entry is active and focused after time 0 |
| WindowCommon.Resolve | electron/src/main/classes/windows/windows.manager.ts:130 | a key that is not a non-zero number gives nothing; otherwise the window under the number's canonical spelling, with Number as in Common.ParseNumber |
| WindowCommon.ResolveCanonical | electron/src/main/classes/windows/windows.manager.ts:127-130 | the spelled id of a non-zero window id resolves to the window under that key |
| WindowCommon.ResolveCustomId | electron/src/main/classes/windows/windows.manager.ts:127-130 | a custom id such as "main" resolves to nothing, whatever is stored under it |
| WindowCommon.ResolveLeadingZeros | electron/src/main/classes/windows/windows.manager.ts:127-130 | "007" resolves to the window under "7", not under "007" |
| WindowCommon.FirstWithId | electron/src/main/classes/windows/windows.manager.ts:194-199 | the key of the first entry with that customId, and no earlier entry has it |
| WindowCommon.FindSpec | electron/src/main/classes/windows/windows.manager.ts:194-199 | the window under the first matching key (possibly none), or none when no entry matches |
| WindowRegistry.NewProps | electron/src/main/classes/windows/windows.manager.ts:57-65 | the new record: the custom id, the route, the window's own bounds, active, the options' type, created and focused now |
| WindowRegistry.DuplicateCreateOrphansFirst | electron/src/main/classes/windows/windows.manager.ts:39-72 | creating twice under one id with nothing deduplicating keeps only the second window in the map, the first still open |
| WindowRegistry.RestoreRequests | electron/src/main/classes/windows/windows.manager.ts:23-31 | one createWindow request per loaded record that is not closed, in order |
| WindowRegistry.RestoreRequestsMembers | electron/src/main/classes/windows/windows.manager.ts:23-31 | every record not closed is requested with its id, route, bounds and type, and nothing else is |
| WindowRegistry.RestoreEffectNone | electron/src/main/classes/windows/windows.manager.ts:21-31 | restoring no record changes nothing |
| WindowRegistry.RestoreEffectStep | electron/src/main/classes/windows/windows.manager.ts:23-31 | restoring one more record adds its window when it is not closed and changes nothing when it is |
| WindowRegistry.RestoreEffectUntouched | electron/src/main/classes/windows/windows.manager.ts:21-31 | a custom id no restored record asks for keeps its window and its record |
| WindowRegistry.RestoreEffectLastWins | electron/src/main/classes/windows/windows.manager.ts:21-31 | the last restored record for a custom id owns it: its window, with id next plus the requests before it, and the record built for it |
| WindowRegistry.RestoreCallsAt | electron/src/main/classes/windows/windows.manager.ts:21-31 | the m-th restored record gives the construction of window next+m and then its loadURL |
| WindowRegistry.WindowManager.constructor | electron/src/main/classes/windows/windows.manager.ts:10-17 | empty maps, empty call log, a persistence over the given file, and the scheme |
| WindowRegistry.WindowManager.IdEntries | electron/src/main/classes/windows/windows.manager.ts:194-199 | what the search reads: every key with its instance's own customId, in map order |
| WindowRegistry.WindowManager.FocusEntries | electron/src/main/classes/windows/windows.manager.ts:121-129 | what the scan reads: every key with its instance's own lastFocus and state, in map order |
| WindowRegistry.WindowManager.LookupNeverFinds | electron/src/main/classes/windows/windows.manager.ts:194-199 | since no record carries its own customId, the search by custom id finds nothing |
| WindowRegistry.WindowManager.FindWindowByRecordId | electron/src/main/classes/windows/windows.manager.ts:194-199 | the search as evidently intended, reading the customId each record's data carries: the result is FindSpec over those ids; nothing changes |
| WindowRegistry.WindowManager.CreateWindowDeduplicating | electron/src/main/classes/windows/windows.manager.ts:39-99 | createWindow with that search: a found window is focused and nothing else changes; otherwise a new window and a record carrying the custom id are stored under it, and while every record is keyed by its own customId that stays so and the search then finds the new window |
| WindowRegistry.WindowManager.FocusWindow | electron/src/main/classes/windows/windows.manager.ts:41-42 | the existing window is focused and only the call log changes |
| WindowRegistry.WindowManager.CreateFindable | electron/src/main/classes/windows/windows.manager.ts:43-99 | the creating branch: the window and record are stored under the custom id, and afterwards the search by record finds the new window |
| WindowRegistry.CreateTwice | electron/src/main/classes/windows/windows.manager.ts:39-99 | create("main") twice: as written the second call opens a second window; with the search by record the second call returns the first window |
| WindowRegistry.WindowManager.FindWindowByCustomId | electron/src/main/classes/windows/windows.manager.ts:194-199 | the result is FindSpec over IdEntries; nothing changes |
| WindowRegistry.WindowManager.CreateWindow | electron/src/main/classes/windows/windows.manager.ts:39-98 | a found window is focused and nothing else changes; otherwise the registry becomes CreatedEffect: new window and record under the custom id, record in persistence, URL loaded, listeners wired |
| WindowRegistry.WindowManager.CreateNew | electron/src/main/classes/windows/windows.manager.ts:44-98 | the not-found branch of createWindow, as CreatedEffect, keeping that no record has its own customId |
| WindowRegistry.WindowManager.Register | electron/src/main/classes/windows/windows.manager.ts:57-72 | a new record for the props goes under the custom id in both maps and in persistence |
| WindowRegistry.WindowManager.Store | electron/src/main/classes/windows/windows.manager.ts:71-72 | both maps get the entry under the custom id; the listeners capture the record |
| WindowRegistry.WindowManager.OnReadyToShow | electron/src/main/classes/windows/windows.manager.ts:85 | the window is shown |
| WindowRegistry.WindowManager.OnClose | electron/src/main/classes/windows/windows.manager.ts:86-89 | the captured record's state becomes closed, then the cache is saved |
| WindowRegistry.WindowManager.OnResize | electron/src/main/classes/windows/windows.manager.ts:90-93 | only the captured record's bounds change, then the cache is saved |
| WindowRegistry.WindowManager.UpdateFocus | electron/src/main/classes/windows/windows.manager.ts:101-104 | the entry under the spelled window id, if any, gets lastFocus now and state active; nothing else changes |
| WindowRegistry.WindowManager.UpdateState | electron/src/main/classes/windows/windows.manager.ts:106-109 | the entry under the spelled window id, if any, takes the state |
| WindowRegistry.WindowManager.RemoveWindow | electron/src/main/classes/windows/windows.manager.ts:111-115 | the window under the spelled id is deleted; its record, if any, stays, closed |
| WindowRegistry.WindowManager.OnFocus | electron/src/main/classes/windows/windows.manager.ts:94 | the focus listener is updateFocus of its window's id |
| WindowRegistry.WindowManager.OnHide | electron/src/main/classes/windows/windows.manager.ts:95 | the hide listener is updateState hidden |
| WindowRegistry.WindowManager.OnShow | electron/src/main/classes/windows/windows.manager.ts:96 | the show listener is updateState active |
| WindowRegistry.WindowManager.OnClosed | electron/src/main/classes/windows/windows.manager.ts:97 | the closed listener is removeWindow of its window's id |
| WindowRegistry.WindowManager.GetLastActiveWindow | electron/src/main/classes/windows/windows.manager.ts:121-131 | the result is Resolve of the scan's chosen key; nothing changes |
| WindowRegistry.WindowManager.LastActiveId | electron/src/main/classes/windows/windows.manager.ts:122-129 | the loop ends with Number of the chosen key |
| WindowRegistry.WindowManager.LastActiveMissesCustomKeys | electron/src/main/classes/windows/windows.manager.ts:121-131 | with every key starting with a letter other than the 'I' of "Infinity", Number gives NaN for each, so no window is ever the last active one |
| WindowRegistry.WindowManager.Broadcast | electron/src/main/classes/windows/windows.manager.ts:139-143 | the call log gains SendAll of every stored window, in map order; nothing else changes |
| WindowRegistry.WindowManager.SendTo | electron/src/main/classes/windows/windows.manager.ts:151-154 | one send to the window found by custom id, or nothing |
| WindowRegistry.WindowManager.CloseWindow | electron/src/main/classes/windows/windows.manager.ts:160-168 | a window found by custom id or by spelled number is closed and both entries under its numeric id are deleted; otherwise nothing changes |
| WindowRegistry.WindowManager.Forget | electron/src/main/classes/windows/windows.manager.ts:162-167 | close the window and delete both entries under its spelled id |
| WindowRegistry.WindowManager.GetWindow | electron/src/main/classes/windows/windows.manager.ts:175 | the window under the spelled id, present exactly when the key is |
| WindowRegistry.WindowManager.GetWindows | electron/src/main/classes/windows/windows.manager.ts:181 | every stored window, in map order |
| WindowRegistry.WindowManager.GetMetadata | electron/src/main/classes/windows/windows.manager.ts:187 | the record under the spelled id, present exactly when the key is |
| WindowRegistry.WindowManager.RestorePreviousSession | electron/src/main/classes/windows/windows.manager.ts:21-32 | load the cache, then the registry becomes RestoreEffect of the loaded records: one createWindow per record not closed, in cache order |
| WindowRegistry.WindowManager.RestoreAll | electron/src/main/classes/windows/windows.manager.ts:23-31 | the loop over getAll, proved against RestoreEffect |
| WindowRegistry.WindowManager.RestoreNext | electron/src/main/classes/windows/windows.manager.ts:24-30 | one iteration advances the registry by RestoreEffectStep |
| WindowRegistry.WindowManager.Reopen | electron/src/main/classes/windows/windows.manager.ts:24-30 | a record that is not closed gives createWindow with its id, route, bounds and type; a closed one nothing |
| WindowRegistry.WindowManager.Recreate | electron/src/main/classes/windows/windows.manager.ts:25-29 | createWindow for one request adds a new window, since no record carries its own customId |
| WindowRegistry.WindowManager.RecreateFields | electron/src/main/classes/windows/windows.manager.ts:25-29 | the same createWindow, stated field by field |
| LegacyWindows.LegacyProps | electron/src/main/classes/windows.manager.ts:52-59 | the record: customId, route, type child by default, active, created and focused now, no bounds |
| LegacyWindows.IdEntriesOf | electron/src/main/classes/windows.manager.ts:177-182 | every key with its record's customId, in map order |
| LegacyWindows.FocusEntriesOf | electron/src/main/classes/windows.manager.ts:104-112 | every key with its record's lastFocus and state, in map order |
| LegacyWindows.FindKeyed | electron/src/main/classes/windows.manager.ts:177-182 | with every record under its own custom id, the search finds exactly the window under that id, or nothing |
| LegacyWindows.CreatedIsFound | electron/src/main/classes/windows.manager.ts:34-63 | once createWindow stored a window and a record carrying the custom id under that id, a later search by that id finds the window |
| LegacyWindows.LegacyWindowManager.CloseWindowFoundKey | electron/src/main/classes/windows.manager.ts:143-151 | closeWindow as evidently intended: a window found is closed and both entries under the key it was found by are deleted, so the target no longer resolves; otherwise nothing changes |
| LegacyWindows.CloseByCustomIdLeavesEntry | electron/src/main/classes/windows.manager.ts:143-151 | closing by a custom id that is not a number deletes under the numeric id and leaves the entry findable |
| LegacyWindows.LegacyWindowManager.constructor | electron/src/main/classes/windows.manager.ts:20-26 | empty maps and log, and the scheme |
| LegacyWindows.LegacyWindowManager.Existing | electron/src/main/classes/windows.manager.ts:177-182 | the window a search by custom id finds: the one under that key when it has a record |
| LegacyWindows.LegacyWindowManager.FindWindowByCustomId | electron/src/main/classes/windows.manager.ts:177-182 | the result is FindSpec over the records, which equals Existing |
| LegacyWindows.LegacyWindowManager.CreateWindow | electron/src/main/classes/windows.manager.ts:34-82 | a found window is focused and returned with nothing else changed; otherwise a new window and record under the custom id, URL loaded; afterwards the id finds the returned window |
| LegacyWindows.LegacyWindowManager.OnReadyToShow | electron/src/main/classes/windows.manager.ts:76 | the window is shown |
| LegacyWindows.LegacyWindowManager.UpdateFocus | electron/src/main/classes/windows.manager.ts:84-87 | the record under the spelled id, if any, is focused now and active |
| LegacyWindows.LegacyWindowManager.UpdateState | electron/src/main/classes/windows.manager.ts:89-92 | the record under the spelled id, if any, takes the state |
| LegacyWindows.LegacyWindowManager.RemoveWindow | electron/src/main/classes/windows.manager.ts:94-98 | the window under the spelled id is deleted; its record stays, closed |
| LegacyWindows.LegacyWindowManager.OnFocus | electron/src/main/classes/windows.manager.ts:77 | the focus listener is updateFocus of its window's id |
| LegacyWindows.LegacyWindowManager.OnHide | electron/src/main/classes/windows.manager.ts:78 | the hide listener is updateState hidden |
| LegacyWindows.LegacyWindowManager.OnShow | electron/src/main/classes/windows.manager.ts:79 | the show listener is updateState active |
| LegacyWindows.LegacyWindowManager.OnClosed | electron/src/main/classes/windows.manager.ts:80 | the closed listener is removeWindow of its window's id |
| LegacyWindows.LegacyWindowManager.GetLastActiveWindow | electron/src/main/classes/windows.manager.ts:104-114 | Resolve of the scan's chosen key over the records, with Number as in Common.ParseNumber |
| LegacyWindows.LegacyWindowManager.LastActiveId | electron/src/main/classes/windows.manager.ts:105-112 | the loop ends with Number of the chosen key, with Number as in Common.ParseNumber |
| LegacyWindows.LegacyWindowManager.Broadcast | electron/src/main/classes/windows.manager.ts:122-126 | one send per stored window, in map order |
| LegacyWindows.LegacyWindowManager.SendTo | electron/src/main/classes/windows.manager.ts:134-137 | one send to the window found by custom id, or nothing |
| LegacyWindows.LegacyWindowManager.Resolved | electron/src/main/classes/windows.manager.ts:144 | a number is looked up by its spelling, a string by the search |
| LegacyWindows.LegacyWindowManager.CloseWindow | electron/src/main/classes/windows.manager.ts:143-151 | a window found is closed and both entries under its numeric id deleted; otherwise nothing changes |
| LegacyWindows.LegacyWindowManager.GetWindow | electron/src/main/classes/windows.manager.ts:158 | the window under the spelled id, present exactly when the key is |
| LegacyWindows.LegacyWindowManager.GetWindows | electron/src/main/classes/windows.manager.ts:164 | every stored window, in map order |
| LegacyWindows.LegacyWindowManager.GetMetadata | electron/src/main/classes/windows.manager.ts:170 | the record under the spelled id, present exactly when the key is |
| LegacyWindows.LegacyLastActiveMissesCustomKeys | electron/src/main/classes/windows.manager.ts:104-114 | with every key starting with a letter other than the 'I' of "Infinity", Number gives NaN for each, so no last active window is ever returned |
| LegacyWindows.LastActiveByKeyFindsCustomKey | electron/src/main/classes/windows.manager.ts:104-114 | for letter-led keys whose record under k was focused last, the code as written returns nothing and the lookup by key returns the window under k |
| WindowsClass.ClassHandle | electron/src/classes/windows.class.ts:33-46 | 800x600 unless sized, frameless, shown and modal exactly when modal is true |
| WindowsClass.ClassUrl | electron/src/classes/windows.class.ts:49 | scheme + "://index.html/" + the route as given, or nothing after the slash |
| WindowsClass.ClassUrlAgainstPageUrl | electron/src/classes/windows.class.ts:49 | for a route without a leading "/" the URL equals the WindowManagers' one; with one, it keeps the slash they strip |
| WindowsClass.WindowsManager.constructor | electron/src/classes/windows.class.ts:15-20 | an empty map and log, and the scheme |
| WindowsClass.WindowsManager.CreateWindow | electron/src/classes/windows.class.ts:25-61 | an id in the map has its window focused and returned, nothing else changed; otherwise a new window under the id, URL loaded, closed listener wired to the id |
| WindowsClass.WindowsManager.OnReadyToShow | electron/src/classes/windows.class.ts:51-53 | the window is shown |
| WindowsClass.WindowsManager.OnClosed | electron/src/classes/windows.class.ts:55-57 | deletes the id the listener captured, whatever window is under it now |
| WindowsClass.WindowsManager.CloseWindow | electron/src/classes/windows.class.ts:66-70 | closes the stored window if any and deletes the id in every case |
| WindowsClass.WindowsManager.GetWindow | electron/src/classes/windows.class.ts:76-78 | the window under the id, present exactly when the id is |
| WindowsClass.WindowsManager.OnClosedOwn | electron/src/classes/windows.class.ts:55-57 | the 'closed' listener as evidently intended: deletes the captured id only while its own window is stored there, otherwise nothing changes |
| WindowsClass.ReopenThenStaleClosed | electron/src/classes/windows.class.ts:25-70 | create, close and create again under one id, then the first window's 'closed' event: as written the successor is gone, with OnClosedOwn it stays |
| WindowsClass.StaleClosedListenerDropsSuccessor | electron/src/classes/windows.class.ts:55-57 | a replaced window's closed listener deletes its successor's entry |
| ControllerBridge.InvokeChannelInjective | electron/src/rt/electron-rt.ts:48 | for keys without '.' or ':', an invoke channel names one method of one controller |
| ControllerBridge.AddChannelInjective | electron/src/rt/electron-rt.ts:62 | the subscribe channel names one controller |
| ControllerBridge.RemoveChannelInjective | electron/src/rt/electron-rt.ts:76 | the unsubscribe channel names one controller |
| ControllerBridge.AddIsNotRemove | electron/src/rt/electron-rt.ts:62-76 | a subscribe channel is never an unsubscribe channel |
| ControllerBridge.MethodNames | electron/src/rt/electron-rt.ts:44 | exactly the prototype's own names other than "constructor", at most as many, each once when the names are distinct |
| ControllerBridge.MethodNamesSnoc | electron/src/rt/electron-rt.ts:44 | the filter keeps the prototype's order: one more own name is appended unless it is "constructor" |
| ControllerBridge.InvokerMapAt | electron/src/rt/electron-rt.ts:47-50 | exactly the listed methods have an invoker, each on its "subsystem.class.method" channel |
| ControllerBridge.InvokerMapKeys | electron/src/rt/electron-rt.ts:47-50 | distinct method names become the API's keys in their order |
| ControllerBridge.InvokerOf | electron/src/rt/electron-rt.ts:49 | the channel behind a member of the API, when it is an invoker |
| ControllerBridge.ApiInvokers | electron/src/rt/electron-rt.ts:43-88 | the API invokes each own method other than the constructor on its channel (unless a listener method shadows it) and nothing else |
| ControllerBridge.GetMethods | electron/src/rt/electron-rt.ts:118-124 | [] for an unknown subsystem or class, a TypeError for an export without a prototype, else the method names |
| ControllerBridge.GetMethodsMatchesApi | electron/src/rt/electron-rt.ts:118-124 | for distinct names, getMethods equals the keys of the invoker map registerController builds, in the same order; on an emitter API three of those keys are shadowed by the listener methods |
| ControllerBridge.SubscribedOther | electron/src/rt/electron-rt.ts:62-76 | one controller's subscribe and unsubscribe messages leave another controller's subscriptions as they were |
| ControllerBridge.SyncOther | electron/src/rt/electron-rt.ts:59-88 | so each controller stays in step with the main process while others send |
| ControllerBridge.SyncAdd | electron/src/rt/electron-rt.ts:59-68 | addListener with a fresh id keeps the main process subscribed exactly to the types held |
| ControllerBridge.SyncRemove | electron/src/rt/electron-rt.ts:70-77 | removeListener of a held id keeps the main process subscribed exactly to the types held |
| ControllerBridge.AddThenRemoveRestores | electron/src/rt/electron-rt.ts:59-77 | adding then removing a listener restores the listener record, and subscribes and unsubscribes the type, or neither |
| ControllerBridge.RemoveAllMsgs | electron/src/rt/electron-rt.ts:80-86 | one unsubscribe message per matching entry, in order |
| ControllerBridge.KeptUpToAt | electron/src/rt/electron-rt.ts:80-86 | after a prefix of entries, an entry among them is gone exactly when it matches; the others are untouched |
| ControllerBridge.KeptEntry | electron/src/rt/electron-rt.ts:79-87 | each entry survives, unchanged, exactly when it does not match |
| ControllerBridge.RemoveAllKeepsOthers | electron/src/rt/electron-rt.ts:79-87 | removeAllListeners(type) keeps exactly the entries of other types, none when the type is absent or empty |
| ControllerBridge.SyncRemoveAll | electron/src/rt/electron-rt.ts:79-87 | removeAllListeners keeps the main process subscribed exactly to the types still held |
| ControllerBridge.RemoveAllSendsPerEntry | electron/src/rt/electron-rt.ts:79-87 | two listeners of one type give two unsubscribe messages |
| ControllerBridge.BuildInvokers | electron/src/rt/electron-rt.ts:47-50 | the loop sets one invoker per method name, in order |
| ControllerBridge.DropMatching | electron/src/rt/electron-rt.ts:80-86 | the loop over the entries detaches and deletes every matching entry with one message each |
| ControllerBridge.ControllerApi.Invoke | electron/src/rt/electron-rt.ts:49 | for a name other than an emitter API's three listener methods (which are AddListener, RemoveListener and RemoveAllListeners): an invoker sends its arguments on its channel; a name with no member throws |
| ControllerBridge.ControllerApi.HasListenerOfType | electron/src/rt/electron-rt.ts:55-56 | true exactly when some held entry has the type |
| ControllerBridge.ControllerApi.AddListener | electron/src/rt/electron-rt.ts:59-68 | subscribes the type unless a listener of it is held, attaches a new handler, records it under the id, returns the id |
| ControllerBridge.ControllerApi.RemoveListener | electron/src/rt/electron-rt.ts:70-77 | an unknown id changes nothing; otherwise detach, delete, and unsubscribe when no listener of the type is left |
| ControllerBridge.ControllerApi.RemoveAllListeners | electron/src/rt/electron-rt.ts:79-87 | every matching entry is detached and deleted, one unsubscribe message each |
| ControllerBridge.Bridge.RegisterController | electron/src/rt/electron-rt.ts:32-93 | unknown subsystem or class throws with its message; no prototype registers nothing; otherwise a new API object is stored |
| ControllerBridge.Bridge.Store | electron/src/rt/electron-rt.ts:91-92 | the object is stored under (subsystem, class), creating the subsystem's record when needed |
| ControllerBridge.Bridge.GetController | electron/src/rt/electron-rt.ts:98-103 | a cached object is returned with nothing changed (the same object on every call); otherwise the controller is registered first |
| ControllerBridge.Bridge.ListAvailable | electron/src/rt/electron-rt.ts:108-116 | every subsystem in order with its class keys in order |
| IpcRegistry.RemoveCalls | electron/src/main/classes/IPC/ipc.registry.ts:28-30 | one removeHandler per channel, in order |
| IpcRegistry.ClearRemovesEachOnce | electron/src/main/classes/IPC/ipc.registry.ts:27-32 | clear removes every registered channel, only those, and none twice |
| IpcRegistry.IPCRegistry.constructor | electron/src/main/classes/IPC/ipc.registry.ts:8 | an empty map over the given ipcMain |
| IpcRegistry.IPCRegistry.Register | electron/src/main/classes/IPC/ipc.registry.ts:11-17 | the map takes the handler; ipcMain.handle succeeds exactly for a channel it did not have; re-registering leaves ipcMain serving the old handler |
| IpcRegistry.IPCRegistry.RegisterReplacing | electron/src/main/classes/IPC/ipc.registry.ts:11-17 | register as intended: removeHandler first for a known channel, so ipcMain always serves what the map holds |
| IpcRegistry.IPCRegistry.Unregister | electron/src/main/classes/IPC/ipc.registry.ts:20-25 | an unknown channel changes nothing; a known one is deleted from the map and from ipcMain |
| IpcRegistry.IPCRegistry.Clear | electron/src/main/classes/IPC/ipc.registry.ts:27-32 | removeHandler for every channel in map order, then an empty map; ipcMain keeps mirroring |
| IpcRegistry.RegisterTwice | electron/src/main/classes/IPC/ipc.registry.ts:11-17 | as written the second registration throws and the map and ipcMain disagree; the replacing one does neither |
| AiTypes.OverlayLaws | electron/src/main/classes/OsAI/context.manager.ts:32 | spreading: the empty patch is the identity, a patch is idempotent, two patches act as their merge |
| ContextMgr.InitialContext | electron/src/main/classes/OsAI/context.manager.ts:13-27 | each listed key from init when present, its default otherwise; modelId, userId and workspaceId absent |
| ContextMgr.InitialContextOverDefaults | electron/src/main/classes/OsAI/context.manager.ts:15-26 | the initial context is init spread over the defaults, less the three unlisted keys |
| ContextMgr.EmptyInitGivesDefaults | electron/src/main/classes/OsAI/context.manager.ts:15-26 | `{}` gives the defaults alone |
| ContextMgr.Push | electron/src/main/classes/OsAI/context.manager.ts:39-42 | the prompt is last; below 200 it is appended, at 200 the oldest is dropped; the bound of 200 is kept |
| ContextMgr.PushLast | electron/src/main/classes/OsAI/context.manager.ts:38-45 | one push on the last 200 of a history gives the last 200 of the extended history |
| ContextMgr.PushesKeepMostRecent | electron/src/main/classes/OsAI/context.manager.ts:38-45 | from a buffer of at most 200 queries, any run of pushes leaves exactly the 200 most recent, oldest first |
| ContextMgr.Pushed | electron/src/main/classes/OsAI/context.manager.ts:38-45 | only the buffer (created when absent) and lastUpdated change |
| ContextMgr.GetAfterUpdate | electron/src/main/classes/OsAI/context.manager.ts:31-50 | after update, get reads now at lastUpdated, the partial's value at its other keys, the old value elsewhere |
| ContextMgr.GetAfterPush | electron/src/main/classes/OsAI/context.manager.ts:38-50 | a push changes what get reads at recentQueries and lastUpdated only |
| ContextMgr.ContextManager.constructor | electron/src/main/classes/OsAI/context.manager.ts:13-27 | the context is InitialContext of init |
| ContextMgr.ContextManager.Snapshot | electron/src/main/classes/OsAI/context.manager.ts:29 | the current context's values; the arrays the shallow copy shares are not modelled |
| ContextMgr.ContextManager.Update | electron/src/main/classes/OsAI/context.manager.ts:31-35 | the context becomes Updated, 'context.updated' is emitted and the snapshot returned |
| ContextMgr.ContextManager.PushQuery | electron/src/main/classes/OsAI/context.manager.ts:38-45 | the context becomes Pushed and 'context.query' is emitted |
| ContextMgr.ContextManager.Get | electron/src/main/classes/OsAI/context.manager.ts:48-50 | the current value at the key |
| ContextMgr.NewContextManager | electron/src/main/classes/OsAI/context.manager.ts:13-16 | as written: a TypeError exactly when init is undefined, otherwise a manager over InitialContext |
| ContextMgr.NewContextManagerDefaulting | electron/src/main/classes/OsAI/context.manager.ts:13-27 | as intended: an undefined init stands for `{}`, giving the defaults |
| OsAiPolicy.Check | electron/src/main/classes/OsAI/policy.manager.ts:22-32 | refused exactly when online without internet (checked first) or a named model outside a set list, with the matching reason |
| OsAiPolicy.DefaultAllowsExactlyOffline | electron/src/main/classes/OsAI/policy.manager.ts:10-32 | under the default policy exactly the requests that are not online pass |
| OsAiPolicy.MergeAndDecisions | electron/src/main/classes/OsAI/policy.manager.ts:14-32 | merging a policy silent on internet and models changes no decision; merging one that allows the internet lets online requests through unless the model list refuses them |
| OsAiPolicy.PolicyManager.constructor | electron/src/main/classes/OsAI/policy.manager.ts:10-12 | the given policy, or the default one |
| OsAiPolicy.PolicyManager.SetPolicy | electron/src/main/classes/OsAI/policy.manager.ts:14-16 | the new keys replace the old, the others stay |
| OsAiPolicy.PolicyManager.GetPolicy | electron/src/main/classes/OsAI/policy.manager.ts:18-20 | a copy of the current policy |
| OsAiPolicy.PolicyManager.IsAllowed | electron/src/main/classes/OsAI/policy.manager.ts:22-32 | Check under the current policy |
| AiPolicy.AsWrittenCheck | electron/src/main/classes/Ai/policy.manager.ts:9-14 | refused with 'Internet not allowed' exactly when the policy allows the internet and the request is online |
| AiPolicy.DefaultAllowsEverything | electron/src/main/classes/Ai/policy.manager.ts:2-14 | the default policy allows every request, online included |
| AiPolicy.InternetRuleInverted | electron/src/main/classes/Ai/policy.manager.ts:9-14 | allowing the internet refuses an online request, forbidding it lets the request through |
| AiPolicy.IntendedCheck | electron/src/main/classes/Ai/policy.manager.ts:9-14 | an online request is refused exactly when the internet is not allowed |
| AiPolicy.IntendedAgreesWithOsAi | electron/src/main/classes/Ai/policy.manager.ts:9-14 | with no model list the intended rule decides as the OsAI manager does |
| AiPolicy.PolicyManager.constructor | electron/src/main/classes/Ai/policy.manager.ts:2 | the policy forbids the internet |
| AiPolicy.PolicyManager.SetPolicy | electron/src/main/classes/Ai/policy.manager.ts:4-6 | the new policy replaces the old one whole |
| AiPolicy.PolicyManager.IsAllowed | electron/src/main/classes/Ai/policy.manager.ts:9-14 | AsWrittenCheck under the current policy |
| Commands.ExecOutcome | electron/src/main/classes/OsAI/command.bus.ts:24-40 | an undefined map throws a TypeError with no event; otherwise 'command.executing' first, then 'command.failed' with the thrown error or 'command.executed' with the result |
| Commands.CommandBus.constructor | electron/src/main/classes/OsAI/command.bus.ts:11 | the handler map is undefined |
| Commands.CommandBus.WithHandlerMap | electron/src/main/classes/OsAI/command.bus.ts:11 | as intended: an empty handler map |
| Commands.CommandBus.RegisterHandler | electron/src/main/classes/OsAI/command.bus.ts:13-16 | sets or overwrites the target's handler and emits 'handler.registered'; a TypeError without a map |
| Commands.CommandBus.UnregisterHandler | electron/src/main/classes/OsAI/command.bus.ts:18-21 | deletes the target and emits 'handler.unregistered' even when absent; a TypeError without a map |
| Commands.CommandBus.Exec | electron/src/main/classes/OsAI/command.bus.ts:24-40 | the result and events are ExecOutcome; the handler is called once when there is one |
| Commands.CommandBus.ListHandlers | electron/src/main/classes/OsAI/command.bus.ts:42 | the registered targets, each once, in registration order; a TypeError without a map |
| Commands.FreshBusRejectsEverything | electron/src/main/classes/OsAI/command.bus.ts:11-42 | on a bus as written every operation throws a TypeError before any event or handler call |
| Commands.RegisteredHandlerRuns | electron/src/main/classes/OsAI/command.bus.ts:13-40 | with a map, a registered target returns the handler's result; another target throws "No handler registered for target ..." |
| Training.NewJob | electron/src/main/classes/OsAI/training.manager.ts:12-21 | the request's id unless empty, model 'unknown' and dataset '' by default, queued, started now, not completed |
| Training.RunOverridesCancel | electron/src/main/classes/OsAI/training.manager.ts:31-62 | a canceled job that runs ends as if never canceled, completed at the run's time |
| Training.TrainingManager.Start | electron/src/main/classes/OsAI/training.manager.ts:12-29 | stores the new job under its id, replacing any, and emits 'training.queued' |
| Training.TrainingManager.Run | electron/src/main/classes/OsAI/training.manager.ts:31-44 | an unknown id changes nothing; a known job is running, then completed now, with both events |
| Training.TrainingManager.Cancel | electron/src/main/classes/OsAI/training.manager.ts:54-62 | false and no change for an unknown id; otherwise canceled now, 'training.canceled', true |
| Training.TrainingManager.List | electron/src/main/classes/OsAI/training.manager.ts:46-48 | every job, in the order the ids were first stored |
| Training.TrainingManager.Get | electron/src/main/classes/OsAI/training.manager.ts:50-52 | the job under the id, present exactly when the id is |
| Training.StartCancelRun | electron/src/main/classes/OsAI/training.manager.ts:12-62 | start, cancel (true), run: the job ends completed, no longer canceled |
| OsAiModels.NewPackage | electron/src/main/classes/OsAI/model.manager.ts:34-65 | under the fresh id, named after the payload or the file, default version, checksum, signature, size and metadata, hybrid, the three capabilities |
| OsAiModels.WithActive | electron/src/main/classes/OsAI/model.manager.ts:75-89 | only the active flag in the metadata and lastUpdated change |
| OsAiModels.LastSwitchWins | electron/src/main/classes/OsAI/model.manager.ts:75-89 | two switches in a row leave only the last visible |
| OsAiModels.ModelManager.constructor | electron/src/main/classes/OsAI/model.manager.ts:18-21 | an empty registry in the given directory |
| OsAiModels.ModelManager.Activate | electron/src/main/classes/OsAI/model.manager.ts:75-81 | "Model <id> not found" for an unknown id; otherwise WithActive true and 'model.activated' |
| OsAiModels.ModelManager.Install | electron/src/main/classes/OsAI/model.manager.ts:34-72 | stores NewPackage and emits 'model.installed'; with autoActivate the stored and returned package is active |
| OsAiModels.ModelManager.Deactivate | electron/src/main/classes/OsAI/model.manager.ts:83-89 | nothing for an unknown id; otherwise WithActive false and 'model.deactivated' |
| OsAiModels.ModelManager.Remove | electron/src/main/classes/OsAI/model.manager.ts:91-96 | nothing for an unknown id; otherwise deleted and 'model.removed' |
| OsAiModels.ModelManager.List | electron/src/main/classes/OsAI/model.manager.ts:24-26 | every package, in installation order |
| OsAiModels.ModelManager.Get | electron/src/main/classes/OsAI/model.manager.ts:98 | the package under the id, present exactly when the id is |
| OsAiModels.InstallActivateRemove | electron/src/main/classes/OsAI/model.manager.ts:34-96 | two installs give two packages; activate then deactivate leaves the first inactive; removing it leaves the second |
| AiModels.AfterLastSlash | electron/src/main/classes/Ai/model.manager.ts:51 | a slash-free suffix that is all of the string or follows its last '/' |
| AiModels.AfterLastSlashUnique | electron/src/main/classes/Ai/model.manager.ts:51 | that segment is the only one with those properties |
| AiModels.ExtractName | electron/src/main/classes/Ai/model.manager.ts:50-52 | the last segment, or 'unknow-model' when it is empty |
| AiModels.ExtractNameCases | electron/src/main/classes/Ai/model.manager.ts:50-52 | a source ending in '/' gives the placeholder; a plain file name is its own name |
| AiModels.SourceOf | electron/src/main/classes/Ai/model.manager.ts:15 | download exactly for a source starting with 'http' |
| AiModels.NewRecord | electron/src/main/classes/Ai/model.manager.ts:12-18 | the extracted name, the source kind, installed now, not yet used |
| AiModels.ModelManager.List | electron/src/main/classes/Ai/model.manager.ts:4-6 | every record, in installation order |
| AiModels.ModelManager.Activate | electron/src/main/classes/Ai/model.manager.ts:30-39 | 'Model not found' for an unknown id; otherwise active and used now |
| AiModels.ModelManager.Install | electron/src/main/classes/Ai/model.manager.ts:8-27 | stores NewRecord under the fresh id and activates it with autoActivate |
| AiModels.ModelManager.Deactivate | electron/src/main/classes/Ai/model.manager.ts:41-44 | nothing for an unknown id; otherwise back to installed |
| AiModels.ModelManager.Remove | electron/src/main/classes/Ai/model.manager.ts:46-48 | the entry, if any, is deleted |
| AiModels.ActivateDeactivate | electron/src/main/classes/Ai/model.manager.ts:30-44 | activate then deactivate returns to installed and keeps the last-used time; an unknown id cannot be activated |
| Inference.EchoOf | electron/src/main/classes/OsAI/inference.engine.ts:28 | the prompt when present (even empty), else the inputs, else null |
| Inference.EngineResponse | electron/src/main/classes/OsAI/inference.engine.ts:24-35 | the request's id unless empty, its model, the echo, success, confidence 1, simulated |
| Inference.InferenceEngine.Run | electron/src/main/classes/OsAI/inference.engine.ts:21-38 | 'inference.started', then 'inference.completed' with the returned EngineResponse |
| OsAiControlling.NewAnnotation | electron/src/main/classes/OsAI/osai.controlling.ts:90-100 | every key data has wins, falsy values included; the `||` defaults survive only for keys data lacks |
| OsAiControlling.LoadedPackage | electron/src/main/classes/OsAI/osai.controlling.ts:26-39 | the placeholder package derived from the model id |
| OsAiControlling.MockResponse | electron/src/main/classes/OsAI/osai.controlling.ts:55-63 | the request's id unless empty, its model, success, confidence 1, no output, and the request's metadata with simulated set to true |
| OsAiControlling.Controlling.constructor | electron/src/main/classes/OsAI/osai.controlling.ts:12-23 | a hybrid, medium-awareness context with no query buffer, no models, annotations or insights |
| OsAiControlling.Controlling.LoadModel | electron/src/main/classes/OsAI/osai.controlling.ts:25-43 | stores or replaces LoadedPackage under the model id and emits 'model.loaded' |
| OsAiControlling.Controlling.UnloadModel | electron/src/main/classes/OsAI/osai.controlling.ts:46-49 | deletes the entry if any and emits 'model.unloaded' in every case |
| OsAiControlling.Controlling.Infer | electron/src/main/classes/OsAI/osai.controlling.ts:51-71 | a model not loaded throws "Model not loaded<id>" with no change; otherwise the prompt (or 'unknown') is appended, unbounded, and MockResponse returned |
| OsAiControlling.Controlling.Train | electron/src/main/classes/OsAI/osai.controlling.ts:73-78 | the job is completed now and returned |
| OsAiControlling.Controlling.GetContext | electron/src/main/classes/OsAI/osai.controlling.ts:80-82 | the current context |
| OsAiControlling.Controlling.UpdateContext | electron/src/main/classes/OsAI/osai.controlling.ts:84-87 | the partial is overlaid, lastUpdated not stamped |
| OsAiControlling.Controlling.Annotate | electron/src/main/classes/OsAI/osai.controlling.ts:89-106 | NewAnnotation is appended to the target's list, created when missing |
| OsAiControlling.Controlling.SummaryInsights | electron/src/main/classes/OsAI/osai.controlling.ts:109-122 | exactly one insight is appended and all are returned |
| OsAiControlling.LoadThenInfer | electron/src/main/classes/OsAI/osai.controlling.ts:25-71 | inference works only once the model is loaded, each accepted request adding one query |
| Orchestration.Rejection | electron/src/main/classes/OsAI/ai.orchestrator.ts:54-60 | kind error with the policy's reason, the request's id unless empty, its model |
| Orchestration.OsAIOrchestrator.constructor | electron/src/main/classes/OsAI/ai.orchestrator.ts:22-35 | as intended: every part new, the context from defaults, the given or default policy |
| Orchestration.OsAIOrchestrator.RunInference | electron/src/main/classes/OsAI/ai.orchestrator.ts:51-69 | a refused request gets Rejection and changes nothing; an allowed one records its prompt and emits 'context.query' exactly when the prompt is non-empty, then returns the engine's response |
| Orchestration.OsAIOrchestrator.ExecuteCommand | electron/src/main/classes/OsAI/ai.orchestrator.ts:71-73 | exactly the bus's exec |
| Orchestration.OsAIOrchestrator.GetContextSnapshot | electron/src/main/classes/OsAI/ai.orchestrator.ts:75-77 | the context manager's snapshot |
| Orchestration.OsAIOrchestrator.InstallModel | electron/src/main/classes/OsAI/ai.orchestrator.ts:79-81 | the model manager's install: NewPackage under the fresh id, activated when autoActivate is true, appended for a new id, with 'model.installed' and, when activated, 'model.activated' |
| Orchestration.NewOrchestrator | electron/src/main/classes/OsAI/ai.orchestrator.ts:22-35 | as written: construction always throws a TypeError |
| Orchestration.DefaultPolicyGate | electron/src/main/classes/OsAI/ai.orchestrator.ts:51-69 | under the default policy an online request is refused and leaves the buffer empty; an offline one is echoed and recorded |

## Left out

- File I/O: the persistence file is a `FileState` value, and a failed write is a boolean parameter. `mkdir` and the copy of `file://` sources in the OsAI model install are not modelled.
- Clock and identifiers: `Date.now()`, `randomUUID`, the random listener and response ids, Electron's window ids and `win.getBounds()` are parameters. One `now` stands for every clock reading in one call.
- `console.log`, `console.warn` and the `preload` path are left out.
- WindowsClass.WindowsManager.CreateWindow: the `parent` option is not modelled.
- Restored bounds: `restorePreviousSession` passes `bounds` and `type`, and `createWindow` ignores the bounds. The model carries them in the request only.
- Aliasing of metadata objects is modelled only where the code shares them (the persistence cache, the metadata map and the listener closures of the persisted manager). Jobs, packages, model records and annotations are values, so a caller's later mutation of a returned object is not captured.
- ControllerBridge.ControllerApi.AddListener: listener ids are parameters. The subscription invariant is proved for an id not already held, because the source's random ids can collide.
- The controller catalogue is given, not loaded with `require`. Its subsystem and class keys are assumed free of ':' and '.'. Object key order assumes keys that are not array indices.
- `invoke` returns a Promise in the source; the model records the message and returns unit.
- `ipcRenderer` and `ipcMain` are modelled only as far as these classes use them.
- Training.TrainingManager.Run is one step. The `setTimeout` that starts it and the random training delay are not modelled.
- OsAiModels.InstalledPath: `path.join` is plain concatenation for an absolute, normalised directory, and `path.basename` is a parameter.
- Event forwarding and `wireEvents` are left out. The events each part emits are logged, including that the bus emits 'command.executed' while the orchestrator forwards 'command.succeeded'.
- The `Controlling` class's suggestions, awareness timer and cycle constant are left out; nothing in the class uses them.
- Numbers such as confidence, size and timestamps are integers. Explicit `undefined` values inside a partial object are treated as absent keys.
- Orchestration.OsAIOrchestrator.constructor models the orchestrator as evidently intended. As written it cannot be built (`Orchestration.NewOrchestrator`), so its methods are stated over working parts.
- The OsAI policy's `allowedModels` is read by the code but is not part of the declared policy type. The model keeps it as an explicit optional field.
- Common.ParseNumber: JavaScript's `Number` is modelled for digit strings and for strings it reads as NaN. Signs, fractions, exponents, radix prefixes, surrounding whitespace, "Infinity" and rounding above 2^53 are not, because window keys are custom ids or decimal window ids; a key such as "-1" or "Infinity" gives nothing in the model where `Number` gives a truthy number.
- WindowCommon.Resolve: inherits the Common.ParseNumber restriction; for a key such as "-1" the code looks up `${-1}` and the model returns nothing.
- LegacyWindows.LegacyWindowManager.GetLastActiveWindow: inherits the Common.ParseNumber restriction for a chosen key such as "-1" or "Infinity".
- LegacyWindows.LegacyWindowManager.LastActiveId: ends with None where `Number` of the chosen key is a negative, fractional or infinite number; exact for digit keys and letter-led keys.
- WindowRegistry.WindowManager.GetLastActiveWindow: the same Common.ParseNumber restriction as the legacy manager.
- ContextMgr.ContextManager.Snapshot: the spread copy is shallow, so the snapshot shares the `recentQueries` and `openApps` arrays that `pushQuery` later changes in place. The model returns the values at the time of the call and does not capture that sharing.
- ContextMgr.PushesKeepMostRecent: proved from a buffer of at most 200 queries. A constructor or `update` may supply a longer buffer; each push then drops one query and adds one, so the buffer keeps its length and never shrinks back to 200 (ContextMgr.Push states this case).
- ControllerBridge.ControllerApi.Invoke: not stated for AddListener, RemoveListener and RemoveAllListeners on an emitter API, whose registered members are the listener methods modelled by those three methods, not invokers.

## Findings

| source | as written | input that shows it | evidently intended | confidence | as-written member | corrected member |
|---|---|---|---|---|---|---|
| electron/src/main/classes/IPC/ipc.registry.ts:11-17 | register overwrites the map entry, then calls ipcMain.handle, which throws for a channel that already has a handler | register("a", h1); register("a", h2) | the old handler is removed from ipcMain first, so ipcMain serves h2 | not executed | IpcRegistry.IPCRegistry.Register, IpcRegistry.RegisterTwice | IpcRegistry.IPCRegistry.RegisterReplacing |
| electron/src/main/classes/Ai/policy.manager.ts:10 | an online request is refused when allowInternet is true | setPolicy({allowInternet: true}); isAllowed({mode: 'online'}) gives "Internet not allowed" | refused when the internet is NOT allowed, as in the OsAI policy manager | not executed | AiPolicy.AsWrittenCheck, AiPolicy.InternetRuleInverted | AiPolicy.IntendedCheck, AiPolicy.IntendedAgreesWithOsAi |
| electron/src/main/classes/OsAI/command.bus.ts:11 | the handlers map is declared but never created | new CommandBus().registerHandler("x", h) throws a TypeError | `handlers = new Map()` | not executed | Commands.FreshBusRejectsEverything | Commands.CommandBus.WithHandlerMap, Commands.RegisteredHandlerRuns |
| electron/src/main/classes/OsAI/context.manager.ts:13-16 | every key is read from `init`, which is optional; the orchestrator passes none | new ContextManager() throws a TypeError, so new OsAIOrchestrator() does too | a missing init stands for `{}` | not executed | ContextMgr.NewContextManager, Orchestration.NewOrchestrator | ContextMgr.NewContextManagerDefaulting, Orchestration.OsAIOrchestrator.constructor |
| electron/src/main/classes/windows/windows.manager.ts:194-199 | findWindowByCustomId compares `meta.customId`, which no record carries, so createWindow never finds an existing window | createWindow("main"); createWindow("main") opens a second window and the first is orphaned | the search reads the customId the record's data carries, so the second call focuses the first window | not executed | WindowRegistry.DuplicateCreateOrphansFirst, WindowRegistry.WindowManager.LookupNeverFinds | WindowRegistry.WindowManager.CreateWindowDeduplicating, WindowRegistry.CreateTwice |
| electron/src/main/classes/windows.manager.ts:104-114 | the last active entry's key is turned into a number, which is NaN for a custom id | createWindow("main"); focus it; getLastActiveWindow() gives undefined | the window stored under the chosen key is returned | not executed | LegacyWindows.LegacyLastActiveMissesCustomKeys, WindowRegistry.WindowManager.LastActiveMissesCustomKeys | WindowCommon.LastActiveByKey, WindowCommon.LastActiveByKeyLatest, LegacyWindows.LastActiveByKeyFindsCustomKey |
| electron/src/main/classes/windows.manager.ts:143-151 | closeWindow finds the window by custom id but deletes the entries under its numeric window id | createWindow("main"); closeWindow("main"); findWindowByCustomId("main") still returns the closed window | both entries are deleted under the key the window was found by | not executed | LegacyWindows.CloseByCustomIdLeavesEntry | LegacyWindows.LegacyWindowManager.CloseWindowFoundKey |
| electron/src/classes/windows.class.ts:55-57 | the 'closed' listener deletes the id it captured, whatever window is stored there now | createWindow("a"); closeWindow("a"); createWindow("a"); the first window's 'closed' event then removes the second | the listener deletes only its own window | not executed | WindowsClass.StaleClosedListenerDropsSuccessor | WindowsClass.WindowsManager.OnClosedOwn, WindowsClass.ReopenThenStaleClosed |
