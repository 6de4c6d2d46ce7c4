# SpaceDrive render-pipeline core, modelled in Dafny

This project models the bookkeeping core of the SpaceDrive render pipeline:

- **The native light system.** `LightStorage` keeps two fixed-capacity slot tables, one for lights and one for their shadow sources. Around them it holds counters, the max indices, a shadow atlas and an append-only GPU command list. It also covers the light classes it stores: `RPLight`, its point-light variant `RPPointLight`, and the older `Light`. Each light writes itself onto a GPU command field by field.
- **The stage manager.** It admits render stages of known kinds until setup. Setup sorts the stages by a fixed stage order and binds each stage's input pipes to the pipes earlier stages produced. Each `PreviousFrame::` pipe gets one texture, created on first request. When any such pipe was requested, a trailing previous-pipes stage is appended.
- **The plugin-setting and day-time-setting loaders.** They read one YAML mapping and check its required keys, the type name, the type-specific keys and the default value, and they refuse leftover keys. They build a setting object with its value or its curves.
- **The mesh index helpers of `myGeom`.** These are fan triangulation, vertex splitting for hard edges, the vertex-to-polygon index, material de-duplication and the triangle indices of the grid mesh.

How the source's forms map onto Dafny:

- State the source changes in place becomes classes with `modifies` frames: the light tables, the stage lists and dictionaries, the setting objects and the mesh fields.
- Each state-changing method is proved against a specification function on values: `StoreCommands`, `Place`, `SetupTables`, `Load`, `Gather`/`Renumber`, `VertPolys`, `Grid`. The lemmas about those functions state what the source promises.
- Python's exceptions become `Result` values that name the error.
- Python values read from YAML are a `Yaml` datatype. `int()`, `float()`, `str.strip()`, `str.upper()`, `in` and `dict.pop` are modelled on it in module `PyValues`.

Modules, one file each:

- `Wrappers`: `Option` and `Result`.
- `Commands`: GPU commands as values.
- `Lights`: shadow sources and lights.
- `Atlas`: the shadow atlas, with first-fit reservation.
- `SlotTables`: slot search, counts and max index over a table.
- `Storage`: `LightStorage`.
- `StageManagement`: the stage manager.
- `PyValues`: Python builtins on YAML values.
- `PluginSettings`: plugin settings.
- `DayTimeSettings`: day-time settings.
- `SurfaceMesh`: the mesh helpers.

## Model

| member | source | states |
|---|---|---|
| Commands.RemoveCommand | Code/Native/Source/LightSystem/LightStorage.cpp:101-103 | the remove command carries exactly one datum, the freed slot |
| Lights.RPLight.constructor | Native/Source/LightSystem/RPLight.cpp:5-12 | a new light has the given type, is not dirty, has slot -1, IES profile -1, position (0,0,0), colour (1,1,1) and no shadow sources |
| Lights.RPLight.Point | Code/Native/Source/LightSystem/RPPointLight.cpp:11-14 | a new point light has point-light type, radius 10, inner radius 0 and the base defaults |
| Lights.RPLight.WriteToCommand | Native/Source/LightSystem/RPLight.cpp:15-23 | the command keeps its code and gains slot, type, IES profile, position and colour in that order (then radius and inner radius for a point light); the light is not changed |
| Lights.RPLight.PayloadRoundTrip | Code/Native/Source/LightSystem/RPPointLight.cpp:23-27 | a reader of the payload recovers every written field; a point light's base fields come first and are followed by radius and inner radius |
| Lights.RPLight.PayloadShape | Native/Source/LightSystem/RPLight.cpp:15-23 | the payload holds exactly three integers and two vectors |
| Lights.RPLight.InitShadowSources | Code/Native/Source/LightSystem/RPPointLight.cpp:34-40 | a point light with no sources gets exactly 6 fresh, unslotted sources without regions; if it already has sources the assertion fails and nothing changes |
| Lights.RPLight.UpdateShadowSources | Code/Native/Source/LightSystem/RPPointLight.cpp:47-63 | source i gets the light's shadow-map resolution and a 93-degree lens along the i-th of +X, -X, +Y, -Y, +Z, -Z; the number of sources, their slots and regions stay the same |
| Lights.ShadowSource.SetResolution | Code/Native/Source/LightSystem/RPPointLight.cpp:60 | the source stores the resolution it is called with here; that `set_resolution` also marks the source as needing an update is assumed, since the ShadowSource header is not part of this model |
| Lights.ShadowSource.SetPerspectiveLens | Code/Native/Source/LightSystem/RPPointLight.cpp:61-62 | the source records the lens built from the arguments passed here; that `set_perspective_lens` also marks the source as needing an update is assumed, since the ShadowSource header is not part of this model |
| Lights.ShadowSource.SetRegion | Code/Native/Source/LightSystem/LightStorage.cpp:162 | the source holds the region it was given, even the failure value |
| Lights.RPLight.AssignSlot | Code/Native/Source/LightSystem/LightStorage.cpp:56 | the light records the slot and nothing else changes |
| Lights.RPLight.RemoveSlot | Code/Native/Source/LightSystem/LightStorage.cpp:112 | the light's slot becomes -1 |
| Lights.RPLight.UnsetDirtyFlag | Code/Native/Source/LightSystem/LightStorage.cpp:133 | the light is no longer dirty |
| Lights.RPLight.Ref | Code/Native/Source/LightSystem/LightStorage.cpp:43 | the reference count rises by one |
| Lights.RPLight.Unref | Code/Native/Source/LightSystem/LightStorage.cpp:118 | the reference count drops by one |
| Lights.Light.constructor | Native/Source/LightSystem/Light.cpp:5-12 | an old-style light has the given type, is not dirty, has slot -1, position (0,0,0) and colour (1,1,1) |
| Lights.Light.WriteToCommand | Native/Source/LightSystem/Light.cpp:19-24 | the command gains slot, type, position and colour, in that order |
| Lights.Light.PayloadRoundTrip | Native/Source/LightSystem/Light.cpp:19-24 | the fields read back from the payload, and no IES profile is written: the payload does not read as an RPLight payload |
| Lights.Light.PayloadShape | Native/Source/LightSystem/Light.cpp:19-24 | two integers and two vectors, one integer fewer than an RPLight writes |
| Atlas.ShadowAtlas.FreeRegion | Code/Native/Source/LightSystem/LightStorage.cpp:149 | the region's tiles become free and the free is logged |
| Atlas.ShadowAtlas.FindAndReserveRegion | Code/Native/Source/LightSystem/LightStorage.cpp:161 | the result is either a w-by-h region whose tiles were all free, now reserved, and the first such in row-major order; or the failure value when none fits, with nothing reserved; the call is logged |
| SlotTables.FirstEmpty | Code/Native/Source/LightSystem/LightStorage.cpp:44-47 | the result is -1 exactly when no entry is empty; otherwise it is an empty index and every index before it is taken |
| SlotTables.Highest | Code/Native/Source/LightSystem/LightStorage.cpp:107-110 | the result is 0 or a taken index, and no taken index lies above it |
| SlotTables.FullIffCount | Code/Native/Source/LightSystem/LightStorage.cpp:44-50 | the slot search fails exactly when the count of taken entries equals the capacity |
| SlotTables.OccupiedFill | Code/Native/Source/LightSystem/LightStorage.cpp:52-55 | filling an empty entry raises the count by one |
| SlotTables.OccupiedClear | Code/Native/Source/LightSystem/LightStorage.cpp:99-105 | emptying a taken entry lowers the count by one |
| SlotTables.EmptyOccupied | Code/Native/Source/LightSystem/LightStorage.cpp:13-18 | a table of empty entries counts none |
| SlotTables.OccupiedBound | Code/Native/Source/LightSystem/LightStorage.cpp:52 | the count never exceeds the capacity |
| SlotTables.HighestFill | Code/Native/Source/LightSystem/LightStorage.cpp:53 | filling entry s makes the highest index the larger of the old one and s |
| SlotTables.HighestClearBelow | Code/Native/Source/LightSystem/LightStorage.cpp:107-110 | emptying an entry other than the highest keeps the highest, so the rescan is needed only for the max |
| SlotTables.ClearedSlotReusable | Code/Native/Source/LightSystem/LightStorage.cpp:99 | after a slot is emptied, the next search finds it or an earlier slot |
| SlotTables.PlaceSound | Code/Native/Source/LightSystem/LightStorage.cpp:74-89 | placing sources gives each placed source a distinct slot that was empty before, stops at the first one for which no slot is left, and leaves the table otherwise unchanged |
| SlotTables.PlaceKeepsTaken | Code/Native/Source/LightSystem/LightStorage.cpp:84 | placing never empties or overwrites a taken entry |
| Storage.LightStorage.constructor | Code/Native/Source/LightSystem/LightStorage.cpp:6-24 | both tables are all empty; the stored-light count, both max indices and the source count are 0; the command list is empty, where the source starts with none, and the atlas has nothing reserved |
| Storage.LightStorage.SetCommandList | Code/Native/Source/LightSystem/LightStorage.cpp:31-33 | from then on the storage's commands go to the list it is given; the tables and the atlas are untouched |
| Storage.LightStorage.FindLightSlot | Code/Native/Source/LightSystem/LightStorage.cpp:44 | returns the first empty light slot, or -1 |
| Storage.LightStorage.FindShadowSlot | Code/Native/Source/LightSystem/LightStorage.cpp:77 | returns the first empty shadow slot, or -1 |
| Storage.LightStorage.UpdateMaxLightIndex | Code/Native/Source/LightSystem/LightStorage.cpp:108-110 | the max index becomes the highest taken light slot |
| Storage.LightStorage.AddLight | Code/Native/Source/LightSystem/LightStorage.cpp:36-67 | a light that holds a slot is refused and nothing changes. Otherwise a reference is taken first, so a full table keeps that reference and stores nothing. On success the light sits at the first empty slot and records it, the count rises by one, the max index is the larger of the old one and the slot, no command is emitted, the dirty flag is kept, and a shadow-casting light's sources are placed. When the shadows are set up, a point light with no sources gets exactly 6 fresh sources without regions; on every other path the light's source list is the one it had |
| Storage.LightStorage.SetupShadows | Code/Native/Source/LightSystem/LightStorage.cpp:70-90 | the light creates its sources; each in turn takes the first empty shadow slot and records it; the max source index covers the slots; placement stops at the first source for which no slot is left |
| Storage.LightStorage.AssignShadowSlots | Code/Native/Source/LightSystem/LightStorage.cpp:74-89 | the source table and the recorded slots are what `Place` gives; sources after the first failure keep their old slot |
| Storage.LightStorage.PlaceSource | Code/Native/Source/LightSystem/LightStorage.cpp:77-88 | one source takes the first empty shadow slot, or nothing changes when the table is full |
| Storage.LightStorage.RemoveLight | Code/Native/Source/LightSystem/LightStorage.cpp:93-119 | an unslotted light is refused and nothing changes. Otherwise its entry is emptied, exactly one remove command carrying the slot is appended, the count drops by one, and the max index is rescanned only if the slot was the max. The light loses its slot and one reference; the shadow table is untouched |
| Storage.LightStorage.StoreDirtyLights | Code/Native/Source/LightSystem/LightStorage.cpp:126-136 | the command list gains exactly the store commands of the taken, dirty light slots, in slot order; every stored light ends clean; the dirty lights' sources are updated; every source not owned by a dirty stored light keeps its resolution, lens and update flag |
| Storage.StoreCommandsPrefix | Code/Native/Source/LightSystem/LightStorage.cpp:126 | slots past the max index are empty, so scanning only up to the max emits the same commands as scanning the whole table |
| Storage.RefreshLight | Code/Native/Source/LightSystem/LightStorage.cpp:130-133 | one dirty light: its sources are updated, its store command carries its payload, and its flag is cleared |
| Storage.LightStorage.PlaceDirtySources | Code/Native/Source/LightSystem/LightStorage.cpp:138-168 | the collected sources are the taken source slots up to the max index that need an update, in slot order. The atlas log holds every free of their old regions before any reservation, then one reservation per source of `get_required_tiles(resolution)` tiles square. Each source holds the region returned for its last request, the successful regions are disjoint, and every table source that was not collected keeps its region |
| Storage.CollectPending | Code/Native/Source/LightSystem/LightStorage.cpp:142-152 | the collection loop gathers exactly `DirtySources` of the scanned prefix and frees each one's region if it has one |
| Storage.ReserveRegions | Code/Native/Source/LightSystem/LightStorage.cpp:158-168 | the atlas log gains one reservation per collected source, in order, with the requested square size |
| Storage.DirtySourcesInTable | Code/Native/Source/LightSystem/LightStorage.cpp:143-144 | every collected source comes from the scanned table |
| Storage.RequestedTiles | Code/Native/Source/LightSystem/LightStorage.cpp:160 | one tile count per collected source: the atlas's required tiles for that source's resolution |
| StageManagement.StageManager.constructor | Code/StageManager.py:37-47 | no stages, inputs, pipes, uniform blocks, previous-frame pipes or defines; not created; empty log |
| StageManagement.StageManager.AddStage | Code/StageManager.py:52-63 | a stage of an unknown kind is refused with an error, and so is any stage after setup; otherwise it is appended and nothing else changes |
| StageManagement.StageManager.AddInput | Code/StageManager.py:65-67 | inserts or overwrites exactly one input key |
| StageManagement.StageManager.Define | Code/StageManager.py:69-71 | inserts or overwrites exactly one define key |
| StageManagement.StageManager.Setup | Code/StageManager.py:73-156 | sets created; the stage list becomes the stages sorted by stage order, followed by the previous-pipes stage when a previous-frame pipe was requested; the tables become `SetupTables` of the sorted stages |
| StageManagement.StageManager.ApplyStep | Code/StageManager.py:88-137 | one binding or registration changes the tables as the step function says |
| StageManagement.Rank | Code/StageManager.py:80-81 | the rank of a known kind is its first index in the stage order. The source raises ValueError for an unknown kind, but that case cannot arise: `add_stage` refuses unknown kinds and `StageManager.Valid` keeps every staged stage known; the model ranks an unknown kind after all known ones |
| StageManagement.SortByCorrect | Code/StageManager.py:79-81 | the keyed sort is ordered by key, is a permutation of its input, and keeps stages of equal key in their original order, as Python's stable sort does |
| StageManagement.SortKeepsKinds | Code/StageManager.py:79-81 | sorting admits no stage of a new kind |
| StageManagement.PreviousPipeName | Code/StageManager.py:90-94 | the pipe `PreviousFrame::X`, for X without `::`, names the previous-frame pipe X |
| StageManagement.SplitLastWhole | Code/StageManager.py:94 | a name without a separator is its own last piece |
| StageManagement.BindPreviousKeepsTextures | Code/StageManager.py:95-102 | binding a previous-frame pipe creates its texture only on the first request and reuses it after |
| StageManagement.RunEffects | Code/StageManager.py:88-137 | running steps keeps one texture per previous-frame pipe; the previous-frame pipes grow by exactly the requested ones and the pipes by exactly the registered ones |
| StageManagement.ProcessStageEffects | Code/StageManager.py:84-137 | one stage keeps one texture per previous-frame pipe and adds the pipes it requests and produces |
| StageManagement.ProcessStagesEffects | Code/StageManager.py:84-137 | over the stages, each previous-frame pipe has exactly one texture, the previous-frame pipes are exactly the requested ones, and the pipes are exactly those produced so far |
| StageManagement.TransfersEffects | Code/StageManager.py:144-153 | one log entry per previous-frame pipe: a transfer from the current pipe to its texture when the pipe was produced, an error otherwise |
| StageManagement.FinishEffects | Code/StageManager.py:141-156 | finishing keeps one texture per previous-frame pipe, the previous-frame pipes and the pipes |
| StageManagement.StageFindsProducedPipes | Code/StageManager.py:83-108 | a stage is processed on the tables the stages before it left, and while it binds its input pipes the pipes on hand are exactly the initial ones and those the earlier stages produced |
| StageManagement.StageBindsPipe | Code/StageManager.py:104-108 | a stage binds an ordinary input pipe as a shader input exactly when it is an initial pipe or one an earlier stage produced, and otherwise logs the pipe as missing for that stage |
| StageManagement.SetupEffects | Code/StageManager.py:73-156 | after setup, the previous-frame pipes are exactly those the sorted stages request, each has one texture, the pipes are exactly those produced, and the previous-pipes stage is appended exactly when some previous-frame pipe was requested |
| StageManagement.ApplyKeepsTextures | Code/StageManager.py:88-137 | one step keeps one texture per previous-frame pipe, and adds to the previous-frame pipes only the one a `PreviousFrame::` binding names |
| PyValues.Trunc | Code/PluginInterface/PluginSetting.py:84 | converting a float to an integer truncates toward zero: a non-negative value goes to the integer at most 1 below it, a negative one to the integer at most 1 above it |
| PyValues.StripRemovesEnds | Code/PluginInterface/PluginSetting.py:47-48 | `strip()` returns a slice of the string with only whitespace cut off before and after it |
| PyValues.StripIdempotent | Code/PluginInterface/PluginSetting.py:35 | stripping twice strips nothing more |
| PyValues.UpperCases | Code/PluginInterface/PluginSetting.py:35 | upper-casing leaves no lower-case ASCII letter, keeps everything else, and is idempotent |
| PyValues.ParseIntShow | Code/PluginInterface/PluginSetting.py:88 | `int()` reads back the decimal string `str()` writes |
| PyValues.ToRealOfInt | Code/PluginInterface/PluginSetting.py:99-103 | where `int()` succeeds on a non-float, `float()` succeeds with the same value |
| PyValues.PyEqSymmetric | Code/PluginInterface/PluginSetting.py:130 | Python equality, as `in` uses it, is symmetric |
| PyValues.ContainsElement | Code/PluginInterface/PluginSetting.py:130 | every element of a list is `in` it |
| PyValues.Pop | Code/DayTime/DayTimeSetting.py:76 | `pop` of a present key returns its value and the mapping without it; a missing key is a key error |
| PyValues.Unpack2 | Code/DayTime/DayTimeSetting.py:107 | two-name unpacking succeeds exactly on lists and strings of length two |
| PluginSettings.IntAccept | Code/PluginInterface/PluginSetting.py:87-91 | an integer setting accepts a value iff its integer conversion lies in [min, max], and then stores that integer |
| PluginSettings.BoolAccept | Code/PluginInterface/PluginSetting.py:115-118 | a flag refuses everything but integers and booleans, and stores exactly true or false by truthiness |
| PluginSettings.EnumAccept | Code/PluginInterface/PluginSetting.py:129-132 | an enumeration accepts exactly the listed values |
| PluginSettings.AcceptAdmissible | Code/PluginInterface/PluginSetting.py:65-66 | a value the setting holds is accepted unchanged, so default and value agree after loading |
| PluginSettings.LoadAdditional | Code/PluginInterface/PluginSetting.py:82-127 | on success exactly the type's own keys are consumed: `range` for INT and FLOAT, `values` for ENUM, none for BOOL |
| PluginSettings.BaseKeysPresent | Code/PluginInterface/PluginSetting.py:30-32 | no base key is missing exactly when all four are present |
| PluginSettings.LoadMissingKey | Code/PluginInterface/PluginSetting.py:30-32 | an entry lacking a base key fails with the first missing one of label, description, type, default |
| PluginSettings.LoadUnknownType | Code/PluginInterface/PluginSetting.py:35-42 | a type whose stripped, upper-cased name has no setting class is refused |
| PluginSettings.LoadedEntry | Code/PluginInterface/PluginSetting.py:26-73 | a loaded entry had all base keys, string names and a known type |
| PluginSettings.LoadTypedSucceeds | Code/PluginInterface/PluginSetting.py:57-70 | loading a known type succeeds exactly when its extra keys load, the default is accepted and no key is left, in both directions |
| PluginSettings.LoadTypedOk | Code/PluginInterface/PluginSetting.py:57-70 | when loading a known type succeeds, the setting records the type name and the stripped label and description, its default is its value and accepted unchanged, the runtime flags are on exactly when present and truthy, and the entry has no key the type does not read |
| PluginSettings.LoadedDefault | Code/PluginInterface/PluginSetting.py:65-66 | a loaded setting's default equals its value and is the accepted form of the entry's default |
| PluginSettings.LoadNoLeftover | Code/PluginInterface/PluginSetting.py:69-70 | a loaded entry has no key its type does not read |
| PluginSettings.LoadRejectsStrangeKey | Code/PluginInterface/PluginSetting.py:69-70 | an entry with a key no type reads never loads |
| PluginSettings.LoadRuntimeFlags | Code/PluginInterface/PluginSetting.py:51-55 | runtime and shader_runtime are set exactly when their key is present with a truthy value, and are off otherwise |
| PluginSettings.LoadFields | Code/PluginInterface/PluginSetting.py:45-48 | the loaded setting records the type name, and the label and description stripped |
| PluginSettings.LoadIntRange | Code/PluginInterface/PluginSetting.py:83-85 | an integer setting's range is the integer conversion of the first two items of `range` |
| PluginSettings.PluginSetting.constructor | Code/PluginInterface/PluginSetting.py:15-23 | a fresh setting has no value, default, type, label or description, and both runtime flags off |
| PluginSettings.PluginSetting.SetValue | Code/PluginInterface/PluginSetting.py:87-132 | stores the accepted value, or reports the refusal and keeps the old value |
| PluginSettings.PluginSetting.LoadFromYaml | Code/PluginInterface/PluginSetting.py:26-73 | the result is what `Load` gives for the entry: the error, or a fresh setting whose fields are the loaded ones |
| DayTimeSettings.TrimCommas | Code/DayTime/DayTimeSetting.py:60 | `rstrip(",")` removes a run of trailing commas and leaves a string not ending in a comma |
| DayTimeSettings.BracketedShape | Code/DayTime/DayTimeSetting.py:58-60 | a serialisation opens with "[" and closes with "]" |
| DayTimeSettings.BracketedEmpty | Code/DayTime/DayTimeSetting.py:58-60 | a setting without curves serialises as "[]" |
| DayTimeSettings.BracketedJoin | Code/DayTime/DayTimeSetting.py:58-60 | when the last curve text does not end in a comma, the serialisation is "[" and the texts joined by commas and "]" |
| DayTimeSettings.BracketedLosesTrailingComma | Code/DayTime/DayTimeSetting.py:60 | a last curve text ending in a comma loses that comma too |
| DayTimeSettings.AnyModifiedExists | Code/DayTime/DayTimeSetting.py:51-56 | the scan answers yes exactly when some curve reports itself modified |
| DayTimeSettings.DayTimeSetting.WasModified | Code/DayTime/DayTimeSetting.py:51-56 | true iff some curve reports itself modified |
| DayTimeSettings.DayTimeSetting.Serialize | Code/DayTime/DayTimeSetting.py:58-60 | the bracketed, comma-separated curve texts in curve order |
| DayTimeSettings.DayTimeSetting.SetCvPoints | Code/DayTime/DayTimeSetting.py:62-64 | point set i goes to curve i; curves without a point set keep theirs; more point sets than curves raise an index error |
| DayTimeSettings.Curve.SetCvPoints | Code/DayTime/DayTimeSetting.py:64 | the curve's points are replaced |
| DayTimeSettings.BaseKeysPresent | Code/DayTime/DayTimeSetting.py:71-73 | no base key is missing exactly when all four are present |
| DayTimeSettings.LoadMissingKey | Code/DayTime/DayTimeSetting.py:71-73 | an entry lacking a base key fails with the first missing one of type, label, description, default |
| DayTimeSettings.LoadUnknownType | Code/DayTime/DayTimeSetting.py:76-82 | a type whose stripped, upper-cased name has no setting class is refused |
| DayTimeSettings.LoadBlankType | Code/DayTime/DayTimeSetting.py:77-80 | a blank type names the base class, which has no type-specific loading, so the entry fails to initialise |
| DayTimeSettings.LoadedEntry | Code/DayTime/DayTimeSetting.py:66-100 | a loaded entry had all base keys, string names and a known type |
| DayTimeSettings.LoadNoLeftover | Code/DayTime/DayTimeSetting.py:97-98 | a loaded entry has no key its type does not read |
| DayTimeSettings.LoadRejectsStrangeKey | Code/DayTime/DayTimeSetting.py:97-98 | an entry with a key no type reads never loads |
| DayTimeSettings.LoadFields | Code/DayTime/DayTimeSetting.py:84-87 | the loaded setting records the type name, and the label and description stripped |
| DayTimeSettings.LoadFactor | Code/DayTime/DayTimeSetting.py:109-116 | the optional factor key is consumed, and a factor that was given lies within [0.001, 1000] once scaled by 0.2 |
| DayTimeSettings.LoadAdditional | Code/DayTime/DayTimeSetting.py:106-116 | only the type's own keys are consumed; a scalar's unit is one of degree, percent and meter; the blank type name has no loader |
| DayTimeSettings.LoadScalar | Code/DayTime/DayTimeSetting.py:106-147 | a loaded scalar has a known unit, a factor of 1 or within range, min < max, a default within [min, max], and one curve starting at the default's linear position |
| DayTimeSettings.LoadColor | Code/DayTime/DayTimeSetting.py:177-213 | a loaded colour has a default of three numbers within 0..255 and red, green and blue curves starting at component/255 |
| DayTimeSettings.ToLinearSpace | Code/DayTime/DayTimeSetting.py:138-139 | the result always lies in [0, 1] |
| DayTimeSettings.FromLinearSpaceInRange | Code/DayTime/DayTimeSetting.py:141-142 | every position maps back into [min, max] |
| DayTimeSettings.LinearSpaceRoundTrip | Code/DayTime/DayTimeSetting.py:138-142 | a value within the range sits at its exact relative position, and mapping it back gives the value |
| DayTimeSettings.ScalarCurve | Code/DayTime/DayTimeSetting.py:144-147 | the curve is built only from numeric, distinct range ends and a default `float()` accepts; it has no colour and starts at the default's linear position |
| DayTimeSettings.ScalarEmptyRange | Code/DayTime/DayTimeSetting.py:139 | equal range ends make building the curve divide by zero |
| DayTimeSettings.ColorCurves | Code/DayTime/DayTimeSetting.py:200-213 | the curves are built exactly when each component's curve is: three curves coloured red, green and blue, each starting at its component over 255 |
| DayTimeSettings.ScalarDefaultRange | Code/DayTime/DayTimeSetting.py:118-122 | a scalar default is accepted iff `float()` of it lies within [min, max]; a converted default outside the range is refused with that value |
| DayTimeSettings.ColorDefault | Code/DayTime/DayTimeSetting.py:177-189 | a colour default is accepted, unchanged, iff it is a list of exactly 3 numbers each within 0..255; a component error names a numeric component of the list |
| DayTimeSettings.ColorDefaultAgrees | Code/DayTime/DayTimeSetting.py:185-187 | the check as written and as intended accept the same defaults and differ only in the error for a component out of range |
| DayTimeSettings.ColorMessageFails | Code/DayTime/DayTimeSetting.py:186-187 | for the default [300, 0, 0] the check as written fails with a type error, not a bad-setting error |
| DayTimeSettings.DayTimeSetting.SetDefaultValue | Code/DayTime/DayTimeSetting.py:118-122 | stores the checked default, or reports the refusal and keeps the old default. A COLOR default is checked by the corrected check `ColorDefault`, so a component out of range is refused where the code as written raises a type error (see Findings) |
| DayTimeSettings.DayTimeSetting.InitCurves | Code/DayTime/DayTimeSetting.py:144-147 | one fresh curve per starting value, in order |
| DayTimeSettings.DayTimeSetting.LoadFromYaml | Code/DayTime/DayTimeSetting.py:66-100 | the result is what `Load` gives for the entry: the error, or a fresh setting whose fields and curves are the loaded ones. A COLOR default goes through the corrected check `ColorDefault` (see Findings) |
| SurfaceMesh.MyGeom.GetFanning | spacedrive/surface_mesh.py:300-305 | returns the fan of the polygon |
| SurfaceMesh.FanShape | spacedrive/surface_mesh.py:300-305 | a polygon of n >= 3 corners gives n-2 triangles, triangle k being [p0, p(k+1), p(k+2)]; fewer than 3 corners give none |
| SurfaceMesh.FanCoversPolygon | spacedrive/surface_mesh.py:303-304 | every triangle corner is a polygon corner, and for n >= 3 every polygon corner is in some triangle |
| SurfaceMesh.MyGeom.SplitVerts | spacedrive/surface_mesh.py:139-151 | the vertices become `Gather` of the old ones and the polygons `Renumber` of the old ones; normals of another count are cleared |
| SurfaceMesh.MyGeom.SplitPolygon | spacedrive/surface_mesh.py:146-149 | one polygon's corners are copied to the end of the vertex list, and the polygon becomes the run of their new indices |
| SurfaceMesh.SplitShape | spacedrive/surface_mesh.py:141-149 | after splitting, each polygon keeps its length, the vertex count equals the total number of corners, and every index is in range |
| SurfaceMesh.RenumberEntry | spacedrive/surface_mesh.py:149 | corner k of polygon p is numbered by the corners before polygon p plus k, so indices run 0, 1, 2, ... in polygon order |
| SurfaceMesh.RenumberCounts | spacedrive/surface_mesh.py:145-149 | the renumbered polygons, read in order, are exactly 0 .. corners-1 |
| SurfaceMesh.SplitCopies | spacedrive/surface_mesh.py:148 | each new vertex has the coordinates of the original vertex it replaces |
| SurfaceMesh.MyGeom.GetVertpolys | spacedrive/surface_mesh.py:394-406 | `vpolys` becomes the vertex-to-polygon index of the current polygons |
| SurfaceMesh.PolysOfMembership | spacedrive/surface_mesh.py:403-406 | p is listed for v iff v occurs in polygon p, and each list is strictly ascending, so no polygon appears twice |
| SurfaceMesh.MyGeom.CollectColors | spacedrive/surface_mesh.py:132-135 | `colors` becomes the distinct materials |
| SurfaceMesh.DistinctNames | spacedrive/surface_mesh.py:132-135 | the distinct materials are the same names without duplicates, in order of first occurrence |
| SurfaceMesh.IndexOf | spacedrive/surface_mesh.py:134 | the result is the first position of the name |
| SurfaceMesh.MyGeom.constructor | spacedrive/surface_mesh.py:61-135 | vertices placed as (v + center) * scale, or the example box when vertices or polygons are missing; materials as given, else the box's six names, else "Preview" per polygon; split when not smooth; colours de-duplicated |
| SurfaceMesh.MyGeom.PlaceVerts | spacedrive/surface_mesh.py:90-93 | each vertex is offset by the centre and scaled, coordinate by coordinate |
| SurfaceMesh.PlaceAll | spacedrive/surface_mesh.py:90-93 | one placed vertex per input vertex, with coordinate i equal to (v[i] + center[i]) * scale |
| SurfaceMesh.CreateMeshPolys | spacedrive/surface_mesh.py:969-973 | returns the grid triangles |
| SurfaceMesh.GridShape | spacedrive/surface_mesh.py:969-973 | a width-w grid has 2*w*w triangles, all indices below (w+1)^2 |
| SurfaceMesh.GridCellAt | spacedrive/surface_mesh.py:971-973 | the triangles of cell (y, x) sit at positions 2*(w*y+x) and the next one, and are [v, v+1, v+w+1] and [v+1, v+w+2, v+w+1] with v = (w+1)*y + x |

## Left out

- `LightStorage::update` is modelled as its two passes, `StoreDirtyLights` and `PlaceDirtySources`, and not as one method. The first pass's promises and the second pass's promises are each proved.
- Storage.LightStorage.PlaceDirtySources: does not state which atlas tiles stay occupied once several frees and reservations have run. It states the order of the atlas calls, the regions each source holds, and that the successful regions are disjoint.
- Lights.ShadowSource.constructor: the ShadowSource header is not part of this model. That a new source has no slot and no region, has the resolution 512 and needs an update is assumed.
- Lights.ShadowSource.SetResolution: that `set_resolution` marks the source as needing an update is assumed; the ShadowSource header is not part of this model.
- Lights.ShadowSource.SetPerspectiveLens: that `set_perspective_lens` marks the source as needing an update is assumed; the ShadowSource header is not part of this model.
- Storage.LightStorage.constructor: the command list exists and is empty from construction. The source starts with no list (`_cmd_list` is NULL) until `set_command_list` installs one, and a `remove_light` or `update` before that would dereference NULL; that failure is not modelled.
- DayTimeSettings.Load: a COLOR default is checked by the corrected `ColorDefault` of the Findings table, so a component out of range gives the bad-setting error; the code as written raises a type error there (`ColorDefaultAsWritten`, `ColorMessageFails`).
- DayTimeSettings.DayTimeSetting.LoadFromYaml: loads through `Load`, so it too models the corrected colour check, not the type error the code as written raises.
- DayTimeSettings.DayTimeSetting.SetDefaultValue: checks a COLOR default with the corrected `ColorDefault`, so `[300, 0, 0]` is refused with the bad-setting error where the code as written raises a type error.
- Lights.ShadowSource.SetRegion: the ShadowSource header is not part of this model, so whether `set_region` clears the update flag is not known. The model keeps the flag as it is.
- `ShadowAtlas` is not part of this model. It is modelled as a set of reserved tiles with first-fit reservation, and `get_required_tiles` is a function the atlas is built with. The storage builds its atlas with a resolution of 4096; how that becomes a number of tiles per side lies in `ShadowAtlas`, so the model's storage takes the tiles per side as a constructor argument.
- The light header is not part of this model. Shadow casting, shadow-map resolution and near plane are constructor arguments. `MAX_LIGHT_COUNT` and `MAX_SHADOW_SOURCES` are constructor arguments too. The integer values of `RPLight::LightType` are assumed to be 0, 1 and 2 for the empty, point and spot light, and every payload's type field depends on that assumption.
- Reference counting is a plain counter, with no destruction. The console messages are not modelled; the outcome values name the failures instead.
- Lights.RPLight.InitShadowSources: light types other than the point light create no sources here. Their `init_shadow_sources` is not part of this model.
- The lens and field-of-view maths of `set_perspective_lens` is not modelled. Only its arguments are recorded.
- `IESDataset` data is not modelled.
- `StageManager._write_autoconfig`, `set_shaders` and `update_stages` are not modelled. They do file I/O, embed the time, or only forward calls to the stages.
- Calls into stages, textures and uniform blocks are events in an append-only log. Stage objects are values. `Image` and `UpdatePreviousPipesStage` are not part of this model. The window size and texture format of previous-frame textures are not modelled.
- `consume` from `Util/Generic` is not part of this model. It is taken to be `dict.pop`.
- PyValues.ToInt: accepts only plain decimal integer literals with an optional sign and surrounding whitespace. Python also accepts underscores and non-ASCII digits.
- PyValues.ToReal: accepts only plain decimal literals. Exponents, `inf`, `nan` and underscores are not modelled.
- PyValues.Upper: upper-cases ASCII letters only.
- Floats are exact reals: the rounding of Python floats is not modelled.
- PluginSettingFLOAT is modelled only as far as its range and value check. The day-time scalar's exponential scaling, `format` and `get_value` are not modelled.
- A curve's modified flag and its text are inputs of the model. The editor curve class is not part of this model.
- What is left in the mapping after a failed load is not modelled; only the error is.
- PyValues.Yaml has no mapping value. A YAML mapping given as `range`, `values` or `default` cannot be expressed, so what Python does with one (subscripting it, or refusing ENUM values that are not a list) is not modelled.
- `myGeom`'s UV mapping, normals computation, tangents, textures and `build` are left out. They are float vector maths over Panda3D types.
- SurfaceMesh.CreateMeshPolys: covers only the polygon loop of `create_mesh`. The vertex grid built with `frange` depends on float accumulation. With width 0, `2 / width` raises first, and a negative width never ends that loop.
- SurfaceMesh.MyGeom.SplitVerts: requires every polygon index to be a valid, non-negative vertex index. Python's negative indexing and the index error are not modelled.
- SurfaceMesh.MyGeom.GetVertpolys: requires the same, for the same reason.
- SurfaceMesh.MyGeom.constructor: `None` and an empty list are both taken as a missing argument, as Python's truthiness does. `vpolys` starts empty. The `tangents`, `uvs`, `mapping` and `fit_uvs` arguments are left out. It requires a centre of three coordinates and vertices of at least three coordinates, so the IndexError Python raises for shorter input is not modelled.

## Findings

| source | as written | input that shows it | evidently intended | confidence | as-written member | corrected member |
|---|---|---|---|---|---|---|
| Code/DayTime/DayTimeSetting.py:186-187 | the error message adds a number to a string, which raises a type error | a COLOR default of [300, 0, 0] | a bad-setting error naming the component out of range | high, not executed | DayTimeSettings.ColorDefaultAsWritten | DayTimeSettings.ColorDefault |
