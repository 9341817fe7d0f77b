# Audio volume categories, in Dafny

A model of the volume side of a Unity audio manager, with proofs about it. It has four parts.

- **Category table (`AudioManager`).** An array of per-category settings indexed by the category's ordinal, plus a name dictionary. The array grows to `max(index + 1, 2 * length)` when a category does not fit.
- **Volume setting (`AudioCategorySettings`).** A small state machine over `(volume, defaultVolume, hasChangedFromDefault)`. It clamps, ignores approximately-equal writes, keeps a sticky dirty flag, applies a default only while clean, and saves and loads through PlayerPrefs under `"Volume_" + category`.
- **Global override (`GlobalCategorySettings`).** It mirrors the volume into `AudioListener.volume` after every set and every load.
- **Listener registry and emitters.** A linked list of listener nodes with a stack of recycled nodes. A dispatch loop notifies the listeners in list order and swallows their exceptions. `AudioCategorizer` scales its AudioSource's volume by its category's volume.

It also models the dependency-injection sample's `ScoreManager`, a 32-bit `int` accumulator.

Modules:

- `Volumes` (volumes.dfy): clamping, `Mathf.Approximately` on reals, categories and PlayerPrefs keys.
- `VolumeSetting` (volume_setting.dfy): the setting's state machine as pure functions, plus lemmas about sequences of operations.
- `CategorySettings` (category_settings.dfy): the `AudioCategorySettings` class. It includes the Global override, whose `masterSink` is set only by the `Global` constructor, along with `PlayerPrefs` and the master sink as objects.
- `Audio` (audio_manager.dfy): `AudioManager`, `AudioCategorizer`, `ListenerNode` and the registry bookkeeping.
- `Scoring` (score_manager.dfy): `ScoreManager`.

How the source is represented:

- Volumes are `real`.
- `AudioCategory` is a `nat` ordinal; Global, Fx, Speech and Music are 0 to 3.
- The LinkedList and the Stack are `seq<ListenerNode>` fields. The stack's top is the last element.
- A ghost `Registry` value records four things:
  - what each node holds;
  - each listener's `RegistryNode` and position;
  - the listener driving each AudioSource;
  - the number of nodes ever made.
- `Valid()` ties this record to the heap.
- Events are values:
  - A setting's event is returned as `Option<Change>`.
  - Binding the manager's handler increments `boundHandlers`.
  - The static `OnVolumeChanged` event is a log of `CategoryChange` records.
  - Each listener's exception is reported as a `Delivery`.

Behaviour of the code that the model keeps:

- `ReApplyVolume` sets the volume to its own value, and `Mathf.Approximately` says a value equals itself. So it changes nothing and raises no event.
- `ReApplyVolumes` has no null check. An empty slot throws and ends the loop.
- `AddVolumeListener` sends no initial notification. The categorizer's `OnEnable` calls `UpdateVolume` itself.
- `GetCategorySettings(int)` lets index == Length past its guard, and the array access then throws. The model keeps this as written in one member and uses the corrected lookup everywhere else (see Findings).

## Model

| member | source | states |
|---|---|---|
| Volumes.Clamp01 | Audio/AudioCategorySettings.cs:54 | The result lies in [0, 1]. It is the input itself when the input is already in [0, 1], 0 at or below 0, and 1 at or above 1. |
| Volumes.Approx | Audio/AudioCategorySettings.cs:55 | Values closer than the absolute floor always compare equal. Two volumes in [0, 1] that compare equal differ by less than the relative tolerance, one millionth. |
| Volumes.ApproxReflexive | Audio/AudioCategorySettings.cs:55 | A volume is approximately equal to itself, so writing the current volume is a no-op. |
| Volumes.ApproxSymmetric | Audio/AudioCategorySettings.cs:55 | The approximate comparison does not depend on argument order. |
| Volumes.AsciiLower | Audio/AudioCategorySettings.cs:33 | The default name has the category text's length, each letter lower-cased and no upper-case letter left. |
| Volumes.CategoryText | Audio/AudioCategorySettings.cs:33 | The text is never empty. A named category starts with a capital letter, and any other ordinal prints as decimal digits only. |
| Volumes.PrefsKey | Audio/AudioCategorySettings.cs:44 | The PlayerPrefs key is `"Volume_"` followed by the category's text. |
| Volumes.PrefsKeyInjective | Audio/AudioCategorySettings.cs:44 | Distinct categories save under distinct keys. |
| Volumes.CategoryTextInjective | Audio/AudioCategorySettings.cs:33 | Distinct categories print as distinct text: the named values and the unnamed ordinals never collide. |
| Volumes.NatTextInjective | Audio/AudioCategorySettings.cs:44 | Distinct unnamed ordinals print as distinct decimal text. |
| VolumeSetting.Initial | Audio/AudioCategorySettings.cs:38-45 | A fresh setting is valid and clean, and keeps the default it was given. |
| VolumeSetting.SetVolume | Audio/AudioCategorySettings.cs:52-69 | The setter keeps the volume in [0, 1] and never clears dirty. It raises no event exactly when the state is unchanged, exactly when the clamped input is approximately the current volume. Otherwise the volume becomes the clamped input and the event carries (previous, new). Dirty is set unless `ignoreDirty`. |
| VolumeSetting.SetDefaultVolume | Audio/AudioCategorySettings.cs:71-83 | The default is always stored and dirty never changes. A dirty setting keeps its volume and raises nothing. A clean one takes the clamped default unless it is approximately the current volume. |
| VolumeSetting.ReApplyVolume | Audio/AudioCategorySettings.cs:85-88 | Re-applying keeps the default and validity. It raises an event exactly when the state moves. |
| VolumeSetting.Save | Audio/AudioCategorySettings.cs:90-98 | A dirty setting writes its volume under its key and leaves every other key alone. A clean one leaves the store unchanged. |
| VolumeSetting.Load | Audio/AudioCategorySettings.cs:100-110 | Load keeps the default and validity, never clears dirty, and never dirties without a saved entry. From any state, a saved entry moves the volume to the clamped saved value, and a missing one to 1, unless the target is approximately the current volume. It raises exactly when the volume moves, and the event carries (previous, new). |
| VolumeSetting.ReApplyIsNoOp | Audio/AudioCategorySettings.cs:85-88 | Re-applying a valid setting's volume changes nothing and raises no event. |
| VolumeSetting.LoadMissingKey | Audio/AudioCategorySettings.cs:100-106 | Without a saved entry, Load leaves dirty as it was and ends at volume 1, unless 1 is within tolerance of the current volume. |
| VolumeSetting.LoadPresentKey | Audio/AudioCategorySettings.cs:107-110 | With a saved entry, from any state, the volume becomes the clamped saved value unless that is approximately the current volume, and Load dirties exactly when it moves. |
| VolumeSetting.SaveThenLoadRestores | Audio/AudioCategorySettings.cs:90-110 | Save on a dirty setting, then Load on a fresh one, restores the saved volume, or 1 when the saved volume is within tolerance of 1. The loaded setting is dirty exactly when its volume moved. A clean setting saves nothing. |
| VolumeSetting.DirtyIsSticky | Audio/AudioCategorySettings.cs:60-66 | Once dirty, a setting stays dirty through any sequence of set, default, re-apply and load operations. |
| VolumeSetting.RunKeepsValid | Audio/AudioCategorySettings.cs:52-61 | The volume stays in [0, 1] through any sequence of operations. |
| VolumeSetting.RunEventsChained | Audio/AudioCategorySettings.cs:60-68 | The events of any operation sequence chain from the start volume to the end volume, so the volume never moves without an event. |
| VolumeSetting.CleanStaysClean | Audio/AudioCategorySettings.cs:71-83 | Defaults, non-dirtying sets and loads without a saved entry keep a clean setting clean. |
| CategorySettings.AudioCategorySettings.constructor | Audio/AudioCategorySettings.cs:32-45 | A new setting has volume 1, default 1 and is clean. Its name is the lower-cased category text and its key is `"Volume_"` + category. |
| CategorySettings.AudioCategorySettings.Named | Audio/AudioCategorySettings.cs:38-45 | The given name and default are stored. The volume starts at 1 whatever the default, and the setting is clean. |
| CategorySettings.AudioCategorySettings.Global | GlobalCategorySettings.cs:7-11 | The Global setting is named `"global"`, has key `"Volume_Global"` and default 1, and mirrors into the master sink. |
| CategorySettings.AudioCategorySettings.SetVolume | Audio/AudioCategorySettings.cs:52-69 | The new state and event are exactly the state machine's SetVolume step. Validity holds and the bound handlers are untouched. With the Global override (GlobalCategorySettings.cs lines 20-25), after every call, no-op or not, the master sink equals the volume. |
| CategorySettings.AudioCategorySettings.SetDefaultVolume | Audio/AudioCategorySettings.cs:71-83 | The step is the state machine's SetDefaultVolume. The Global sink follows only when the setting was clean, since only then does the overridable setter run. |
| CategorySettings.AudioCategorySettings.ReApplyVolume | Audio/AudioCategorySettings.cs:85-88 | The state is unchanged and no event is raised. The Global sink still equals the volume. |
| CategorySettings.AudioCategorySettings.Save | Audio/AudioCategorySettings.cs:90-98 | The store becomes the state machine's Save of the current state under the setting's key. |
| CategorySettings.AudioCategorySettings.Load | Audio/AudioCategorySettings.cs:100-110 | The step is the state machine's Load from the store under the setting's key. With the Global override (GlobalCategorySettings.cs lines 13-18), after Load the master sink equals the volume. |
| Audio.ScaledVolume | Audio/AudioCategorizer.cs:37-47 | Global plays at exactly the unscaled volume. Any other category plays at a volume in [0, 1]: the product when both factors are in [0, 1], and 0 when the category volume is 0. |
| Audio.Notify | Audio/AudioCategorizer.cs:83-91 | A notification for another category changes nothing, and neither does one the listener raises on. A listener of the category that is delivered to takes the new volume as its output. Only the output can change. |
| Audio.NotifyAllIdempotent | AudioManager.cs:395-403 | Dispatching the same change twice leaves the listeners as dispatching it once. |
| Audio.RepeatedDispatchIsOnce | AudioManager.cs:177 | A setting bound k >= 1 times reaches the listeners k times, with the same effect as once. |
| Audio.DispatchIsolation | AudioManager.cs:236-243 | Each listener's outcome depends on that listener alone, whatever the others do, including raising. A delivered listener of the category takes the new volume, and a listener of another category keeps its output. |
| Audio.GrownLength | AudioManager.cs:164-166 | The grown length exceeds the index and is at least twice the old length. It is exactly one of `index + 1` or `2 * length`. |
| Audio.SaveAllEffect | AudioManager.cs:120-131 | Saving the slots in order, skipping empty ones, writes every dirty slot's volume under its key. Every key no dirty slot writes keeps its presence and value. |
| Audio.LoadLog | AudioManager.cs:97-117 | Every static event loading raises names one of the loaded categories, starts from a fresh setting's volume 1, and ends at a volume in [0, 1]. |
| Audio.LoadNothingSavedIsSilent | AudioManager.cs:97-117 | Loading all categories from an empty store raises no static volume event. |
| Audio.LoadLogBound | AudioManager.cs:97-117 | Loading n categories raises at most n static volume events. |
| Audio.ArrayCopy | AudioManager.cs:168 | The first `length` slots of the source land in the destination, which keeps its other slots. |
| Audio.Resized | AudioManager.cs:166-169 | The new table has the new size, the old table's entries in their old positions, and empty new slots. |
| Audio.AppendedOk | AudioManager.cs:247-258 | Appending a free node for an unregistered listener keeps the registry invariant: every live node holds its listener, pooled nodes hold nothing, and the node count is the peak. |
| Audio.AppendedPeak | AudioManager.cs:277-291 | Nodes are allocated only when the pool is empty, so the node count becomes `max(peak, new list length)`. |
| Audio.ListedAppended | AudioManager.cs:257 | After AddLast, the listeners in list order are the old ones followed by the new listener. |
| Audio.RemovedOk | AudioManager.cs:260-275 | Removing a registered listener's node and pushing it emptied on the pool keeps the registry invariant. |
| Audio.ListedRemoved | AudioManager.cs:269 | After Remove, the listeners in list order are the old ones without the removed one. The rest keep their relative order. |
| Audio.AudioCategorizer.constructor | Audio/AudioCategorizer.cs:10-28 | A new component has no cached AudioSource and no RegistryNode, an unscaled volume of 0 and its serialized category. |
| Audio.AudioCategorizer.Awake | Audio/AudioCategorizer.cs:31-35 | The AudioSource is cached and the unscaled volume becomes its current volume. Nothing else changes. |
| Audio.AudioCategorizer.UpdateVolume | Audio/AudioCategorizer.cs:37-47 | The output becomes `ScaledVolume(category, unscaled, manager volume)`. Writing through a missing or destroyed AudioSource raises and changes nothing. |
| Audio.AudioCategorizer.SetCategory | Audio/AudioCategorizer.cs:49-53 | The category is stored, then the output is recomputed for the new category. |
| Audio.AudioCategorizer.SetUnscaledVolume | Audio/AudioCategorizer.cs:55-59 | The unscaled volume is stored, then the output is recomputed with it. |
| Audio.AudioCategorizer.OnVolumeChanged | Audio/AudioCategorizer.cs:83-91 | Another category leaves everything unchanged. A matching category sets the output to the new volume, unscaled, unless the AudioSource is missing or destroyed, in which case it raises. |
| Audio.AudioCategorizer.OnEnable | Audio/AudioCategorizer.cs:63-70 | The categorizer registers (idempotently: the list is unchanged if it already was), then computes its initial output. The manager stays valid. |
| Audio.AudioCategorizer.OnDisable | Audio/AudioCategorizer.cs:72-81 | While shutting down, or when not registered, the registry and the views are unchanged. Otherwise the categorizer's node leaves the list with the other nodes in order, is cleared and pushed on the pool, and the views lose exactly its entry. |
| Audio.AudioManager.constructor | AudioManager.cs:59-61 | A new manager has an empty table, an empty list and an empty pool, and is valid. |
| Audio.AudioManager.GetCategorySettingsAsWritten | AudioManager.cs:139-147 | The lookup as written: null below 0 and above Length, the slot inside, and a fault at index == Length. |
| Audio.AudioManager.GetCategorySettingsAt | AudioManager.cs:139-147 | The corrected lookup is non-null exactly for an index inside the table whose slot is set, and is then that slot. |
| Audio.AudioManager.AsWrittenFaultsOnlyAtLength | AudioManager.cs:141 | The as-written lookup faults exactly at index == Length and agrees with the corrected one everywhere else. |
| Audio.AudioManager.GetCategorySettings | AudioManager.cs:149-152 | The by-category lookup is the corrected index lookup. A result is a valid setting of that category. |
| Audio.AudioManager.GetCategorySettingsByName | AudioManager.cs:154-157 | The result is non-null exactly when the name is in the dictionary, and is then the setting of that name. |
| Audio.AudioManager.IsSoundEnabled | AudioManager.cs:24-27 | Sound is enabled exactly when the Global setting exists and its volume is positive. |
| Audio.AudioManager.GetVolume | AudioManager.cs:189-193 | The volume is in [0, 1]: 0 when the category has no setting, else the setting's volume. |
| Audio.AudioManager.ExpandFor | AudioManager.cs:163-170 | A table too short for the index is replaced by a fresh one of `GrownLength` slots. Old entries keep their positions and new slots are empty. |
| Audio.AudioManager.CreateCollections | AudioManager.cs:101-103 | The table becomes a fresh array of exactly `count` empty slots and the name dictionary becomes empty, with the manager kept valid. A later `AddCategorySettings` of a category below `count` then stores into this array without growing it. |
| Audio.AudioManager.AddCategorySettings | AudioManager.cs:159-178 | The setting is stored at its ordinal and under its name. The table grows as above and every other slot is kept. One more handler is bound, and the manager stays valid. |
| Audio.AudioManager.SaveCategories | AudioManager.cs:120-137 | The store is the ordered save of all non-empty slots. Every dirty category's volume ends up under its key and all other keys are untouched. |
| Audio.AudioManager.ReApplyVolumes | AudioManager.cs:212-220 | It faults exactly when some slot is empty. No setting's state or bindings change. The Global sink equals the Global volume, since slot 0 is visited before any empty slot can end the loop. |
| Audio.AudioManager.UpdateVolumeListeners | AudioManager.cs:222-245 | Every registered listener, in list order, ends as one dispatch of the change leaves it. The deliveries record which listeners raised; a raising listener does not stop the loop. |
| Audio.AudioManager.OnCategoryVolumeChanged | AudioManager.cs:395-403 | The listeners end as one dispatch of the change leaves them, with the deliveries recorded. The static event gains exactly one record (category, prev, new). |
| Audio.AudioManager.InvokeVolumeChanged | AudioManager.cs:177 | A setting's event runs the manager's handler once per binding. The static log and the listeners follow the repeated change. |
| Audio.AudioManager.SetVolume | AudioManager.cs:195-204 | Nothing changes for a category without a setting. Otherwise the setting takes the dirtying SetVolume step and keeps its bindings. Its event reaches the static log once per binding, and the listeners as one dispatch. |
| Audio.AudioManager.SetSoundEnabled | AudioManager.cs:24-28 | It is SetVolume(Global, 1 or 0): without a Global setting nothing changes and sound stays disabled. Otherwise the Global setting takes that step, with its sink, log and views as above. Enabling ends within tolerance of 1, so sound is enabled. Disabling ends below the absolute floor. |
| Audio.AudioManager.SetDefaultVolume | AudioManager.cs:206-210 | It faults exactly when the category has no setting. Otherwise the setting takes the SetDefaultVolume step and keeps its bindings, and its event reaches the static log once per binding and the listeners. The Global sink follows a clean setting and is untouched for a dirty one. |
| Audio.AudioManager.GetFreeVolumeListenerNode | AudioManager.cs:277-291 | It pops the pool's top node when there is one and allocates only when the pool is empty. The node holds the listener. |
| Audio.AudioManager.AddVolumeListener | AudioManager.cs:247-258 | A registered listener changes nothing. Otherwise a free node holding the listener is appended last and recorded as its RegistryNode. The views of earlier listeners are unchanged and the manager stays valid. |
| Audio.AudioManager.RemoveVolumeListener | AudioManager.cs:260-275 | An unregistered listener changes nothing. Otherwise its node leaves the list, the later nodes keep their order, the RegistryNode and the node's value are cleared, and the node is pushed on the pool. |
| Audio.AudioManager.Linked | AudioManager.cs:255-257 | Linking an unregistered listener to a free node and appending it keeps the manager valid. The listener views gain the new one at the end. |
| Audio.AudioManager.Unlinked | AudioManager.cs:269-274 | Unlinking a registered listener and recycling its node keeps the manager valid. The listener views lose exactly its entry. |
| Audio.AudioManager.ListedDistinct | AudioManager.cs:249-253 | No listener is registered twice, and no two registered listeners drive the same AudioSource. |
| Scoring.Wrap | DependencyInjection/ScoreManager.cs:15 | Unchecked 32-bit addition: the identity inside `int` range, and otherwise congruent modulo 2^32. |
| Scoring.ScoreManager.constructor | DependencyInjection/ScoreManager.cs:11 | The score starts at 0. |
| Scoring.ScoreManager.AddScore | DependencyInjection/ScoreManager.cs:13-16 | The score increases by exactly the argument, wrapping on overflow, with no bound or sign check. |
| Scoring.ScoreManager.GetScore | DependencyInjection/ScoreManager.cs:18-21 | It returns the score and changes nothing. |
| Scoring.ScoreAfterIsWrappedSum | DependencyInjection/ScoreManager.cs:13-16 | After any sequence of AddScore calls, the score is the wrapped sum of the start and all arguments. |
| Scoring.ScoreIsSum | DependencyInjection/ScoreManager.cs:13-16 | From a fresh manager, the score is exactly the sum of the arguments whenever that sum is in `int` range, even if partial sums overflowed. |

## Left out

- Clip playing and the AudioSource pool (AudioManager.cs:297-377) are engine calls on types outside this model. `PlayClip`'s reset of the categorizer to Global is the category setter, which is modelled.
- Engine lifecycle is not modelled: `OnAwakeManager`, headless muting, `OnSceneChanged`, `OnDestroyManager`, `IsPersistentManager`, `HasInitialization` and `PlayerPrefs.Save`. PlayerPrefs is a map of floats in a `PlayerPrefs` object, and `AudioListener.volume` is a `MasterSink` object.
- LoadCategories (AudioManager.cs:97-117) is not modelled as one method. Its pieces are: `CreateCollections` sizes the table to the number of enum values; `CreateSettings`, `AddCategorySettings` and `Load` handle each category; `LoadLog` gives the static events the loop raises, over categories 0 to n - 1 each bound once. `Enum.GetValues` is not modelled, so the model does not tie the table size to the enum. Without `CreateCollections`, adding categories 0 to n - 1 to an empty table grows it by the doubling rule to a power of two. Any slot past n - 1 then stays empty, and `ReApplyVolumes` faults on it.
- Audio.AudioManager.constructor: the source leaves the table and the name dictionary null until LoadCategories creates them. The model starts from an empty table and dictionary instead. Before start-up the source's lookups, `SaveCategories` and `ReApplyVolumes` throw NullReferenceException; the model answers "not found" and faults nothing.
- The Global override writes the master sink before the change event reaches the manager. The source calls `base.SetVolume`, which raises the event and dispatches it, and only then assigns `AudioListener.volume` (GlobalCategorySettings.cs:20-25). The model states only the end state. No listener reads the sink, so the order is not observable in the model.
- `CreateSettings` is covered by the two constructors rather than a separate function.
- The static volume properties (`GlobalVolume`, `FxVolume`, `SpeechVolume`, `MusicVolume`) and `SaveVolumes` are one-line forwards to `GetVolume`, `SetVolume` and `SaveCategories` with a fixed category.
- Floating point is not modelled: volumes are reals. `Mathf.Approximately` is its formula on reals, with its relative tolerance and its absolute floor. Rounding and single-precision limits are not captured.
- `AudioCategory` is an ordinal. `Enum.GetValues` order, and names beyond the four the manager uses, are not known here. Other ordinals print as decimal text, as `ToString` does for unnamed values.
- Logging (`Debug.LogWarning`, `Debug.LogException`) is left out. A caught exception is reported as a `Caught` delivery.
- The dispatcher's null-value check (AudioManager.cs:230-234) is not modelled as a branch. The invariant proves that live nodes always hold a listener, so the branch never runs.
- Listeners that add or remove listeners while being notified are not modelled: each listener here only writes its own AudioSource. In the source such a change is not safe. `LinkedList.Remove` detaches the removed node and `RemoveVolumeListener` clears its value. So a listener that removes the one after it ends the walk early: the loop reads the cleared value, skips it, stops at the detached node's null `Next`, and later listeners miss the change.
- Multicast delegates are counted bindings. Binding the handler twice dispatches twice, and unbinding is never done by the source.
- The model assumes each AudioSource has at most one categorizer: `OnEnable` requires it, and the registry keeps listeners' AudioSources distinct. The engine does not guarantee this. `RequireComponent` only makes an AudioSource exist, and without `DisallowMultipleComponent` a GameObject can carry two categorizers on one AudioSource. Their outputs would then alias, and the last write wins.
- The LinkedList and the Stack are sequences of node objects. The node's `Value` and the listener's `RegistryNode` are heap fields, mirrored in ghost bookkeeping. LinkedList's internal `Next`/`Previous` links are not modelled.
- GetCategorySettings, GetVolume, SinkOf, the manager's SetVolume, SetSoundEnabled and SetDefaultVolume, and AudioCategorizer.UpdateVolume (with SetCategory, SetUnscaledVolume and OnEnable, which call it) use the corrected lookup `GetCategorySettingsAt` of the Findings row for AudioManager.cs:141. For a category whose ordinal equals the table's length, they answer "no setting" (0, nothing changes, or `faulted`) where the source throws IndexOutOfRangeException. Only `GetCategorySettingsAsWritten` models that throw.
- `IVolumeListener` is folded into `AudioCategorizer`, its only implementation here.
- A destroyed AudioSource is modelled as raising on a volume write, as a missing one does. The engine's exact exception type is not captured.

## Findings

| source | as written | input that shows it | evidently intended | confidence | as-written member | corrected member |
|---|---|---|---|---|---|---|
| AudioManager.cs:141 | the guard returns null only for index < 0 or index > Length, so it lets index == Length through | `index == categorySettings.Length`, e.g. `GetVolume` for a category one past the table's end, passes the guard and indexes out of bounds | `index >= Length` returns null: an out-of-range category is "not found" | not executed | Audio.AudioManager.GetCategorySettingsAsWritten | Audio.AudioManager.GetCategorySettingsAt |
