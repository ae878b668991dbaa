# Multiple selection in the gallery: a Dafny model

The gallery's `MultiSelectionController` keeps the set of item ids (Kotlin
`Long`s) selected in a collection view. It offers four things:

- `toggle` and `reset` mutate the set in place;
- `isSelected` and `selectedCount` query it;
- `saveState` writes the set as a long array under the key `"selection"`;
- `onCreate` restores the set from the snapshot that the saved-state registry
  hands back, if there is one.

After every mutation and every restore, the controller calls
`onSelectionChanged(restored, fromUser)` on its listener. It does so only when a
listener is set.

The model is the class `MultiSelection.MultiSelectionController` in
`multi_selection_controller.dfy`. Its fields are:

- `selection: set<Long>`, where `Long` is the 64-bit signed range;
- `hasCallbacks: bool`, which is true when `callbacks` is non-null;
- `notifications: seq<Notification>`, the log of every listener call, oldest
  first.

The Android `Bundle` is a `map<string, seq<Long>>`. The registry's consume-once
lookup is the `Option<Bundle>` argument of `OnCreate`. Every method's
postcondition states its whole new state in terms of specification functions:

- `Toggled` for one toggle;
- `Restored` and `SavedIds` for restore;
- `Notify` for one listener dispatch;
- `IsSnapshotOf` for what `saveState` may return.

The lemmas prove the promised properties about those functions. They cover
toggle involution, the parity of repeated toggles, the array length of a
snapshot, and the save/restore round trip. `SaveResetRestore` is a client
method. It walks through two toggles, a save, a reset and a restore, and checks
the resulting set and the exact notification log.

The restore notification is sent only when a listener is set (line 61),
whether or not a snapshot was found. An absent snapshot leaves the selection as
it was, because the `?.run` block at line 51 is skipped. Only a present snapshot
whose key is missing or whose array is empty clears it.

## Model

| member | source | states |
|---|---|---|
| `MultiSelection.Toggled` | source-gallery/src/main/java/com/google/android/apps/muzei/util/MultiSelectionController.kt:66-71 | the toggled id's membership is flipped, every other id's membership is unchanged, and the size goes down or up by one accordingly |
| `MultiSelection.Notify` | source-gallery/src/main/java/com/google/android/apps/muzei/util/MultiSelectionController.kt:73 | a dispatch `callbacks?.onSelectionChanged(..)` keeps the earlier log and appends exactly one entry, the given one, when a listener is set, and no entry when there is none |
| `MultiSelection.SavedIds` | source-gallery/src/main/java/com/google/android/apps/muzei/util/MultiSelectionController.kt:53-57 | a present snapshot restores exactly the ids of the array under `"selection"`: no ids when the key is missing, and none when the array is empty, as the `isNotEmpty` guard does |
| `MultiSelection.Restored` | source-gallery/src/main/java/com/google/android/apps/muzei/util/MultiSelectionController.kt:51-59 | the selection after `onCreate`: no snapshot leaves the current set; a present one yields exactly the ids of its array under `"selection"` (`SavedIds(b)`) |
| `MultiSelection.ToggleTwice` | source-gallery/src/main/java/com/google/android/apps/muzei/util/MultiSelectionController.kt:66-71 | toggling the same id twice restores the original set |
| `MultiSelection.ToggleAllParity` | source-gallery/src/main/java/com/google/android/apps/muzei/util/MultiSelectionController.kt:66-71 | after any sequence of toggles, an id is selected iff it was selected before XOR it was toggled an odd number of times |
| `MultiSelection.ToggleAllFromEmpty` | source-gallery/src/main/java/com/google/android/apps/muzei/util/MultiSelectionController.kt:66-71 | starting from the empty set, the selected ids are exactly those toggled an odd number of times |
| `MultiSelection.DistinctCardinality` | source-gallery/src/main/java/com/google/android/apps/muzei/util/MultiSelectionController.kt:64 | a duplicate-free array has exactly as many entries as distinct ids, which is why a saved array is as long as the set |
| `MultiSelection.SnapshotLength` | source-gallery/src/main/java/com/google/android/apps/muzei/util/MultiSelectionController.kt:64 | any value `saveState` may return holds the key `"selection"` with an array whose length is the number of selected ids |
| `MultiSelection.RoundTrip` | source-gallery/src/main/java/com/google/android/apps/muzei/util/MultiSelectionController.kt:51-64 | restoring a saved snapshot yields exactly the saved set, whatever the selection became in between (after resets or toggles), and whatever order the array is in |
| `MultiSelection.RestoreEmpty` | source-gallery/src/main/java/com/google/android/apps/muzei/util/MultiSelectionController.kt:51-58 | a present snapshot without the key, or with an empty array, leaves the selection empty (cleared, then nothing added) |
| `MultiSelection.RestoreAbsent` | source-gallery/src/main/java/com/google/android/apps/muzei/util/MultiSelectionController.kt:51 | with no snapshot to consume, the selection is left as it was |
| `MultiSelection.MultiSelectionController.constructor` | source-gallery/src/main/java/com/google/android/apps/muzei/util/MultiSelectionController.kt:39-40 | a new controller has an empty selection, no listener and an empty notification log |
| `MultiSelection.MultiSelectionController.SetCallbacks` | source-gallery/src/main/java/com/google/android/apps/muzei/util/MultiSelectionController.kt:40 | assigning `callbacks` sets whether a listener is present and changes neither the selection nor the log |
| `MultiSelection.MultiSelectionController.SelectedCount` | source-gallery/src/main/java/com/google/android/apps/muzei/util/MultiSelectionController.kt:42-43 | reads only: the count is the size of the selection, so it is zero exactly when nothing is selected |
| `MultiSelection.MultiSelectionController.IsSelected` | source-gallery/src/main/java/com/google/android/apps/muzei/util/MultiSelectionController.kt:81-83 | reads only: true exactly when the id is in the selection, and then the count is positive |
| `MultiSelection.MultiSelectionController.OnCreate` | source-gallery/src/main/java/com/google/android/apps/muzei/util/MultiSelectionController.kt:50-62 | with a snapshot, the selection is replaced by the ids of its array. The clear-then-add loop's invariant holds this. With no snapshot it is unchanged. In both cases exactly one `(true, false)` entry is appended if a listener is set, none otherwise, and the listener flag is unchanged |
| `MultiSelection.MultiSelectionController.SaveState` | source-gallery/src/main/java/com/google/android/apps/muzei/util/MultiSelectionController.kt:64 | reads only: returns a map whose only key is `"selection"`, with a duplicate-free array whose ids are exactly the selected ones and whose length is `selectedCount`. The array's order is left unspecified |
| `MultiSelection.MultiSelectionController.Toggle` | source-gallery/src/main/java/com/google/android/apps/muzei/util/MultiSelectionController.kt:66-74 | the new selection is the old one with the id's membership flipped. Exactly one `(false, fromUser)` entry is appended if a listener is set, none otherwise |
| `MultiSelection.MultiSelectionController.Reset` | source-gallery/src/main/java/com/google/android/apps/muzei/util/MultiSelectionController.kt:76-79 | the selection is empty and `selectedCount` is 0. One `(false, fromUser)` entry is still appended when a listener is set, even if the set was already empty |

## Left out

- The `init` block (lines 45-48) is left out. It registers the controller with the lifecycle (`addObserver`) and with the saved-state registry (`registerSavedStateProvider`). That is Android framework plumbing. The registry's consume-once lookup appears only as the `Option<Bundle>` argument of `OnCreate`, and the host calls `SaveState` directly.
- The lifecycle owner argument of `onCreate` is left out because the code never uses it.
- Android's `Bundle`, `bundleOf` and `getLongArray` are foreign library types. They are modelled as `map<string, seq<Long>>`. Because the map holds only long arrays, `getLongArray` can return null only when the key is missing.
- What listeners do when notified is UI code outside this file. The model records only each notification's arguments, in the order of the calls. Re-entrant calls from a listener back into the controller are not modelled.
- HashSet iteration order is unspecified in the source. `SaveState` picks the ids in an arbitrary order and promises no particular one.
- Kotlin's `selectedCount` is an `Int`. The model's count is unbounded. A set of more than 2^31-1 ids, where the `Int` would overflow, is not modelled.
- The Kotlin `selection` is a public reference to a mutable `HashSet`. Callers can keep it and see later changes, or change it directly without any notification. The model's `selection` is a set value, so it does not capture that sharing (aliasing) or mutation from outside the controller; nothing in the controller itself depends on it.
