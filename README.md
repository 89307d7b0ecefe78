# Verified model of the theAstroShed view scripts

A Dafny model of four scripts for an astronomical image-processing host:

- **SmartRenameView** renames a view after the `FILTER` keyword of its window. The new id is `prefix + FILTER + suffix`. It works on one target view or on every visible main view.
- **IconizeChildView** iconizes the "child" of a view. For a view `P`, the child is the view named `P_<suffix>`.
- **CloneWithSuffix** clones a view under the id `target.id + suffix` and can iconize the clone.
- **theAstroShed-utils** `cloneView` builds the clone. It copies geometry (clamped to at least 1), colour mode, sample format, samples, mask linkage, keywords and every property the host accepts, then shows the new window.

Host objects become Dafny objects (`Host` module). Each window (`ImageWindow`) owns one main view (`View`). A view holds an id, an image value, a property list and a back-pointer to its window. A window holds the FITS keywords, the visible and iconic flags, the mask flags and a mask window reference. `Attached` states that the two point at each other. Several host inputs become parameters:

- the list of open windows (`ImageWindow.windows`, behind `View.viewById` and `getAllMainViews`);
- the launch context (view target, global or direct);
- the instance parameter store;
- the host's rule for which property names `setPropertyValue` accepts (`accepts`).

Each script's global parameter object is a class. `Save` and `LoadFrom` on it are specified by the pure functions `Saved` and `Load`, and the round-trip lemmas are proved about those functions. Every loop in the scripts is a `while` loop proved against a specification function: the keyword search, the main-view collection, the global renames, the global iconize and the property copy.

Modules: `Wrappers` (Option), `Host`, `JsString` (`indexOf`), `SmartRenameView`, `IconizeChildView`, `AstroShedUtils` (`cloneView`), `CloneWithSuffix`.

## Model

| member | source | states |
|---|---|---|
| `JsString.IndexOf` | src/scripts/SmartRenameView.js:91 | `indexOf` returns the first index where the substring occurs, or -1 exactly when it occurs nowhere |
| `JsString.IndexOfFrom` | src/scripts/IconizeChildView.js:151 | the scan behind `indexOf` from a start position finds the first occurrence at or after it, or -1 when there is none |
| `JsString.IndexOfZeroIffPrefix` | src/scripts/SmartRenameView.js:91 | `id.indexOf(f) == 0` holds exactly when `f` is a prefix of `id` |
| `JsString.IndexOfUnderscoreAtMostZero` | src/scripts/IconizeChildView.js:151 | `id.indexOf("_") <= 0` holds exactly when the id has no underscore or starts with one |
| `Host.WindowById` | src/scripts/IconizeChildView.js:52 | the lookup behind `View.viewById` returns a listed window whose main view has the id, and returns nothing exactly when no main view has it |
| `Host.ViewById` | src/scripts/IconizeChildView.js:52 | `View.viewById` finds a view exactly when some open main view has the id, and the view found carries that id |
| `Host.LookupAfterSet` | src/scripts/theAstroShed-utils.js:51 | after `setPropertyValue(name, v)`, `name` reads back as `v` and every other property reads back as before |
| `Host.View.SetPropertyValue` | src/scripts/theAstroShed-utils.js:47-55 | an accepted name is set, and a refused name (the host throws, the catch swallows it) leaves the properties unchanged |
| `Host.ImageWindow.constructor` | src/scripts/theAstroShed-utils.js:29-30 | a new window is hidden and not iconic, and its fresh main view has the requested id, geometry and format; nothing is promised about the properties the host gives that view |
| `Host.ImageWindow.Iconize` | src/scripts/IconizeChildView.js:55 | `iconize()` sets only the iconic flag |
| `Host.ImageWindow.Show` | src/scripts/theAstroShed-utils.js:57 | `show()` sets only the visible flag |
| `Host.ReadText` | src/scripts/SmartRenameView.js:47-54 | `has`/`getString` keeps the field when the key is absent, takes a stored string, and fails on a non-string |
| `Host.ReadFlag` | src/scripts/SmartRenameView.js:56-59 | `has`/`getBoolean` keeps the field when the key is absent, takes a stored boolean, and fails on a non-boolean |
| `SmartRenameView.Saved` | src/scripts/SmartRenameView.js:38-43 | `save` writes prefix, suffix and batchMode and leaves every other stored entry alone |
| `SmartRenameView.LoadAfterSave` | src/scripts/SmartRenameView.js:38-61 | `save` then `load` restores prefix, suffix and batchMode, whatever the object held before |
| `SmartRenameView.LoadFromEmptyStore` | src/scripts/SmartRenameView.js:46-61 | `load` from a store without the keys changes no field |
| `SmartRenameView.LoadFieldByField` | src/scripts/SmartRenameView.js:46-61 | after a successful `load`, each field has its stored value when its key is present and keeps its value when the key is absent |
| `SmartRenameView.SmartRenameViewParameters.constructor` | src/scripts/SmartRenameView.js:31-35 | the parameter object starts with `""`, `""` and `false` |
| `SmartRenameView.SmartRenameViewParameters.Save` | src/scripts/SmartRenameView.js:38-43 | the store afterwards is `Saved` of the current fields |
| `SmartRenameView.SmartRenameViewParameters.LoadFrom` | src/scripts/SmartRenameView.js:46-61 | the fields afterwards are what `Load` gives |
| `SmartRenameView.KeywordLookupIsFirstMatch` | src/scripts/SmartRenameView.js:74-80 | the lookup is null exactly when no keyword has the name, and otherwise gives the stripped value of the first keyword with the name |
| `SmartRenameView.KeywordValue` | src/scripts/SmartRenameView.js:74-81 | the linear search returns exactly that first-match lookup |
| `SmartRenameView.RenamedIdRule` | src/scripts/SmartRenameView.js:83-107 | the id becomes `prefix + FILTER + suffix` exactly when FILTER is present, non-empty and not a prefix of the id, and stays unchanged otherwise |
| `SmartRenameView.RenameIdempotent` | src/scripts/SmartRenameView.js:89-94 | a second rename with the same keywords, prefix and suffix gives the same id as one rename |
| `SmartRenameView.RenameView` | src/scripts/SmartRenameView.js:83-107 | only the view's id changes, and it changes by the rename rule; the outcome names the branch taken (rename or which warning) |
| `SmartRenameView.VisibleMainViewsMembers` | src/scripts/SmartRenameView.js:109-122 | a view is collected exactly when it is the main view of a window that is a main view, visible and not iconic |
| `SmartRenameView.VisibleMainViewsAppend` | src/scripts/SmartRenameView.js:109-122 | collection keeps window order: collecting over `a + b` gives the views of `a` followed by those of `b` |
| `SmartRenameView.GetAllMainViews` | src/scripts/SmartRenameView.js:109-122 | the push loop returns exactly the collected main views, in window order |
| `SmartRenameView.RenameAll` | src/scripts/SmartRenameView.js:68-71 | after renaming a list in turn, each view in it has the id one rename gives, even if it is listed twice |
| `SmartRenameView.ApplyGlobally` | src/scripts/SmartRenameView.js:64-72 | every visible, non-iconic main view is renamed by the rule, and every other view keeps its id |
| `SmartRenameView.Run` | src/scripts/SmartRenameView.js:302-336 | on a target view, after a successful load, the target is renamed, and in batch mode every visible main view too, each renamed once in effect; the other contexts only load or do nothing, and rename nothing |
| `IconizeChildView.Saved` | src/scripts/IconizeChildView.js:36-38 | `save` writes the suffix and leaves every other stored entry alone |
| `IconizeChildView.LoadAfterSave` | src/scripts/IconizeChildView.js:36-46 | `save` then `load` restores the suffix |
| `IconizeChildView.LoadKeepsSuffixWhenAbsent` | src/scripts/IconizeChildView.js:41-46 | `load` from a store without the key keeps the current suffix |
| `IconizeChildView.IconizeCloneWithSuffixParameters.constructor` | src/scripts/IconizeChildView.js:31-34 | the suffix starts as `""` |
| `IconizeChildView.IconizeCloneWithSuffixParameters.Save` | src/scripts/IconizeChildView.js:36-38 | the store afterwards is `Saved` of the current suffix |
| `IconizeChildView.IconizeCloneWithSuffixParameters.LoadFrom` | src/scripts/IconizeChildView.js:41-46 | the suffix afterwards is what `Load` gives |
| `IconizeChildView.ChildId` | src/scripts/IconizeChildView.js:65 | the child id starts with the parent id, continues with one `_` and ends with the suffix |
| `IconizeChildView.IconizeView` | src/scripts/IconizeChildView.js:49-61 | exactly the window of the view with that id becomes iconic, and when no view has the id nothing changes |
| `IconizeChildView.ExecuteOperation` | src/scripts/IconizeChildView.js:63-68 | only the child's window can change, only in its iconic flag, and the parent's own window is never iconized |
| `IconizeChildView.ParentsMembers` | src/scripts/IconizeChildView.js:146-155 | the global apply treats a view as a parent exactly when its id has no `_` or starts with `_` |
| `IconizeChildView.IconizedForAppend` | src/scripts/IconizeChildView.js:146-155 | visiting one more parent adds exactly that parent's child window to the iconized ones |
| `IconizeChildView.ApplyGlobal` | src/scripts/IconizeChildView.js:142-157 | the parents are visited in list order, and a window ends iconic exactly when it was already iconic or is the child window of a visited parent |
| `IconizeChildView.Run` | src/scripts/IconizeChildView.js:204-237 | on a target view, after a successful load, exactly the target's child window is iconized; the other contexts only load or do nothing, and iconize nothing |
| `AstroShedUtils.LookupFindsPresent` | src/scripts/theAstroShed-utils.js:46-51 | `propertyValue(name)` finds a value exactly when the name is among the view's properties |
| `AstroShedUtils.CopiedPropertiesLookup` | src/scripts/theAstroShed-utils.js:44-56 | after the first n properties are tried, a name has the source's value when the host accepts it and it is among them, and otherwise keeps what the host gave the fresh view |
| `AstroShedUtils.CloneProperties` | src/scripts/theAstroShed-utils.js:44-56 | on the clone, every source property the host accepts has the source's value, and every other name keeps what the host gave the fresh view; a refusal does not stop the loop |
| `AstroShedUtils.CloneView` | src/scripts/theAstroShed-utils.js:18-59 | the fresh main view has the requested id, geometry clamped to at least 1, 3 or 1 channels, the source's bit depth, real flag and samples, the same mask flags and the same mask window, the same keywords, and every source property the host accepts with the source's value; it is visible and not iconic; the source is not written |
| `CloneWithSuffix.Saved` | src/scripts/CloneWithSuffix.js:38-41 | `save` writes suffix and iconizeAfterClone and leaves every other stored entry alone |
| `CloneWithSuffix.LoadAfterSave` | src/scripts/CloneWithSuffix.js:38-53 | `save` then `load` restores suffix and iconizeAfterClone |
| `CloneWithSuffix.LoadKeepsDefaults` | src/scripts/CloneWithSuffix.js:32-53 | with the keys absent, `load` leaves the defaults `""` and `false` |
| `CloneWithSuffix.CloneWithSuffixParameters.constructor` | src/scripts/CloneWithSuffix.js:32-35 | the parameter object starts with `""` and `false` |
| `CloneWithSuffix.CloneWithSuffixParameters.Save` | src/scripts/CloneWithSuffix.js:38-41 | the store afterwards is `Saved` of the current fields |
| `CloneWithSuffix.CloneWithSuffixParameters.LoadFrom` | src/scripts/CloneWithSuffix.js:44-53 | the fields afterwards are what `Load` gives |
| `CloneWithSuffix.CloneId` | src/scripts/CloneWithSuffix.js:172 | the clone id is the target id followed directly by the suffix, with no separator |
| `CloneWithSuffix.Run` | src/scripts/CloneWithSuffix.js:159-200 | a clone is made exactly in the view-target context after a successful load; it is a clone of the target under `target.id + suffix`, visible, and iconic exactly when `iconizeAfterClone` is set |

## Left out

- Dialogs, sizers, buttons, tooltips and widget callbacks are not modelled. Their two core actions are: the "apply" buttons call `renameView` (SmartRenameView.js:173-184) and `executeOperation` (IconizeChildView.js:118-121), which are modelled. The parameter objects' `targetView` field is used only by the dialogs and is not modelled.
- Console output (`show`, `hide`, `writeln`, `warningln`) is not modelled. The one observable trace kept is the branch `renameView` takes (`RenameOutcome`) and the list of parents the global iconize visits.
- `ResampledClone.js`, `resampleView`, `copyAstrometricSolution` and `getOptimalZoomForWindow` are not part of this model. They are host processes, foreign calls and floating-point arithmetic.
- The pixel copy is a copy of an opaque sample sequence. The begin/end-process undo bracketing, and the samples of a freshly created image, are not modelled. An `Image` is a value, so later edits to one view cannot reach the other.
- Host outcomes of id collisions and of invalid identifiers are not modelled. Some ids are built from free text: the window's `FILTER` keyword value (SmartRenameView.js:94) and a user-typed suffix (CloneWithSuffix.js:172, passed to `new ImageWindow` at theAstroShed-utils.js:29). Neither call is inside a try. The model treats every `view.id` assignment and every new window's id as taking effect exactly as written. An id already in use gets the same treatment. The host may instead refuse such an id and throw. In batch mode that would end the renaming loop (SmartRenameView.js:68-71) before the remaining views. Which property names the host reserves is the input `accepts`.
- SmartRenameView.RenameView, SmartRenameView.ApplyGlobally, SmartRenameView.Run, AstroShedUtils.CloneView, CloneWithSuffix.Run: their contracts hold only under this rule. Every id is accepted exactly as written, so every listed view is renamed and a clone is always made.
- `View.viewById` takes the first window in list order when ids repeat.
- The host's parameter serialization format is not modelled. The store is a map from names to typed values (string or boolean). Reading a value of the wrong type is a host error that ends `load`.
- Previews are not modelled: every view is the main view of its window. The detour `sourceView.window.mainView.window.keywords` (theAstroShed-utils.js:41) is therefore the source window's keywords.
- IconizeChildView.IconizeView: an `iconize()` call that throws is not modelled. The host's iconize is taken to succeed, so the swallowed error is the missing view (`view.window` on no view).
- `getAllMainViews` is called at IconizeChildView.js:144 but is neither defined nor included in that file, so the button would fail with a reference error. `IconizeChildView.ApplyGlobal` takes the view list as an input instead.
- Host.ImageWindow.constructor: the properties the host itself puts on a fresh main view are not specified, so `AstroShedUtils.CloneView` states the clone's properties only for the source names the host accepts; any other name on the clone is whatever the host gave it.
- Strings are sequences of characters; `indexOf` is modelled by its definition over them.
