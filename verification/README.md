# MaterialRemapper in Dafny

MaterialRemapper is a Unity editor window. It re-points the materials of the selected
prefabs and imported models (FBX/OBJ) at the `.mat` assets of one folder. A material
called `Body` is looked up as `M_Body` (the prefix is configurable, `M_` by default), and
a name that already carries the prefix is looked up as it is. The window's button runs one
batched-edit session over the selection:

- A prefab is loaded, every renderer's material array is rewritten in place, and the
  prefab is saved when a slot changed.
- A model is instantiated to read the material names an instance of it shows. An
  external-object override is added for every name whose target exists and is not
  already mapped there, and the model is reimported when an override was added.

The project models that core:

| file | module | what it holds |
|---|---|---|
| `wrappers.dfy` | `Wrappers` | `Option`. The engine's fake-null objects (a material that did not load, a prefab that could not be opened) are `None`. |
| `naming.dfy` | `Naming` | The target-name rule. |
| `dispatch.dfy` | `Dispatch` | `Path.GetExtension` and `ToLowerInvariant` on paths; the prefab / model / other dispatch. |
| `materials.dfy` | `Materials` | Materials, the folder lookup table (`BuildMaterialLookup`) and the function `LookupOf` that specifies it. |
| `hierarchy.dfy` | `Hierarchy` | The `Renderer` class; the slot rewrite on the copied array; `RemapInHierarchy` with its shared `changed` flag. |
| `model_import.dfy` | `ModelImport` | Override keys; the remaps one pass plans against the snapshot of the override map; the map after them. |
| `remapper.dfy` | `Remapper` | The `ModelImporter` and `AssetDatabase` classes (the engine state the tool reads and writes); the window's methods `RemapPrefab`, `RemapModel`, `SwitchObjectType`, `EditSelection`, `TryEditAssets` and `RemapSelected`; the value-level specification of a whole run (`ProcessSelection`) and its idempotence. |

The engine calls are methods of these classes: `LoadPrefabContents`, `SaveAsPrefabAsset`,
`UnloadPrefabContents`, `InstantiateModel` (for `PrefabUtility.InstantiatePrefab` on a model),
`DestroyImmediate`, `GetModelImporter` (for `AssetImporter.GetAtPath(path) as ModelImporter`),
`GetExternalObjectMap`, `AddRemap`, `SaveAndReimport`, `StartAssetEditing`,
`StopAssetEditing`, `Refresh`, and `Renderer.GetSharedMaterials` and
`Renderer.SetSharedMaterials` for reading and writing `renderer.sharedMaterials`. Their
effects are on explicit state:

- `AssetDatabase` holds the prefabs and models on disk, the enumerations of the material
  folders, the batched-edit depth, a log of the batch calls, a count of live
  temporary objects, and `failing`: the assets on which the engine throws.
- `ModelImporter` holds a model's override map, its `AddRemap` calls and its reimports.

The window's methods are proved against value-level functions: `PrefabAfterRemap`,
`ModelAfterRemap`, `ProcessAsset` and `ProcessSelection`.

## Model

| member | source | states |
|---|---|---|
| Naming.TargetName | MaterialRemapper/Scripts/Editor/MaterialRemapper.cs:163-165 | The target name starts with the prefix, ends with the material's own name, and is exactly as long as the name when the name already starts with the prefix, and prefix-plus-name long otherwise. Together these fix it: the name itself, or the prefix followed by the name. |
| Naming.TargetNameFixedPoints | MaterialRemapper/Scripts/Editor/MaterialRemapper.cs:201 | A name is looked up unchanged exactly when it already starts with the prefix. |
| Naming.TargetNameIdempotent | MaterialRemapper/Scripts/Editor/MaterialRemapper.cs:163-165 | Normalising a target name again gives the same name. |
| Naming.TargetNameExamples | MaterialRemapper/Scripts/Editor/MaterialRemapper.cs:163-165 | With prefix `M_`, both `M_Body` and `Body` are looked up as `M_Body`. |
| Dispatch.Extension | MaterialRemapper/Scripts/Editor/MaterialRemapper.cs:96 | The extension is empty, or it is a dot followed by at least one character with no dot or separator, and it is a suffix of the path. |
| Dispatch.ExtensionOfSuffix | MaterialRemapper/Scripts/Editor/MaterialRemapper.cs:96 | Any path ending in a well-formed extension has exactly that extension. |
| Dispatch.NoDotNoExtension | MaterialRemapper/Scripts/Editor/MaterialRemapper.cs:96 | A last path component without a dot has no extension, whatever dots the folders contain. |
| Dispatch.Lower | MaterialRemapper/Scripts/Editor/MaterialRemapper.cs:96 | `ToLowerInvariant` on one character: an ASCII capital becomes its lower-case letter, 32 code points on, and every other character is kept. |
| Dispatch.LowerString | MaterialRemapper/Scripts/Editor/MaterialRemapper.cs:96 | Lower-casing keeps the length of the string. |
| Dispatch.LowerStringOfLowerCase | MaterialRemapper/Scripts/Editor/MaterialRemapper.cs:96 | Lower-casing a string without upper-case letters leaves it unchanged. |
| Dispatch.LowerPreservesExtension | MaterialRemapper/Scripts/Editor/MaterialRemapper.cs:96 | A string whose lower-cased form is a well-formed extension is itself one: lower-casing creates no dot and no separator. |
| Dispatch.KindOf | MaterialRemapper/Scripts/Editor/MaterialRemapper.cs:96-107 | An asset is handled only when its path has a well-formed extension: seven characters long for a prefab, four for a model. |
| Dispatch.KindOfPath | MaterialRemapper/Scripts/Editor/MaterialRemapper.cs:96-104 | A path whose extension lower-cases to `.prefab`, `.fbx` or `.obj` goes to the prefab or model path, in any letter case. |
| Dispatch.KindOfOther | MaterialRemapper/Scripts/Editor/MaterialRemapper.cs:105-106 | Any other extension, including none, is skipped. |
| Dispatch.KindOfExamplePrefab | MaterialRemapper/Scripts/Editor/MaterialRemapper.cs:98-100 | `Assets/Hero.prefab` is a prefab. |
| Dispatch.KindOfExampleUpperCase | MaterialRemapper/Scripts/Editor/MaterialRemapper.cs:101-104 | `Assets/Hero.FBX` is a model: the extension is lower-cased first. |
| Dispatch.KindOfExampleMaterial | MaterialRemapper/Scripts/Editor/MaterialRemapper.cs:105-106 | A selected `.mat` asset is skipped. |
| Dispatch.KindOfExampleDottedFolder | MaterialRemapper/Scripts/Editor/MaterialRemapper.cs:96 | A dot in a folder name does not make an extension. |
| Materials.LookupOf | MaterialRemapper/Scripts/Editor/MaterialRemapper.cs:110-122 | The table has at most one entry per enumerated asset. |
| Materials.LookupOfSound | MaterialRemapper/Scripts/Editor/MaterialRemapper.cs:110-122 | The table's keys are exactly the names of the materials that loaded, each key maps to a material of that name, and every entry is a loaded material of the folder. |
| Materials.LookupOfFirstWins | MaterialRemapper/Scripts/Editor/MaterialRemapper.cs:118-119 | Of several materials sharing a name, the first one enumerated is kept. |
| Materials.LookupOfEmpty | MaterialRemapper/Scripts/Editor/MaterialRemapper.cs:62-66 | The table is empty exactly when no material of the folder loaded. |
| Materials.LookupOfTwoMaterials | MaterialRemapper/Scripts/Editor/MaterialRemapper.cs:114-120 | Two differently named materials give the same two-entry table in either enumeration order. |
| Materials.BuildMaterialLookup | MaterialRemapper/Scripts/Editor/MaterialRemapper.cs:110-122 | The loop builds exactly `LookupOf` of the folder's enumeration. |
| Hierarchy.RemapSlot | MaterialRemapper/Scripts/Editor/MaterialRemapper.cs:198-204 | One slot after the rewrite stays empty or full. It keeps its material or takes the entry of its target name. |
| Hierarchy.RemapSlots | MaterialRemapper/Scripts/Editor/MaterialRemapper.cs:196-205 | The rewritten array has the same length. Empty slots and slots whose target has no entry are kept. Every other slot holds the entry for its target name. |
| Hierarchy.ArrayChangesIffDiffers | MaterialRemapper/Scripts/Editor/MaterialRemapper.cs:202-204 | The per-array change flag is set exactly when the rewritten array differs from the original. |
| Hierarchy.RemapSlotsIdempotent | MaterialRemapper/Scripts/Editor/MaterialRemapper.cs:196-205 | With a table whose entries carry their own key as name, a second rewrite changes no slot. |
| Hierarchy.IdempotenceNeedsNamesMatchingKeys | MaterialRemapper/Scripts/Editor/MaterialRemapper.cs:201-203 | Without that property a second rewrite can change a slot again. |
| Hierarchy.RemapSlotsInPlace | MaterialRemapper/Scripts/Editor/MaterialRemapper.cs:195-205 | The in-place loop leaves `RemapSlots` of the old array in the array, and reports whether some slot took a different material. |
| Hierarchy.Renderer.GetSharedMaterials | MaterialRemapper/Scripts/Editor/MaterialRemapper.cs:195 | Reading `sharedMaterials` returns a fresh array holding a copy of the renderer's materials. |
| Hierarchy.Renderer.SetSharedMaterials | MaterialRemapper/Scripts/Editor/MaterialRemapper.cs:207 | Writing `sharedMaterials` sets the renderer's materials to the array's contents and counts one assignment. |
| Hierarchy.RemapHierarchy | MaterialRemapper/Scripts/Editor/MaterialRemapper.cs:193-208 | The rewritten hierarchy has one array per renderer, each the slot rewrite of that renderer's array. |
| Hierarchy.FirstChangeAt | MaterialRemapper/Scripts/Editor/MaterialRemapper.cs:193-208 | Arrays before the first changing one do not change, and the array at that index does. |
| Hierarchy.FirstChangeNone | MaterialRemapper/Scripts/Editor/MaterialRemapper.cs:193-209 | No array changes exactly when the first change lies past the last renderer. |
| Hierarchy.FirstChangeIffRemapDiffers | MaterialRemapper/Scripts/Editor/MaterialRemapper.cs:193-209 | Some array changes exactly when the rewritten hierarchy differs from the original. |
| Hierarchy.RemapInHierarchy | MaterialRemapper/Scripts/Editor/MaterialRemapper.cs:190-210 | Every renderer ends with its array rewritten. The result says whether any array changed. A renderer's array is written back exactly when it is at or after the first changed renderer, so later unchanged renderers are written too. |
| ModelImport.RemapFor | MaterialRemapper/Scripts/Editor/MaterialRemapper.cs:160-175 | One slot gives at most one `AddRemap` call. Such a call is keyed by the slot's internal name, carries the entry of its target name, and is not already in the snapshot. |
| ModelImport.PlannedRemaps | MaterialRemapper/Scripts/Editor/MaterialRemapper.cs:156-176 | The `AddRemap` calls of one pass: each slot's `RemapFor`, in slot order, all judged against the one snapshot. `PlannedRemapsSound` (at most one per slot, each justified) and `PlannedRemapsComplete` (none missing) characterise it. |
| ModelImport.ApplyRemaps | MaterialRemapper/Scripts/Editor/MaterialRemapper.cs:174 | The override map after a run of `AddRemap` calls: the last call's override is in place. `ApplyRemapsFrame` and `ApplyRemapsConstantKey` give the rest. |
| ModelImport.PlannedRemapsSound | MaterialRemapper/Scripts/Editor/MaterialRemapper.cs:158-176 | A pass adds at most one remap per slot. Each remap is keyed by a material name of the preview, replaces it with the entry of its target name, and differs from the snapshot. |
| ModelImport.PlannedRemapsComplete | MaterialRemapper/Scripts/Editor/MaterialRemapper.cs:160-175 | Every slot whose target has an entry that the snapshot does not already hold gets its remap. |
| ModelImport.PlannedRemapsAppend | MaterialRemapper/Scripts/Editor/MaterialRemapper.cs:153-177 | The snapshot is read once, so the plan of the whole preview is the plans of its renderers in order. |
| ModelImport.ApplyRemapsAppend | MaterialRemapper/Scripts/Editor/MaterialRemapper.cs:174 | Applying two runs of `AddRemap` calls one after the other is applying them together. |
| ModelImport.ApplyRemapsFrame | MaterialRemapper/Scripts/Editor/MaterialRemapper.cs:174 | The calls add exactly their keys and leave every other override untouched. |
| ModelImport.ApplyRemapsConstantKey | MaterialRemapper/Scripts/Editor/MaterialRemapper.cs:174 | A key that every call writes with the same value ends with that value. |
| ModelImport.AppliedPlanCovers | MaterialRemapper/Scripts/Editor/MaterialRemapper.cs:167-175 | After the pass, every slot whose target has an entry has its key mapped to that entry. |
| ModelImport.NothingPlannedWhenSettled | MaterialRemapper/Scripts/Editor/MaterialRemapper.cs:171-172 | When every such key already holds its replacement, nothing is added. |
| ModelImport.PlannedRemapsIdempotent | MaterialRemapper/Scripts/Editor/MaterialRemapper.cs:153-181 | A second pass against the map the first pass left adds no remap. |
| ModelImport.RepeatedNameIsAddedTwice | MaterialRemapper/Scripts/Editor/MaterialRemapper.cs:153-175 | Two slots with the same internal name add the same remap twice, because the snapshot is not refreshed during the loop. |
| ModelImport.ReimportedPreviewAddsPrefixedKey | MaterialRemapper/Scripts/Editor/MaterialRemapper.cs:153-181 | If the reimported preview shows the replacement `M_Body` where it showed `Body`, the second pass adds a remap keyed by `M_Body`, and the third pass adds none. |
| Remapper.PrefabAfterRemap | MaterialRemapper/Scripts/Editor/MaterialRemapper.cs:124-136 | The prefab on disk ends with the rewritten hierarchy, saved at most once. A prefab that is not saved is left exactly as it was. |
| Remapper.PrefabSavedIffChanged | MaterialRemapper/Scripts/Editor/MaterialRemapper.cs:130-133 | The prefab is saved exactly when the rewrite changes its hierarchy. |
| Remapper.WithRemaps | MaterialRemapper/Scripts/Editor/MaterialRemapper.cs:174 | The importer after a run of `AddRemap` calls: every call is counted, and no call reimports. |
| Remapper.WithRemapsAppend | MaterialRemapper/Scripts/Editor/MaterialRemapper.cs:174 | The importer after two runs of calls is the importer after their concatenation. |
| Remapper.ModelAfterRemap | MaterialRemapper/Scripts/Editor/MaterialRemapper.cs:138-184 | The preview is kept. A model keeps its importer, or its lack of one, and one without an importer is untouched. The `AddRemap` count never drops, and the model is reimported once exactly when some call was made. |
| Remapper.ProcessAsset | MaterialRemapper/Scripts/Editor/MaterialRemapper.cs:94-108 | Processing one asset adds or removes no prefab or model. Only a prefab path can change prefabs, and only a model path can change models. |
| Remapper.ProcessSelection | MaterialRemapper/Scripts/Editor/MaterialRemapper.cs:85-92 | A run over the selection adds or removes no prefab or model. |
| Remapper.SettledIsFixedPoint | MaterialRemapper/Scripts/Editor/MaterialRemapper.cs:129-135 | Processing an asset that has nothing left to change leaves the whole store unchanged: no save and no reimport. |
| Remapper.ProcessAssetSettles | MaterialRemapper/Scripts/Editor/MaterialRemapper.cs:94-108 | After an asset is processed with a folder table, it has nothing left to change. |
| Remapper.ProcessAssetKeepsSettled | MaterialRemapper/Scripts/Editor/MaterialRemapper.cs:94-108 | Processing one asset keeps every other settled asset settled. |
| Remapper.ProcessSelectionSettles | MaterialRemapper/Scripts/Editor/MaterialRemapper.cs:85-92 | After a run, every selected asset is settled. |
| Remapper.ProcessSelectionOfSettled | MaterialRemapper/Scripts/Editor/MaterialRemapper.cs:85-92 | A run over settled assets changes nothing. |
| Remapper.ProcessSelectionIdempotent | MaterialRemapper/Scripts/Editor/MaterialRemapper.cs:85-92 | Running the remap twice over the same selection gives the same store as running it once. |
| Remapper.EditedSelection | MaterialRemapper/Scripts/Editor/MaterialRemapper.cs:85-92 | A pass processes, in selection order, the assets before the first one that throws, and reports that asset, or none if no asset throws. |
| Remapper.FirstFailureAt | MaterialRemapper/Scripts/Editor/MaterialRemapper.cs:87-91 | Assets before the first failure do not throw, and the asset at it does. |
| Remapper.ModelImporter.GetExternalObjectMap | MaterialRemapper/Scripts/Editor/MaterialRemapper.cs:154 | The copy read before the loop equals the importer's current overrides. |
| Remapper.ModelImporter.AddRemap | MaterialRemapper/Scripts/Editor/MaterialRemapper.cs:174 | One call sets the override for its key and is counted. |
| Remapper.AssetDatabase.IsValidFolder | MaterialRemapper/Scripts/Editor/MaterialRemapper.cs:55 | A folder path is valid exactly when the database holds an enumeration for it. |
| Remapper.AssetDatabase.StartAssetEditing | MaterialRemapper/Scripts/Editor/MaterialRemapper.cs:68 | Opens a batched-edit session: the depth goes up by one and the call is logged. |
| Remapper.AssetDatabase.StopAssetEditing | MaterialRemapper/Scripts/Editor/MaterialRemapper.cs:80 | Closes a session: the depth goes down by one and the call is logged. |
| Remapper.AssetDatabase.Refresh | MaterialRemapper/Scripts/Editor/MaterialRemapper.cs:81 | The refresh is logged. |
| Remapper.AssetDatabase.LoadPrefabContents | MaterialRemapper/Scripts/Editor/MaterialRemapper.cs:126-127 | A prefab on disk is loaded as distinct fresh renderers holding its arrays, counted as one live object. A missing prefab gives nothing. |
| Remapper.AssetDatabase.SaveAsPrefabAsset | MaterialRemapper/Scripts/Editor/MaterialRemapper.cs:132 | The prefab on disk takes the renderers' current arrays, and its save count goes up by one. |
| Remapper.AssetDatabase.UnloadPrefabContents | MaterialRemapper/Scripts/Editor/MaterialRemapper.cs:135 | Releases the loaded contents: one live object fewer. |
| Remapper.AssetDatabase.InstantiateModel | MaterialRemapper/Scripts/Editor/MaterialRemapper.cs:141-142 | A model on disk is instantiated as its preview, counted as one live object. A missing model gives nothing. |
| Remapper.AssetDatabase.GetModelImporter | MaterialRemapper/Scripts/Editor/MaterialRemapper.cs:144-145 | A model with an importer gives a fresh importer object holding its settings. Any other path gives nothing. |
| Remapper.AssetDatabase.DestroyImmediate | MaterialRemapper/Scripts/Editor/MaterialRemapper.cs:147 | Destroys the temporary preview instance: one live object fewer. |
| Remapper.AssetDatabase.SaveAndReimport | MaterialRemapper/Scripts/Editor/MaterialRemapper.cs:182 | The importer's settings are written to the model, and its reimport count goes up by one. |
| Remapper.AddRemapsForSlots | MaterialRemapper/Scripts/Editor/MaterialRemapper.cs:158-176 | The inner loop over one renderer's slots leaves the importer with exactly the planned remaps added. Its flag is set exactly when it was already set or some remap was added. |
| Remapper.AddRemapsForPreview | MaterialRemapper/Scripts/Editor/MaterialRemapper.cs:152-177 | The loop over all renderers leaves the importer with the plan of the whole preview added. The flag is set exactly when the plan is not empty. |
| Remapper.AssetDatabase.RemapPrefab | MaterialRemapper/Scripts/Editor/MaterialRemapper.cs:124-136 | The prefab on disk becomes `PrefabAfterRemap`: rewritten and saved once if some slot changed, untouched otherwise. A missing prefab is skipped. The loaded copy is released. |
| Remapper.AssetDatabase.RemapModel | MaterialRemapper/Scripts/Editor/MaterialRemapper.cs:138-184 | The model becomes `ModelAfterRemap`: the planned remaps are added, then one reimport if any was added. A model without an importer, or one that could not be instantiated, is untouched. The preview instance is destroyed on every path that created it. |
| Remapper.AssetDatabase.SwitchObjectType | MaterialRemapper/Scripts/Editor/MaterialRemapper.cs:94-108 | The store becomes `ProcessAsset` of the old store: the dispatch is by lower-cased extension. |
| Remapper.AssetDatabase.EditSelection | MaterialRemapper/Scripts/Editor/MaterialRemapper.cs:85-92 | The assets up to the first one that throws are processed in selection order. The pass stops there and reports that asset. |
| Remapper.AssetDatabase.TryEditAssets | MaterialRemapper/Scripts/Editor/MaterialRemapper.cs:72-83 | The same store as `EditSelection`. The batched-edit session is closed and the database refreshed whether or not an asset threw. |
| Remapper.AssetDatabase.RemapSelected | MaterialRemapper/Scripts/Editor/MaterialRemapper.cs:52-70 | An invalid folder, or a folder with no loadable material, changes nothing and opens no session. Otherwise exactly one session (start, stop, refresh) covers the edited selection with the folder's table, and the editing depth is restored. |

## Left out

- The window's GUI, the menu item and the button's enable condition (lines 20-46) are not modelled. The selection is given as a sequence of asset paths and the prefix as a parameter; the window's folder field is the folder path.
- Debug log messages are not modelled; they do not change asset state.
- C#'s culture-sensitive `StartsWith(string)` is modelled as an ordinal prefix test.
- `ToLowerInvariant` is modelled on the ASCII letters A-Z only.
- Dispatch.LowerString: its contract states only that the length is kept. The per-character mapping through `Lower` is its definition; `LowerStringOfLowerCase` and `LowerPreservesExtension` state what the dispatch relies on.
- `FindAssets`, `GUIDToAssetPath` and `LoadAssetAtPath` are given as the folder's enumeration, a sequence in which a material that failed to load is `None`. Unity's ordering of `FindAssets` is taken as given.
- The external-object map holds only material overrides. Overrides of other object types are not modelled.
- Remapper.AssetDatabase.RemapModel: a reimport does not change the preview's internal material names. What the importer does with the overrides on reimport is not modelled. In the editor a remapped slot shows its replacement after the reimport, so the preview's names change.
- Remapper.ModelAfterRemap: keeps the preview across the reimport. In the editor a remapped slot then shows its replacement, as `ModelImport.ReimportedPreviewAddsPrefixedKey` shows.
- Remapper.ProcessAssetSettles: for models this holds only because a reimport is taken to leave the preview unchanged. In the editor the reimported preview can call for a further remap, as `ModelImport.ReimportedPreviewAddsPrefixedKey` shows.
- Remapper.ProcessSelectionSettles: for models this holds only because a reimport is taken to leave the preview unchanged. In the editor a model of the selection can call for a further remap after the run, as `ModelImport.ReimportedPreviewAddsPrefixedKey` shows.
- Remapper.ProcessSelectionIdempotent: for models this holds only because a reimport is taken to leave the preview unchanged. In the editor, a second run on a model whose internal names lack the prefix adds a remap keyed by the prefixed name, and a third run adds nothing. `ModelImport.ReimportedPreviewAddsPrefixedKey` works this case through.
- The importer is a detached object whose settings reach the model's entry only when it is saved. An importer that is changed but not saved does not occur, since the model is saved whenever an `AddRemap` call was made.
- Remapper.AssetDatabase.EditSelection: an exception is modelled as an asset of a handled kind, named in `failing`, that throws before it changes anything. An exception in the middle of one asset is not modelled; in the code nothing releases that asset's loaded prefab or preview instance. The code has no per-asset catch: the first exception ends the whole pass. Only the session's stop and refresh run afterwards, in the `finally` block.
- Unity's nesting of batched-edit sessions is modelled as a depth counter. Only the calls this tool makes are logged.
- Object identity of materials is modelled by a name and an id. `replacement == current` and `existing == replacement` are equality on that record.
- Concurrency, editor domain reloads and the import pipeline's own work are outside the model.
