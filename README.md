# Bake AO settings store, modelled in Dafny

`BakeAOSettings` is the settings asset of the Bake AO editor plugin, which bakes ambient-occlusion textures in the Unity Editor. It holds four pieces of state:

- the shaders that take a baked-AO texture (`shadersThatSupportBakeAO`);
- shader remap pairs, each saying a material with one shader should be switched to another (`shaderRemap`);
- a 32-row matrix of 32-bit layer masks (`layersInteraction`);
- a frame stamp (`lastValidationFrame`) that lets null references be purged at most once per rendered frame.

Its methods keep these lists up to date in place. This project models them as follows:

- `Editor.BakeAOSettings` is a class whose fields are those lists (as `seq`s) and the stamp. Its methods change the fields step by step, as the C# does: the two padding and truncating `while` loops of `DoesObjectsInteract`, the validation pass, the list updates of the mark and remap methods, and the reassignment of `Material.shader`.
- Each method's `ensures` ties the new state, as a `SettingsState.Store` value, to a function of the old state in module `SettingsState`.
- Module `SettingsProperties` proves what those functions promise: idempotent adds, first-occurrence removal, exact-pair dedup, the 32-row self-healing matrix, the purge of dangling references, and the three outcomes of `UpdateMaterial`.
- Module `Lists` gives the .NET list operations the store uses: `List.IndexOf`, `List.Remove` and `List.RemoveAll`.

How host services are represented:

- `Time.renderedFrameCount` becomes a `frame: int` argument of every operation that validates.
- `AssetDatabase.IsMainAsset(material)` becomes the constant field `Material.isMainAsset`.
- A shader reference is `Shader = Null | Asset(id)`, compared by asset identity. A reference to a deleted asset is `Null`.
- A LayerMask is a `bv32`. The C# constant `-1` becomes `0xFFFF_FFFF`, and the bit test `(mask & (1 << j)) != 0` is done on the 32-bit word.
- The two exceptions are the `Err` side of a `Result`. `DoesObjectsInteract` uses `InvalidOperation` with the source's message, and `UpdateMaterial` uses `GeneralException`.
- The `Debug.LogError` path of `UpdateMaterial` is the outcome `Ok(LoggedCannotRemap)`.

Where descriptions of the plugin and the code differ, the model follows the code:

- An out-of-range layer index raises an invalid-operation exception, not an invalid-argument one.
- The validation gate compares the frame for equality only; it does not assume the counter increases. So the first call at frame 0 is skipped, because the stamp starts at 0.
- `MarkShaderAsUnsupported` and the removal operations remove only the first occurrence.
- `UpdateMaterial` takes the target of the first entry whose source matches. That target is not necessarily the live one its own check found (`SettingsProperties.UpdateCanAssignNullInValidatedFrame`).

## Model

| member | source | states |
|---|---|---|
| `Editor.BakeAOSettings.constructor` | Assets/ProceduralPixels/BakeAO/Editor/Scripts/BakeAOSettings.cs:35-47 | a new store has no supported shaders, no remaps, 32 rows of all-ones masks and validation stamp 0 |
| `Editor.BakeAOSettings.DoesObjectsInteract` | Assets/ProceduralPixels/BakeAO/Editor/Scripts/BakeAOSettings.cs:49-68 | the matrix is healed to exactly 32 rows (other fields untouched) before the range check; the answer is the Interaction of the healed matrix, an error for an index outside [0,31] |
| `Editor.BakeAOSettings.Validate` | Assets/ProceduralPixels/BakeAO/Editor/Scripts/BakeAOSettings.cs:146-156 | the new state is the validation of the old one for this frame |
| `Editor.BakeAOSettings.IsShaderSupported` | Assets/ProceduralPixels/BakeAO/Editor/Scripts/BakeAOSettings.cs:70-74 | validates, then answers membership in the validated supported list |
| `Editor.BakeAOSettings.CanShaderBeRemapped` | Assets/ProceduralPixels/BakeAO/Editor/Scripts/BakeAOSettings.cs:76-80 | validates, then answers whether some entry has this source and a non-null target |
| `Editor.BakeAOSettings.MarkShaderAsSupported` | Assets/ProceduralPixels/BakeAO/Editor/Scripts/BakeAOSettings.cs:82-89 | the new state is MarkedSupported of the old one |
| `Editor.BakeAOSettings.MarkShaderAsUnsupported` | Assets/ProceduralPixels/BakeAO/Editor/Scripts/BakeAOSettings.cs:91-98 | the new state is MarkedUnsupported of the old one |
| `Editor.BakeAOSettings.RemoveShaderFromSupported` | Assets/ProceduralPixels/BakeAO/Editor/Scripts/BakeAOSettings.cs:100-103 | the new state is RemovedFromSupported of the old one (no validation) |
| `Editor.BakeAOSettings.AddShaderRemap` | Assets/ProceduralPixels/BakeAO/Editor/Scripts/BakeAOSettings.cs:105-110 | the new state is RemapAdded of the old one (no validation) |
| `Editor.BakeAOSettings.RemoveShaderRemap` | Assets/ProceduralPixels/BakeAO/Editor/Scripts/BakeAOSettings.cs:112-115 | the new state is RemapRemoved of the old one (no validation) |
| `Editor.BakeAOSettings.CanUpdateMaterial` | Assets/ProceduralPixels/BakeAO/Editor/Scripts/BakeAOSettings.cs:117-120 | true iff the material is a main asset and some entry's source is its shader, whatever that entry's target; computed through the First lookup, so First cannot fail when it holds |
| `Editor.BakeAOSettings.IsMaterialSupported` | Assets/ProceduralPixels/BakeAO/Editor/Scripts/BakeAOSettings.cs:122-125 | validates, then answers whether the material's shader is in the supported list |
| `Editor.BakeAOSettings.UpdateMaterial` | Assets/ProceduralPixels/BakeAO/Editor/Scripts/BakeAOSettings.cs:127-144 | the store, the material's shader and the outcome are those of MaterialUpdated on the old store and old shader |
| `Lists.IndexOf` | Assets/ProceduralPixels/BakeAO/Editor/Scripts/BakeAOSettings.cs:97 | the index List.Remove deletes at: an element equal to x with none before it; the length exactly when x is absent |
| `Lists.RemoveFirstSplices` | Assets/ProceduralPixels/BakeAO/Editor/Scripts/BakeAOSettings.cs:97 | List.Remove cuts out exactly the element at the first occurrence and leaves the list unchanged when x is absent |
| `Lists.RemoveFirstMultiset` | Assets/ProceduralPixels/BakeAO/Editor/Scripts/BakeAOSettings.cs:97 | List.Remove takes away one occurrence of x if there is one and no other element |
| `Lists.Filter` | Assets/ProceduralPixels/BakeAO/Editor/Scripts/BakeAOSettings.cs:154-155 | RemoveAll keeps exactly the elements that pass (every survivor passes and every passing element survives) and never grows the list |
| `Lists.FilterAppend` | Assets/ProceduralPixels/BakeAO/Editor/Scripts/BakeAOSettings.cs:154-155 | RemoveAll keeps the survivors in their original order |
| `Lists.FilterKeepsAll` | Assets/ProceduralPixels/BakeAO/Editor/Scripts/BakeAOSettings.cs:154-155 | RemoveAll removes nothing from a list whose every element passes |
| `Lists.FilterIdempotent` | Assets/ProceduralPixels/BakeAO/Editor/Scripts/BakeAOSettings.cs:154-155 | a second RemoveAll with the same test removes nothing |
| `Lists.FilterMultisetShrinks` | Assets/ProceduralPixels/BakeAO/Editor/Scripts/BakeAOSettings.cs:154-155 | RemoveAll never adds an occurrence of any element |
| `SettingsState.NormalizeLayers` | Assets/ProceduralPixels/BakeAO/Editor/Scripts/BakeAOSettings.cs:51-61 | after the two loops the matrix has exactly 32 rows, the first min(n,32) stored rows are unchanged, and every added row is all-ones (-1) |
| `SettingsState.FirstRemapIndex` | Assets/ProceduralPixels/BakeAO/Editor/Scripts/BakeAOSettings.cs:141 | First(p => p.nonBakeAOShader == shader) picks an entry with that source and none before it has that source |
| `SettingsProperties.AllLayersHasEveryBit` | Assets/ProceduralPixels/BakeAO/Editor/Scripts/BakeAOSettings.cs:35 | the -1 mask has every one of the 32 bits set |
| `SettingsProperties.InitialStoreInteractsEverywhere` | Assets/ProceduralPixels/BakeAO/Editor/Scripts/BakeAOSettings.cs:44 | on a fresh store the healing leaves the 32 initial rows as they are and every in-range pair of layers interacts |
| `SettingsProperties.NormalizeLayersIdempotent` | Assets/ProceduralPixels/BakeAO/Editor/Scripts/BakeAOSettings.cs:51-61 | a second query heals nothing more |
| `SettingsProperties.InteractionReadsStoredRow` | Assets/ProceduralPixels/BakeAO/Editor/Scripts/BakeAOSettings.cs:63-67 | the query fails, with the range message, exactly when an index is outside [0,31], whatever the stored length; for a stored row the answer is that row's bit |
| `SettingsProperties.PaddedRowInteractsEverywhere` | Assets/ProceduralPixels/BakeAO/Editor/Scripts/BakeAOSettings.cs:51-55 | a row added by padding reads as interacting with every layer |
| `SettingsProperties.ValidateSameFrameIsNoop` | Assets/ProceduralPixels/BakeAO/Editor/Scripts/BakeAOSettings.cs:150-151 | validation in the stamped frame (the first call at frame 0 included) changes nothing |
| `SettingsProperties.ValidateTwiceIsOnce` | Assets/ProceduralPixels/BakeAO/Editor/Scripts/BakeAOSettings.cs:148-156 | a second validation in the same frame is a no-op |
| `SettingsProperties.ValidatePurgesNulls` | Assets/ProceduralPixels/BakeAO/Editor/Scripts/BakeAOSettings.cs:153-155 | a pass in a new frame stamps it, leaves no null shader and no remap with a null side, keeps every live shader and live remap, and leaves the matrix alone |
| `SettingsProperties.ValidateKeepsOrder` | Assets/ProceduralPixels/BakeAO/Editor/Scripts/BakeAOSettings.cs:155 | the purged supported list is the purge of each part of the old list, in order |
| `SettingsProperties.ValidateAgainLaterOnlyStamps` | Assets/ProceduralPixels/BakeAO/Editor/Scripts/BakeAOSettings.cs:148-156 | once purged, a later frame's pass only moves the stamp |
| `SettingsProperties.NullNotSupportedAfterPurge` | Assets/ProceduralPixels/BakeAO/Editor/Scripts/BakeAOSettings.cs:70-74 | after a pass in a new frame a deleted shader is not reported as supported |
| `SettingsProperties.MarkedSupportedAppendsOnce` | Assets/ProceduralPixels/BakeAO/Editor/Scripts/BakeAOSettings.cs:82-89 | marking keeps the validated list as a prefix, includes the shader, and grows the list (as multiset) by the shader exactly when it was absent |
| `SettingsProperties.MarkedSupportedIdempotent` | Assets/ProceduralPixels/BakeAO/Editor/Scripts/BakeAOSettings.cs:82-89 | marking twice in a frame equals marking once |
| `SettingsProperties.SupportedAfterMark` | Assets/ProceduralPixels/BakeAO/Editor/Scripts/BakeAOSettings.cs:70-74 | after marking, IsShaderSupported answers true in the same frame, and in any later frame for a non-null shader |
| `SettingsProperties.MarkedUnsupportedIsValidateThenRemove` | Assets/ProceduralPixels/BakeAO/Editor/Scripts/BakeAOSettings.cs:91-98 | MarkShaderAsUnsupported is a validation pass followed by RemoveShaderFromSupported: its Contains guard changes nothing |
| `SettingsProperties.RemovedFromSupportedRemovesFirst` | Assets/ProceduralPixels/BakeAO/Editor/Scripts/BakeAOSettings.cs:100-103 | removal cuts out only the first occurrence, leaves other fields and the absent case unchanged, and removes one occurrence from the multiset |
| `SettingsProperties.FilterKeepsDistinct` | Assets/ProceduralPixels/BakeAO/Editor/Scripts/BakeAOSettings.cs:155 | the purge keeps a duplicate-free list duplicate-free |
| `SettingsProperties.RemoveFirstKeepsDistinct` | Assets/ProceduralPixels/BakeAO/Editor/Scripts/BakeAOSettings.cs:97 | List.Remove keeps a duplicate-free list duplicate-free |
| `SettingsProperties.SupportedStaysDistinct` | Assets/ProceduralPixels/BakeAO/Editor/Scripts/BakeAOSettings.cs:82-103 | validation, mark, unmark and remove all keep the supported list free of duplicates |
| `SettingsProperties.UnsupportedAfterMarkingBoth` | Assets/ProceduralPixels/BakeAO/Editor/Scripts/BakeAOSettings.cs:82-98 | on a duplicate-free list, marking a shader supported and then unsupported leaves it unsupported that frame |
| `SettingsProperties.UnmarkLeavesDuplicate` | Assets/ProceduralPixels/BakeAO/Editor/Scripts/BakeAOSettings.cs:97 | with a duplicated entry, one MarkShaderAsUnsupported leaves the shader supported |
| `SettingsProperties.RemapAddedAppendsOnce` | Assets/ProceduralPixels/BakeAO/Editor/Scripts/BakeAOSettings.cs:105-110 | adding keeps the old table as a prefix, the pair is present afterwards, and the table grew by one only if the exact pair was missing |
| `SettingsProperties.RemapAddedIdempotent` | Assets/ProceduralPixels/BakeAO/Editor/Scripts/BakeAOSettings.cs:105-110 | adding the same pair twice equals adding it once |
| `SettingsProperties.SecondTargetGetsOwnEntry` | Assets/ProceduralPixels/BakeAO/Editor/Scripts/BakeAOSettings.cs:105-110 | (a,b) then (a,c) with c different from b appends two entries for source a |
| `SettingsProperties.RemapRemovedRemovesFirst` | Assets/ProceduralPixels/BakeAO/Editor/Scripts/BakeAOSettings.cs:112-115 | removal of a pair cuts out only its first occurrence, keeps the rest in order, and leaves the table alone when the pair is absent |
| `SettingsProperties.FirstRemapFoundIffSource` | Assets/ProceduralPixels/BakeAO/Editor/Scripts/BakeAOSettings.cs:119-141 | Any(source matches) holds exactly when First(source matches) finds an entry |
| `SettingsProperties.RemappableMainAssetIsUpdatable` | Assets/ProceduralPixels/BakeAO/Editor/Scripts/BakeAOSettings.cs:76-80 | a remappable shader on a main asset makes CanUpdateMaterial true |
| `SettingsProperties.NullTargetUpdatableNotRemappable` | Assets/ProceduralPixels/BakeAO/Editor/Scripts/BakeAOSettings.cs:117-120 | the converse fails: an entry with a null target makes the material updatable but not remappable |
| `SettingsProperties.EmbeddedAssetNotUpdatable` | Assets/ProceduralPixels/BakeAO/Editor/Scripts/BakeAOSettings.cs:119 | a material that is not a main asset is never updatable |
| `SettingsProperties.MaterialUpdateOutcomes` | Assets/ProceduralPixels/BakeAO/Editor/Scripts/BakeAOSettings.cs:127-144 | UpdateMaterial throws (shader unchanged) iff the validated store cannot update the material, logs (shader unchanged) iff it can but no entry has a live target, and otherwise assigns the target of the first entry for the shader; validation is its only change to the store |
| `SettingsProperties.UpdatedShaderLiveAfterPurge` | Assets/ProceduralPixels/BakeAO/Editor/Scripts/BakeAOSettings.cs:129-141 | in a frame that purges the table, a reassigned shader is never null |
| `SettingsProperties.UpdateCanAssignNullInValidatedFrame` | Assets/ProceduralPixels/BakeAO/Editor/Scripts/BakeAOSettings.cs:134-141 | in an already-validated frame, a null-target entry before a live one for the same source passes the check and makes the material's shader null |
| `SettingsProperties.UpdateFollowsOnlyRemap` | Assets/ProceduralPixels/BakeAO/Editor/Scripts/BakeAOSettings.cs:117-144 | with one live target b for a main asset's shader a, the material is updatable and UpdateMaterial switches it to b |

## Left out

- The four menu commands and their `_Validate` predicates (lines 158-188): they read the editor's global selection and the singleton instance, so they are editor glue.
- `EditorUtility.SetDirty`, `Undo.RecordObject` and `AssetDatabase.SaveAssetIfDirty` are persistence and undo effects of the host and are dropped. `Debug.LogError` appears only as the `LoggedCannotRemap` outcome.
- `bakeMaterialsForStaticGameObjects` (line 47) is a plain serialized field that no code in this file reads.
- The singleton lifetime (`SingletonScriptableObject`) and the serialization attributes are left out. The store is an ordinary object made by its constructor.
- Unity's "fake null" is left out. A destroyed object that still has a managed reference but compares equal to null is modelled as the value `Null` in the list. Asset deletion itself is a host event and is not an operation of the model.
- Material is reduced to its shader and its main-asset flag (`AssetDatabase.IsMainAsset` as a constant). Real asset identity and everything else about materials and shaders is not modelled.
- The AO baking pipeline is not part of this model.
