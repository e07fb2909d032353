# OvaniSound "Create Sound Source", modelled in Dafny

OvaniSound is an editor plugin that adds a "Create Sound Source" action to
the content browser's folder menu. For each selected folder the action:

1. lists the folder's assets and loads each one;
2. keeps only sound waves and sorts each into one of five slots (Main,
   Intensity 1, Intensity 2, Cut 30, Cut 60), using a case-insensitive
   substring test on the asset name;
3. skips the folder unless all five slots are filled;
4. packs the five sounds in the order Intensity 1, Intensity 2, Main, Cut 30,
   Cut 60;
5. duplicates the template MetaSound source
   `/Game/OvaniSound/MetaSounds/TEMPLATE_SONG_SRC` into the folder as
   `<folder name>_SongSrc`;
6. walks the copy's graph and gives each node that has a "Wave Asset" pin the
   next packed sound, after cutting the pin's links.

The model is split by module:

- `Wrappers`: an `Option` type.
- `Strings`: the engine's case-insensitive substring test and name equality.
- `Paths`: object path to package name, the folder's base name, the new
  asset's name and the duplicate's target path.
- `Selection`: the classification chain, the five-slot scan (a method with a
  loop, proved against `Selected`) and the packing.
- `MetaSoundGraph`: pins, nodes, the `Graph` and `MetaSoundSource` classes,
  and `ModifyMetaSoundAsset`. That method rewrites the graph's node array in
  place and is proved against the function `Rewire`.
- `SoundSource`: `DuplicateMetaSoundAsset`, the body of the menu loop for one
  folder, and the loop over all selected folders.

Engine services enter the model as inputs:

- a folder's listing is a sequence of entries, each an object path and what
  loading it gave;
- `DoesAssetExist` is a set of existing package paths;
- `DuplicateAsset` followed by the cast to a MetaSound source is a
  `Duplication` value, one per folder.

## Model

All source paths are relative to the repository root. `OvaniSound.cpp` stands for `Plugins/OvaniSound/Source/OvaniSound/Private/OvaniSound.cpp`.

| member | source | states |
|---|---|---|
| Strings.Contains | Plugins/OvaniSound/Source/OvaniSound/Private/OvaniSound.cpp:66-85 | The search behind `FString::Contains` with its default, case-ignoring search. No contract of its own; stated by `Strings.ContainsIffOccurs`. |
| Strings.ContainsIffOccurs | Plugins/OvaniSound/Source/OvaniSound/Private/OvaniSound.cpp:66-85 | The name test used by the classification chain is true exactly when the pattern occurs at some position of the name, letter by letter, ignoring case. |
| Strings.EqualsIgnoringCase | Plugins/OvaniSound/Source/OvaniSound/Private/OvaniSound.cpp:146 | Equality of two `FName`s ignoring case. No contract of its own; stated by `Strings.EqualsIgnoringCaseIsLetterwise`. |
| Strings.EqualsIgnoringCaseIsLetterwise | Plugins/OvaniSound/Source/OvaniSound/Private/OvaniSound.cpp:146 | Two names are equal as engine names exactly when they have the same length and agree letter by letter, ignoring case. |
| Paths.ObjectPathToPackageName | Plugins/OvaniSound/Source/OvaniSound/Private/OvaniSound.cpp:174 | The package name is a prefix of the object path and holds no '.'. It stops at the first '.', or is the whole path when there is none. |
| Paths.PackageOfObjectPath | Plugins/OvaniSound/Source/OvaniSound/Private/OvaniSound.cpp:57 | For an object path `Package.Object` whose package has no '.', the package name is `Package`. |
| Paths.TemplatePackage | Plugins/OvaniSound/Source/OvaniSound/Private/OvaniSound.cpp:97 | The template's package path, computed from its object path. No contract of its own; stated by `Paths.TemplatePackageIsTemplateFolderAsset`. |
| Paths.TemplatePackageIsTemplateFolderAsset | Plugins/OvaniSound/Source/OvaniSound/Private/OvaniSound.cpp:97 | The template is looked up under the package `/Game/OvaniSound/MetaSounds/TEMPLATE_SONG_SRC`. |
| Paths.BaseFilename | Plugins/OvaniSound/Source/OvaniSound/Private/OvaniSound.cpp:99 | The base name is a suffix of the path that holds no '/'. It is preceded by a '/' unless it is the whole path. |
| Paths.BaseFilenameSnoc | Plugins/OvaniSound/Source/OvaniSound/Private/OvaniSound.cpp:99 | Appending a character other than '/' to a path appends it to the base name. |
| Paths.BaseFilenameOfChild | Plugins/OvaniSound/Source/OvaniSound/Private/OvaniSound.cpp:99 | The base name of `dir/leaf` is `leaf` whenever `leaf` has no '/'. |
| Paths.BaseFilenameHasNoDot | Plugins/OvaniSound/Source/OvaniSound/Private/OvaniSound.cpp:99-100 | A folder path without '.' gives a base name without '.'. |
| Paths.NewAssetName | Plugins/OvaniSound/Source/OvaniSound/Private/OvaniSound.cpp:99-100 | The new asset's name: the folder's base name followed by "_SongSrc". No contract of its own; stated by `Paths.NewAssetLandsInFolder`. |
| Paths.DuplicateTarget | Plugins/OvaniSound/Source/OvaniSound/Private/OvaniSound.cpp:174 | The package the duplicate is written to, `<path>/<name>` as a package name. No contract of its own; stated by `Paths.ChildPackage` and `Paths.NewAssetLandsInFolder`. |
| Paths.ChildPackage | Plugins/OvaniSound/Source/OvaniSound/Private/OvaniSound.cpp:174 | For a directory and leaf without '.', where the leaf has no '/', the duplicate's target is `dir/leaf` and its base name is `leaf`. |
| Paths.NewAssetLandsInFolder | Plugins/OvaniSound/Source/OvaniSound/Private/OvaniSound.cpp:99-102 | For a folder path without '.', the new asset is written to `<folder>/<base>_SongSrc`, and its base name is `<base>_SongSrc`. |
| Selection.Classify | Plugins/OvaniSound/Source/OvaniSound/Private/OvaniSound.cpp:66-85 | The if/else-if chain on a sound wave's name. No contract of its own; stated by `Selection.ClassifyPicksFirstMatch`. |
| Selection.ClassifyPicksFirstMatch | Plugins/OvaniSound/Source/OvaniSound/Private/OvaniSound.cpp:66-85 | A name goes into a slot exactly when it contains that slot's substring and none of the substrings checked earlier in the chain. A name goes into no slot exactly when it contains none of the five. |
| Selection.NonWaveFillsNothing | Plugins/OvaniSound/Source/OvaniSound/Private/OvaniSound.cpp:57-64 | An asset that failed to load, or is not a sound wave, fills no slot. |
| Selection.UnclassifiedEntryIsIgnored | Plugins/OvaniSound/Source/OvaniSound/Private/OvaniSound.cpp:57-86 | Removing a listing entry that is not classified into a slot does not change what that slot ends up holding. |
| Selection.LastFill | Plugins/OvaniSound/Source/OvaniSound/Private/OvaniSound.cpp:55-87 | The sound a slot holds after the scan. No contract of its own; stated by `Selection.LastFillIsLastEntry`, `Selection.LastFillEmpty` and `Selection.UnclassifiedEntryIsIgnored`. |
| Selection.Selected | Plugins/OvaniSound/Source/OvaniSound/Private/OvaniSound.cpp:47-87 | The five slot variables after the scan, each the slot's `LastFill`. No contract of its own; `Selection.ScanFolder` is proved equal to it. |
| Selection.LastFillIsLastEntry | Plugins/OvaniSound/Source/OvaniSound/Private/OvaniSound.cpp:55-87 | A slot ends up holding the sound of the last entry of the listing classified into it; earlier matches are overwritten. |
| Selection.LastFillEmpty | Plugins/OvaniSound/Source/OvaniSound/Private/OvaniSound.cpp:47-87 | A slot ends the scan empty exactly when no entry of the listing is classified into it. |
| Selection.ScanFolder | Plugins/OvaniSound/Source/OvaniSound/Private/OvaniSound.cpp:47-87 | The scan loop leaves each of the five slot variables holding that slot's last classified sound, or nothing if there is none. |
| Selection.Pack | Plugins/OvaniSound/Source/OvaniSound/Private/OvaniSound.cpp:89-95 | Packing succeeds exactly when all five slots are filled. Its array has five sounds, and position k holds the sound of slot k of Intensity 1, Intensity 2, Main, Cut 30, Cut 60. |
| Selection.PackFailsIffSlotMissing | Plugins/OvaniSound/Source/OvaniSound/Private/OvaniSound.cpp:89-93 | The packed array is missing exactly when some slot has no entry of the listing classified into it. |
| MetaSoundGraph.FindPin | Plugins/OvaniSound/Source/OvaniSound/Private/OvaniSound.cpp:146 | Finds the first pin whose name equals the requested name ignoring case. The result is missing exactly when no pin has that name. |
| MetaSoundGraph.FindPinReadsNamesOnly | Plugins/OvaniSound/Source/OvaniSound/Private/OvaniSound.cpp:146 | Pin lookup depends only on the pins' names, so changing a pin's links or default does not move the "Wave Asset" pin. |
| MetaSoundGraph.AssignWave | Plugins/OvaniSound/Source/OvaniSound/Private/OvaniSound.cpp:151-152 | One node's "Wave Asset" pin unlinked and given a sound as default. No contract of its own; stated by `MetaSoundGraph.AssignWaveEffect` and `MetaSoundGraph.AssignWaveTwice`. |
| MetaSoundGraph.AssignWaveEffect | Plugins/OvaniSound/Source/OvaniSound/Private/OvaniSound.cpp:151-152 | After the assignment the node still has its wave pin at the same place, with the same name, no links and the sound as its default. Every other pin is unchanged. |
| MetaSoundGraph.AssignWaveTwice | Plugins/OvaniSound/Source/OvaniSound/Private/OvaniSound.cpp:151-152 | A second assignment to the same wave pin fully replaces the first. |
| MetaSoundGraph.Rewire | Plugins/OvaniSound/Source/OvaniSound/Private/OvaniSound.cpp:142-157 | The rewrite keeps the number of nodes. |
| MetaSoundGraph.RewireAt | Plugins/OvaniSound/Source/OvaniSound/Private/OvaniSound.cpp:144-156 | Node m after the rewrite depends on whether it has a "Wave Asset" pin. If it does, and j nodes before it have one, it gets `sounds[j]` with its pin unlinked. Otherwise it is unchanged. |
| MetaSoundGraph.RewireKeepsWavePins | Plugins/OvaniSound/Source/OvaniSound/Private/OvaniSound.cpp:144-157 | The rewrite keeps which nodes have a "Wave Asset" pin, and so keeps how many do. |
| MetaSoundGraph.ModifyMetaSoundAsset | Plugins/OvaniSound/Source/OvaniSound/Private/OvaniSound.cpp:123-161 | A null asset or a null graph is left alone. Otherwise the graph's node array becomes the rewrite of its old contents: the k-th "Wave Asset" node gets the k-th sound, unlinked, and every other node keeps its value. |
| SoundSource.DuplicateMetaSoundAsset | Plugins/OvaniSound/Source/OvaniSound/Private/OvaniSound.cpp:163-184 | The result is null with "template not found" exactly when the template path does not exist. Otherwise the target is `<path>/<name>` as a package name. The result is a MetaSound source exactly when the template exists and the duplicate casts to one; it then carries the duplicate's graph. |
| SoundSource.ModifyDuplicate | Plugins/OvaniSound/Source/OvaniSound/Private/OvaniSound.cpp:103-106 | Passing the duplicate to the rewrite keeps whether it has a graph, and a graph becomes its rewrite with the packed sounds. |
| SoundSource.ProcessFolder | Plugins/OvaniSound/Source/OvaniSound/Private/OvaniSound.cpp:47-110 | The outcome of the loop body for one folder: skipped, creation failed, or created with the rewired graph. No contract of its own; stated by `SoundSource.SkippedIffSlotMissing` and `SoundSource.CreatedSourceWiring`, and `SoundSource.CreateSoundSource` is proved equal to it. |
| SoundSource.CreateSoundSource | Plugins/OvaniSound/Source/OvaniSound/Private/OvaniSound.cpp:47-110 | One loop iteration gives the folder's outcome: skipped, creation failed (with the reason), or created at its target with the rewritten graph. |
| SoundSource.CreateSoundSources | Plugins/OvaniSound/Source/OvaniSound/Private/OvaniSound.cpp:42-116 | The menu action processes the selected folders in order, one outcome per folder. |
| SoundSource.ProcessFolders | Plugins/OvaniSound/Source/OvaniSound/Private/OvaniSound.cpp:42-116 | One outcome per selected folder, in selection order. `SoundSource.ProcessFoldersAt` states that outcome i is `ProcessFolder` of folder i, and `SoundSource.CreateSoundSources` is proved equal to it. |
| SoundSource.ProcessFoldersAt | Plugins/OvaniSound/Source/OvaniSound/Private/OvaniSound.cpp:45-116 | Folder i's outcome depends only on folder i's path, listing and duplication, not on the other folders. |
| SoundSource.SkippedIffSlotMissing | Plugins/OvaniSound/Source/OvaniSound/Private/OvaniSound.cpp:89-93 | A folder is skipped, whatever the engine would do, exactly when one of the five slots has no classified entry. |
| SoundSource.CreatedSourceWiring | Plugins/OvaniSound/Source/OvaniSound/Private/OvaniSound.cpp:95-105 | A created source sits at `<folder>/<base>_SongSrc`. For its j-th "Wave Asset" node, the pin is unlinked and defaults to the last listed sound of slot j of Intensity 1, Intensity 2, Main, Cut 30, Cut 60. |

## Left out

- Module startup and shutdown, the menu registration and the lookup of the folder context (`OvaniSound.cpp:1-41`) are editor glue with no logic to model.
- The log messages (`UE_LOG`) are not modelled. The outcomes that trigger them are: a skipped folder, "template not found", a failed duplicate, a null asset or graph.
- `FormattedSelectedPaths` (`OvaniSound.cpp:44`, `:111-115`) is built and never read, so it is not modelled.
- The `Modify` and `PostEditChange` calls only record undo history and notify the editor; they do not change the graph's contents.
- `TrySetDefaultObject` is modelled as setting the pin's default object. The schema's own checks are not modelled.
- `ListAssets`, `LoadAsset`, `DoesAssetExist` and `DuplicateAsset` are engine calls. Their results are inputs to the model: the listing, the `Loaded` value of each entry, the set of existing paths and the `Duplication` value per folder.
- Paths.BaseFilename: only the last '/'-separated segment is taken. The engine's `GetBaseFilename` also strips an extension after a '.' and treats '\\' as a separator; content-browser folder paths normally have neither. The engine also skips trailing separators, so "/Game/Foo/" gives "Foo" where the model gives an empty name; selected package paths have no trailing '/'.
- Paths.ObjectPathToPackageName: the package is the part before the first '.'. The engine's handling of ':' sub-object paths is not modelled.
- Strings.Contains, Strings.EqualsIgnoringCase: case is folded for ASCII letters only. Any folding the engine applies to other characters is not modelled.
- Selection.Sound: a loaded sound wave is identified by its package and object name, not by object identity.
- MetaSoundGraph.ModifyMetaSoundAsset:
  - Nodes and pins are values stored in the graph's node array, not separately allocated objects, so aliasing between them is not modelled.
  - The loop walks a copy of the node list (`OvaniSound.cpp:142`). The loop never changes the list itself, so the model walks the array directly.
- MetaSoundGraph.ModifyMetaSoundAsset: the source indexes the sounds without a bounds check. The model requires the graph to have no more "Wave Asset" nodes than there are sounds.
- SoundSource.ProcessFolder: requires every MetaSound duplicate to have at most five "Wave Asset" nodes. This applies even to folders that are skipped before the rewrite, so it is a stronger requirement than the source's bounds need.
- SoundSource.DuplicateMetaSoundAsset: when the duplicate is not a MetaSound source, the engine has still created the copy. The model records only that no MetaSound source was returned.
- The links pointing back from other pins to a cleared "Wave Asset" pin stay as they are, as in the source. Nothing about those back links is stated.
- `OvaniSound.h` holds only declarations and is not part of this model.
