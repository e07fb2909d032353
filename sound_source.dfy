/**
 * The "Create Sound Source" folder action: for each selected folder, select
 * its five sounds, duplicate the template MetaSound source next to them and
 * point the duplicate's wave players at the selected sounds.
 */
module SoundSource {
  import opened Wrappers
  import opened Paths
  import opened Selection
  import opened MetaSoundGraph

  /** What the engine's `DuplicateAsset` yields, seen through the cast to a MetaSound source. */
  datatype Duplication =
    | EngineDuplicateFailed                         // `DuplicateAsset` returned null
    | DuplicatedOther                               // the copy is not a MetaSound source
    | DuplicatedMetaSound(graph: Option<seq<Node>>) // a MetaSound source and its graph's nodes, if it has a graph

  /** `DuplicateMetaSoundAsset`'s answer: null (with the reason) or the new MetaSound source. */
  datatype DuplicateResult =
    | TemplateNotFound
    | NotDuplicated(target: string)
    | Duplicated(target: string, graph: Option<seq<Node>>)

  /**
   * Duplicates the template into `<newAssetPath>/<newAssetName>`. `existing`
   * stands for the engine's `DoesAssetExist`, `duplication` for what its
   * `DuplicateAsset` gives.
   */
  function DuplicateMetaSoundAsset(templatePath: string, newAssetName: string, newAssetPath: string,
                                   existing: set<string>, duplication: Duplication): (r: DuplicateResult)
    ensures r == TemplateNotFound <==> templatePath !in existing
    ensures r != TemplateNotFound ==> r.target == DuplicateTarget(newAssetPath, newAssetName)
    ensures r.Duplicated? <==> templatePath in existing && duplication.DuplicatedMetaSound?
    ensures r.Duplicated? ==> r.graph == duplication.graph
  {
    if templatePath !in existing then TemplateNotFound
    else
      var target := ObjectPathToPackageName(newAssetPath + "/" + newAssetName);
      match duplication
      case EngineDuplicateFailed => NotDuplicated(target)
      case DuplicatedOther => NotDuplicated(target)
      case DuplicatedMetaSound(graph) => Duplicated(target, graph)
  }

  /** What processing one selected folder leaves behind. */
  datatype FolderOutcome =
    | NotAllSoundsFound                                   // skipped: a slot stayed empty
    | SourceNotCreated(result: DuplicateResult)           // "Failed to create sound source"
    | SourceCreated(target: string, graph: Option<seq<Node>>) // the new asset's graph after the rewrite

  /**
   * The rewrite indexes the five packed sounds without a bounds check, so a
   * duplicated graph may hold at most five nodes with a wave pin.
   */
  predicate GraphFitsSounds(duplication: Duplication)
  {
    duplication.DuplicatedMetaSound? && duplication.graph.Some? ==>
      WavePinCount(duplication.graph.value) <= |PackOrder|
  }

  /** One iteration of the menu action's loop, for the folder `path` with listing `entries`. */
  function ProcessFolder(path: string, entries: seq<Entry>, existing: set<string>, duplication: Duplication): FolderOutcome
    requires GraphFitsSounds(duplication)
  {
    match Pack(Selected(entries))
    case None => NotAllSoundsFound
    case Some(sounds) =>
      match DuplicateMetaSoundAsset(TemplatePackage(), NewAssetName(path), path, existing, duplication)
      case Duplicated(target, graph) =>
        SourceCreated(target, if graph.Some? then Some(Rewire(graph.value, sounds)) else None)
      case result => SourceNotCreated(result)
  }

  /**
   * Hands the duplicated MetaSound source, as an object, to
   * `ModifyMetaSoundAsset` and reads back its graph's nodes.
   */
  method ModifyDuplicate(graph: Option<seq<Node>>, sounds: seq<Sound>) returns (after: Option<seq<Node>>)
    requires graph.Some? ==> WavePinCount(graph.value) <= |sounds|
    ensures after.Some? <==> graph.Some?
    ensures graph.Some? ==> after.value == Rewire(graph.value, sounds)
  {
    var editorGraph: Graph? := null;
    if graph.Some? {
      editorGraph := new Graph(graph.value);
    }
    var metaSound := new MetaSoundSource(editorGraph);
    ModifyMetaSoundAsset(metaSound, sounds);
    after := if editorGraph == null then None else Some(editorGraph.nodes[..]);
  }

  /** The body of the menu action's loop for one selected folder. */
  method CreateSoundSource(path: string, entries: seq<Entry>, existing: set<string>, duplication: Duplication)
    returns (outcome: FolderOutcome)
    requires GraphFitsSounds(duplication)
    ensures outcome == ProcessFolder(path, entries, existing, duplication)
  {
    var slots := ScanFolder(entries);
    var packed := Pack(slots);
    if packed.None? {
      return NotAllSoundsFound;
    }
    var soundArray := packed.value;
    var template := TemplatePackage();
    var folderName := BaseFilename(path);
    var newAssetName := folderName + SongSourceSuffix;
    var result := DuplicateMetaSoundAsset(template, newAssetName, path, existing, duplication);
    assert result == DuplicateMetaSoundAsset(TemplatePackage(), NewAssetName(path), path, existing, duplication);
    if result.Duplicated? {
      var graphAfter := ModifyDuplicate(result.graph, soundArray);
      outcome := SourceCreated(result.target, graphAfter);
    } else {
      outcome := SourceNotCreated(result);
    }
  }

  /** The outcomes of the menu action on each selected folder, in selection order. */
  function ProcessFolders(selectedPaths: seq<string>, listings: seq<seq<Entry>>,
                          existing: set<string>, duplications: seq<Duplication>): (r: seq<FolderOutcome>)
    requires |listings| == |selectedPaths| && |duplications| == |selectedPaths|
    requires forall i :: 0 <= i < |selectedPaths| ==>
      GraphFitsSounds(duplications[i])
    ensures |r| == |selectedPaths|
  {
    var n := |selectedPaths|;
    if n == 0 then []
    else
      ProcessFolders(selectedPaths[..n - 1], listings[..n - 1], existing, duplications[..n - 1]) +
      [ProcessFolder(selectedPaths[n - 1], listings[n - 1], existing, duplications[n - 1])]
  }

  /**
   * The menu action: each selected folder in turn is scanned and, when all
   * five sounds are found, gets a rewired duplicate of the template.
   */
  method CreateSoundSources(selectedPaths: seq<string>, listings: seq<seq<Entry>>,
                            existing: set<string>, duplications: seq<Duplication>)
    returns (outcomes: seq<FolderOutcome>)
    requires |listings| == |selectedPaths| && |duplications| == |selectedPaths|
    requires forall i :: 0 <= i < |selectedPaths| ==>
      GraphFitsSounds(duplications[i])
    ensures outcomes == ProcessFolders(selectedPaths, listings, existing, duplications)
  {
    outcomes := [];
    for i := 0 to |selectedPaths|
      invariant outcomes == ProcessFolders(selectedPaths[..i], listings[..i], existing, duplications[..i])
    {
      var outcome := CreateSoundSource(selectedPaths[i], listings[i], existing, duplications[i]);
      assert selectedPaths[..i + 1][..i] == selectedPaths[..i];
      assert listings[..i + 1][..i] == listings[..i];
      assert duplications[..i + 1][..i] == duplications[..i];
      outcomes := outcomes + [outcome];
    }
    assert selectedPaths[..|selectedPaths|] == selectedPaths;
    assert listings[..|selectedPaths|] == listings;
    assert duplications[..|selectedPaths|] == duplications;
  }

  /** Folder `i`'s outcome depends on that folder alone. */
  lemma {:induction false} ProcessFoldersAt(selectedPaths: seq<string>, listings: seq<seq<Entry>>,
                                            existing: set<string>, duplications: seq<Duplication>, i: nat)
    requires |listings| == |selectedPaths| && |duplications| == |selectedPaths|
    requires forall i :: 0 <= i < |selectedPaths| ==>
      GraphFitsSounds(duplications[i])
    requires i < |selectedPaths|
    ensures ProcessFolders(selectedPaths, listings, existing, duplications)[i] ==
      ProcessFolder(selectedPaths[i], listings[i], existing, duplications[i])
    decreases |selectedPaths|
  {
    var n := |selectedPaths|;
    var paths', listings', duplications' := selectedPaths[..n - 1], listings[..n - 1], duplications[..n - 1];
    forall k | 0 <= k < n - 1 ensures GraphFitsSounds(duplications'[k]) {
      assert duplications'[k] == duplications[k];
    }
    var earlier := ProcessFolders(paths', listings', existing, duplications');
    var last := ProcessFolder(selectedPaths[n - 1], listings[n - 1], existing, duplications[n - 1]);
    assert ProcessFolders(selectedPaths, listings, existing, duplications) == earlier + [last];
    if i < n - 1 {
      ProcessFoldersAt(paths', listings', existing, duplications', i);
      assert paths'[i] == selectedPaths[i] && listings'[i] == listings[i] && duplications'[i] == duplications[i];
      assert (earlier + [last])[i] == earlier[i];
    } else {
      assert (earlier + [last])[i] == last;
    }
  }

  /**
   * A folder is skipped, whatever the engine would do, exactly when one of
   * the five slots has no entry classified into it.
   */
  lemma SkippedIffSlotMissing(path: string, entries: seq<Entry>, existing: set<string>, duplication: Duplication)
    requires GraphFitsSounds(duplication)
    ensures ProcessFolder(path, entries, existing, duplication) == NotAllSoundsFound <==>
      exists slot :: NoEntryFills(entries, slot)
  {
    PackFailsIffSlotMissing(entries);
  }

  /**
   * End to end: a created sound source lives at `<folder>/<folder base>_SongSrc`
   * and the m-th node of its graph, when it has a "Wave Asset" pin, is the
   * j-th such node, whose pin is now unlinked and defaults to the last sound
   * of the listing classified into slot `PackOrder[j]`.
   */
  lemma CreatedSourceWiring(path: string, entries: seq<Entry>, existing: set<string>, duplication: Duplication, m: nat)
    requires GraphFitsSounds(duplication)
    requires ProcessFolder(path, entries, existing, duplication).SourceCreated?
    requires duplication.DuplicatedMetaSound? && duplication.graph.Some?
    requires m < |duplication.graph.value| && HasWavePin(duplication.graph.value[m])
    ensures ProcessFolder(path, entries, existing, duplication).target == DuplicateTarget(path, NewAssetName(path))
    ensures ProcessFolder(path, entries, existing, duplication).graph.Some?
    ensures
      var before := duplication.graph.value;
      var after := ProcessFolder(path, entries, existing, duplication).graph.value;
      var j := WavePinCount(before[..m]);
      && |after| == |before|
      && j < |PackOrder|
      && LastFill(entries, PackOrder[j]).Some?
      && HasWavePin(after[m])
      && WavePin(after[m]) == Pin(WavePin(before[m]).name, [], LastFill(entries, PackOrder[j]))
  {
    var before := duplication.graph.value;
    var sounds := Pack(Selected(entries)).value;
    WavePinCountStep(before, m);
    WavePinCountPrefix(before, m + 1);
    var j := WavePinCount(before[..m]);
    RewireAt(before, sounds, m);
    AssignWaveEffect(before[m], sounds[j]);
    SelectedSlot(entries, PackOrder[j]);
  }
}
