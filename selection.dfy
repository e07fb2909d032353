/**
 * Choosing the five sounds of a folder: walk the folder's asset listing in
 * order, keep only sound waves, classify each by the substrings of its name
 * and let each match overwrite its slot; then require all five slots and
 * pack them in the order the template's graph expects.
 */
module Selection {
  import opened Wrappers
  import opened Strings
  import opened Paths

  /** The five stems of an Ovani song, in the order the name tests try them. */
  datatype Slot = Main | Intensity1 | Intensity2 | Cut30 | Cut60

  /** Substring that puts a sound wave into `slot`. */
  function Pattern(slot: Slot): string
  {
    match slot
    case Main => "Main"
    case Intensity1 => "Intensity_1"
    case Intensity2 => "Intensity_2"
    case Cut30 => "Cut_30"
    case Cut60 => "Cut_60"
  }

  /** Position of `slot`'s test in the if/else-if chain: lower goes first. */
  function Priority(slot: Slot): nat
  {
    match slot
    case Main => 0
    case Intensity1 => 1
    case Intensity2 => 2
    case Cut30 => 3
    case Cut60 => 4
  }

  /** Reference to a loaded sound wave: its package and its object name. */
  datatype Sound = Sound(package: string, name: string)

  /** What loading one listed asset gives. */
  datatype Loaded =
    | LoadFailed               // `LoadAsset` returned null
    | OtherAsset(name: string) // loaded, but the cast to a sound wave fails
    | SoundWave(name: string)  // a sound wave whose object name is `name`

  /** One entry of the folder listing: its object path and what loading it gives. */
  datatype Entry = Entry(objectPath: string, loaded: Loaded)

  /** The sound kept for a sound-wave entry (the asset is loaded by its package name). */
  function SoundOf(e: Entry): Sound
    requires e.loaded.SoundWave?
  {
    Sound(ObjectPathToPackageName(e.objectPath), e.loaded.name)
  }

  /** The if/else-if chain on a sound wave's name. */
  function Classify(name: string): Option<Slot>
  {
    if Contains(name, "Main") then Some(Main)
    else if Contains(name, "Intensity_1") then Some(Intensity1)
    else if Contains(name, "Intensity_2") then Some(Intensity2)
    else if Contains(name, "Cut_30") then Some(Cut30)
    else if Contains(name, "Cut_60") then Some(Cut60)
    else None
  }

  /** `name` contains `slot`'s substring, ignoring case. */
  predicate NameMatches(name: string, slot: Slot)
  {
    Contains(name, Pattern(slot))
  }

  /** Entry `e` is a sound wave whose name is classified into `slot`. */
  predicate Fills(e: Entry, slot: Slot)
  {
    e.loaded.SoundWave? && Classify(e.loaded.name) == Some(slot)
  }

  /** No entry of the listing is classified into `slot`. */
  predicate NoEntryFills(entries: seq<Entry>, slot: Slot)
  {
    forall k :: 0 <= k < |entries| ==> !Fills(entries[k], slot)
  }

  /**
   * The sound a slot ends up holding after the scan of `entries`: that of the
   * last entry classified into it, if any.
   */
  function LastFill(entries: seq<Entry>, slot: Slot): Option<Sound>
  {
    if entries == [] then None
    else if Fills(entries[|entries| - 1], slot) then Some(SoundOf(entries[|entries| - 1]))
    else LastFill(entries[..|entries| - 1], slot)
  }

  /** The five slot variables after a scan. */
  datatype Slots = Slots(
    main: Option<Sound>,
    intensity1: Option<Sound>,
    intensity2: Option<Sound>,
    cut30: Option<Sound>,
    cut60: Option<Sound>)
  {
    function Get(slot: Slot): Option<Sound>
    {
      match slot
      case Main => main
      case Intensity1 => intensity1
      case Intensity2 => intensity2
      case Cut30 => cut30
      case Cut60 => cut60
    }
  }

  /** What the scan of a folder's listing selects. */
  function Selected(entries: seq<Entry>): Slots
  {
    Slots(LastFill(entries, Main), LastFill(entries, Intensity1), LastFill(entries, Intensity2),
          LastFill(entries, Cut30), LastFill(entries, Cut60))
  }

  /** The order in which the packed array lists the slots. */
  const PackOrder: seq<Slot> := [Intensity1, Intensity2, Main, Cut30, Cut60]

  /**
   * The packed sound array, or None when a slot is still empty (the folder
   * is then skipped).
   */
  function Pack(slots: Slots): (r: Option<seq<Sound>>)
    ensures r.Some? <==> forall slot :: slots.Get(slot).Some?
    ensures r.Some? ==>
      && |r.value| == |PackOrder|
      && forall k :: 0 <= k < |PackOrder| ==> slots.Get(PackOrder[k]) == Some(r.value[k])
  {
    if slots.main.None? || slots.intensity1.None? || slots.intensity2.None? ||
       slots.cut30.None? || slots.cut60.None?
    then
      assert slots.Get(Main).None? || slots.Get(Intensity1).None? || slots.Get(Intensity2).None? ||
             slots.Get(Cut30).None? || slots.Get(Cut60).None?;
      None
    else
      Some([slots.intensity1.value, slots.intensity2.value, slots.main.value,
            slots.cut30.value, slots.cut60.value])
  }

  /**
   * The scan loop over a folder's listing: five slot variables, overwritten
   * by each sound wave whose name matches, the first matching test winning.
   */
  method ScanFolder(entries: seq<Entry>) returns (slots: Slots)
    ensures slots == Selected(entries)
    ensures forall slot :: slots.Get(slot) == LastFill(entries, slot)
  {
    var mainSound: Option<Sound> := None;
    var in1Sound: Option<Sound> := None;
    var in2Sound: Option<Sound> := None;
    var cut30Sound: Option<Sound> := None;
    var cut60Sound: Option<Sound> := None;
    var j := 0;
    while j < |entries|
      invariant 0 <= j <= |entries|
      invariant mainSound == LastFill(entries[..j], Main)
      invariant in1Sound == LastFill(entries[..j], Intensity1)
      invariant in2Sound == LastFill(entries[..j], Intensity2)
      invariant cut30Sound == LastFill(entries[..j], Cut30)
      invariant cut60Sound == LastFill(entries[..j], Cut60)
    {
      assert entries[..j + 1][..j] == entries[..j];
      match entries[j].loaded {
        case LoadFailed =>
        case OtherAsset(_) =>
        case SoundWave(name) =>
          var wave := SoundOf(entries[j]);
          if Contains(name, "Main") {
            mainSound := Some(wave);
          } else if Contains(name, "Intensity_1") {
            in1Sound := Some(wave);
          } else if Contains(name, "Intensity_2") {
            in2Sound := Some(wave);
          } else if Contains(name, "Cut_30") {
            cut30Sound := Some(wave);
          } else if Contains(name, "Cut_60") {
            cut60Sound := Some(wave);
          }
      }
      j := j + 1;
    }
    assert entries[..j] == entries;
    slots := Slots(mainSound, in1Sound, in2Sound, cut30Sound, cut60Sound);
  }

  /**
   * A name goes to exactly the highest-priority slot whose substring it
   * contains, and to no slot when it contains none of them.
   */
  lemma ClassifyPicksFirstMatch(name: string, slot: Slot)
    ensures Classify(name) == Some(slot) <==>
      NameMatches(name, slot) && forall other :: Priority(other) < Priority(slot) ==> !NameMatches(name, other)
    ensures Classify(name) == None <==> forall other :: !NameMatches(name, other)
  {
    assert NameMatches(name, Main) == Contains(name, "Main");
    assert NameMatches(name, Intensity1) == Contains(name, "Intensity_1");
    assert NameMatches(name, Intensity2) == Contains(name, "Intensity_2");
    assert NameMatches(name, Cut30) == Contains(name, "Cut_30");
    assert NameMatches(name, Cut60) == Contains(name, "Cut_60");
    if Classify(name) == Some(slot) {
      forall other | Priority(other) < Priority(slot) ensures !NameMatches(name, other) {
        match other {
          case Main =>
          case Intensity1 =>
          case Intensity2 =>
          case Cut30 =>
          case Cut60 =>
        }
      }
    }
    if Classify(name) == None {
      forall other ensures !NameMatches(name, other) {
        match other {
          case Main =>
          case Intensity1 =>
          case Intensity2 =>
          case Cut30 =>
          case Cut60 =>
        }
      }
    }
  }

  /** A slot holds the sound of the last entry classified into it. */
  lemma {:induction false} LastFillIsLastEntry(entries: seq<Entry>, slot: Slot, j: nat)
    requires j < |entries| && Fills(entries[j], slot)
    requires forall k :: j < k < |entries| ==> !Fills(entries[k], slot)
    ensures LastFill(entries, slot) == Some(SoundOf(entries[j]))
    decreases |entries|
  {
    var n := |entries|;
    if j < n - 1 {
      var init := entries[..n - 1];
      assert !Fills(entries[n - 1], slot);
      forall k | j < k < |init| ensures !Fills(init[k], slot) { assert init[k] == entries[k]; }
      LastFillIsLastEntry(init, slot, j);
    }
  }

  /** A slot stays empty exactly when no entry is classified into it. */
  lemma {:induction false} LastFillEmpty(entries: seq<Entry>, slot: Slot)
    ensures LastFill(entries, slot) == None <==> NoEntryFills(entries, slot)
    decreases |entries|
  {
    if entries != [] {
      var n := |entries|;
      var init := entries[..n - 1];
      LastFillEmpty(init, slot);
      assert forall k :: 0 <= k < n - 1 ==> init[k] == entries[k];
    }
  }

  /** The selected sound of each slot is the listing's last entry classified into it. */
  lemma SelectedSlot(entries: seq<Entry>, slot: Slot)
    ensures Selected(entries).Get(slot) == LastFill(entries, slot)
  {
    match slot {
      case Main =>
      case Intensity1 =>
      case Intensity2 =>
      case Cut30 =>
      case Cut60 =>
    }
  }

  /** Packing the selection fails exactly when some slot has no entry classified into it. */
  lemma PackFailsIffSlotMissing(entries: seq<Entry>)
    ensures Pack(Selected(entries)).None? <==> exists slot :: NoEntryFills(entries, slot)
  {
    forall slot ensures Selected(entries).Get(slot).None? <==> NoEntryFills(entries, slot) {
      SelectedSlot(entries, slot);
      LastFillEmpty(entries, slot);
    }
  }

  /**
   * An entry that is not classified into `slot` (in particular one that did
   * not load or is not a sound wave) can be dropped without changing `slot`.
   */
  lemma {:induction false} UnclassifiedEntryIsIgnored(before: seq<Entry>, e: Entry, after: seq<Entry>, slot: Slot)
    requires !Fills(e, slot)
    ensures LastFill(before + [e] + after, slot) == LastFill(before + after, slot)
    decreases |after|
  {
    if after == [] {
      assert (before + [e])[..|before|] == before;
      assert before + [e] + [] == before + [e];
      assert before + [] == before;
    } else {
      var init := after[..|after| - 1];
      var last := after[|after| - 1];
      assert (before + [e] + after)[..|before + [e] + after| - 1] == before + [e] + init;
      assert (before + after)[..|before + after| - 1] == before + init;
      UnclassifiedEntryIsIgnored(before, e, init, slot);
    }
  }

  /** Entries that did not load or are not sound waves fill no slot. */
  lemma NonWaveFillsNothing(e: Entry)
    requires !e.loaded.SoundWave?
    ensures forall slot :: !Fills(e, slot)
  {
  }
}
