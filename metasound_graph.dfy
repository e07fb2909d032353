/**
 * The MetaSound graph and the rewrite of its "Wave Asset" pins.
 *
 * A graph's nodes are records held in an array; `ModifyMetaSoundAsset`
 * walks them in order and, on each node that has a "Wave Asset" pin, cuts
 * that pin's links and sets its default to the next sound of the array it
 * was given.
 */
module MetaSoundGraph {
  import opened Wrappers
  import opened Strings
  import opened Selection

  /** Name of the pin that holds a wave player's sound. */
  const WaveAssetPinName: string := "Wave Asset"

  /** A link from a pin to pin `pin` of node `node` of the same graph. */
  datatype PinLink = PinLink(node: nat, pin: string)

  /** A node pin: its name, the pins it is linked to and its default object. */
  datatype Pin = Pin(name: string, linkedTo: seq<PinLink>, defaultObject: Option<Sound>)

  /** A graph node, seen through its pins. */
  datatype Node = Node(pins: seq<Pin>)

  /** `UEdGraphNode::FindPin`: the first pin whose name equals `pinName` (names compare ignoring case). */
  function FindPin(pins: seq<Pin>, pinName: string): (r: Option<nat>)
    ensures r.Some? ==>
      && r.value < |pins|
      && EqualsIgnoringCase(pins[r.value].name, pinName)
      && forall k :: 0 <= k < r.value ==> !EqualsIgnoringCase(pins[k].name, pinName)
    ensures r.None? ==> forall k :: 0 <= k < |pins| ==> !EqualsIgnoringCase(pins[k].name, pinName)
  {
    if pins == [] then None
    else if EqualsIgnoringCase(pins[0].name, pinName) then Some(0)
    else match FindPin(pins[1..], pinName)
      case None => None
      case Some(k) => Some(k + 1)
  }

  predicate HasWavePin(n: Node)
  {
    FindPin(n.pins, WaveAssetPinName).Some?
  }

  /** The node's "Wave Asset" pin. */
  function WavePin(n: Node): Pin
    requires HasWavePin(n)
  {
    n.pins[FindPin(n.pins, WaveAssetPinName).value]
  }

  /** The node after its "Wave Asset" pin is unlinked and given `sound` as default. */
  function AssignWave(n: Node, sound: Sound): Node
    requires HasWavePin(n)
  {
    var k := FindPin(n.pins, WaveAssetPinName).value;
    Node(n.pins[k := n.pins[k].(linkedTo := [], defaultObject := Some(sound))])
  }

  /** Number of nodes that have a "Wave Asset" pin. */
  function WavePinCount(nodes: seq<Node>): nat
  {
    if nodes == [] then 0
    else (if HasWavePin(nodes[0]) then 1 else 0) + WavePinCount(nodes[1..])
  }

  /**
   * The node list after the rewrite: the wave-pin nodes take the sounds one
   * after the other, the other nodes stay as they are.
   */
  function Rewire(nodes: seq<Node>, sounds: seq<Sound>): (r: seq<Node>)
    requires WavePinCount(nodes) <= |sounds|
    ensures |r| == |nodes|
  {
    if nodes == [] then []
    else if HasWavePin(nodes[0]) then [AssignWave(nodes[0], sounds[0])] + Rewire(nodes[1..], sounds[1..])
    else [nodes[0]] + Rewire(nodes[1..], sounds)
  }

  lemma {:induction false} WavePinCountAppend(a: seq<Node>, b: seq<Node>)
    ensures WavePinCount(a + b) == WavePinCount(a) + WavePinCount(b)
    decreases |a|
  {
    if a == [] {
      assert a + b == b;
    } else {
      assert (a + b)[1..] == a[1..] + b;
      WavePinCountAppend(a[1..], b);
    }
  }

  /** Counting the wave-pin nodes of a prefix one node further adds one for a wave-pin node. */
  lemma WavePinCountStep(nodes: seq<Node>, m: nat)
    requires m < |nodes|
    ensures WavePinCount(nodes[..m + 1]) == WavePinCount(nodes[..m]) + (if HasWavePin(nodes[m]) then 1 else 0)
  {
    assert nodes[..m + 1] == nodes[..m] + [nodes[m]];
    WavePinCountAppend(nodes[..m], [nodes[m]]);
    WavePinCountSingle(nodes[m]);
  }

  /** A prefix never has more wave-pin nodes than the whole list. */
  lemma WavePinCountPrefix(nodes: seq<Node>, m: nat)
    requires m <= |nodes|
    ensures WavePinCount(nodes[..m]) <= WavePinCount(nodes)
  {
    assert nodes == nodes[..m] + nodes[m..];
    WavePinCountAppend(nodes[..m], nodes[m..]);
  }

  lemma WavePinCountSingle(n: Node)
    ensures WavePinCount([n]) == if HasWavePin(n) then 1 else 0
  {
    assert [n][1..] == [];
  }

  /**
   * Node `m` after the rewrite, stated directly: a wave-pin node takes the
   * sound whose index is the number of wave-pin nodes before it.
   */
  function RewiredNode(nodes: seq<Node>, sounds: seq<Sound>, m: nat): Node
    requires m < |nodes| && WavePinCount(nodes) <= |sounds|
  {
    WavePinCountStep(nodes, m);
    WavePinCountPrefix(nodes, m + 1);
    if HasWavePin(nodes[m]) then AssignWave(nodes[m], sounds[WavePinCount(nodes[..m])]) else nodes[m]
  }

  /** The k-th wave-pin node in list order gets `sounds[k]`; every other node is untouched. */
  lemma {:induction false} RewireAt(nodes: seq<Node>, sounds: seq<Sound>, m: nat)
    requires WavePinCount(nodes) <= |sounds| && m < |nodes|
    ensures Rewire(nodes, sounds)[m] == RewiredNode(nodes, sounds, m)
    decreases |nodes|
  {
    if m > 0 {
      var rest := nodes[1..];
      var restSounds := if HasWavePin(nodes[0]) then sounds[1..] else sounds;
      RewireAt(rest, restSounds, m - 1);
      assert rest[..m - 1] == nodes[1..m];
      assert nodes[..m] == [nodes[0]] + nodes[1..m];
      WavePinCountAppend([nodes[0]], rest[..m - 1]);
      WavePinCountSingle(nodes[0]);
      var before := WavePinCount(rest[..m - 1]);
      assert WavePinCount(nodes[..m]) == (if HasWavePin(nodes[0]) then 1 else 0) + before;
      assert rest[m - 1] == nodes[m];
      assert Rewire(nodes, sounds)[m] == Rewire(rest, restSounds)[m - 1];
      WavePinCountStep(rest, m - 1);
      WavePinCountPrefix(rest, m);
      if HasWavePin(nodes[m]) {
        assert restSounds[before] == sounds[WavePinCount(nodes[..m])];
      }
    }
  }

  /** `FindPin` looks only at the pins' names. */
  lemma {:induction false} FindPinReadsNamesOnly(p: seq<Pin>, q: seq<Pin>, pinName: string)
    requires |p| == |q| && forall k :: 0 <= k < |p| ==> p[k].name == q[k].name
    ensures FindPin(p, pinName) == FindPin(q, pinName)
    decreases |p|
  {
    if p != [] {
      FindPinReadsNamesOnly(p[1..], q[1..], pinName);
    }
  }

  /**
   * Assigning a wave keeps the node's pins and their names, turns its wave pin
   * into an unlinked pin whose default is `sound`, and leaves the other pins alone.
   */
  lemma AssignWaveEffect(n: Node, sound: Sound)
    requires HasWavePin(n)
    ensures HasWavePin(AssignWave(n, sound))
    ensures FindPin(AssignWave(n, sound).pins, WaveAssetPinName) == FindPin(n.pins, WaveAssetPinName)
    ensures WavePin(AssignWave(n, sound)) == Pin(WavePin(n).name, [], Some(sound))
    ensures |AssignWave(n, sound).pins| == |n.pins|
    ensures forall k :: 0 <= k < |n.pins| && k != FindPin(n.pins, WaveAssetPinName).value ==>
      AssignWave(n, sound).pins[k] == n.pins[k]
  {
    FindPinReadsNamesOnly(AssignWave(n, sound).pins, n.pins, WaveAssetPinName);
  }

  /** A second assignment replaces the first one. */
  lemma AssignWaveTwice(n: Node, first: Sound, second: Sound)
    requires HasWavePin(n)
    ensures HasWavePin(AssignWave(n, first)) && AssignWave(AssignWave(n, first), second) == AssignWave(n, second)
  {
    AssignWaveEffect(n, first);
  }

  /** The rewrite keeps which nodes have a wave pin. */
  lemma {:induction false} RewireKeepsWavePins(nodes: seq<Node>, sounds: seq<Sound>)
    requires WavePinCount(nodes) <= |sounds|
    ensures forall m :: 0 <= m < |nodes| ==> HasWavePin(Rewire(nodes, sounds)[m]) == HasWavePin(nodes[m])
    ensures WavePinCount(Rewire(nodes, sounds)) == WavePinCount(nodes)
    decreases |nodes|
  {
    if nodes != [] {
      var restSounds := if HasWavePin(nodes[0]) then sounds[1..] else sounds;
      RewireKeepsWavePins(nodes[1..], restSounds);
      if HasWavePin(nodes[0]) {
        AssignWaveEffect(nodes[0], sounds[0]);
      }
      var r := Rewire(nodes, sounds);
      assert r[1..] == Rewire(nodes[1..], restSounds);
    }
  }

  /** The editor graph of a MetaSound: its node list. */
  class Graph {
    var nodes: array<Node>

    constructor (initial: seq<Node>)
      ensures fresh(nodes) && nodes[..] == initial
    {
      nodes := new Node[|initial|](i requires 0 <= i < |initial| => initial[i]);
    }
  }

  /** A MetaSound source asset; `graph` is null when the asset has no editor graph. */
  class MetaSoundSource {
    var graph: Graph?

    constructor (graph: Graph?)
      ensures this.graph == graph
    {
      this.graph := graph;
    }
  }

  /**
   * Walks the graph's nodes in order; each node with a "Wave Asset" pin gets
   * that pin unlinked and `sounds[i]` as its default, `i` counting the
   * wave-pin nodes seen so far. A null asset or graph changes nothing. The
   * source does no bounds check on `sounds[i]`: the graph must not have more
   * wave-pin nodes than there are sounds.
   */
  method ModifyMetaSoundAsset(asset: MetaSoundSource?, sounds: seq<Sound>)
    requires asset != null && asset.graph != null ==> WavePinCount(asset.graph.nodes[..]) <= |sounds|
    modifies if asset != null && asset.graph != null then {asset.graph.nodes} else {}
    ensures asset != null && asset.graph != null ==>
      asset.graph.nodes[..] == Rewire(old(asset.graph.nodes[..]), sounds)
  {
    if asset == null {
      return;
    }
    var graph := asset.graph;
    if graph == null {
      return;
    }
    var nodes := graph.nodes;
    ghost var original := nodes[..];
    var i := 0;
    var k := 0;
    while k < nodes.Length
      invariant 0 <= k <= nodes.Length
      invariant i == WavePinCount(original[..k]) && i <= WavePinCount(original)
      invariant forall m :: 0 <= m < k ==> nodes[m] == RewiredNode(original, sounds, m)
      invariant forall m :: k <= m < nodes.Length ==> nodes[m] == original[m]
    {
      WavePinCountStep(original, k);
      WavePinCountPrefix(original, k + 1);
      var node := nodes[k];
      var wavePin := FindPin(node.pins, WaveAssetPinName);
      if wavePin.Some? {
        var pin := node.pins[wavePin.value];
        nodes[k] := Node(node.pins[wavePin.value := pin.(linkedTo := [], defaultObject := Some(sounds[i]))]);
        i := i + 1;
      }
      k := k + 1;
    }
    forall m | 0 <= m < nodes.Length ensures nodes[m] == Rewire(original, sounds)[m] {
      RewireAt(original, sounds, m);
    }
  }
}
