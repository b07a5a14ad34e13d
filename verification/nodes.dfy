/**
 * The node entity and input-slot resolution (`getInputValueAt`).
 */
module Nodes {
  import opened Options
  import opened Values

  /** Identity of a node in the graph. */
  type NodeId = nat

  /**
   * One entry of a node's input list: empty (nil), a widget node that is not a NodeVO,
   * or a connection from the producer node with the given identity.
   */
  datatype Input = Vacant | Foreign | Wired(producer: NodeId)

  /**
   * A node: identity, type, display name, computed value, optional input list, and the
   * sparse manual values for slots (keys are Swift `Int`s, so may be negative).
   */
  datatype NodeVO = NodeVO(
    id: NodeId,
    kind: NodeType,
    name: string,
    value: Option<NodeValue>,
    inputs: Option<seq<Input>>,
    freeValues: map<int, NodeValue>)

  /** The current value of every other node of the graph, by identity. */
  type Peers = NodeId -> Option<NodeValue>

  /**
   * Slot `index` has no connected NodeVO: the list is nil, too short, or holds nil or a
   * non-NodeVO entry at `index`.
   */
  predicate Unwired(inputs: Option<seq<Input>>, index: nat)
  {
    inputs.None? || index >= |inputs.value| || !inputs.value[index].Wired?
  }

  /** The value of producer `p` as `node` sees it; a node wired to itself reads its own value. */
  function ProducerValue(node: NodeVO, peers: Peers, p: NodeId): Option<NodeValue>
  {
    if p == node.id then node.value else peers(p)
  }

  /**
   * The value feeding slot `index`. A connected producer wins over a manual value; an
   * unwired slot falls back to the manual value, then to `Number(0)`. Defined for every
   * index.
   */
  function GetInputValueAt(node: NodeVO, peers: Peers, index: nat): (r: NodeValue)
    ensures !Unwired(node.inputs, index) ==>
      r == ProducerValue(node, peers, node.inputs.value[index].producer).GetOr(Number(0.0))
    ensures Unwired(node.inputs, index) && index in node.freeValues ==> r == node.freeValues[index]
    ensures Unwired(node.inputs, index) && index !in node.freeValues ==> r == Number(0.0)
  {
    if index in node.freeValues && Unwired(node.inputs, index) then
      node.freeValues[index]
    else if Unwired(node.inputs, index) then
      Number(0.0)
    else if ProducerValue(node, peers, node.inputs.value[index].producer).Some? then
      ProducerValue(node, peers, node.inputs.value[index].producer).value
    else
      Number(0.0)
  }

  /** `getInputValueAt(index).numberValue ?? default`. */
  function NumberAt(node: NodeVO, peers: Peers, index: nat, default: real): real
  {
    GetInputValueAt(node, peers, index).NumberValue().GetOr(default)
  }

  /** `getInputValueAt(index).audioKitNode`. */
  function HandleAt(node: NodeVO, peers: Peers, index: nat): Option<Handle>
  {
    GetInputValueAt(node, peers, index).AudioKitNode()
  }

  /** Where a slot's value comes from, decided by one exhaustive match. */
  datatype SlotSource = Connected(producer: NodeId) | Overridden(value: NodeValue) | Default

  /** The source of slot `index`: the connection first, then the manual value. */
  function SourceOf(node: NodeVO, index: nat): (s: SlotSource)
    ensures s.Connected? <==> !Unwired(node.inputs, index)
    ensures s.Overridden? ==> index in node.freeValues
  {
    if node.inputs.Some? && index < |node.inputs.value| && node.inputs.value[index].Wired? then
      Connected(node.inputs.value[index].producer)
    else if index in node.freeValues then
      Overridden(node.freeValues[index])
    else
      Default
  }

  /** The value a slot source delivers. */
  function ValueOfSource(node: NodeVO, peers: Peers, s: SlotSource): NodeValue
  {
    match s
    case Connected(p) => ProducerValue(node, peers, p).GetOr(Number(0.0))
    case Overridden(v) => v
    case Default => Number(0.0)
  }

  /** The nested-conditional resolution agrees with the three-way source decision. */
  lemma GetInputValueAtFollowsSource(node: NodeVO, peers: Peers, index: nat)
    ensures GetInputValueAt(node, peers, index) == ValueOfSource(node, peers, SourceOf(node, index))
  {
  }

  /** Wiring a producer into a slot overrides whatever manual value the slot holds. */
  lemma WiredSlotWins(node: NodeVO, peers: Peers, index: nat, p: NodeId, v: NodeValue)
    requires node.inputs.Some? && index < |node.inputs.value|
    requires node.inputs.value[index] == Wired(p)
    ensures GetInputValueAt(node.(freeValues := node.freeValues[index := v]), peers, index)
         == GetInputValueAt(node, peers, index)
    ensures p != node.id ==> GetInputValueAt(node, peers, index) == peers(p).GetOr(Number(0.0))
  {
  }

  /** An index at or beyond the end of the input list yields the manual value or `Number(0)`. */
  lemma BeyondInputsFallsBack(node: NodeVO, peers: Peers, index: nat)
    requires node.inputs.None? || index >= |node.inputs.value|
    ensures GetInputValueAt(node, peers, index)
         == (if index in node.freeValues then node.freeValues[index] else Number(0.0))
  {
  }
}
