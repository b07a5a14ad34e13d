/**
 * `recalculate` as one atomic transition, and the node attributes whose setters run it:
 * `type`, `freeValues`, plus the derived `numInputSlots` and `outputType`.
 */
module Recalculation {
  import opened Options
  import opened Values
  import opened Nodes
  import opened Derivation
  import opened InputSlots

  /** Slot count of each node type (`NodeType.numInputSlots`). */
  type SlotTable = NodeType -> nat

  /**
   * Recalculation of the node's dependents, seen only through its effect on the engine
   * (descendant nodes are outside this node's state).
   */
  type Propagation = Engine -> Engine

  /**
   * One run of `recalculate`: stop the transport, derive the value for the node's type,
   * enforce the input list, propagate to dependents, and start the transport again when a
   * sink is set.
   */
  function Recalculate(node: NodeVO, peers: Peers, e: Engine, slots: SlotTable,
                       candidate: Candidacy, propagate: Propagation): (r: Step)
    ensures r.node.id == node.id && r.node.kind == node.kind && r.node.name == node.name
    ensures r.node.freeValues == node.freeValues
    ensures r.node.value == Evaluate(node, peers, e.(running := false)).node.value
    ensures r.node.inputs == EnforceInputs(node, slots(node.kind), candidate).inputs
    ensures r.node.inputs.None? <==> node.inputs.None?
    ensures r.node.inputs.Some? ==> forall i :: 0 <= i < |r.node.inputs.value| && r.node.inputs.value[i].Wired? ==>
      candidate(r.node.inputs.value[i].producer, node.id, i)
    ensures r.node.inputs.Some? && slots(node.kind) > 0 ==> |r.node.inputs.value| <= slots(node.kind)
    ensures r.engine.output == propagate(Evaluate(node, peers, e.(running := false)).engine).output
    ensures r.engine.units == propagate(Evaluate(node, peers, e.(running := false)).engine).units
    ensures r.engine.output.Some? ==> r.engine.running
    ensures r.engine.output.None? ==>
      r.engine.running == propagate(Evaluate(node, peers, e.(running := false)).engine).running
  {
    var stopped := e.(running := false);
    var derived := Evaluate(node, peers, stopped);
    var enforced := EnforceInputs(derived.node, slots(node.kind), candidate);
    var propagated := propagate(derived.engine);
    var started := if propagated.output.Some? then propagated.(running := true) else propagated;
    Step(enforced, started)
  }

  /**
   * A second `recalculate` with nothing changed in between leaves the input list as the
   * first one left it: truncation and pruning have nothing more to remove.
   */
  lemma {:induction false} RecalculateStabilisesInputs(node: NodeVO, peers: Peers, e: Engine, slots: SlotTable,
                                                       candidate: Candidacy, propagate: Propagation)
    ensures var s := Recalculate(node, peers, e, slots, candidate, propagate);
            Recalculate(s.node, peers, s.engine, slots, candidate, propagate).node.inputs == s.node.inputs
  {
    var derived := Evaluate(node, peers, e.(running := false));
    var s := Recalculate(node, peers, e, slots, candidate, propagate);
    EnforceIdempotent(derived.node, slots(node.kind), candidate);
    var again := Evaluate(s.node, peers, s.engine.(running := false));
    assert EnforceInputs(again.node, slots(node.kind), candidate).inputs
        == EnforceInputs(s.node, slots(node.kind), candidate).inputs;
  }

  /** `node.type = t`: clear the inputs, rename the node after its type, recalculate. */
  function SetType(node: NodeVO, t: NodeType, rawValue: NodeType -> string, peers: Peers, e: Engine,
                   slots: SlotTable, candidate: Candidacy, propagate: Propagation): (r: Step)
    ensures r.node.kind == t && r.node.name == rawValue(t) && r.node.inputs == None
    ensures r.node.id == node.id && r.node.freeValues == node.freeValues
    ensures var d := Evaluate(node.(kind := t, inputs := None, name := rawValue(t)), peers, e.(running := false));
            && r.node.value == d.node.value
            && r.engine.units == propagate(d.engine).units
            && r.engine.output == propagate(d.engine).output
            && (r.engine.output.Some? ==> r.engine.running)
            && (r.engine.output.None? ==> r.engine.running == propagate(d.engine).running)
  {
    Recalculate(node.(kind := t, inputs := None, name := rawValue(t)), peers, e, slots, candidate, propagate)
  }

  /**
   * After a type change no slot is wired, so every slot resolves to its manual value or to
   * `Number(0)`.
   */
  lemma SlotsAfterSetTypeAreManual(node: NodeVO, t: NodeType, rawValue: NodeType -> string, peers: Peers,
                                   e: Engine, slots: SlotTable, candidate: Candidacy, propagate: Propagation,
                                   index: nat)
    ensures var r := SetType(node, t, rawValue, peers, e, slots, candidate, propagate);
            GetInputValueAt(r.node, peers, index)
            == (if index in node.freeValues then node.freeValues[index] else Number(0.0))
  {
  }

  /**
   * Turning a node into a `DryWetMixer` keeps whatever value it had unless the manual values
   * of slots 0 and 1 are both units: the type change itself never clears the value.
   */
  lemma SetTypeToMixerKeepsValue(node: NodeVO, rawValue: NodeType -> string, peers: Peers, e: Engine,
                                 slots: SlotTable, candidate: Candidacy, propagate: Propagation)
    requires !(0 in node.freeValues && node.freeValues[0].Node? && 1 in node.freeValues && node.freeValues[1].Node?)
    ensures SetType(node, DryWetMixer, rawValue, peers, e, slots, candidate, propagate).node.value == node.value
  {
  }

  /** `node.freeValues[index] = v`: store the manual value, recalculate. */
  function SetFreeValue(node: NodeVO, index: int, v: NodeValue, peers: Peers, e: Engine,
                        slots: SlotTable, candidate: Candidacy, propagate: Propagation): (r: Step)
    ensures r.node.freeValues == node.freeValues[index := v]
    ensures r.node.kind == node.kind && r.node.id == node.id && r.node.name == node.name
    ensures var d := Evaluate(node.(freeValues := node.freeValues[index := v]), peers, e.(running := false));
            && r.node.value == d.node.value
            && r.engine.units == propagate(d.engine).units
            && r.engine.output == propagate(d.engine).output
            && (r.engine.output.Some? ==> r.engine.running)
            && (r.engine.output.None? ==> r.engine.running == propagate(d.engine).running)
    ensures r.node.inputs == EnforceInputs(node, slots(node.kind), candidate).inputs
  {
    Recalculate(node.(freeValues := node.freeValues[index := v]), peers, e, slots, candidate, propagate)
  }

  /** `node.freeValues[index] = nil`: drop the manual value, recalculate. */
  function RemoveFreeValue(node: NodeVO, index: int, peers: Peers, e: Engine,
                           slots: SlotTable, candidate: Candidacy, propagate: Propagation): (r: Step)
    ensures r.node.freeValues == node.freeValues - {index}
    ensures index !in r.node.freeValues
    ensures r.node.kind == node.kind && r.node.id == node.id && r.node.name == node.name
    ensures var d := Evaluate(node.(freeValues := node.freeValues - {index}), peers, e.(running := false));
            && r.node.value == d.node.value
            && r.engine.units == propagate(d.engine).units
            && r.engine.output == propagate(d.engine).output
            && (r.engine.output.Some? ==> r.engine.running)
            && (r.engine.output.None? ==> r.engine.running == propagate(d.engine).running)
    ensures r.node.inputs == EnforceInputs(node, slots(node.kind), candidate).inputs
  {
    Recalculate(node.(freeValues := node.freeValues - {index}), peers, e, slots, candidate, propagate)
  }

  /** Propagation to dependents leaves the unit with handle `h` as it found it. */
  ghost predicate KeepsUnitAt(propagate: Propagation, h: Handle)
  {
    forall x: Engine :: h < |x.units| ==> h < |propagate(x).units| && propagate(x).units[h] == x.units[h]
  }

  /** The handle an oscillator step leaves in the node: the oscillator it holds, else the next free one. */
  function OscillatorHandle(node: NodeVO, e: Engine): Handle
  {
    if HoldsOscillator(e.units, node.value) then node.value.value.handle else |e.units|
  }

  /** The node's value refers to an oscillator unit with this amplitude. */
  predicate OscillatorAmplitude(s: Step, amplitude: real)
  {
    && s.node.value.Some? && s.node.value.value.Node?
    && s.node.value.value.handle < |s.engine.units|
    && s.engine.units[s.node.value.value.handle].OscillatorUnit?
    && s.engine.units[s.node.value.value.handle].amplitude == amplitude
  }

  /**
   * A manual number stored in an oscillator's unwired amplitude slot becomes the amplitude of
   * the oscillator the node holds afterwards.
   */
  lemma SetFreeValueDrivesUnwiredSlot(node: NodeVO, x: real, peers: Peers, e: Engine,
                                      slots: SlotTable, candidate: Candidacy, propagate: Propagation)
    requires node.kind == Oscillator && Unwired(node.inputs, 0)
    requires KeepsUnitAt(propagate, OscillatorHandle(node, e))
    ensures OscillatorAmplitude(SetFreeValue(node, 0, Number(x), peers, e, slots, candidate, propagate), x)
  {
  }

  /** Dropping the manual value of an unwired amplitude slot leaves the oscillator at amplitude 0. */
  lemma RemoveFreeValueDefaultsUnwiredSlot(node: NodeVO, peers: Peers, e: Engine,
                                           slots: SlotTable, candidate: Candidacy, propagate: Propagation)
    requires node.kind == Oscillator && Unwired(node.inputs, 0)
    requires KeepsUnitAt(propagate, OscillatorHandle(node, e))
    ensures OscillatorAmplitude(RemoveFreeValue(node, 0, peers, e, slots, candidate, propagate), 0.0)
  {
  }

  /**
   * A manual value stored for a wired slot changes nothing the recalculation derives: the
   * value, the unit store, the sink and the input list are those of a plain recalculation.
   */
  lemma SetFreeValueIgnoredWhenWired(node: NodeVO, index: nat, v: NodeValue, peers: Peers, e: Engine,
                                     slots: SlotTable, candidate: Candidacy, propagate: Propagation)
    requires !Unwired(node.inputs, index)
    ensures var r := SetFreeValue(node, index, v, peers, e, slots, candidate, propagate);
            r == Recalculate(node, peers, e, slots, candidate, propagate).(node := r.node)
    ensures SetFreeValue(node, index, v, peers, e, slots, candidate, propagate).node
         == Recalculate(node, peers, e, slots, candidate, propagate).node.(freeValues := node.freeValues[index := v])
  {
    var node' := node.(freeValues := node.freeValues[index := v]);
    var stopped := e.(running := false);
    forall w: Option<NodeValue>, j: nat
      ensures GetInputValueAt(node'.(value := w), peers, j) == GetInputValueAt(node.(value := w), peers, j)
    {
    }
    var d, d' := Evaluate(node, peers, stopped), Evaluate(node', peers, stopped);
    assert d'.engine == d.engine && d'.node == d.node.(freeValues := node'.freeValues) by {
      match node.kind
      case Numeric =>
      case Output =>
      case WhiteNoise =>
      case Oscillator =>
      case DryWetMixer =>
      case StringResonator =>
        assert ConstructResonator(node', peers, stopped)
            == ConstructResonator(node, peers, stopped).(node := ConstructResonator(node, peers, stopped).node.(freeValues := node'.freeValues));
    }
  }

  /** Reading `numInputSlots`: the count for the node's type. */
  function NumInputSlots(node: NodeVO, slots: SlotTable): (r: nat)
    ensures r == slots(node.kind)
  {
    slots(node.kind)
  }

  /** Writing `numInputSlots`: the setter ignores the value written. */
  function SetNumInputSlots(node: NodeVO, n: int): (r: NodeVO)
    ensures r == node
  {
    node
  }

  /** Whatever is written to `numInputSlots`, reading it gives the type's count. */
  lemma NumInputSlotsFollowsType(node: NodeVO, n: int, slots: SlotTable)
    ensures SetNumInputSlots(node, n) == node
    ensures NumInputSlots(SetNumInputSlots(node, n), slots) == slots(node.kind)
  {
  }

  /** Only a type change changes `numInputSlots`. */
  lemma NumInputSlotsAfterSetType(node: NodeVO, t: NodeType, rawValue: NodeType -> string, peers: Peers,
                                  e: Engine, slots: SlotTable, candidate: Candidacy, propagate: Propagation)
    ensures NumInputSlots(SetType(node, t, rawValue, peers, e, slots, candidate, propagate).node, slots) == slots(t)
  {
  }

  /** The kind of value a node outputs. */
  datatype OutputKind = NumberKind | NodeKind

  /** `outputType`: a number exactly for `Numeric` nodes, a unit otherwise. */
  function OutputType(t: NodeType): (r: OutputKind)
    ensures r == NumberKind <==> t == Numeric
  {
    match t
    case Numeric => NumberKind
    case _ => NodeKind
  }
}
