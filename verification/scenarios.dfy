/**
 * Concrete graphs: an example slot table, a wired oscillator feeding the output, manual
 * values versus connections, and the two places where the code keeps state a reader might
 * expect it to clear.
 */
module Scenarios {
  import opened Options
  import opened Values
  import opened Nodes
  import opened Derivation
  import opened InputSlots
  import opened Recalculation

  /**
   * An example slot table, one slot per parameter the rules read (amplitude; amplitude and
   * frequency; two signals and a balance; ...). The real table is defined outside this model.
   */
  function ExampleSlots(t: NodeType): nat
  {
    match t
    case Numeric => 0
    case Output => 1
    case WhiteNoise => 1
    case Oscillator => 2
    case DryWetMixer => 3
    case StringResonator => 3
  }

  /** A graph in which every connection is allowed. */
  function AllowAll(producer: NodeId, target: NodeId, index: nat): bool
  {
    true
  }

  /** No dependents to recalculate. */
  function NoDependents(e: Engine): Engine
  {
    e
  }

  /** Example raw values for the node types; the real ones are defined outside this model. */
  function ExampleTypeName(t: NodeType): string
  {
    match t
    case Numeric => "Numeric"
    case Output => "Output"
    case WhiteNoise => "White Noise"
    case Oscillator => "Oscillator"
    case DryWetMixer => "Dry Wet Mixer"
    case StringResonator => "String Resonator"
  }

  /** Numbers 0.5 (node 1) and 220 (node 2) feed an oscillator (node 3), which feeds the output (node 4). */
  function ChainPeers(oscillator: Option<NodeValue>): Peers
  {
    (p: NodeId) => if p == 1 then Some(Number(0.5)) else if p == 2 then Some(Number(220.0))
                   else if p == 3 then oscillator else None
  }

  /**
   * After the oscillator and then the output recalculate, the sink is the oscillator's own
   * unit, an oscillator with amplitude 0.5 and frequency 220, and the transport runs.
   */
  lemma OscillatorChainDrivesOutput()
    ensures var osc := NodeVO(3, Oscillator, "Oscillator", None, Some([Wired(1), Wired(2)]), map[]);
            var s1 := Recalculate(osc, ChainPeers(None), Engine([], None, false),
                                  ExampleSlots, AllowAll, NoDependents);
            var out := NodeVO(4, Output, "Output", None, Some([Wired(3)]), map[]);
            var s2 := Recalculate(out, ChainPeers(s1.node.value), s1.engine,
                                  ExampleSlots, AllowAll, NoDependents);
            && s1.node.value == Some(Node(0))
            && s2.engine.output == Some(0)
            && s2.engine.units == [OscillatorUnit(0.5, 220.0)]
            && s2.engine.running
  {
  }

  /**
   * A manual value drives an unwired slot; wiring a producer into that slot afterwards
   * takes precedence without the manual value being cleared.
   */
  lemma ConnectionOverridesManualValue()
    ensures var osc := NodeVO(3, Oscillator, "Oscillator", None, None, map[]);
            var s := SetFreeValue(osc, 0, Number(0.7), ChainPeers(None), Engine([], None, false),
                                  ExampleSlots, AllowAll, NoDependents);
            var wired := s.node.(inputs := Some([Wired(1)]));
            var s' := Recalculate(wired, ChainPeers(None), s.engine,
                                  ExampleSlots, AllowAll, NoDependents);
            && s.engine.units == [OscillatorUnit(0.7, 0.0)]
            && s'.node.freeValues == map[0 := Number(0.7)]
            && s'.node.value == s.node.value
            && s'.engine.units == [OscillatorUnit(0.5, 0.0)]
  {
  }

  /**
   * Changing the type does not clear the value: an oscillator node turned into a mixer with
   * nothing wired keeps its oscillator handle as its value.
   */
  lemma TypeChangeKeepsStaleValue()
    ensures var e := Engine([OscillatorUnit(0.5, 220.0)], None, false);
            var osc := NodeVO(3, Oscillator, "Oscillator", Some(Node(0)), Some([Wired(1), Wired(2)]), map[]);
            var s := SetType(osc, DryWetMixer, ExampleTypeName, ChainPeers(None), e,
                             ExampleSlots, AllowAll, NoDependents);
            && s.node.kind == DryWetMixer
            && s.node.value == Some(Node(0))
            && s.engine.units[0].OscillatorUnit?
  {
  }

  /**
   * A type with no slots never truncates: a Numeric node keeps a non-empty input list, so
   * `inputs.count <= numInputSlots` does not hold after its recalculation.
   */
  lemma NumericKeepsInputs()
    ensures var n := NodeVO(1, Numeric, "Numeric", Some(Number(0.5)), Some([Foreign]), map[]);
            var s := Recalculate(n, ChainPeers(None), Engine([], None, false),
                                 ExampleSlots, AllowAll, NoDependents);
            && s.node.inputs == Some([Foreign])
            && |s.node.inputs.value| > NumInputSlots(s.node, ExampleSlots)
            && s.node.value == Some(Number(0.5))
  {
  }
}
