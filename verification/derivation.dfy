/**
 * The per-type part of `recalculate`: how a node derives its value (and, for the output
 * node, the engine's sink) from its resolved input slots.
 */
module Derivation {
  import opened Options
  import opened Values
  import opened Nodes

  /** The node and the engine after one step. */
  datatype Step = Step(node: NodeVO, engine: Engine)

  /**
   * `s` leaves the node's value holding a handle to exactly the unit `u`; every other unit of
   * `e` is untouched, the store grew by at most that one unit, and the sink and transport
   * are unchanged.
   */
  predicate Installs(e: Engine, s: Step, u: Unit)
  {
    && s.node.value.Some? && s.node.value.value.Node?
    && var h := s.node.value.value.handle;
       && h <= |e.units|
       && |s.engine.units| == (if h < |e.units| then |e.units| else |e.units| + 1)
       && s.engine.units[h] == u
       && (forall k :: 0 <= k < |e.units| && k != h ==> s.engine.units[k] == e.units[k])
       && s.engine.output == e.output
       && s.engine.running == e.running
  }

  /** Only the node's value may differ between `node` and `node'`. */
  predicate OnlyValueChanged(node: NodeVO, node': NodeVO)
  {
    node' == node.(value := node'.value)
  }

  /** Numeric: the held number passes through; anything else becomes `Number(0)`. */
  function NumericStep(node: NodeVO): (r: NodeVO)
    ensures OnlyValueChanged(node, r)
    ensures r.value.Some? && r.value.value.Number?
    ensures node.value.Some? && node.value.value.Number? ==> r.value == node.value
    ensures !(node.value.Some? && node.value.value.Number?) ==> r.value == Some(Number(0.0))
  {
    node.(value := Some(Number(NumberValueOf(node.value).GetOr(0.0))))
  }

  /**
   * Output: the sink becomes the handle slot 0 resolves to, if that differs from the current
   * sink; the node itself is not touched.
   */
  function OutputStep(node: NodeVO, peers: Peers, e: Engine): (r: Engine)
    ensures GetInputValueAt(node, peers, 0).Node? ==>
      r == e.(output := Some(GetInputValueAt(node, peers, 0).handle))
    ensures !GetInputValueAt(node, peers, 0).Node? ==> r == e
  {
    var input := HandleAt(node, peers, 0);
    if input.Some? && e.output != HandleAt(node, peers, 0) then e.(output := input) else e
  }

  /**
   * WhiteNoise: reuse the noise unit the node already holds, else construct one; its
   * amplitude comes from slot 0, 0.5 when slot 0 is not a number.
   */
  function WhiteNoiseStep(node: NodeVO, peers: Peers, e: Engine): (r: Step)
    ensures OnlyValueChanged(node, r.node)
    ensures Installs(e, r, NoiseUnit(NumberAt(node, peers, 0, 0.5)))
    ensures HoldsNoise(e.units, node.value) ==> r.node.value == node.value
    ensures !HoldsNoise(e.units, node.value) ==> r.node.value == Some(Node(|e.units|))
  {
    var amplitude := NumberAt(node, peers, 0, 0.5);
    if HoldsNoise(e.units, node.value) then
      var h := node.value.value.handle;
      Step(node, e.(units := e.units[h := NoiseUnit(amplitude)]))
    else
      Step(node.(value := Some(Node(|e.units|))), e.(units := e.units + [NoiseUnit(amplitude)]))
  }

  /**
   * Oscillator: reuse the oscillator the node already holds, else construct one; amplitude
   * and frequency come from slots 0 and 1, 0 when a slot is not a number.
   */
  function OscillatorStep(node: NodeVO, peers: Peers, e: Engine): (r: Step)
    ensures OnlyValueChanged(node, r.node)
    ensures Installs(e, r, OscillatorUnit(NumberAt(node, peers, 0, 0.0), NumberAt(node, peers, 1, 0.0)))
    ensures HoldsOscillator(e.units, node.value) ==> r.node.value == node.value
    ensures !HoldsOscillator(e.units, node.value) ==> r.node.value == Some(Node(|e.units|))
  {
    var u := OscillatorUnit(NumberAt(node, peers, 0, 0.0), NumberAt(node, peers, 1, 0.0));
    if HoldsOscillator(e.units, node.value) then
      var h := node.value.value.handle;
      Step(node, e.(units := e.units[h := u]))
    else
      Step(node.(value := Some(Node(|e.units|))), e.(units := e.units + [u]))
  }

  /**
   * DryWetMixer: only when slots 0 and 1 both resolve to units, a fresh mixer of the two
   * is constructed, balance from slot 2 (0.5 when slot 2 is not a number).
   */
  function DryWetMixerStep(node: NodeVO, peers: Peers, e: Engine): (r: Step)
    ensures OnlyValueChanged(node, r.node)
    ensures GetInputValueAt(node, peers, 0).Node? && GetInputValueAt(node, peers, 1).Node? ==>
      && r.node.value == Some(Node(|e.units|))
      && Installs(e, r, MixerUnit(GetInputValueAt(node, peers, 0).handle,
                                  GetInputValueAt(node, peers, 1).handle,
                                  NumberAt(node, peers, 2, 0.5)))
    ensures !(GetInputValueAt(node, peers, 0).Node? && GetInputValueAt(node, peers, 1).Node?) ==>
      r == Step(node, e)
  {
    var input0 := HandleAt(node, peers, 0);
    var input1 := HandleAt(node, peers, 1);
    if input0.Some? && input1.Some? then
      var balance := NumberAt(node, peers, 2, 0.5);
      Step(node.(value := Some(Node(|e.units|))),
           e.(units := e.units + [MixerUnit(input0.value, input1.value, balance)]))
    else
      Step(node, e)
  }

  /**
   * First half of StringResonator: construct a resonator around slot 0's unit when slot 0
   * is a unit and the node does not already hold a resonator. The construction-time
   * parameters are placeholders; the second half always overwrites them.
   */
  function ConstructResonator(node: NodeVO, peers: Peers, e: Engine): Step
  {
    var input := HandleAt(node, peers, 0);
    if input.Some? && !HoldsResonator(e.units, node.value) then
      Step(node.(value := Some(Node(|e.units|))),
           e.(units := e.units + [ResonatorUnit(input.value, 0.0, 0.0)]))
    else
      Step(node, e)
  }

  /**
   * StringResonator: construct if needed (see `ConstructResonator`), then, whenever the
   * node holds a resonator, set its frequency and feedback in place from slots 1 and 2
   * (0 when not a number). The input a resonator wraps is never replaced.
   */
  function StringResonatorStep(node: NodeVO, peers: Peers, e: Engine): (r: Step)
    ensures OnlyValueChanged(node, r.node)
    ensures r.engine.output == e.output && r.engine.running == e.running
    ensures HoldsResonator(r.engine.units, r.node.value)
        <==> HoldsResonator(e.units, node.value) || GetInputValueAt(node, peers, 0).Node?
    ensures HoldsResonator(e.units, node.value) ==>
      && r.node.value == node.value
      && Installs(e, r, ResonatorUnit(e.units[node.value.value.handle].input,
                                      NumberAt(r.node, peers, 1, 0.0),
                                      NumberAt(r.node, peers, 2, 0.0)))
    ensures !HoldsResonator(e.units, node.value) && GetInputValueAt(node, peers, 0).Node? ==>
      && r.node.value == Some(Node(|e.units|))
      && Installs(e, r, ResonatorUnit(GetInputValueAt(node, peers, 0).handle,
                                      NumberAt(r.node, peers, 1, 0.0),
                                      NumberAt(r.node, peers, 2, 0.0)))
    ensures !HoldsResonator(r.engine.units, r.node.value) ==> r == Step(node, e)
  {
    var built := ConstructResonator(node, peers, e);
    if HoldsResonator(built.engine.units, built.node.value) then
      var h := built.node.value.value.handle;
      var tuned := built.engine.units[h].(fundamentalFrequency := NumberAt(built.node, peers, 1, 0.0),
                                          feedback := NumberAt(built.node, peers, 2, 0.0));
      Step(built.node, built.engine.(units := built.engine.units[h := tuned]))
    else
      built
  }

  /** The type-specific derivation of `recalculate`. */
  function Evaluate(node: NodeVO, peers: Peers, e: Engine): (r: Step)
    ensures OnlyValueChanged(node, r.node)
    ensures r.engine.running == e.running
    ensures node.kind != Output ==> r.engine.output == e.output
    ensures node.kind == Output ==> r.node == node && r.engine.units == e.units
  {
    match node.kind
    case Numeric => Step(NumericStep(node), e)
    case Output => Step(node, OutputStep(node, peers, e))
    case WhiteNoise => WhiteNoiseStep(node, peers, e)
    case Oscillator => OscillatorStep(node, peers, e)
    case DryWetMixer => DryWetMixerStep(node, peers, e)
    case StringResonator => StringResonatorStep(node, peers, e)
  }
}
