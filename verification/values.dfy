/**
 * Node values, node types and the opaque signal-processing units they refer to.
 *
 * A unit (white noise, oscillator, dry/wet mixer, string resonator) is an object of the
 * external signal library. It is modelled by its kind and its parameter record, kept in a
 * store owned by the engine; a handle is the unit's index in that store, so two holders of
 * the same handle see the same unit, and changing a parameter in place is visible to all.
 */
module Values {
  import opened Options

  /** Identity of a signal-processing unit: its index in the engine's unit store. */
  type Handle = nat

  /** The six node kinds `recalculate` switches on. */
  datatype NodeType = Numeric | Output | WhiteNoise | Oscillator | DryWetMixer | StringResonator

  /** What a node outputs: a scalar, or a handle to a constructed unit. */
  datatype NodeValue = Number(number: real) | Node(handle: Handle) {

    /** The scalar, if this is a number. */
    function NumberValue(): Option<real>
    {
      if Number? then Some(number) else None
    }

    /** The unit handle, if this is a unit. */
    function AudioKitNode(): Option<Handle>
    {
      if Node? then Some(handle) else None
    }
  }

  /** `v?.numberValue`: optional chaining through a missing value. */
  function NumberValueOf(v: Option<NodeValue>): Option<real>
  {
    if v.Some? then v.value.NumberValue() else None
  }

  /** A unit of the signal library: its kind and its parameter record. */
  datatype Unit =
    | NoiseUnit(amplitude: real)
    | OscillatorUnit(amplitude: real, frequency: real)
    | MixerUnit(input0: Handle, input1: Handle, balance: real)
    | ResonatorUnit(input: Handle, fundamentalFrequency: real, feedback: real)

  /**
   * The process-wide audio engine: the unit store, the current output (sink) and whether
   * the transport is running.
   */
  datatype Engine = Engine(units: seq<Unit>, output: Option<Handle>, running: bool)

  /** The unit an optional node value refers to, when it refers to one in the store. */
  function UnitOf(units: seq<Unit>, v: Option<NodeValue>): Option<Unit>
  {
    if v.Some? && v.value.Node? && v.value.handle < |units| then Some(units[v.value.handle]) else None
  }

  /** `value?.audioKitNode as? AKWhiteNoise` succeeds. */
  predicate HoldsNoise(units: seq<Unit>, v: Option<NodeValue>)
  {
    UnitOf(units, v).Some? && UnitOf(units, v).value.NoiseUnit?
  }

  /** `value?.audioKitNode as? AKOscillator` succeeds. */
  predicate HoldsOscillator(units: seq<Unit>, v: Option<NodeValue>)
  {
    UnitOf(units, v).Some? && UnitOf(units, v).value.OscillatorUnit?
  }

  /** `value?.audioKitNode is AKStringResonator`. */
  predicate HoldsResonator(units: seq<Unit>, v: Option<NodeValue>)
  {
    UnitOf(units, v).Some? && UnitOf(units, v).value.ResonatorUnit?
  }

  /** A value refers to no unit outside the store. */
  predicate ValidValue(units: seq<Unit>, v: NodeValue)
  {
    v.Node? ==> v.handle < |units|
  }

  /** A unit wraps only units of the store. */
  predicate ValidUnit(units: seq<Unit>, u: Unit)
  {
    match u
    case MixerUnit(a, b, _) => a < |units| && b < |units|
    case ResonatorUnit(i, _, _) => i < |units|
    case _ => true
  }

  /** No handle held by the engine dangles. */
  predicate ValidEngine(e: Engine)
  {
    && (forall h :: 0 <= h < |e.units| ==> ValidUnit(e.units, e.units[h]))
    && (e.output.Some? ==> e.output.value < |e.units|)
  }

  /**
   * How a unit may change over time: it keeps its kind, a mixer is never changed after
   * construction, and a resonator never changes the input it wraps.
   */
  predicate Evolves(u: Unit, u': Unit)
  {
    match u
    case NoiseUnit(_) => u'.NoiseUnit?
    case OscillatorUnit(_, _) => u'.OscillatorUnit?
    case MixerUnit(_, _, _) => u' == u
    case ResonatorUnit(i, _, _) => u'.ResonatorUnit? && u'.input == i
  }

  /** The store only grows, and every existing unit only evolves. */
  predicate StoreEvolves(units: seq<Unit>, units': seq<Unit>)
  {
    && |units| <= |units'|
    && forall h :: 0 <= h < |units| ==> Evolves(units[h], units'[h])
  }
}
