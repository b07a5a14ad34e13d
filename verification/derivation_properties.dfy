/**
 * Properties of the per-type derivation: re-running it, the defaults it applies, and the
 * store invariants it keeps.
 */
module DerivationProperties {
  import opened Options
  import opened Values
  import opened Nodes
  import opened Derivation

  /** No input entry of the node is a connection from the node itself. */
  predicate NotSelfWired(node: NodeVO)
  {
    node.inputs.Some? ==> forall i :: 0 <= i < |node.inputs.value| ==> node.inputs.value[i] != Wired(node.id)
  }

  /** Unless a node reads itself, changing only its value changes none of its slots. */
  lemma SlotsIgnoreOwnValue(node: NodeVO, node': NodeVO, peers: Peers, index: nat)
    requires NotSelfWired(node)
    requires OnlyValueChanged(node, node')
    ensures GetInputValueAt(node', peers, index) == GetInputValueAt(node, peers, index)
  {
  }

  /** Numeric: a second step changes nothing. */
  lemma NumericIdempotent(node: NodeVO)
    ensures NumericStep(NumericStep(node)) == NumericStep(node)
  {
  }

  /** WhiteNoise: the second step reuses the unit the first one installed, with the same amplitude. */
  lemma WhiteNoiseIdempotent(node: NodeVO, peers: Peers, e: Engine)
    requires NotSelfWired(node)
    ensures var s := WhiteNoiseStep(node, peers, e);
            WhiteNoiseStep(s.node, peers, s.engine) == s
  {
  }

  /** Oscillator: the second step reuses the unit the first one installed, with the same parameters. */
  lemma OscillatorIdempotent(node: NodeVO, peers: Peers, e: Engine)
    requires NotSelfWired(node)
    ensures var s := OscillatorStep(node, peers, e);
            OscillatorStep(s.node, peers, s.engine) == s
  {
  }

  /** StringResonator: the second step keeps the resonator and its parameters. */
  lemma StringResonatorIdempotent(node: NodeVO, peers: Peers, e: Engine)
    requires NotSelfWired(node)
    ensures var s := StringResonatorStep(node, peers, e);
            StringResonatorStep(s.node, peers, s.engine) == s
  {
  }

  /**
   * DryWetMixer reconstructs: a second step with both signal slots wired builds another
   * mixer, a different handle with the same inputs and balance.
   */
  lemma DryWetMixerReconstructs(node: NodeVO, peers: Peers, e: Engine)
    requires NotSelfWired(node)
    requires GetInputValueAt(node, peers, 0).Node? && GetInputValueAt(node, peers, 1).Node?
    ensures var s1 := DryWetMixerStep(node, peers, e);
            var s2 := DryWetMixerStep(s1.node, peers, s1.engine);
            && s2.node.value != s1.node.value
            && s2.engine.units[s2.node.value.value.handle] == s1.engine.units[s1.node.value.value.handle]
  {
  }

  /**
   * Re-running the derivation with nothing changed in between is a no-op for every type
   * except DryWetMixer.
   */
  lemma EvaluateIdempotent(node: NodeVO, peers: Peers, e: Engine)
    requires NotSelfWired(node)
    requires node.kind != DryWetMixer
    ensures var s := Evaluate(node, peers, e);
            Evaluate(s.node, peers, s.engine) == s
  {
  }

  /** Amplitude of WhiteNoise: the number in slot 0; 0.5 only when slot 0 is a unit; an unwired slot without a manual value gives 0. */
  lemma WhiteNoiseAmplitude(node: NodeVO, peers: Peers)
    ensures var v := GetInputValueAt(node, peers, 0);
            && (v.Number? ==> NumberAt(node, peers, 0, 0.5) == v.number)
            && (v.Node? ==> NumberAt(node, peers, 0, 0.5) == 0.5)
    ensures Unwired(node.inputs, 0) && 0 !in node.freeValues ==> NumberAt(node, peers, 0, 0.5) == 0.0
  {
  }

  /** Every value a node may read refers to a unit in the store. */
  ghost predicate ValidReads(node: NodeVO, peers: Peers, units: seq<Unit>)
  {
    && (node.value.Some? ==> ValidValue(units, node.value.value))
    && (forall k :: k in node.freeValues ==> ValidValue(units, node.freeValues[k]))
    && (forall p: NodeId :: peers(p).Some? ==> ValidValue(units, peers(p).value))
  }

  /**
   * The derivation keeps every handle inside the store, and existing units only evolve:
   * no unit changes kind, no mixer changes, no resonator's wrapped input is replaced.
   */
  lemma EvaluateKeepsStore(node: NodeVO, peers: Peers, e: Engine)
    requires ValidEngine(e)
    requires ValidReads(node, peers, e.units)
    ensures var s := Evaluate(node, peers, e);
            && ValidEngine(s.engine)
            && (s.node.value.Some? ==> ValidValue(s.engine.units, s.node.value.value))
            && StoreEvolves(e.units, s.engine.units)
  {
  }
}
