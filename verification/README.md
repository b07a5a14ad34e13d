# NodeVO evaluation in AudioKitNodality, modelled in Dafny

AudioKitNodality is a node editor for AudioKit graphs. Each `NodeVO` has a type
(`Numeric`, `Output`, `WhiteNoise`, `Oscillator`, `DryWetMixer`, `StringResonator`),
a `value`, an optional list of input nodes and a sparse map of manual `freeValues`.
Changing the type or a manual value runs `recalculate`. This method does four things:

- it resolves the input slots;
- it derives the node's value (or, for the output node, the engine's sink) with a
  rule per type;
- it cuts the input list to the type's slot count and clears connections that are no
  longer allowed;
- it triggers recalculation of the node's dependents and starts the transport again
  when a sink is set.

This project models that evaluation logic as pure functions over immutable data:

- `options.dfy`: `Option`, standing in for Swift optionals.
- `values.dfy`: `NodeType`, `NodeValue` (`Number(x) | Node(handle)`), the signal units
  (kind plus parameter record) and the `Engine`. The engine holds the unit store, the
  output sink and the running flag. A handle is a unit's index in the store, so
  identity is kept: a parameter set in place is seen by every holder of the handle.
  The file also holds the store invariants (`ValidEngine`, `StoreEvolves`).
- `nodes.dfy`: the node record, the input entries (`Vacant` = nil, `Foreign` = a widget
  node that is not a `NodeVO`, `Wired(id)`) and `getInputValueAt`. It also gives a
  three-way reference resolution (`Connected | Overridden | Default`).
- `derivation.dfy`: the per-type step of `recalculate`.
- `derivation_properties.dfy`: idempotence per type, the default rules, and the store
  invariants.
- `input_slots.dfy`: truncation and in-place pruning of the input list.
- `recalculation.dfy`: `recalculate` as one transition, the `type` and `freeValues`
  setters, `numInputSlots` and `outputType`.
- `scenarios.dfy`: concrete graphs (a wired oscillator feeding the output, manual value
  versus connection, and the behaviours of the code described below).

The collaborators defined outside `Classes.swift` are parameters:

- the values of the other nodes (`Peers`, a function from node identity to value);
- `NodalityModel.nodesAreRelationshipCandidates` (`Candidacy`);
- the slot count per type (`SlotTable`; `Scenarios.ExampleSlots` is an example table);
- the type's raw value;
- `updateDescendantNodes` (`Propagation`, seen through its effect on the engine).

A slot wired to the node itself reads the node's own current value, as Swift object
identity would. Doubles are `real` and are only passed through.

Three behaviours of the code a reader may not expect; the model follows the code:

- A type with zero slots (`Numeric`) is never truncated, because the code only truncates
  when the slot count is positive. So `inputs.count <= numInputSlots` can fail for it.
  `InputSlots.EnforcedLengthBound` states exactly when the bound holds, and
  `Scenarios.NumericKeepsInputs` gives an instance.
- Setting `type` does not clear `value`. A stale unit survives, for example, a change
  from `Oscillator` to an unwired `DryWetMixer` (`Scenarios.TypeChangeKeepsStaleValue`).
- The `Output` rule reassigns the sink whenever slot 0 resolves to a unit. The "differs
  from the current sink" test changes nothing observable, and `Derivation.OutputStep`
  states the result without it.

## Model

| member | source | states |
|---|---|---|
| Nodes.GetInputValueAt | AudioKitNodality/demoProject/Classes.swift:215-238 | A wired NodeVO slot yields its producer's value (or `Number(0)` if the producer has none), even when a manual value is stored. An unwired slot (nil list, index past the end, nil entry, non-NodeVO entry) yields the manual value, else `Number(0)`. The function is total over every non-negative index. |
| Nodes.GetInputValueAtFollowsSource | AudioKitNodality/demoProject/Classes.swift:219-235 | The nested-optional resolution equals a single match over the slot's source: connected producer, then manual value, then default. |
| Nodes.WiredSlotWins | AudioKitNodality/demoProject/Classes.swift:219-235 | Storing a manual value in a wired slot does not change what the slot resolves to. For another node, that is the producer's value or `Number(0)`. |
| Nodes.BeyondInputsFallsBack | AudioKitNodality/demoProject/Classes.swift:219-227 | An index at or past the end of the list (or a nil list) yields the manual value or `Number(0)`. |
| Derivation.NumericStep | AudioKitNodality/demoProject/Classes.swift:115-116 | A held number passes through. Any other value, or none, becomes `Number(0)`. Nothing but the value changes. |
| DerivationProperties.NumericIdempotent | AudioKitNodality/demoProject/Classes.swift:115-116 | Applying the numeric step twice gives the same node as applying it once. |
| Derivation.OutputStep | AudioKitNodality/demoProject/Classes.swift:118-122 | The sink becomes slot 0's unit when slot 0 resolves to a unit. Otherwise the engine is unchanged. The node is never touched. |
| Derivation.WhiteNoiseStep | AudioKitNodality/demoProject/Classes.swift:124-134 | The noise unit the node holds is reused, else a fresh one is appended. The value holds a noise unit whose amplitude is slot 0's number, or 0.5 otherwise. No other unit, the sink or the transport changes. |
| DerivationProperties.WhiteNoiseAmplitude | AudioKitNodality/demoProject/Classes.swift:127 | The 0.5 default applies only when slot 0 resolves to a unit. An unwired slot with no manual value gives amplitude 0. |
| DerivationProperties.WhiteNoiseIdempotent | AudioKitNodality/demoProject/Classes.swift:124-134 | For a node that does not read itself, a second step reuses the installed unit and changes nothing. |
| Derivation.OscillatorStep | AudioKitNodality/demoProject/Classes.swift:136-149 | The oscillator the node holds is reused, else a fresh one is appended. Its amplitude and frequency are slot 0's and slot 1's numbers (0 otherwise). No other unit changes. |
| DerivationProperties.OscillatorIdempotent | AudioKitNodality/demoProject/Classes.swift:136-149 | For a node that does not read itself, a second step changes nothing. |
| Derivation.DryWetMixerStep | AudioKitNodality/demoProject/Classes.swift:151-158 | Only when slots 0 and 1 both resolve to units, a fresh mixer of those two units is appended. Its balance is slot 2's number, or 0.5. Otherwise node and engine are unchanged. |
| DerivationProperties.DryWetMixerReconstructs | AudioKitNodality/demoProject/Classes.swift:151-158 | For a mixer that does not read itself and whose slots 0 and 1 resolve to units, a second step builds another mixer. It has a different handle and the same inputs and balance. |
| Derivation.StringResonatorStep | AudioKitNodality/demoProject/Classes.swift:160-175 | Afterwards the node holds a resonator exactly when it already held one or slot 0 is a unit. A held resonator is kept with its wrapped input, otherwise one is built around slot 0's unit. The frequency and feedback are set from slots 1 and 2 (default 0). With no resonator, nothing changes. |
| DerivationProperties.StringResonatorIdempotent | AudioKitNodality/demoProject/Classes.swift:160-175 | For a node that does not read itself, a second step changes nothing. |
| Derivation.Evaluate | AudioKitNodality/demoProject/Classes.swift:113-176 | The per-type step changes only the node's value. Only `Output` changes the sink, and `Output` never changes the node or the unit store. The transport flag is untouched. |
| DerivationProperties.EvaluateIdempotent | AudioKitNodality/demoProject/Classes.swift:113-176 | For a node that does not read itself, re-running the step with nothing changed is a no-op for every type except `DryWetMixer`. |
| DerivationProperties.EvaluateKeepsStore | AudioKitNodality/demoProject/Classes.swift:113-176 | From a store with no dangling handle, and with reads (own value, manual values, other nodes' values) that point into it, no handle dangles afterwards. Existing units keep their kind, mixers never change, and a resonator's wrapped input is never replaced. |
| DerivationProperties.SlotsIgnoreOwnValue | AudioKitNodality/demoProject/Classes.swift:228-231 | Unless a node is wired to itself, changing its value changes none of its slot resolutions. |
| InputSlots.Truncate | AudioKitNodality/demoProject/Classes.swift:180-183 | The result is a prefix of the list. With a positive slot count its length is the smaller of the list length and the count. With zero slots the list is unchanged. |
| InputSlots.PruneFrom | AudioKitNodality/demoProject/Classes.swift:185-191 | Pruning keeps length and order. It clears exactly the connections that fail the candidacy check at their own index and leaves every other entry as it was. |
| InputSlots.EnforceInputs | AudioKitNodality/demoProject/Classes.swift:178-192 | A nil list stays nil. Otherwise the list becomes the truncated list with failing connections set to nil. Nothing else in the node changes. |
| InputSlots.EnforcedConnectionsAreCandidates | AudioKitNodality/demoProject/Classes.swift:185-191 | Every connection left after enforcement passes the candidacy check at its slot. |
| InputSlots.EnforcedLengthBound | AudioKitNodality/demoProject/Classes.swift:178-183 | After enforcement `inputs.count <= numInputSlots` holds exactly when the count is positive or the list was nil or empty. |
| InputSlots.PruneKeepsCleanList | AudioKitNodality/demoProject/Classes.swift:185-191 | A list with no failing connection is left unchanged by pruning. |
| InputSlots.EnforceIdempotent | AudioKitNodality/demoProject/Classes.swift:178-192 | Enforcing the input invariants twice gives the same list as enforcing them once. |
| Recalculation.Recalculate | AudioKitNodality/demoProject/Classes.swift:109-204 | Identity, type, name and manual values are kept. The value is the per-type result. The input list is the original list truncated and pruned as `InputSlots.EnforceInputs` states, so it is nil exactly when it was nil, and every remaining connection is a candidate. With a positive slot count the list fits it. The sink and unit store are the ones left after propagation. The transport runs when a sink is set; with no sink it stays as the stop and propagation left it. |
| Recalculation.RecalculateStabilisesInputs | AudioKitNodality/demoProject/Classes.swift:178-192 | A second `recalculate` with nothing changed in between leaves the input list as the first one left it. |
| Recalculation.SetType | AudioKitNodality/demoProject/Classes.swift:28-38 | After setting the type, the node has that type, is named after it and has nil inputs. Its manual values are kept. Its value, the unit store and the sink are what recalculating the retyped node with unwired slots gives, after propagation. The transport runs when a sink is set; otherwise it stays as propagation left it. |
| Recalculation.SlotsAfterSetTypeAreManual | AudioKitNodality/demoProject/Classes.swift:28-38 | After a type change every slot resolves to its manual value or `Number(0)`, because the inputs are nil. |
| Recalculation.SetTypeToMixerKeepsValue | AudioKitNodality/demoProject/Classes.swift:28-38 | Turning a node into a `DryWetMixer` keeps its old value unless the manual values of slots 0 and 1 are both units. |
| Recalculation.SetFreeValue | AudioKitNodality/demoProject/Classes.swift:206-213 | Storing a manual value puts it in the map and recalculates. The value, the unit store (for example a reused oscillator's new amplitude) and the sink are what the node derives with the updated map, after propagation. The input list is enforced as in `recalculate`. The name is kept, and the transport runs when a sink is set; otherwise it stays as propagation left it. |
| Recalculation.RemoveFreeValue | AudioKitNodality/demoProject/Classes.swift:206-213 | Removing a manual value drops the key from the map and recalculates. The value, the unit store and the sink are those derived with the smaller map, and the input list is enforced. The name is kept, and the transport follows the same rule as in `recalculate`. |
| Recalculation.SetFreeValueDrivesUnwiredSlot | AudioKitNodality/demoProject/Classes.swift:206-213 | A manual number x stored in an oscillator's unwired slot 0 gives the oscillator the node holds afterwards amplitude x, when propagation leaves that oscillator's unit alone. |
| Recalculation.RemoveFreeValueDefaultsUnwiredSlot | AudioKitNodality/demoProject/Classes.swift:206-213 | Removing the manual value of an oscillator's unwired slot 0 leaves it at amplitude 0, when propagation leaves that oscillator's unit alone. |
| Recalculation.SetFreeValueIgnoredWhenWired | AudioKitNodality/demoProject/Classes.swift:206-235 | Storing a manual value for a wired slot, of any node type, gives the same value, inputs, unit store, sink and transport as a plain recalculation; only the map differs. |
| Recalculation.NumInputSlots | AudioKitNodality/demoProject/Classes.swift:79-82 | Reading `numInputSlots` gives the slot count of the node's type, whatever else the node holds. |
| Recalculation.SetNumInputSlots | AudioKitNodality/demoProject/Classes.swift:75-78 | Writing `numInputSlots` leaves the node exactly as it was. |
| Recalculation.NumInputSlotsFollowsType | AudioKitNodality/demoProject/Classes.swift:73-83 | Writing `numInputSlots` has no effect, and reading it gives the count of the node's type. |
| Recalculation.NumInputSlotsAfterSetType | AudioKitNodality/demoProject/Classes.swift:28-38 | After a type change `numInputSlots` is the new type's count. |
| Recalculation.OutputType | AudioKitNodality/demoProject/Classes.swift:85-95 | The output is the number type exactly when the node type is `Numeric`. |
| Scenarios.OscillatorChainDrivesOutput | AudioKitNodality/demoProject/Classes.swift:118-149 | Numbers 0.5 and 220 feed an oscillator, which feeds the output. The sink becomes the oscillator's own unit (amplitude 0.5, frequency 220) and the transport runs. |
| Scenarios.ConnectionOverridesManualValue | AudioKitNodality/demoProject/Classes.swift:206-235 | A manual 0.7, stored through the setter, drives an unwired amplitude slot. Wiring a 0.5 producer into that slot afterwards takes over on the same oscillator, and the manual value stays stored. |
| Scenarios.TypeChangeKeepsStaleValue | AudioKitNodality/demoProject/Classes.swift:28-38 | Turning an oscillator node into an unwired mixer keeps the oscillator handle as its value. |
| Scenarios.NumericKeepsInputs | AudioKitNodality/demoProject/Classes.swift:178-183 | A Numeric node keeps a non-empty input list through recalculation. |

## Left out

- Transport calls `AudioKit.stop()`/`start()`: reduced to a running flag. It is cleared
  at the start of `recalculate` and set after propagation when the sink is non-nil.
  The log line for a missing sink is not modelled.
- Unit `isStopped`/`start()` calls for noise and oscillator: these are external side
  effects of the signal library and are not modelled.
- The DSP behaviour of the four unit kinds: units are a kind plus a parameter record.
  Double parameters are `real` values that are only passed through, with no rounding.
- Construction-time parameters of a new string resonator: placeholders, because the
  code overwrites them at once.
- `updateDescendantNodes`: an abstract engine-to-engine effect. Dependent nodes,
  propagation order and cycle detection are not modelled; the code of the graph model
  is not part of this model.
- `nodesAreRelationshipCandidates`: an uninterpreted predicate over (producer, target,
  index). Its dependence on graph state that changes while the pruning loop runs is not
  modelled.
- Re-entrancy through `didSet`: the `inputs` writes inside `recalculate` would run the
  input setter of the widget base class again. Each `recalculate` is modelled as one
  atomic transition.
- The `inputs` setter itself: it belongs to the widget base class `SNNode`, which is not
  part of this model.
- Negative slot indices: a Swift `Int` index below zero traps when the input list is
  present. `getInputValueAt` is modelled for non-negative indices only.
- The three initialisers, `outputTypeName` (its string constants are defined elsewhere),
  the `print` of the oscillator's amplitude and frequency, `deinit` logging, positions and `NodeInputSlot`/`SNWidgetWidth`: construction and
  UI/diagnostics with no evaluation logic.
- Recalculation.SetFreeValueDrivesUnwiredSlot: stated only for a propagation that leaves this
  node's oscillator unit alone. Dependents are not modelled, so nothing rules out a
  propagation that rewrites it.
- Recalculation.RemoveFreeValueDefaultsUnwiredSlot: stated only for a propagation that leaves
  this node's oscillator unit alone, for the same reason.
