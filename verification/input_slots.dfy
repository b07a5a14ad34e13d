/**
 * The end of `recalculate`: the input list is cut to the type's slot count and every
 * connection that is no longer a relationship candidate is cleared in place.
 */
module InputSlots {
  import opened Options
  import opened Values
  import opened Nodes

  /**
   * The graph's relationship-candidacy check: may `producer` feed slot `index` of `target`?
   * Its internals (self-loop, cycle and range tests) belong to the graph model.
   */
  type Candidacy = (NodeId, NodeId, nat) -> bool

  /** The entry at slot `index` of `target` is a connection that fails the check. */
  predicate Fails(x: Input, target: NodeId, candidate: Candidacy, index: nat)
  {
    x.Wired? && !candidate(x.producer, target, index)
  }

  /**
   * The list is cut to its first `n` entries when it has at least `n` and `n` is positive;
   * with `n == 0` it is left as it is.
   */
  function Truncate(xs: seq<Input>, n: nat): (r: seq<Input>)
    ensures r <= xs
    ensures n > 0 ==> |r| == (if |xs| < n then |xs| else n)
    ensures n == 0 ==> r == xs
  {
    if |xs| >= n && n > 0 then xs[..n] else xs
  }

  /**
   * The pruning loop from position `k` on: entries before `k` are already done, and each
   * later entry that fails the check becomes `Vacant`, in place.
   */
  function PruneFrom(xs: seq<Input>, target: NodeId, candidate: Candidacy, k: nat): (r: seq<Input>)
    requires k <= |xs|
    ensures |r| == |xs|
    ensures forall i :: 0 <= i < k ==> r[i] == xs[i]
    ensures forall i :: k <= i < |xs| && Fails(xs[i], target, candidate, i) ==> r[i] == Vacant
    ensures forall i :: k <= i < |xs| && !Fails(xs[i], target, candidate, i) ==> r[i] == xs[i]
    decreases |xs| - k
  {
    if k == |xs| then
      xs
    else if Fails(xs[k], target, candidate, k) then
      PruneFrom(xs[k := Vacant], target, candidate, k + 1)
    else
      PruneFrom(xs, target, candidate, k + 1)
  }

  /** Pruning the whole list. */
  function Prune(xs: seq<Input>, target: NodeId, candidate: Candidacy): seq<Input>
  {
    PruneFrom(xs, target, candidate, 0)
  }

  /** Truncation then pruning, on a list that is present; a nil list stays nil. */
  function EnforceInputs(node: NodeVO, n: nat, candidate: Candidacy): (r: NodeVO)
    ensures r == node.(inputs := r.inputs)
    ensures r.inputs.None? <==> node.inputs.None?
    ensures node.inputs.Some? ==> |r.inputs.value| == |Truncate(node.inputs.value, n)|
    ensures node.inputs.Some? ==> forall i :: 0 <= i < |r.inputs.value| ==>
      r.inputs.value[i] == (if Fails(node.inputs.value[i], node.id, candidate, i) then Vacant
                            else node.inputs.value[i])
  {
    match node.inputs
    case None => node
    case Some(xs) => node.(inputs := Some(Prune(Truncate(xs, n), node.id, candidate)))
  }

  /** After enforcement, every remaining connection passes the candidacy check at its slot. */
  lemma EnforcedConnectionsAreCandidates(node: NodeVO, n: nat, candidate: Candidacy)
    ensures var r := EnforceInputs(node, n, candidate);
            r.inputs.Some? ==> forall i :: 0 <= i < |r.inputs.value| && r.inputs.value[i].Wired? ==>
              candidate(r.inputs.value[i].producer, node.id, i)
  {
  }

  /**
   * The slot bound `|inputs| <= n` holds after enforcement exactly when the slot count is
   * positive or the list was empty or nil: a type with no slots keeps its entries.
   */
  lemma EnforcedLengthBound(node: NodeVO, n: nat, candidate: Candidacy)
    ensures var r := EnforceInputs(node, n, candidate);
            (r.inputs.None? || |r.inputs.value| <= n)
            <==> (n > 0 || node.inputs.None? || node.inputs.value == [])
  {
  }

  /** A list in which no connection fails the check is left as it is. */
  lemma PruneKeepsCleanList(ys: seq<Input>, target: NodeId, candidate: Candidacy)
    requires forall i :: 0 <= i < |ys| ==> !Fails(ys[i], target, candidate, i)
    ensures Prune(ys, target, candidate) == ys
  {
  }

  /** Enforcing twice is enforcing once. */
  lemma {:induction false} EnforceIdempotent(node: NodeVO, n: nat, candidate: Candidacy)
    ensures EnforceInputs(EnforceInputs(node, n, candidate), n, candidate) == EnforceInputs(node, n, candidate)
  {
    var r := EnforceInputs(node, n, candidate);
    if node.inputs.Some? {
      var t := Truncate(node.inputs.value, n);
      var p := Prune(t, node.id, candidate);
      assert Truncate(p, n) == p;
      PruneKeepsCleanList(p, node.id, candidate);
    }
  }
}
