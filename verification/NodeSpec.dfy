/** One node as a value, and what each of its operations does. */
module NodeSpec {
  import opened OmniPaxos
  import opened Store
  import opened TxData
  import opened Wrappers

  /**
   * The two places where the code and its intent part ways. keepsRest: an advance keeps the diffs beyond its
   * target. startsAtFirst: with nothing applied yet, decided entries are read from position 0.
   * The code as written is Variant(false, false).
   */
  datatype Variant = Variant(keepsRest: bool, startsAtFirst: bool)

  datatype NodeState = NodeState(
    id: NodeId, store: Store, omni: Omni, lastApplied: Option<nat>, currentLeader: Option<NodeId>, promoted: bool)

  predicate IsLeader(n: NodeState) {
    n.omni.leader == Some(n.id)
  }

  // ---------- Applying decided entries ----------

  /** One turn of the replay loop; None is a panic. */
  function ApplyEntry(v: Variant, n: NodeState, e: Entry): Option<NodeState> {
    var r := Replay(n.store, e.txData);
    if r.1.Panicked? then None
    else Some(n.(store := Advance(v.keepsRest, r.0, e.txOffset), lastApplied := Some(e.txOffset)))
  }

  function ApplyEntries(v: Variant, n: NodeState, es: seq<Entry>): Option<NodeState>
    decreases |es|
  {
    if es == [] then Some(n)
    else
      var n' := ApplyEntry(v, n, es[0]);
      if n'.None? then None else ApplyEntries(v, n'.value, es[1..])
  }

  /** The decided entries a node asks for, given the last it applied. */
  function Unapplied(v: Variant, o: Omni, lastApplied: Option<nat>): Option<seq<Entry>> {
    match lastApplied
    case Some(k) => IterFrom(o, k)
    case None => if v.startsAtFirst then Some(OnlyDecided(ReadsIn(o, 0, o.decided + 1))) else IterFrom(o, 0)
  }

  /** There is a decided offset that the node has not applied. */
  predicate HasNews(n: NodeState) {
    DurableOffset(n.omni).Some? && n.lastApplied != DurableOffset(n.omni)
  }

  /**
   * A leader lets its own pending diffs become replicated; while the promotion flag is up, only if they end
   * at the decided offset.
   */
  predicate LeaderAdvances(n: NodeState)
    requires HasNews(n)
  {
    IsLeader(n) && (!n.promoted || n.store.next == DurableOffset(n.omni).value + 1)
  }

  /** Asking an empty datastore for its current offset, as the flag makes a new leader do. */
  predicate UnwrapsNothing(n: NodeState) {
    HasNews(n) && IsLeader(n) && n.promoted && n.store.next == 0
  }

  /** None is a panic. */
  function ApplyReplicated(v: Variant, n: NodeState): Option<NodeState> {
    if !HasNews(n) then Some(n)
    else if UnwrapsNothing(n) then None
    else if LeaderAdvances(n) then
      var target := DurableOffset(n.omni);
      Some(n.(lastApplied := target, store := Advance(v.keepsRest, n.store, target.value), promoted := false))
    else
      var es := Unapplied(v, n.omni, n.lastApplied);
      if es.None? then None
      else
        var n' := ApplyEntries(v, n, es.value);
        if n'.None? then None else Some(n'.value.(promoted := false))
  }

  // ---------- Leader changes ----------

  function UpdateLeader(v: Variant, n: NodeState): Option<NodeState> {
    var cur, prev := n.omni.leader, n.currentLeader;
    if prev.Some? && cur.Some? && prev != cur then
      if prev == Some(n.id) then Some(n.(store := Rollback(n.store), currentLeader := cur))
      else if cur == Some(n.id) then
        var n' := ApplyReplicated(v, n.(promoted := true));
        if n'.None? then None else Some(n'.value.(currentLeader := cur))
      else Some(n.(currentLeader := cur))
    else if prev.None? && cur.Some? then Some(n.(currentLeader := cur))
    else Some(n)
  }

  // ---------- Client commits ----------

  /** A leader commits to memory and hands the data to consensus under the same offset. */
  function CommitOn(n: NodeState, tx: Tx, data: TxData): NodeState {
    n.(store := Commit(n.store, tx), omni := n.omni.(log := n.omni.log + [Entry(n.store.next, data)]))
  }
}
