/** Whole histories of a store: refinement over every sequence of operations, and convergence of replicas. */
module Histories {
  import opened Refinement
  import opened Replaying
  import opened Store
  import opened TxData
  import opened Wrappers

  datatype Op =
    | OpCommit(tx: Tx)
    | OpAdvance(t: nat)
    | OpRollback
    | OpReplay(data: TxData)

  datatype Abstract = Abstract(live: seq<Tx>, r: nat)

  function RunStep(keepsRest: bool, s: Store, op: Op): Store {
    match op
    case OpCommit(tx) => Commit(s, tx)
    case OpAdvance(t) => Advance(keepsRest, s, t)
    case OpRollback => Rollback(s)
    case OpReplay(data) => Replay(s, data).0
  }

  function RunStore(keepsRest: bool, s: Store, ops: seq<Op>): Store
    decreases |ops|
  {
    if ops == [] then s else RunStore(keepsRest, RunStep(keepsRest, s, ops[0]), ops[1..])
  }

  /** An advance targets an offset from the replicated one on and below the next; nothing else is asked of any operation. */
  ghost predicate InRange(a: Abstract, op: Op) {
    op.OpAdvance? ==> a.r <= op.t + 1 <= |a.live|
  }

  /** The loop as written also strikes the first later diff of each key out of the live transactions. */
  function AbstractStep(keepsRest: bool, a: Abstract, op: Op): Abstract {
    match op
    case OpCommit(tx) => a.(live := a.live + [tx])
    case OpAdvance(t) => Abstract(if keepsRest then a.live else DropFirst(a.live, t + 1), t + 1)
    case OpRollback => if a.r <= |a.live| then a.(live := a.live[..a.r]) else a
    case OpReplay(data) => if a.r == |a.live| then Abstract(a.live + [Effect(data)], a.r + 1) else a
  }

  function RunAbstract(keepsRest: bool, a: Abstract, ops: seq<Op>): Abstract
    decreases |ops|
  {
    if ops == [] then a else RunAbstract(keepsRest, AbstractStep(keepsRest, a, ops[0]), ops[1..])
  }

  ghost predicate AllInRange(keepsRest: bool, a: Abstract, ops: seq<Op>)
    decreases |ops|
  {
    ops == [] || (InRange(a, ops[0]) && AllInRange(keepsRest, AbstractStep(keepsRest, a, ops[0]), ops[1..]))
  }

  lemma StepRefines(keepsRest: bool, a: Abstract, op: Op)
    requires a.r <= |a.live| && InRange(a, op)
    ensures var b := AbstractStep(keepsRest, a, op);
            b.r <= |b.live| && RunStep(keepsRest, Concretize(a.live, a.r), op) == Concretize(b.live, b.r)
  {
    hide Concretize, Advance, Commit, Replay, Rollback, Effect, Readable, DropFirst;
    match op {
      case OpCommit(tx) => CommitRefines(a.live, a.r, tx);
      case OpAdvance(t) =>
        AdvanceRefines(a.live, a.r, t);
        AdvanceAsWrittenDropsFirst(a.live, a.r, t);
      case OpRollback => RollbackRefines(a.live, a.r);
      case OpReplay(data) => ReplayRefines(a.live, a.r, data);
    }
  }

  /**
   * Two-level refinement over every history of commits, in-range advances, rollbacks and replays, of readable data or
   * not. With the intended advance no live transaction is ever altered; with the loop as written, each advance also
   * deletes the first later diff of every key, and nothing else goes wrong.
   */
  lemma {:induction false} StoreRefinesLog(keepsRest: bool, a: Abstract, ops: seq<Op>)
    requires a.r <= |a.live| && AllInRange(keepsRest, a, ops)
    ensures var b := RunAbstract(keepsRest, a, ops);
            b.r <= |b.live| && RunStore(keepsRest, Concretize(a.live, a.r), ops) == Concretize(b.live, b.r)
    decreases |ops|
  {
    if ops != [] {
      StepRefines(keepsRest, a, ops[0]);
      StoreRefinesLog(keepsRest, AbstractStep(keepsRest, a, ops[0]), ops[1..]);
    }
  }

  // ---------- The representation invariant over every history ----------

  /** What popping leaves of an ascending history lies beyond the target and still ascends. */
  lemma {:induction false} PoppedLiesBeyond(keepsRest: bool, h: History, t: nat, v: Option<Text>, lo: nat, hi: nat)
    requires Spread(h, lo, hi)
    ensures Spread(PopUpTo(keepsRest, h, t, v).0, t + 1, hi)
    decreases |h|
  {
    if h != [] {
      SpreadTail(h, lo, hi);
      if h[0].0 <= t {
        PoppedLiesBeyond(keepsRest, h[1..], t, DiffValue(h[0].1), h[0].0 + 1, hi);
      } else {
        assert Spread(h, t + 1, hi);
      }
    }
  }

  lemma SpreadTail(h: History, lo: nat, hi: nat)
    requires Spread(h, lo, hi) && h != []
    ensures Spread(h[1..], h[0].0 + 1, hi) && (forall i | 0 <= i < |h| :: h[0].0 <= h[i].0)
  {
  }

  /** An advance, in either form and to any target, keeps a store well-formed exactly when the store has that offset. */
  lemma AdvanceKeepsWellFormed(keepsRest: bool, s: Store, t: nat)
    requires WellFormed(s)
    ensures WellFormed(Advance(keepsRest, s, t)) <==> t < s.next
  {
    hide PopUpTo, Spread;
    var s' := Advance(keepsRest, s, t);
    forall k | k in s'.pending ensures Spread(s'.pending[k], t + 1, s.next) {
      PoppedLiesBeyond(keepsRest, s.pending[k], t, Look(s.state, k), NextAfter(s.replicated), s.next);
    }
  }

  lemma CommitKeepsWellFormed(s: Store, tx: Tx)
    requires WellFormed(s)
    ensures WellFormed(Commit(s, tx))
  {
    hide Spread;
    var s', lo := Commit(s, tx), NextAfter(s.replicated);
    forall k | k in s'.pending ensures s'.pending[k] != [] && Spread(s'.pending[k], lo, s'.next) {
      SpreadMore(HistoryOf(s, k), lo, s.next, if k in tx then [(s.next, tx[k])] else []);
    }
  }

  lemma SpreadMore(h: History, lo: nat, hi: nat, more: History)
    requires (h == [] || Spread(h, lo, hi)) && lo <= hi && |more| <= 1 && (more != [] ==> more[0].0 == hi)
    ensures Spread(h + more, lo, hi + 1)
  {
  }

  /** In a well-formed store a pending diff needs an offset past the replicated one, so replay is refused. */
  lemma PendingRefusesReplay(s: Store, k: Text)
    requires WellFormed(s) && k in s.pending
    ensures !AtReplicated(s)
  {
    assert NextAfter(s.replicated) <= s.pending[k][0].0 < s.next;
  }

  lemma ReplayingStoreHasNothingPending(s: Store)
    requires WellFormed(s) && AtReplicated(s)
    ensures s.pending == map[]
  {
    if s.pending != map[] {
      var k :| k in s.pending;
      PendingRefusesReplay(s, k);
    }
  }

  lemma ReplayKeepsWellFormed(s: Store, data: TxData)
    requires WellFormed(s)
    ensures WellFormed(Replay(s, data).0)
  {
    hide ReplayRows, Spread;
    if AtReplicated(s) {
      ReplayingStoreHasNothingPending(s);
    }
  }

  /** Every advance of the run targets an offset that the store at that point has. */
  ghost predicate TargetsExist(keepsRest: bool, s: Store, ops: seq<Op>)
    decreases |ops|
  {
    ops == []
    || ((ops[0].OpAdvance? ==> ops[0].t < s.next) && TargetsExist(keepsRest, RunStep(keepsRest, s, ops[0]), ops[1..]))
  }

  lemma StepKeepsWellFormed(keepsRest: bool, s: Store, op: Op)
    requires WellFormed(s) && (op.OpAdvance? ==> op.t < s.next)
    ensures WellFormed(RunStep(keepsRest, s, op))
  {
    hide Commit, Advance, Replay;
    match op {
      case OpCommit(tx) => CommitKeepsWellFormed(s, tx);
      case OpAdvance(t) => AdvanceKeepsWellFormed(keepsRest, s, t);
      case OpRollback =>
      case OpReplay(data) => ReplayKeepsWellFormed(s, data);
    }
  }

  lemma {:induction false} RunKeepsWellFormed(keepsRest: bool, s: Store, ops: seq<Op>)
    requires WellFormed(s) && TargetsExist(keepsRest, s, ops)
    ensures WellFormed(RunStore(keepsRest, s, ops))
    decreases |ops|
  {
    hide WellFormed, RunStep;
    if ops != [] {
      StepKeepsWellFormed(keepsRest, s, ops[0]);
      RunKeepsWellFormed(keepsRest, RunStep(keepsRest, s, ops[0]), ops[1..]);
    }
  }

  /**
   * The representation invariant of every reachable store, in both forms of the advance and through replays that are
   * rejected, unreadable or panic; and a reachable store that accepts a replay has nothing pending.
   */
  lemma ReachableIsWellFormed(keepsRest: bool, ops: seq<Op>)
    requires TargetsExist(keepsRest, EMPTY, ops)
    ensures var s := RunStore(keepsRest, EMPTY, ops);
            WellFormed(s) && (AtReplicated(s) ==> s.pending == map[])
  {
    hide RunStore, TargetsExist;
    RunKeepsWellFormed(keepsRest, EMPTY, ops);
    if AtReplicated(RunStore(keepsRest, EMPTY, ops)) {
      ReplayingStoreHasNothingPending(RunStore(keepsRest, EMPTY, ops));
    }
  }

  // ---------- Replica convergence ----------

  function CommitAll(s: Store, txs: seq<Tx>): Store {
    if txs == [] then s else Commit(CommitAll(s, txs[..|txs| - 1]), txs[|txs| - 1])
  }

  /** Replaying a list of transaction data in order; an outcome other than Replayed stays visible. */
  function ReplayAll(s: Store, datas: seq<TxData>): (Store, bool) {
    if datas == [] then (s, true)
    else
      var before := ReplayAll(s, datas[..|datas| - 1]);
      var r := Replay(before.0, datas[|datas| - 1]);
      (r.0, before.1 && r.1.Replayed?)
  }

  lemma {:induction false} CommitAllRefines(txs: seq<Tx>)
    ensures CommitAll(EMPTY, txs) == Concretize(txs, 0)
    decreases |txs|
  {
    if txs == [] {
      EmptyIsConcrete();
    } else {
      var n := |txs| - 1;
      CommitAllRefines(txs[..n]);
      CommitRefines(txs[..n], 0, txs[n]);
      assert txs == txs[..n] + [txs[n]];
    }
  }

  lemma {:induction false} ReplayAllRefines(txs: seq<Tx>, datas: seq<TxData>)
    requires |txs| == |datas|
    requires forall i | 0 <= i < |txs| :: Readable(datas[i]) && Effect(datas[i]) == txs[i]
    ensures ReplayAll(EMPTY, datas) == (Concretize(txs, |txs|), true)
    decreases |txs|
  {
    hide Concretize, Replay, Effect, Readable;
    if txs == [] {
      EmptyIsConcrete();
    } else {
      var n := |txs| - 1;
      assert forall i | 0 <= i < n :: txs[..n][i] == txs[i] && datas[..n][i] == datas[i];
      ReplayAllRefines(txs[..n], datas[..n]);
      ReplayRefines(txs[..n], n, datas[n]);
      assert txs == txs[..n] + [txs[n]];
    }
  }

  lemma EmptyIsConcrete()
    ensures EMPTY == Concretize([], 0)
  {
    assert Fold([]) == map[];
  }

  /** The list of data n commits return, the i-th hash map walked in the i-th order. */
  ghost predicate CommittedData(datas: seq<TxData>, txs: seq<Tx>) {
    && |datas| == |txs|
    && forall i | 0 <= i < |txs| :: IsCommitOf(datas[i], txs[i])
  }

  ghost predicate IsCommitOf(data: TxData, tx: Tx) {
    RowsFit(tx) && exists order :: Enumerates(order, tx) && data == TxDataOf(tx, order)
  }

  lemma CommitOfCarriesTx(data: TxData, tx: Tx)
    requires IsCommitOf(data, tx)
    ensures Readable(data) && Effect(data) == tx
  {
    var order :| Enumerates(order, tx) && data == TxDataOf(tx, order);
    CommittedDataCarriesTx(tx, order);
  }

  /**
   * Replaying on a fresh store the data returned by any number of commits gives the very store that
   * committing them and advancing to the last offset gives, whatever order each hash map was walked in
   * and whichever form the advance loop has.
   */
  lemma ReplicasConverge(txs: seq<Tx>, datas: seq<TxData>, keepsRest: bool)
    requires txs != [] && CommittedData(datas, txs)
    ensures ReplayAll(EMPTY, datas) == (Advance(keepsRest, CommitAll(EMPTY, txs), |txs| - 1), true)
  {
    hide Concretize, Advance, Effect, Readable, IsCommitOf, CommitAll, ReplayAll;
    forall i | 0 <= i < |txs| ensures Readable(datas[i]) && Effect(datas[i]) == txs[i] {
      CommitOfCarriesTx(datas[i], txs[i]);
    }
    ReplayAllRefines(txs, datas);
    CommitAllRefines(txs);
    AdvanceRefines(txs, 0, |txs| - 1);
    AdvanceAsWrittenRefines(txs, 0, |txs| - 1);
  }
}
