/** What a client sees inside a mutable transaction, against the same calls on a private copy of the Memory view. */
module Overlay {
  import opened Refinement
  import opened Replaying
  import opened Store
  import opened Wrappers

  // ---------- The three calls on the transaction's own diff ----------

  function TxGet(s: Store, diff: Tx, k: Text): Option<Text>
    requires NoEmptyHistory(s)
  {
    if k in diff then DiffValue(diff[k]) else Get(s, k, Memory)
  }

  datatype TxOp = OpGet(k: Text) | OpSet(k: Text, v: Text) | OpDelete(k: Text)

  /** The new diff and what the call returns: the value for get, the old value for delete. */
  function OverlayStep(s: Store, diff: Tx, op: TxOp): (Tx, Option<Text>)
    requires NoEmptyHistory(s)
  {
    match op
    case OpGet(k) => (diff, TxGet(s, diff, k))
    case OpSet(k, v) => (diff[k := Insert(v)], None)
    case OpDelete(k) => (diff[k := Delete], TxGet(s, diff, k))
  }

  function RunOverlay(s: Store, diff: Tx, ops: seq<TxOp>): (Tx, seq<Option<Text>>)
    requires NoEmptyHistory(s)
    decreases |ops|
  {
    if ops == [] then (diff, [])
    else
      var step := OverlayStep(s, diff, ops[0]);
      var later := RunOverlay(s, step.0, ops[1..]);
      (later.0, [step.1] + later.1)
  }

  // ---------- The same calls on a table of one's own ----------

  function PlainStep(m: Table, op: TxOp): (Table, Option<Text>) {
    match op
    case OpGet(k) => (m, Look(m, k))
    case OpSet(k, v) => (m[k := v], None)
    case OpDelete(k) => (m - {k}, Look(m, k))
  }

  function RunPlain(m: Table, ops: seq<TxOp>): (Table, seq<Option<Text>>)
    decreases |ops|
  {
    if ops == [] then (m, [])
    else
      var step := PlainStep(m, ops[0]);
      var later := RunPlain(step.0, ops[1..]);
      (later.0, [step.1] + later.1)
  }

  lemma TxGetIsLook(live: seq<Tx>, r: nat, diff: Tx, k: Text)
    requires r <= |live|
    ensures NoEmptyHistory(Concretize(live, r))
    ensures TxGet(Concretize(live, r), diff, k) == Look(Apply(Fold(live), diff), k)
  {
    Views(live, r, k);
    LookApply(Fold(live), diff, k);
  }

  lemma {:induction false} OverlayRuns(live: seq<Tx>, r: nat, diff: Tx, ops: seq<TxOp>)
    requires r <= |live|
    ensures NoEmptyHistory(Concretize(live, r))
    ensures var o := RunOverlay(Concretize(live, r), diff, ops);
            RunPlain(Apply(Fold(live), diff), ops) == (Apply(Fold(live), o.0), o.1)
    decreases |ops|
  {
    hide Concretize, TxGet, Fold, Apply;
    ConcreteIsWellFormed(live, r);
    if ops != [] {
      var op := ops[0];
      TxGetIsLook(live, r, diff, op.k);
      match op {
        case OpGet(k) =>
        case OpSet(k, v) => ApplyInsert(Fold(live), diff, k, v);
        case OpDelete(k) => ApplyDelete(Fold(live), diff, k);
      }
      OverlayRuns(live, r, OverlayStep(Concretize(live, r), diff, op).0, ops[1..]);
    }
  }

  /**
   * Every sequence of gets, sets and deletes inside a transaction returns what it returns on a copy of the
   * Memory view; committing makes the Memory view that copy and leaves the Replicated view alone.
   */
  lemma TransactionActsOnACopy(live: seq<Tx>, r: nat, ops: seq<TxOp>, k: Text)
    requires r <= |live|
    ensures NoEmptyHistory(Concretize(live, r))
    ensures var s := Concretize(live, r);
            var o := RunOverlay(s, map[], ops);
            var copy := RunPlain(Fold(live), ops);
            && o.1 == copy.1
            && NoEmptyHistory(Commit(s, o.0))
            && Get(Commit(s, o.0), k, Memory) == Look(copy.0, k)
            && Get(Commit(s, o.0), k, Replicated) == Get(s, k, Replicated)
  {
    ConcreteIsWellFormed(live, r);
    var diff := RunOverlay(Concretize(live, r), map[], ops).0;
    assert Apply(Fold(live), map[]) == Fold(live);
    hide Concretize, Commit, RunOverlay, RunPlain, Apply, Get, Fold;
    OverlayRuns(live, r, map[], ops);
    CommitRefines(live, r, diff);
    FoldAppend(live, diff);
    Views(live, r, k);
    Views(live + [diff], r, k);
    assert (live + [diff])[..r] == live[..r];
  }
}
