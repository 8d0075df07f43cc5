/** The datastore object: the committed state it guards, and its transactions. */
module Datastore {
  import opened Bytes
  import opened Overlay
  import opened Refinement
  import opened Serde
  import opened Store
  import Spec = Store
  import opened TxData
  import opened Wrappers

  method SerializeExampleRow(row: ExampleRow) returns (bytes: seq<byte>)
    ensures bytes == EncExampleRow(row)
  {
    var writer := new Sink();
    SerializeRowData(writer, row.key);
    SerializeRowData(writer, row.value);
    bytes := writer.bytes;
  }

  /** Bytes after the second string are ignored. */
  method DeserializeExampleRow(bytes: seq<byte>) returns (r: Read<ExampleRow>)
    ensures match DecExampleRow(bytes)
            case Ok(row, _) => r == Got(row)
            case Eof => r == UnexpectedEof
            case Overflow => r == ShiftOverflow
  {
    var cursor := new Source(bytes);
    var key := DeserializeRowData(cursor);
    if !key.Got? {
      return if key.UnexpectedEof? then UnexpectedEof else ShiftOverflow;
    }
    var value := DeserializeRowData(cursor);
    if !value.Got? {
      return if value.UnexpectedEof? then UnexpectedEof else ShiftOverflow;
    }
    r := Got(ExampleRow(key.value, value.value));
  }

  /** In the middle of an advance: the keys not in `keys` have been popped, the others not touched. */
  ghost predicate PoppedOutside(
      keepsRest: bool, s: Store, t: nat, keys: set<Text>, state: Table, diffs: map<Text, History>) {
    && diffs.Keys == s.pending.Keys
    && forall k ::
         if k in diffs && k !in keys then (diffs[k], Look(state, k)) == Popped(keepsRest, s, t, k)
         else Look(state, k) == Look(s.state, k) && (k in diffs ==> diffs[k] == s.pending[k])
  }

  lemma PoppedNowhere(keepsRest: bool, s: Store, t: nat)
    ensures PoppedOutside(keepsRest, s, t, s.pending.Keys, s.state, s.pending)
  {
  }

  lemma PoppedOneMore(keepsRest: bool, s: Store, t: nat, keys: set<Text>, state: Table, diffs: map<Text, History>,
      key: Text, state': Table, diffs': map<Text, History>)
    requires PoppedOutside(keepsRest, s, t, keys, state, diffs) && key in keys && key in diffs
    requires diffs'.Keys == diffs.Keys
    requires (diffs'[key], Look(state', key)) == PopUpTo(keepsRest, diffs[key], t, Look(state, key))
    requires forall k | k in diffs' && k != key :: diffs'[k] == diffs[k]
    requires forall k | k != key :: Look(state', k) == Look(state, k)
    ensures PoppedOutside(keepsRest, s, t, keys - {key}, state', diffs')
  {
    hide PopUpTo, Look;
    assert Popped(keepsRest, s, t, key) == PopUpTo(keepsRest, s.pending[key], t, Look(s.state, key));
  }

  lemma PoppedEverywhere(keepsRest: bool, s: Store, t: nat, state: Table, diffs: map<Text, History>)
    requires PoppedOutside(keepsRest, s, t, {}, state, diffs)
    ensures Advance(keepsRest, s, t)
            == Store(s.next, Some(t), state, map k | k in diffs && diffs[k] != [] :: diffs[k])
  {
    hide PopUpTo;
    var expected := Advance(keepsRest, s, t);
    forall k ensures Look(state, k) == Look(expected.state, k) {
      if k !in s.pending {
        NothingToPop(keepsRest, s, t, k);
      }
    }
    SameLooks(state, expected.state);
    assert expected.pending == map k | k in diffs && diffs[k] != [] :: diffs[k];
  }

  lemma NothingToPop(keepsRest: bool, s: Store, t: nat, k: Text)
    requires k !in s.pending
    ensures Popped(keepsRest, s, t, k) == ([], Look(s.state, k))
  {
  }

  class CommittedState {
    var nextTxOffset: nat
    var replicatedTxOffset: Option<nat>
    var replicatedState: Table
    var committedDiff: map<Text, History>

    ghost function View(): Store
      reads this
    {
      Store(nextTxOffset, replicatedTxOffset, replicatedState, committedDiff)
    }

    constructor ()
      ensures View() == EMPTY
    {
      nextTxOffset, replicatedTxOffset, replicatedState, committedDiff := 0, None, map[], map[];
    }

    method Get(key: Text, level: DurabilityLevel) returns (r: Option<Text>)
      requires NoEmptyHistory(View())
      ensures r == Spec.Get(View(), key, level)
    {
      if level.Memory? && key in committedDiff {
        var history := committedDiff[key];
        match history[|history| - 1].1
        case Insert(v) => return Some(v);
        case Delete => return None;
      }
      r := if key in replicatedState then Some(replicatedState[key]) else None;
    }

    /** The inner loop of an advance: key's history is popped from the front. */
    method PopHistory(keepsRest: bool, key: Text, t: nat)
      requires key in committedDiff
      modifies this`committedDiff, this`replicatedState
      ensures committedDiff.Keys == old(committedDiff.Keys)
      ensures (committedDiff[key], Look(replicatedState, key))
              == PopUpTo(keepsRest, old(committedDiff[key]), t, Look(old(replicatedState), key))
      ensures forall k | k in committedDiff && k != key :: committedDiff[k] == old(committedDiff[k])
      ensures forall k | k != key :: Look(replicatedState, k) == Look(old(replicatedState), k)
    {
      while committedDiff[key] != []
        invariant committedDiff.Keys == old(committedDiff.Keys)
        invariant PopUpTo(keepsRest, committedDiff[key], t, Look(replicatedState, key))
                  == PopUpTo(keepsRest, old(committedDiff[key]), t, Look(old(replicatedState), key))
        invariant forall k | k in committedDiff && k != key :: committedDiff[k] == old(committedDiff[k])
        invariant forall k | k != key :: Look(replicatedState, k) == Look(old(replicatedState), k)
        decreases |committedDiff[key]|
      {
        var (offset, diff) := committedDiff[key][0];
        if keepsRest && offset > t {
          break;
        }
        committedDiff := committedDiff[key := committedDiff[key][1..]];
        if offset <= t {
          match diff
          case Insert(value) => replicatedState := replicatedState[key := value];
          case Delete => replicatedState := replicatedState - {key};
        } else {
          return;
        }
      }
    }

    /** With keepsRest false this is the loop as written; with it true, the loop that stops before a later diff. */
    method AdvanceReplicatedDurabilityOffset(keepsRest: bool, t: nat)
      modifies this
      ensures View() == Advance(keepsRest, old(View()), t)
    {
      hide PopUpTo, Advance, PoppedOutside;
      PoppedNowhere(keepsRest, View(), t);
      ghost var s := View();
      var keys := committedDiff.Keys;
      while keys != {}
        invariant keys <= committedDiff.Keys == old(committedDiff.Keys)
        invariant nextTxOffset == old(nextTxOffset)
        invariant PoppedOutside(keepsRest, s, t, keys, replicatedState, committedDiff)
        decreases |keys|
      {
        var key :| key in keys;
        ghost var diffs, state := committedDiff, replicatedState;
        PopHistory(keepsRest, key, t);
        PoppedOneMore(keepsRest, s, t, keys, state, diffs, key, replicatedState, committedDiff);
        keys := keys - {key};
      }
      PoppedEverywhere(keepsRest, s, t, replicatedState, committedDiff);
      committedDiff := map k | k in committedDiff && committedDiff[k] != [] :: committedDiff[k];
      replicatedTxOffset := Some(t);
    }

    method RollbackToReplicatedDurabilityOffset()
      modifies this
      ensures View() == Rollback(old(View()))
    {
      committedDiff := map[];
      nextTxOffset := if replicatedTxOffset.Some? then replicatedTxOffset.value + 1 else 0;
    }

    method ReplayInserts(rows: seq<RowData>) returns (o: Outcome)
      modifies this`replicatedState
      ensures (replicatedState, o) == InsertRows(old(replicatedState), rows)
    {
      hide DecExampleRow;
      for i := 0 to |rows|
        invariant InsertRows(replicatedState, rows[i..]) == InsertRows(old(replicatedState), rows)
      {
        var row := DeserializeExampleRow(rows[i]);
        assert rows[i..][0] == rows[i] && rows[i..][1..] == rows[i + 1..];
        match row
        case UnexpectedEof => return BadRow;
        case ShiftOverflow => return Panicked;
        case Got(r) => replicatedState := replicatedState[r.key := r.value];
      }
      o := Replayed;
    }

    method ReplayDeletes(keys: seq<Text>)
      modifies this`replicatedState
      ensures replicatedState == DeleteRows(old(replicatedState), keys)
    {
      for i := 0 to |keys|
        invariant DeleteRows(replicatedState, keys[i..]) == DeleteRows(old(replicatedState), keys)
      {
        assert keys[i..][0] == keys[i] && keys[i..][1..] == keys[i + 1..];
        replicatedState := replicatedState - {keys[i]};
      }
    }

    method ReplayInsertLists(lists: seq<RowList>) returns (o: Outcome)
      modifies this`replicatedState
      ensures (replicatedState, o) == InsertLists(old(replicatedState), lists)
    {
      for i := 0 to |lists|
        invariant InsertLists(replicatedState, lists[i..]) == InsertLists(old(replicatedState), lists)
      {
        assert lists[i..][0] == lists[i] && lists[i..][1..] == lists[i + 1..];
        if lists[i].tableId != 0 {
          return Panicked;
        }
        o := ReplayInserts(lists[i].rows);
        if !o.Replayed? {
          return;
        }
      }
      o := Replayed;
    }

    method ReplayDeleteLists(lists: seq<RowList>) returns (o: Outcome)
      modifies this`replicatedState
      ensures (replicatedState, o) == DeleteLists(old(replicatedState), lists)
    {
      for i := 0 to |lists|
        invariant DeleteLists(replicatedState, lists[i..]) == DeleteLists(old(replicatedState), lists)
      {
        assert lists[i..][0] == lists[i] && lists[i..][1..] == lists[i + 1..];
        if lists[i].tableId != 0 {
          return Panicked;
        }
        ReplayDeletes(lists[i].rows);
      }
      o := Replayed;
    }

    method ReplayTransaction(data: TxData) returns (o: Outcome)
      modifies this
      ensures (View(), o) == Replay(old(View()), data)
    {
      match replicatedTxOffset {
        case Some(offset) =>
          if nextTxOffset != offset + 1 {
            return Rejected;
          }
        case None =>
          if nextTxOffset != 0 {
            return Rejected;
          }
      }
      replicatedTxOffset := Some(if replicatedTxOffset.Some? then replicatedTxOffset.value + 1 else 0);
      nextTxOffset := nextTxOffset + 1;
      o := ReplayInsertLists(data.inserts);
      if o.Replayed? {
        o := ReplayDeleteLists(data.deletes);
      }
    }

    /** The offset of the last committed transaction, if there is one. */
    method GetCurOffset() returns (r: Option<nat>)
      ensures r.None? <==> nextTxOffset == 0
      ensures r.Some? ==> r.value + 1 == nextTxOffset
    {
      r := if nextTxOffset == 0 then None else Some(nextTxOffset - 1);
    }
  }

  /** A mutable transaction: it holds the only write access to the committed state until it ends. */
  class MutTx {
    var diff: Tx
    const committedState: CommittedState

    constructor (committedState: CommittedState)
      ensures diff == map[] && this.committedState == committedState
    {
      diff := map[];
      this.committedState := committedState;
    }

    method Get(key: Text) returns (r: Option<Text>)
      requires NoEmptyHistory(committedState.View())
      ensures r == TxGet(committedState.View(), diff, key)
    {
      if key in diff {
        match diff[key]
        case Insert(v) => return Some(v);
        case Delete => return None;
      }
      r := committedState.Get(key, Memory);
    }

    method Set(key: Text, value: Text)
      requires NoEmptyHistory(committedState.View())
      modifies this
      ensures diff == OverlayStep(committedState.View(), old(diff), OpSet(key, value)).0
    {
      diff := diff[key := Insert(value)];
    }

    method Delete(key: Text) returns (r: Option<Text>)
      requires NoEmptyHistory(committedState.View())
      modifies this
      ensures (diff, r) == OverlayStep(committedState.View(), old(diff), OpDelete(key))
    {
      if key in diff {
        r := if diff[key].Insert? then Some(diff[key].value) else None;
        diff := diff - {key};
      } else {
        r := committedState.Get(key, Memory);
      }
      diff := diff[key := Diff.Delete];
      assert diff == old(diff)[key := Diff.Delete];
    }
  }

  datatype TxResult = TxResult(txOffset: nat, txData: TxData)

  lemma {:induction false} RowsOfAppend(tx: Tx, order: seq<Text>, k: Text)
    requires k in tx && forall x | x in order :: x in tx
    ensures InsertRowsOf(tx, order + [k])
            == InsertRowsOf(tx, order) + if tx[k].Insert? then [EncExampleRow(ExampleRow(k, tx[k].value))] else []
    ensures DeleteRowsOf(tx, order + [k]) == DeleteRowsOf(tx, order) + if tx[k].Delete? then [k] else []
    decreases |order|
  {
    hide EncExampleRow;
    if order == [] {
      assert order + [k] == [k];
      assert InsertRowsOf(tx, [k][1..]) == [] && DeleteRowsOf(tx, [k][1..]) == [];
    } else {
      assert (order + [k])[1..] == order[1..] + [k];
      RowsOfAppend(tx, order[1..], k);
    }
  }

  /** The keys walked so far, their diffs appended to the histories and their rows written out. */
  ghost predicate CommittedSoFar(
      s: Store, tx: Tx, order: seq<Text>, diffs: map<Text, History>, inserts: seq<RowData>, deletes: seq<RowData>) {
    && (forall k :: k in diffs <==> k in s.pending || k in order)
    && (forall k | k in order :: k in tx)
    && (forall i, j | 0 <= i < j < |order| :: order[i] != order[j])
    && (forall k | k in diffs :: diffs[k] == HistoryOf(s, k) + if k in order then [(s.next, tx[k])] else [])
    && inserts == InsertRowsOf(tx, order)
    && deletes == DeleteRowsOf(tx, order)
  }

  lemma CommittedAll(
      s: Store, tx: Tx, order: seq<Text>, diffs: map<Text, History>, inserts: seq<RowData>, deletes: seq<RowData>)
    requires CommittedSoFar(s, tx, order, diffs, inserts, deletes)
    requires forall k | k in tx :: k in order
    ensures Commit(s, tx) == s.(next := s.next + 1, pending := diffs)
    ensures Enumerates(order, tx)
    ensures TxDataOf(tx, order) == TxData([RowList(0, inserts)], [RowList(0, deletes)], [])
  {
    assert Commit(s, tx).pending == diffs;
  }

  /** One more key of the transaction is walked. */
  lemma CommitOneMore(
      s: Store, tx: Tx, order: seq<Text>, diffs: map<Text, History>, inserts: seq<RowData>, deletes: seq<RowData>, key: Text)
    requires CommittedSoFar(s, tx, order, diffs, inserts, deletes)
    requires key in tx && key !in order
    ensures CommittedSoFar(s, tx, order + [key],
              diffs[key := (if key in diffs then diffs[key] else []) + [(s.next, tx[key])]],
              inserts + (if tx[key].Insert? then [EncExampleRow(ExampleRow(key, tx[key].value))] else []),
              deletes + if tx[key].Delete? then [key] else [])
  {
    hide EncExampleRow, InsertRowsOf, DeleteRowsOf;
    RowsOfAppend(tx, order, key);
    var diffs' := diffs[key := (if key in diffs then diffs[key] else []) + [(s.next, tx[key])]];
    assert diffs'[key] == HistoryOf(s, key) + [(s.next, tx[key])];
    assert forall k :: k in order + [key] <==> k in order || k == key;
  }

  /**
   * Appends the transaction's diffs at the next offset and returns its rows; the diff map is walked in an
   * arbitrary order, and the result records that there is one which explains the rows.
   */
  method CommitMutTx(tx: MutTx) returns (result: TxResult)
    modifies tx.committedState
    ensures tx.committedState.View() == Commit(old(tx.committedState.View()), tx.diff)
    ensures result.txOffset == old(tx.committedState.nextTxOffset)
    ensures exists order :: Enumerates(order, tx.diff) && result.txData == TxDataOf(tx.diff, order)
  {
    hide EncExampleRow, CommittedSoFar, Commit, Enumerates, TxDataOf;
    var state := tx.committedState;
    ghost var s := state.View();
    var offset := state.nextTxOffset;
    var inserts, deletes: seq<RowData> := [], [];
    var keys := tx.diff.Keys;
    ghost var order: seq<Text> := [];
    CommittedNothing(s, tx.diff);
    while keys != {}
      invariant forall k :: k in tx.diff <==> k in keys || k in order
      invariant forall k | k in keys :: k !in order
      invariant CommittedSoFar(s, tx.diff, order, state.committedDiff, inserts, deletes)
      invariant state.View() == s.(pending := state.committedDiff)
      decreases |keys|
    {
      var key :| key in keys;
      var diff := tx.diff[key];
      CommitOneMore(s, tx.diff, order, state.committedDiff, inserts, deletes, key);
      if key in state.committedDiff {
        state.committedDiff := state.committedDiff[key := state.committedDiff[key] + [(offset, diff)]];
      } else {
        state.committedDiff := state.committedDiff[key := [(offset, diff)]];
        assert [] + [(offset, diff)] == [(offset, diff)];
      }
      match diff {
        case Insert(value) =>
          var row := SerializeExampleRow(ExampleRow(key, value));
          inserts := inserts + [row];
          assert deletes + [] == deletes;
        case Delete =>
          deletes := deletes + [key];
          assert inserts + [] == inserts;
      }
      order := order + [key];
      keys := keys - {key};
    }
    CommittedAll(s, tx.diff, order, state.committedDiff, inserts, deletes);
    state.nextTxOffset := state.nextTxOffset + 1;
    result := TxResult(offset, TxData([RowList(0, inserts)], [RowList(0, deletes)], []));
  }

  lemma CommittedNothing(s: Store, tx: Tx)
    ensures CommittedSoFar(s, tx, [], s.pending, [], [])
  {
  }
}
