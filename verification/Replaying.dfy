/** Replay and what it reads: the effect of transaction data, and that a commit's data has the effect of its transaction. */
module Replaying {
  import opened Bytes
  import opened Codec
  import opened Refinement
  import opened Store
  import opened TxData
  import opened Varint
  import opened Wrappers

  /**
   * What the rows of a transaction do, inserts before deletes, as one diff per key; the flag says that none of them
   * stopped the replay. A row that does not decode or a foreign table stops it and what came before stays.
   */
  function RowsEffect(tx: Tx, rows: seq<RowData>): (Tx, bool)
    decreases |rows|
  {
    if rows == [] then (tx, true)
    else
      match DecExampleRow(rows[0])
      case Ok(row, _) => RowsEffect(tx[row.key := Insert(row.value)], rows[1..])
      case _ => (tx, false)
  }

  function InsertsEffect(tx: Tx, lists: seq<RowList>): (Tx, bool)
    decreases |lists|
  {
    if lists == [] then (tx, true)
    else if lists[0].tableId != 0 then (tx, false)
    else
      var r := RowsEffect(tx, lists[0].rows);
      if r.1 then InsertsEffect(r.0, lists[1..]) else r
  }

  function KeysEffect(tx: Tx, keys: seq<Text>): Tx
    decreases |keys|
  {
    if keys == [] then tx else KeysEffect(tx[keys[0] := Delete], keys[1..])
  }

  function DeletesEffect(tx: Tx, lists: seq<RowList>): (Tx, bool)
    decreases |lists|
  {
    if lists == [] then (tx, true)
    else if lists[0].tableId != 0 then (tx, false)
    else DeletesEffect(KeysEffect(tx, lists[0].rows), lists[1..])
  }

  /** The transaction that replaying the data runs, as far as it gets. */
  function Effect(data: TxData): Tx {
    var r := InsertsEffect(map[], data.inserts);
    if r.1 then DeletesEffect(r.0, data.deletes).0 else r.0
  }

  predicate ReadableInserts(lists: seq<RowList>) {
    forall l | l in lists :: l.tableId == 0 && forall row | row in l.rows :: DecExampleRow(row).Ok?
  }

  predicate ReadableDeletes(lists: seq<RowList>) {
    forall l | l in lists :: l.tableId == 0
  }

  /** Only the one table is named and every inserted row decodes. */
  predicate Readable(data: TxData) {
    ReadableInserts(data.inserts) && ReadableDeletes(data.deletes)
  }

  lemma ApplyInsert(m: Table, tx: Tx, k: Text, v: Text)
    ensures Apply(m, tx)[k := v] == Apply(m, tx[k := Insert(v)])
  {
  }

  lemma ApplyDelete(m: Table, tx: Tx, k: Text)
    ensures Apply(m, tx) - {k} == Apply(m, tx[k := Delete])
  {
  }

  /** A replay of part of a transaction follows its effect: the table reached, and whether it was stopped. */
  ghost predicate Follows(r: (Table, Outcome), m: Table, effect: (Tx, bool)) {
    r.0 == Apply(m, effect.0) && (r.1.Replayed? <==> effect.1) && !r.1.Rejected?
  }

  lemma {:induction false} InsertRowsApply(m: Table, tx: Tx, rows: seq<RowData>)
    ensures Follows(InsertRows(Apply(m, tx), rows), m, RowsEffect(tx, rows))
    ensures RowsEffect(tx, rows).1 <==> forall row | row in rows :: DecExampleRow(row).Ok?
    decreases |rows|
  {
    hide DecExampleRow, Apply;
    if rows != [] {
      assert rows[0] in rows && forall row | row in rows :: row == rows[0] || row in rows[1..];
      if DecExampleRow(rows[0]).Ok? {
        var row := DecExampleRow(rows[0]).value;
        ApplyInsert(m, tx, row.key, row.value);
        InsertRowsApply(m, tx[row.key := Insert(row.value)], rows[1..]);
      }
    }
  }

  lemma {:induction false} InsertListsApply(m: Table, tx: Tx, lists: seq<RowList>)
    ensures Follows(InsertLists(Apply(m, tx), lists), m, InsertsEffect(tx, lists))
    ensures InsertsEffect(tx, lists).1 <==> ReadableInserts(lists)
    decreases |lists|
  {
    hide DecExampleRow, Apply, RowsEffect, InsertRows;
    if lists != [] {
      assert lists[0] in lists && forall l | l in lists :: l == lists[0] || l in lists[1..];
      InsertRowsApply(m, tx, lists[0].rows);
      InsertListsApply(m, RowsEffect(tx, lists[0].rows).0, lists[1..]);
    }
  }

  lemma {:induction false} DeleteRowsApply(m: Table, tx: Tx, keys: seq<Text>)
    ensures DeleteRows(Apply(m, tx), keys) == Apply(m, KeysEffect(tx, keys))
    decreases |keys|
  {
    if keys != [] {
      ApplyDelete(m, tx, keys[0]);
      DeleteRowsApply(m, tx[keys[0] := Delete], keys[1..]);
    }
  }

  lemma {:induction false} DeleteListsApply(m: Table, tx: Tx, lists: seq<RowList>)
    ensures Follows(DeleteLists(Apply(m, tx), lists), m, DeletesEffect(tx, lists))
    ensures DeletesEffect(tx, lists).1 <==> ReadableDeletes(lists)
    decreases |lists|
  {
    hide Apply, DeleteRows, KeysEffect;
    if lists != [] {
      assert lists[0] in lists && forall l | l in lists :: l == lists[0] || l in lists[1..];
      DeleteRowsApply(m, tx, lists[0].rows);
      DeleteListsApply(m, KeysEffect(tx, lists[0].rows), lists[1..]);
    }
  }

  /** Replaying any rows on any table runs their effect on it, and finishes exactly when they are readable. */
  lemma ReplayRowsApply(m: Table, data: TxData)
    ensures ReplayRows(m, data).0 == Apply(m, Effect(data))
    ensures ReplayRows(m, data).1.Replayed? <==> Readable(data)
    ensures !ReplayRows(m, data).1.Rejected?
  {
    assert Apply(m, map[]) == m;
    hide Apply, InsertsEffect, DeletesEffect, InsertLists, DeleteLists, ReadableInserts, ReadableDeletes;
    InsertListsApply(m, map[], data.inserts);
    DeleteListsApply(m, InsertsEffect(map[], data.inserts).0, data.deletes);
  }

  /**
   * Replay is accepted exactly when nothing is ahead of the replicated mark; it then appends and replicates at once,
   * as much of the transaction as is readable.
   */
  lemma ReplayRefines(live: seq<Tx>, r: nat, data: TxData)
    requires r <= |live|
    ensures Replay(Concretize(live, r), data).0
            == if r == |live| then Concretize(live + [Effect(data)], r + 1) else Concretize(live, r)
    ensures Replay(Concretize(live, r), data).1.Rejected? <==> r < |live|
    ensures Replay(Concretize(live, r), data).1.Replayed? <==> r == |live| && Readable(data)
    ensures r == |live| ==> Concretize(live, r).pending == map[]
  {
    hide ReplayRows, Effect, Readable, Hist, Fold, Apply, Touched;
    ConcreteShape(live, r);
    if r == |live| {
      var tx := Effect(data);
      ReplayRowsApply(Fold(live[..r]), data);
      assert live[..r] == live && (live + [tx])[..r + 1] == live + [tx];
      FoldAppend(live, tx);
      NothingTouched(live);
      NothingTouched(live + [tx]);
    }
  }

  lemma NothingTouched(live: seq<Tx>)
    ensures Touched(live, |live|) == {}
  {
  }

  /**
   * A decided transaction may be this store's own pending one, so that its replay is rejected, or one the store
   * never had: replaying it and then advancing to its offset leaves the same replicated table and offset,
   * in either form of the advance.
   */
  lemma ReplayOrOwnDiffAgree(keepsRest: bool, live: seq<Tx>, j: nat, data: TxData)
    requires j < |live| && Readable(data) && Effect(data) == live[j]
    ensures var own := Replay(Concretize(live, j), data);
            var other := Replay(Concretize(live[..j], j), data);
            var s, t := Advance(keepsRest, own.0, j), Advance(keepsRest, other.0, j);
            && own.1 == Rejected && other.1 == Replayed
            && s.state == t.state == Fold(live[..j + 1])
            && s.replicated == t.replicated == Some(j)
  {
    hide Replay, Advance, Effect, Readable, Concretize, Fold;
    ReplayRefines(live, j, data);
    ReplayRefines(live[..j], j, data);
    assert live[..j] + [live[j]] == live[..j + 1];
    AdvanceState(keepsRest, live, j, j);
    AdvanceState(keepsRest, live[..j + 1], j + 1, j);
    AdvanceShape(keepsRest, Concretize(live, j), j);
    AdvanceShape(keepsRest, Concretize(live[..j + 1], j + 1), j);
    assert live[..j + 1][..j + 1] == live[..j + 1];
  }

  // ---------- Commit produces what replay reads ----------

  /** The row codec can carry the transaction: keys and values are shorter than 2^32 bytes. */
  ghost predicate RowsFit(tx: Tx) {
    forall k | k in tx :: |k| < TWO32 && (tx[k].Insert? ==> |tx[k].value| < TWO32)
  }

  lemma ExampleRowRoundTrip(row: ExampleRow, rest: seq<byte>)
    ensures ReadsBackAt(EncExampleRow, DecExampleRow, (r: ExampleRow) => |r.key| < TWO32 && |r.value| < TWO32, row, rest)
  {
    assert EncExampleRow(row) + rest == EncRow(row.key) + (EncRow(row.value) + rest);
    RowReadsBack(row.key, EncRow(row.value) + rest);
    RowReadsBack(row.value, rest);
  }

  function Find(tx: Tx, k: Text): Option<Diff> {
    if k in tx then Some(tx[k]) else None
  }

  lemma {:induction false} InsertRowsDecode(tx: Tx, order: seq<Text>)
    requires RowsFit(tx) && forall k | k in order :: k in tx
    ensures forall row | row in InsertRowsOf(tx, order) :: DecExampleRow(row).Ok?
    decreases |order|
  {
    if order != [] {
      InsertRowsDecode(tx, order[1..]);
      var k := order[0];
      if tx[k].Insert? {
        var row := ExampleRow(k, tx[k].value);
        ExampleRowRoundTrip(row, []);
        assert EncExampleRow(row) + [] == EncExampleRow(row);
      }
    }
  }

  /** The insert rows set exactly the inserted keys among those walked. */
  lemma {:induction false} InsertRowsCarry(tx: Tx, order: seq<Text>, done: Tx, x: Text)
    requires RowsFit(tx) && forall k | k in order :: k in tx
    ensures Find(RowsEffect(done, InsertRowsOf(tx, order)).0, x)
            == if x in order && tx[x].Insert? then Some(tx[x]) else Find(done, x)
    decreases |order|
  {
    if order != [] {
      var k, later := order[0], InsertRowsOf(tx, order[1..]);
      if tx[k].Insert? {
        var row := ExampleRow(k, tx[k].value);
        ExampleRowRoundTrip(row, []);
        assert EncExampleRow(row) + [] == EncExampleRow(row);
        assert InsertRowsOf(tx, order)[1..] == later;
        InsertRowsCarry(tx, order[1..], done[k := tx[k]], x);
      } else {
        assert InsertRowsOf(tx, order) == later;
        InsertRowsCarry(tx, order[1..], done, x);
      }
    }
  }

  /** The delete rows set exactly the deleted keys among those walked. */
  lemma {:induction false} DeleteRowsCarry(tx: Tx, order: seq<Text>, done: Tx, x: Text)
    requires forall k | k in order :: k in tx
    ensures Find(KeysEffect(done, DeleteRowsOf(tx, order)), x)
            == if x in order && tx[x].Delete? then Some(tx[x]) else Find(done, x)
    decreases |order|
  {
    if order != [] {
      var k, later := order[0], DeleteRowsOf(tx, order[1..]);
      if tx[k].Delete? {
        assert DeleteRowsOf(tx, order)[1..] == later;
        DeleteRowsCarry(tx, order[1..], done[k := Delete], x);
      } else {
        assert DeleteRowsOf(tx, order) == later;
        DeleteRowsCarry(tx, order[1..], done, x);
      }
    }
  }

  lemma SameFinds(a: Tx, b: Tx)
    requires forall k :: Find(a, k) == Find(b, k)
    ensures a == b
  {
    forall k ensures k in a <==> k in b {
      assert Find(a, k) == Find(b, k);
    }
    forall k | k in a ensures a[k] == b[k] {
      assert Find(a, k) == Find(b, k);
    }
  }

  /**
   * Whatever order the hash map is walked in, the data a commit returns is readable and its effect
   * is the transaction itself.
   */
  lemma CommittedDataCarriesTx(tx: Tx, order: seq<Text>)
    requires RowsFit(tx) && Enumerates(order, tx)
    ensures Readable(TxDataOf(tx, order)) && Effect(TxDataOf(tx, order)) == tx
  {
    InsertRowsDecode(tx, order);
    var inserted := RowsEffect(map[], InsertRowsOf(tx, order)).0;
    var result := KeysEffect(inserted, DeleteRowsOf(tx, order));
    forall x ensures Find(result, x) == Find(tx, x) {
      InsertRowsCarry(tx, order, map[], x);
      DeleteRowsCarry(tx, order, inserted, x);
    }
    SameFinds(result, tx);
    EffectOfOneList(TxDataOf(tx, order));
  }

  lemma EffectOfOneList(data: TxData)
    requires |data.inserts| == |data.deletes| == 1 && Readable(data)
    ensures Effect(data) == KeysEffect(RowsEffect(map[], data.inserts[0].rows).0, data.deletes[0].rows)
  {
    InsertRowsApply(map[], map[], data.inserts[0].rows);
    assert data.inserts[0] in data.inserts && data.deletes[0] in data.deletes;
    var inserted := RowsEffect(map[], data.inserts[0].rows).0;
    assert InsertsEffect(map[], data.inserts) == InsertsEffect(inserted, []);
    assert DeletesEffect(inserted, data.deletes) == DeletesEffect(KeysEffect(inserted, data.deletes[0].rows), []);
  }
}
