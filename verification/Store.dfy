/** The two-level datastore as values: its state, its rows, and what each operation does to it. */
module Store {
  import opened Bytes
  import opened TxData
  import opened Wrappers

  /** Strings are the bytes of their UTF-8 form. */
  type Text = seq<byte>
  type Table = map<Text, Text>

  // ---------- Rows ----------

  datatype ExampleRow = ExampleRow(key: Text, value: Text)

  /** Each of the two strings is written as its length and its bytes, the layout of a row of data. */
  function EncExampleRow(row: ExampleRow): RowData {
    EncRow(row.key) + EncRow(row.value)
  }

  function DecExampleRow(bs: seq<byte>): Parse<ExampleRow> {
    match DecRow(bs)
    case Eof => Eof
    case Overflow => Overflow
    case Ok(key, rest) =>
      match DecRow(rest)
      case Eof => Eof
      case Overflow => Overflow
      case Ok(value, rest') => Ok(ExampleRow(key, value), rest')
  }

  // ---------- State ----------

  datatype Diff = Insert(value: Text) | Delete

  /** What one transaction does, key by key: the `diff` of a mutable transaction. */
  type Tx = map<Text, Diff>

  type History = seq<(nat, Diff)>

  datatype DurabilityLevel = Memory | Replicated

  /** The four fields of the committed state. */
  datatype Store = Store(next: nat, replicated: Option<nat>, state: Table, pending: map<Text, History>)

  const EMPTY: Store := Store(0, None, map[], map[])

  function Look(m: Table, k: Text): Option<Text> {
    if k in m then Some(m[k]) else None
  }

  function DiffValue(d: Diff): Option<Text> {
    match d
    case Insert(v) => Some(v)
    case Delete => None
  }

  /** No key keeps an empty history; reading the latest diff of a key relies on it. */
  ghost predicate NoEmptyHistory(s: Store) {
    forall k | k in s.pending :: s.pending[k] != []
  }

  function Get(s: Store, k: Text, level: DurabilityLevel): Option<Text>
    requires NoEmptyHistory(s)
  {
    if level.Memory? && k in s.pending then
      var h := s.pending[k];
      DiffValue(h[|h| - 1].1)
    else Look(s.state, k)
  }

  // ---------- Commit ----------

  function HistoryOf(s: Store, k: Text): History {
    if k in s.pending then s.pending[k] else []
  }

  function Commit(s: Store, tx: Tx): Store {
    s.(next := s.next + 1,
       pending := map k | k in s.pending.Keys + tx.Keys ::
         HistoryOf(s, k) + if k in tx then [(s.next, tx[k])] else [])
  }

  function InsertRowsOf(tx: Tx, order: seq<Text>): seq<RowData>
    requires forall k | k in order :: k in tx
  {
    if order == [] then []
    else
      (match tx[order[0]]
       case Insert(v) => [EncExampleRow(ExampleRow(order[0], v))]
       case Delete => [])
      + InsertRowsOf(tx, order[1..])
  }

  function DeleteRowsOf(tx: Tx, order: seq<Text>): seq<RowData>
    requires forall k | k in order :: k in tx
  {
    if order == [] then []
    else (if tx[order[0]].Delete? then [order[0]] else []) + DeleteRowsOf(tx, order[1..])
  }

  /** The order is one in which a hash map may yield its keys: every key exactly once. */
  ghost predicate Enumerates(order: seq<Text>, tx: Tx) {
    && (forall k :: k in order <==> k in tx)
    && (forall i, j | 0 <= i < j < |order| :: order[i] != order[j])
  }

  /** The data a commit returns when the hash map of the transaction is walked in the given order. */
  function TxDataOf(tx: Tx, order: seq<Text>): TxData
    requires forall k | k in order :: k in tx
  {
    TxData([RowList(0, InsertRowsOf(tx, order))], [RowList(0, DeleteRowsOf(tx, order))], [])
  }

  // ---------- Advance and rollback ----------

  /**
   * The inner loop for one key: from a history and the key's replicated value to what is left
   * of the history and the value after it. The loop as written takes the head off before it looks
   * at its offset, so it loses the first diff beyond the target; keepsRest is the loop that does not.
   */
  function PopUpTo(keepsRest: bool, h: History, t: nat, v: Option<Text>): (History, Option<Text>) {
    if h == [] then (h, v)
    else if h[0].0 <= t then PopUpTo(keepsRest, h[1..], t, DiffValue(h[0].1))
    else (if keepsRest then h else h[1..], v)
  }

  function Popped(keepsRest: bool, s: Store, t: nat, k: Text): (History, Option<Text>) {
    PopUpTo(keepsRest, HistoryOf(s, k), t, Look(s.state, k))
  }

  function Advance(keepsRest: bool, s: Store, t: nat): Store {
    Store(s.next, Some(t),
      map k | k in s.state.Keys + s.pending.Keys && Popped(keepsRest, s, t, k).1.Some? :: Popped(keepsRest, s, t, k).1.value,
      map k | k in s.pending && Popped(keepsRest, s, t, k).0 != [] :: Popped(keepsRest, s, t, k).0)
  }

  function NextAfter(replicated: Option<nat>): nat {
    if replicated.Some? then replicated.value + 1 else 0
  }

  function Rollback(s: Store): Store {
    s.(next := NextAfter(s.replicated), pending := map[])
  }

  // ---------- Replay ----------

  /** BadRow is a row that does not decode; Panicked a foreign table id or a shift overflow. */
  datatype Outcome = Replayed | Rejected | BadRow | Panicked

  function InsertRows(m: Table, rows: seq<RowData>): (Table, Outcome)
    decreases |rows|
  {
    if rows == [] then (m, Replayed)
    else
      match DecExampleRow(rows[0])
      case Eof => (m, BadRow)
      case Overflow => (m, Panicked)
      case Ok(row, _) => InsertRows(m[row.key := row.value], rows[1..])
  }

  function InsertLists(m: Table, lists: seq<RowList>): (Table, Outcome)
    decreases |lists|
  {
    if lists == [] then (m, Replayed)
    else if lists[0].tableId != 0 then (m, Panicked)
    else
      var r := InsertRows(m, lists[0].rows);
      if r.1.Replayed? then InsertLists(r.0, lists[1..]) else r
  }

  function DeleteRows(m: Table, keys: seq<Text>): Table
    decreases |keys|
  {
    if keys == [] then m else DeleteRows(m - {keys[0]}, keys[1..])
  }

  function DeleteLists(m: Table, lists: seq<RowList>): (Table, Outcome)
    decreases |lists|
  {
    if lists == [] then (m, Replayed)
    else if lists[0].tableId != 0 then (m, Panicked)
    else DeleteLists(DeleteRows(m, lists[0].rows), lists[1..])
  }

  function ReplayRows(m: Table, data: TxData): (Table, Outcome) {
    var r := InsertLists(m, data.inserts);
    if r.1.Replayed? then DeleteLists(r.0, data.deletes) else r
  }

  /** Replay is accepted only on a state that is not ahead of its replicated offset. */
  predicate AtReplicated(s: Store) {
    s.next == NextAfter(s.replicated)
  }

  /** Both offsets move before the rows are decoded, so a bad row leaves a half-replayed transaction behind. */
  function Replay(s: Store, data: TxData): (Store, Outcome) {
    if !AtReplicated(s) then (s, Rejected)
    else
      var r := ReplayRows(s.state, data);
      (s.(next := s.next + 1, replicated := Some(NextAfter(s.replicated)), state := r.0), r.1)
  }
}
