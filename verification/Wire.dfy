/** What stands where on the wire: the order of the fields, and byte strings of small transactions and commits. */
module Wire {
  import opened Bytes
  import opened Codec
  import opened LogFile
  import opened Replaying
  import opened Store
  import opened TxData
  import opened Varint

  // ---------- Small lengths take one byte ----------

  /** A length below 128 is the byte itself, so a short row is its length and then its bytes. */
  lemma ShortRow(row: RowData)
    requires |row| < 0x80
    ensures EncRow(row) == [|row|] + row
  {
  }

  lemma NoElements<T>(enc: T -> seq<byte>)
    ensures EncList(enc, []) == [0]
  {
  }

  lemma OneElement<T>(enc: T -> seq<byte>, x: T)
    ensures EncList(enc, [x]) == [1] + enc(x)
  {
    assert |[x][1..]| == 0;
    assert EncAll(enc, [x]) == enc(x) + EncAll(enc, []);
  }

  lemma TwoElements<T>(enc: T -> seq<byte>, x: T, y: T)
    ensures EncList(enc, [x, y]) == [2] + enc(x) + enc(y)
  {
    assert [x, y][1..] == [y] && |[y][1..]| == 0;
    assert EncAll(enc, [y]) == enc(y) + EncAll(enc, []);
  }

  // ---------- The order of the fields ----------

  /** The inserts stand first and the deletes next: so a reader of lists takes them off the front, and the truncs are left. */
  lemma InsertsThenDeletes(tx: TxData, rest: seq<byte>)
    requires TxFits(tx)
    ensures EncList(EncRowList, tx.inserts) <= EncTx(tx)
    ensures var p := DecList(DecRowList, EncTx(tx) + rest);
            && p.Ok? && p.value == tx.inserts
            && var q := DecList(DecRowList, p.rest);
               && q.Ok? && q.value == tx.deletes
               && q.rest == EncList(EncTableId, tx.truncs) + rest
               && DecList(DecTableId, q.rest) == Ok(tx.truncs, rest)
  {
    hide EncList, DecList, EncRowList, DecRowList;
    RowListCodec();
    TableIdCodec();
    var l3 := EncList(EncTableId, tx.truncs) + rest;
    var l2 := EncList(EncRowList, tx.deletes) + l3;
    assert EncTx(tx) + rest == EncList(EncRowList, tx.inserts) + l2;
    ListReadsBack(EncRowList, DecRowList, RowListFits, tx.inserts, l2);
    ListReadsBack(EncRowList, DecRowList, RowListFits, tx.deletes, l3);
    ListReadsBack(EncTableId, DecTableId, TableIdFits, tx.truncs, rest);
  }

  /** In a list of rows the table id stands first, then the rows in order. */
  lemma TableIdThenRows(list: RowList, rest: seq<byte>)
    requires RowListFits(list)
    ensures var p := DecVarint(EncRowList(list) + rest);
            p.Ok? && p.value == list.tableId && DecList(DecRow, p.rest) == Ok(list.rows, rest)
  {
    hide EncList, DecList, EncVarint, DecVarint;
    RowCodec();
    var later := EncList(EncRow, list.rows) + rest;
    assert EncRowList(list) + rest == EncVarint(list.tableId) + later;
    VarintRoundTrip(list.tableId, later);
    ListReadsBack(EncRow, DecRow, RowFits, list.rows, rest);
  }

  /** In a row of the datastore the key stands first, then the value. */
  lemma KeyThenValue(row: ExampleRow, rest: seq<byte>)
    requires |row.key| < TWO32 && |row.value| < TWO32
    ensures var p := DecRow(EncExampleRow(row) + rest);
            p.Ok? && p.value == row.key && DecRow(p.rest) == Ok(row.value, rest)
  {
    hide EncRow, DecRow;
    assert EncExampleRow(row) + rest == EncRow(row.key) + (EncRow(row.value) + rest);
    RowReadsBack(row.key, EncRow(row.value) + rest);
    RowReadsBack(row.value, rest);
  }

  // ---------- Transactions byte by byte ----------

  lemma NoRows(id: TableId)
    requires id < 0x80
    ensures EncRowList(RowList(id, [])) == [id, 0]
  {
    hide EncList;
    NoElements(EncRow);
  }

  lemma OneRow(id: TableId, row: RowData)
    requires id < 0x80 && |row| < 0x80
    ensures EncRowList(RowList(id, [row])) == [id, 1, |row|] + row
  {
    hide EncList, EncRow;
    OneElement(EncRow, row);
    ShortRow(row);
  }

  /** Nothing at all is three empty lists. */
  lemma EmptyTx()
    ensures EncTx(TxData([], [], [])) == [0, 0, 0]
  {
    hide EncList;
    NoElements(EncRowList);
    NoElements(EncTableId);
  }

  lemma OneInsertList()
    ensures EncTx(TxData([RowList(42, [])], [], [])) == [1, 42, 0, 0, 0]
  {
    hide EncList, EncRowList;
    NoElements(EncRowList);
    NoElements(EncTableId);
    OneElement(EncRowList, RowList(42, []));
    NoRows(42);
  }

  lemma TwoInsertLists()
    ensures EncTx(TxData([RowList(42, []), RowList(33, [])], [], [])) == [2, 42, 0, 33, 0, 0, 0]
  {
    hide EncList, EncRowList;
    NoElements(EncRowList);
    NoElements(EncTableId);
    TwoElements(EncRowList, RowList(42, []), RowList(33, []));
    NoRows(42);
    NoRows(33);
  }

  lemma TwoInsertedRows()
    ensures EncTx(TxData([RowList(42, [[1, 2, 3, 4, 5]]), RowList(33, [[6, 7, 8, 9, 10]])], [], []))
            == [2, 42, 1, 5, 1, 2, 3, 4, 5, 33, 1, 5, 6, 7, 8, 9, 10, 0, 0]
  {
    hide EncList, EncRowList;
    NoElements(EncRowList);
    NoElements(EncTableId);
    TwoElements(EncRowList, RowList(42, [[1, 2, 3, 4, 5]]), RowList(33, [[6, 7, 8, 9, 10]]));
    OneRow(42, [1, 2, 3, 4, 5]);
    OneRow(33, [6, 7, 8, 9, 10]);
  }

  /** Deletes come before truncs, and an id of 300 takes two bytes, the lower seven bits first. */
  lemma DeletesAndTruncs()
    ensures EncTx(TxData([], [RowList(7, [[9]])], [5, 300])) == [0, 1, 7, 1, 1, 9, 2, 5, 0xAC, 2]
  {
    hide EncList, EncRowList;
    NoElements(EncRowList);
    OneElement(EncRowList, RowList(7, [[9]]));
    OneRow(7, [9]);
    TwoElements(EncTableId, 5, 300);
    assert EncVarint(300) == [0xAC] + EncVarint(2);
  }

  // ---------- Commits byte by byte ----------

  /** A short row of the datastore: two lengths, each before its string. */
  lemma ShortExampleRow(key: Text, value: Text)
    requires |key| < 0x80 && |value| < 0x80
    ensures EncExampleRow(ExampleRow(key, value)) == [|key|] + key + [|value|] + value
  {
    ShortRow(key);
    ShortRow(value);
  }

  /** A commit that sets one key: one insert list and one delete list, both of table 0. */
  lemma SetOnTheWire(key: Text, value: Text)
    requires |key| + |value| < 0x7E
    ensures EncTx(TxDataOf(map[key := Insert(value)], [key]))
            == [1, 0, 1, |key| + |value| + 2, |key|] + key + [|value|] + value + [1, 0, 0, 0]
  {
    hide EncList, EncRowList, EncExampleRow;
    var tx: Tx, row := map[key := Insert(value)], EncExampleRow(ExampleRow(key, value));
    assert |[key][1..]| == 0;
    assert InsertRowsOf(tx, [key]) == [row] + InsertRowsOf(tx, []) == [row];
    assert DeleteRowsOf(tx, [key]) == [] + DeleteRowsOf(tx, []) == [];
    ShortExampleRow(key, value);
    OneElement(EncRowList, RowList(0, [row]));
    OneElement(EncRowList, RowList(0, []));
    OneRow(0, row);
    NoRows(0);
    NoElements(EncTableId);
  }

  /** A commit that deletes one key: the row of the delete list is the bare key. */
  lemma DeleteOnTheWire(key: Text)
    requires |key| < 0x80
    ensures TxDataOf(map[key := Delete], [key]) == TxData([RowList(0, [])], [RowList(0, [key])], [])
    ensures EncTx(TxDataOf(map[key := Delete], [key])) == [1, 0, 0, 1, 0, 1, |key|] + key + [0]
  {
    hide EncList, EncRowList;
    var tx: Tx := map[key := Delete];
    assert |[key][1..]| == 0;
    assert InsertRowsOf(tx, [key]) == [] + InsertRowsOf(tx, []) == [];
    assert DeleteRowsOf(tx, [key]) == [key] + DeleteRowsOf(tx, []) == [key];
    OneElement(EncRowList, RowList(0, []));
    OneElement(EncRowList, RowList(0, [key]));
    NoRows(0);
    OneRow(0, key);
    NoElements(EncTableId);
  }

  // ---------- Rows that stop a replay ----------

  /** Any strict prefix of a row meets the end of its bytes. */
  lemma CutRow(row: ExampleRow, cut: nat)
    requires |row.key| < TWO32 && |row.value| < TWO32 && cut < |EncExampleRow(row)|
    ensures DecExampleRow(EncExampleRow(row)[..cut]) == Eof
  {
    hide EncRow, DecRow;
    RowCodec();
    var first, second := EncRow(row.key), EncRow(row.value);
    if cut < |first| {
      assert EncExampleRow(row)[..cut] == first[..cut];
      StrictPrefixIsTorn(EncRow, DecRow, RowFits, row.key, cut);
    } else {
      assert EncExampleRow(row)[..cut] == first + second[..cut - |first|];
      RowReadsBack(row.key, second[..cut - |first|]);
      StrictPrefixIsTorn(EncRow, DecRow, RowFits, row.value, cut - |first|);
    }
  }

  /** A row cut short is an error that leaves what came before it; a length with too many bytes is a panic. */
  lemma StoppingRows(m: Table, row: ExampleRow, cut: nat, long: RowData, rows: seq<RowData>)
    requires |row.key| < TWO32 && |row.value| < TWO32 && cut < |EncExampleRow(row)|
    requires |long| > 5 && forall i | 0 <= i < 5 :: long[i] >= 0x80
    ensures InsertRows(m, [EncExampleRow(row)[..cut]] + rows) == (m, BadRow)
    ensures InsertRows(m, [long] + rows) == (m, Panicked)
    ensures InsertRows(m, [EncExampleRow(row)] + rows) == InsertRows(m[row.key := row.value], rows)
  {
    hide EncExampleRow, DecVarint;
    CutRow(row, cut);
    SixthByteOverflows(long);
    ExampleRowRoundTrip(row, []);
    assert EncExampleRow(row) + [] == EncExampleRow(row);
    assert ([EncExampleRow(row)] + rows)[1..] == rows;
  }

  /** A list of a foreign table is a panic, after what the lists before it did; deletes run after inserts. */
  lemma StoppingLists(m: Table, id: TableId, rows: seq<RowData>, lists: seq<RowList>, key: Text, value: Text)
    requires id != 0 && |key| < TWO32 && |value| < TWO32
    ensures InsertLists(m, [RowList(id, rows)] + lists) == (m, Panicked)
    ensures DeleteLists(m, [RowList(id, rows)] + lists) == (m, Panicked)
    ensures var row := EncExampleRow(ExampleRow(key, value));
            ReplayRows(m, TxData([RowList(0, [row])], [RowList(0, [key])], [])) == (m[key := value] - {key}, Replayed)
  {
    hide EncExampleRow, DecExampleRow;
    ExampleRowRoundTrip(ExampleRow(key, value), []);
    var row := EncExampleRow(ExampleRow(key, value));
    assert row + [] == row;
    var inserts, deletes := [RowList(0, [row])], [RowList(0, [key])];
    var added: seq<RowData>, removed: seq<Text> := [row], [key];
    assert added[1..] == [] && removed[1..] == [] && inserts[1..] == [] && deletes[1..] == [];
    assert InsertRows(m, added) == InsertRows(m[key := value], []);
    assert InsertLists(m, inserts) == InsertLists(m[key := value], []);
    assert DeleteRows(m[key := value], removed) == DeleteRows(m[key := value] - {key}, []);
    assert DeleteLists(m[key := value], deletes) == DeleteLists(m[key := value] - {key}, []);
  }

  // ---------- Log entries that stop a scan ----------

  /** An entry whose first length has too many bytes ends the scan in a panic. */
  lemma OverlongEntryPanics(bs: seq<byte>)
    requires |bs| > 13 && forall i | 8 <= i < 13 :: bs[i] >= 0x80
    ensures ScanLog(bs) == Scan([], true)
  {
    hide DecVarint;
    SixthByteOverflows(bs[8..]);
  }
}
