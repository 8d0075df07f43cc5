/** The data of one transaction and its wire format, as values. */
module TxData {
  import opened Bytes
  import opened Varint
  import opened Codec

  type RowData = seq<byte>
  type TableId = u32

  /** The insert list and the delete list have the same two fields. */
  datatype RowList = RowList(tableId: TableId, rows: seq<RowData>)

  datatype TxData = TxData(inserts: seq<RowList>, deletes: seq<RowList>, truncs: seq<TableId>)

  // ---------- Rows ----------

  function EncRow(row: RowData): (bs: seq<byte>)
    ensures bs != []
  {
    EncVarint(|row| % TWO32) + row
  }

  function DecRow(bs: seq<byte>): Parse<RowData> {
    match DecVarint(bs)
    case Eof => Eof
    case Overflow => Overflow
    case Ok(n, rest) => if |rest| < n then Eof else Ok(rest[..n], rest[n..])
  }

  ghost predicate RowFits(row: RowData) {
    |row| < TWO32
  }

  lemma RowReadsBack(row: RowData, rest: seq<byte>)
    ensures ReadsBackAt(EncRow, DecRow, RowFits, row, rest)
  {
    var n := |row| % TWO32;
    assert EncRow(row) + rest == EncVarint(n) + (row + rest);
    VarintRoundTrip(n, row + rest);
    assert DecRow(EncRow(row) + rest) == Ok((row + rest)[..n], (row + rest)[n..]);
  }

  lemma TakeBeforeTail(rest: seq<byte>, tail: seq<byte>, n: nat)
    requires n <= |rest|
    ensures (rest + tail)[..n] == rest[..n] && (rest + tail)[n..] == rest[n..] + tail
    ensures IsSuffix(rest[n..], rest)
  {
  }

  lemma RowStable(bs: seq<byte>, tail: seq<byte>)
    ensures StableAt(DecRow, bs, tail)
  {
    VarintStable(bs, tail, 0, 0);
    var p := DecVarint(bs);
    if p.Ok? && p.value <= |p.rest| {
      TakeBeforeTail(p.rest, tail, p.value);
      SuffixTransitive(p.rest[p.value..], p.rest, bs);
    }
  }

  lemma RowCodec()
    ensures IsCodec(EncRow, DecRow, RowFits)
  {
    forall row, rest ensures ReadsBackAt(EncRow, DecRow, RowFits, row, rest) {
      RowReadsBack(row, rest);
    }
    forall bs, tail ensures StableAt(DecRow, bs, tail) {
      RowStable(bs, tail);
    }
  }

  // ---------- Table ids ----------

  function EncTableId(id: TableId): seq<byte> {
    EncVarint(id)
  }

  function DecTableId(bs: seq<byte>): Parse<TableId> {
    DecVarint(bs)
  }

  ghost predicate TableIdFits(id: TableId) {
    true
  }

  lemma TableIdCodec()
    ensures IsCodec(EncTableId, DecTableId, TableIdFits)
  {
    forall id, rest ensures ReadsBackAt(EncTableId, DecTableId, TableIdFits, id, rest) {
      VarintRoundTrip(id, rest);
    }
    forall bs, tail ensures StableAt(DecTableId, bs, tail) {
      VarintStable(bs, tail, 0, 0);
    }
  }

  // ---------- Insert lists and delete lists ----------

  function EncRowList(list: RowList): (bs: seq<byte>)
    ensures bs != []
  {
    EncTableId(list.tableId) + EncList(EncRow, list.rows)
  }

  function DecRowList(bs: seq<byte>): Parse<RowList> {
    match DecTableId(bs)
    case Eof => Eof
    case Overflow => Overflow
    case Ok(id, rest) =>
      match DecList(DecRow, rest)
      case Eof => Eof
      case Overflow => Overflow
      case Ok(rows, rest') => Ok(RowList(id, rows), rest')
  }

  ghost predicate RowListFits(list: RowList) {
    ListFits(RowFits, list.rows)
  }

  lemma RowListCodec()
    ensures IsCodec(EncRowList, DecRowList, RowListFits)
  {
    RowCodec();
    TableIdCodec();
    forall list, rest ensures ReadsBackAt(EncRowList, DecRowList, RowListFits, list, rest) {
      var later := EncList(EncRow, list.rows) + rest;
      assert EncRowList(list) + rest == EncTableId(list.tableId) + later;
      assert ReadsBackAt(EncTableId, DecTableId, TableIdFits, list.tableId, later);
      ListReadsBack(EncRow, DecRow, RowFits, list.rows, rest);
    }
    forall bs, tail ensures StableAt(DecRowList, bs, tail) {
      assert StableAt(DecTableId, bs, tail);
      if DecTableId(bs).Ok? {
        var rest := DecTableId(bs).rest;
        ListStable(DecRow, rest, tail);
        if DecList(DecRow, rest).Ok? {
          SuffixTransitive(DecList(DecRow, rest).rest, rest, bs);
        }
      }
    }
  }

  // ---------- Transactions ----------

  function EncTx(tx: TxData): (bs: seq<byte>)
    ensures bs != []
  {
    EncList(EncRowList, tx.inserts) + EncList(EncRowList, tx.deletes) + EncList(EncTableId, tx.truncs)
  }

  function DecTx(bs: seq<byte>): Parse<TxData> {
    match DecList(DecRowList, bs)
    case Eof => Eof
    case Overflow => Overflow
    case Ok(inserts, rest) =>
      match DecList(DecRowList, rest)
      case Eof => Eof
      case Overflow => Overflow
      case Ok(deletes, rest') =>
        match DecList(DecTableId, rest')
        case Eof => Eof
        case Overflow => Overflow
        case Ok(truncs, rest'') => Ok(TxData(inserts, deletes, truncs), rest'')
  }

  /** Every list has fewer than 2^32 elements and every row fewer than 2^32 bytes. */
  ghost predicate TxFits(tx: TxData) {
    && ListFits(RowListFits, tx.inserts)
    && ListFits(RowListFits, tx.deletes)
    && |tx.truncs| < TWO32
  }

  lemma TxReadsBack(tx: TxData, rest: seq<byte>)
    ensures ReadsBackAt(EncTx, DecTx, TxFits, tx, rest)
  {
    RowListCodec();
    TableIdCodec();
    var l3 := EncList(EncTableId, tx.truncs) + rest;
    var l2 := EncList(EncRowList, tx.deletes) + l3;
    assert EncTx(tx) + rest == EncList(EncRowList, tx.inserts) + l2;
    ListReadsBack(EncRowList, DecRowList, RowListFits, tx.inserts, l2);
    ListReadsBack(EncRowList, DecRowList, RowListFits, tx.deletes, l3);
    ListReadsBack(EncTableId, DecTableId, TableIdFits, tx.truncs, rest);
  }

  lemma TxStable(bs: seq<byte>, tail: seq<byte>)
    ensures StableAt(DecTx, bs, tail)
  {
    RowListCodec();
    TableIdCodec();
    ListStable(DecRowList, bs, tail);
    if DecList(DecRowList, bs).Ok? {
      var rest := DecList(DecRowList, bs).rest;
      ListStable(DecRowList, rest, tail);
      if DecList(DecRowList, rest).Ok? {
        var rest' := DecList(DecRowList, rest).rest;
        SuffixTransitive(rest', rest, bs);
        ListStable(DecTableId, rest', tail);
        if DecList(DecTableId, rest').Ok? {
          SuffixTransitive(DecList(DecTableId, rest').rest, rest', bs);
        }
      }
    }
  }

  /** A transaction is read back, with what follows it untouched, exactly when its lengths fit 32 bits. */
  lemma TxCodec()
    ensures IsCodec(EncTx, DecTx, TxFits)
  {
    forall tx, rest ensures ReadsBackAt(EncTx, DecTx, TxFits, tx, rest) {
      TxReadsBack(tx, rest);
    }
    forall bs, tail ensures StableAt(DecTx, bs, tail) {
      TxStable(bs, tail);
    }
  }

  /** No strict prefix of an encoded transaction decodes, and no two transactions have the same encoding. */
  lemma TxIsPrefixFree(tx: TxData, other: TxData, cut: nat)
    requires TxFits(tx) && TxFits(other)
    ensures cut < |EncTx(tx)| ==> DecTx(EncTx(tx)[..cut]) == Eof
    ensures EncTx(tx) <= EncTx(other) ==> tx == other
  {
    hide EncTx, DecTx, TxFits;
    TxCodec();
    if cut < |EncTx(tx)| {
      StrictPrefixIsTorn(EncTx, DecTx, TxFits, tx, cut);
    }
    if EncTx(tx) <= EncTx(other) {
      var rest := EncTx(other)[|EncTx(tx)|..];
      assert EncTx(other) + [] == EncTx(tx) + rest;
      TxReadsBack(other, []);
      TxReadsBack(tx, rest);
    }
  }
}
