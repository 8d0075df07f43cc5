/** The serializers and deserializers of transaction data as they run on a writer and on a reader. */
module Serde {
  import opened Bytes
  import opened Codec
  import opened TxData
  import opened Varint

  lemma Flatten(a: seq<byte>, b: seq<byte>, c: seq<byte>, d: seq<byte>)
    ensures a + b + c + d == a + (b + (c + d)) == a + (b + c + d)
  {
  }

  method SerializeRowData(writer: Sink, row: RowData)
    modifies writer
    ensures writer.bytes == old(writer.bytes) + EncRow(row)
  {
    WriteVarint(writer, |row| % TWO32);
    writer.WriteAll(row);
  }

  method DeserializeRowData(reader: Source) returns (r: Read<RowData>)
    requires reader.Valid()
    modifies reader
    ensures reader.Landed(DecRow(old(reader.Remaining())), r)
  {
    var len := ReadVarint(reader);
    match len
    case UnexpectedEof => r := UnexpectedEof;
    case ShiftOverflow => r := ShiftOverflow;
    case Got(n) => r := reader.ReadExact(n);
  }

  method SerializeRows(writer: Sink, rows: seq<RowData>)
    modifies writer
    ensures writer.bytes == old(writer.bytes) + EncAll(EncRow, rows)
  {
    for i := 0 to |rows|
      invariant writer.bytes + EncAll(EncRow, rows[i..]) == old(writer.bytes) + EncAll(EncRow, rows)
    {
      WriteOneMore(EncRow, rows, i, writer.bytes);
      SerializeRowData(writer, rows[i]);
    }
    assert rows[|rows|..] == [];
  }

  /** Serves the insert list and the delete list, which are written alike. */
  method SerializeRowList(writer: Sink, list: RowList)
    modifies writer
    ensures writer.bytes == old(writer.bytes) + EncRowList(list)
  {
    WriteVarint(writer, list.tableId);
    WriteVarint(writer, |list.rows| % TWO32);
    SerializeRows(writer, list.rows);
    Flatten(old(writer.bytes), EncTableId(list.tableId), EncVarint(|list.rows| % TWO32), EncAll(EncRow, list.rows));
  }

  method DeserializeRows(reader: Source, n: nat) returns (r: Read<seq<RowData>>)
    requires reader.Valid()
    modifies reader
    ensures reader.Landed(DecN(DecRow, n, old(reader.Remaining())), r)
  {
    var rows: seq<RowData> := [];
    ghost var whole := DecN(DecRow, n, reader.Remaining());
    PrependEnds(whole, [], []);
    for i := 0 to n
      invariant reader.Valid()
      invariant whole == Prepend(rows, DecN(DecRow, n - i, reader.Remaining()))
    {
      ReadOneMore(DecRow, n - i, reader.Remaining(), rows);
      var row := DeserializeRowData(reader);
      if !row.Got? {
        return if row.UnexpectedEof? then UnexpectedEof else ShiftOverflow;
      }
      rows := rows + [row.value];
    }
    PrependEnds(whole, rows, reader.Remaining());
    r := Got(rows);
  }

  method DeserializeRowList(reader: Source) returns (r: Read<RowList>)
    requires reader.Valid()
    modifies reader
    ensures reader.Landed(DecRowList(old(reader.Remaining())), r)
  {
    var tableId := ReadVarint(reader);
    if !tableId.Got? {
      return if tableId.UnexpectedEof? then UnexpectedEof else ShiftOverflow;
    }
    var numRows := ReadVarint(reader);
    if !numRows.Got? {
      return if numRows.UnexpectedEof? then UnexpectedEof else ShiftOverflow;
    }
    var rows := DeserializeRows(reader, numRows.value);
    if !rows.Got? {
      return if rows.UnexpectedEof? then UnexpectedEof else ShiftOverflow;
    }
    r := Got(RowList(tableId.value, rows.value));
  }

  method SerializeRowLists(writer: Sink, lists: seq<RowList>)
    modifies writer
    ensures writer.bytes == old(writer.bytes) + EncAll(EncRowList, lists)
  {
    for i := 0 to |lists|
      invariant writer.bytes + EncAll(EncRowList, lists[i..]) == old(writer.bytes) + EncAll(EncRowList, lists)
    {
      WriteOneMore(EncRowList, lists, i, writer.bytes);
      SerializeRowList(writer, lists[i]);
    }
    assert lists[|lists|..] == [];
  }

  method SerializeLists(writer: Sink, lists: seq<RowList>)
    modifies writer
    ensures writer.bytes == old(writer.bytes) + EncList(EncRowList, lists)
  {
    WriteVarint(writer, |lists| % TWO32);
    SerializeRowLists(writer, lists);
  }

  method DeserializeRowLists(reader: Source, n: nat) returns (r: Read<seq<RowList>>)
    requires reader.Valid()
    modifies reader
    ensures reader.Landed(DecN(DecRowList, n, old(reader.Remaining())), r)
  {
    hide DecRowList;
    var lists: seq<RowList> := [];
    ghost var whole := DecN(DecRowList, n, reader.Remaining());
    PrependEnds(whole, [], []);
    for i := 0 to n
      invariant reader.Valid()
      invariant whole == Prepend(lists, DecN(DecRowList, n - i, reader.Remaining()))
    {
      ReadOneMore(DecRowList, n - i, reader.Remaining(), lists);
      var list := DeserializeRowList(reader);
      if !list.Got? {
        return if list.UnexpectedEof? then UnexpectedEof else ShiftOverflow;
      }
      lists := lists + [list.value];
    }
    PrependEnds(whole, lists, reader.Remaining());
    r := Got(lists);
  }

  method DeserializeLists(reader: Source) returns (r: Read<seq<RowList>>)
    requires reader.Valid()
    modifies reader
    ensures reader.Landed(DecList(DecRowList, old(reader.Remaining())), r)
  {
    var num := ReadVarint(reader);
    match num
    case UnexpectedEof => r := UnexpectedEof;
    case ShiftOverflow => r := ShiftOverflow;
    case Got(n) => r := DeserializeRowLists(reader, n);
  }

  method SerializeTableIds(writer: Sink, truncs: seq<TableId>)
    modifies writer
    ensures writer.bytes == old(writer.bytes) + EncAll(EncTableId, truncs)
  {
    for i := 0 to |truncs|
      invariant writer.bytes + EncAll(EncTableId, truncs[i..]) == old(writer.bytes) + EncAll(EncTableId, truncs)
    {
      WriteOneMore(EncTableId, truncs, i, writer.bytes);
      WriteVarint(writer, truncs[i]);
    }
    assert truncs[|truncs|..] == [];
  }

  method SerializeTruncs(writer: Sink, truncs: seq<TableId>)
    modifies writer
    ensures writer.bytes == old(writer.bytes) + EncList(EncTableId, truncs)
  {
    WriteVarint(writer, |truncs| % TWO32);
    SerializeTableIds(writer, truncs);
  }

  method DeserializeTableIds(reader: Source, n: nat) returns (r: Read<seq<TableId>>)
    requires reader.Valid()
    modifies reader
    ensures reader.Landed(DecN(DecTableId, n, old(reader.Remaining())), r)
  {
    var truncs: seq<TableId> := [];
    ghost var whole := DecN(DecTableId, n, reader.Remaining());
    PrependEnds(whole, [], []);
    for i := 0 to n
      invariant reader.Valid()
      invariant whole == Prepend(truncs, DecN(DecTableId, n - i, reader.Remaining()))
    {
      ReadOneMore(DecTableId, n - i, reader.Remaining(), truncs);
      var trunc := ReadVarint(reader);
      if !trunc.Got? {
        return if trunc.UnexpectedEof? then UnexpectedEof else ShiftOverflow;
      }
      truncs := truncs + [trunc.value];
    }
    PrependEnds(whole, truncs, reader.Remaining());
    r := Got(truncs);
  }

  method DeserializeTruncs(reader: Source) returns (r: Read<seq<TableId>>)
    requires reader.Valid()
    modifies reader
    ensures reader.Landed(DecList(DecTableId, old(reader.Remaining())), r)
  {
    var num := ReadVarint(reader);
    match num
    case UnexpectedEof => r := UnexpectedEof;
    case ShiftOverflow => r := ShiftOverflow;
    case Got(n) => r := DeserializeTableIds(reader, n);
  }

  method SerializeTxData(writer: Sink, tx: TxData)
    modifies writer
    ensures writer.bytes == old(writer.bytes) + EncTx(tx)
  {
    SerializeLists(writer, tx.inserts);
    SerializeLists(writer, tx.deletes);
    SerializeTruncs(writer, tx.truncs);
  }

  method DeserializeTxData(reader: Source) returns (r: Read<TxData>)
    requires reader.Valid()
    modifies reader
    ensures reader.Landed(DecTx(old(reader.Remaining())), r)
  {
    var inserts := DeserializeLists(reader);
    if !inserts.Got? {
      return if inserts.UnexpectedEof? then UnexpectedEof else ShiftOverflow;
    }
    var deletes := DeserializeLists(reader);
    if !deletes.Got? {
      return if deletes.UnexpectedEof? then UnexpectedEof else ShiftOverflow;
    }
    var truncs := DeserializeTruncs(reader);
    if !truncs.Got? {
      return if truncs.UnexpectedEof? then UnexpectedEof else ShiftOverflow;
    }
    r := Got(TxData(inserts.value, deletes.value, truncs.value));
  }
}
