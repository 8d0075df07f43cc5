/** The append-only log file of the example durability layer: entries, scanning, and recovery after a torn write. */
module LogFile {
  import opened Bytes
  import opened Codec
  import opened Serde
  import opened TxData
  import opened Division
  import opened Wrappers

  type TxOffset = u64

  datatype LogEntry = LogEntry(txOffset: TxOffset, txData: TxData)

  // ---------- Eight little-endian bytes ----------

  function EncLe(n: nat, v: nat): (bs: seq<byte>)
    ensures |bs| == n
  {
    if n == 0 then [] else [v % 0x100] + EncLe(n - 1, v / 0x100)
  }

  function DecLe(bs: seq<byte>): nat {
    if bs == [] then 0 else bs[0] + 0x100 * DecLe(bs[1..])
  }

  function Pow256(n: nat): nat {
    if n == 0 then 1 else 0x100 * Pow256(n - 1)
  }

  lemma {:induction false} LeRoundTrip(n: nat, v: nat)
    requires v < Pow256(n)
    ensures DecLe(EncLe(n, v)) == v
  {
    if n > 0 {
      LeRoundTrip(n - 1, v / 0x100);
      assert EncLe(n, v)[1..] == EncLe(n - 1, v / 0x100);
    }
  }

  lemma {:induction false} LeBounded(bs: seq<byte>)
    ensures DecLe(bs) < Pow256(|bs|)
  {
    if bs != [] {
      LeBounded(bs[1..]);
    }
  }

  lemma EightBytes()
    ensures Pow256(8) == 0x1_0000_0000_0000_0000
  {
    assert Pow256(2) == 0x1_0000;
    assert Pow256(4) == 0x1_0000_0000;
    assert Pow256(6) == 0x1_0000_0000_0000;
  }

  /** Byte i is the i-th base-256 digit from the low end. */
  lemma {:induction false} LeBytes(n: nat, v: nat, i: nat)
    requires i < n
    ensures Pow256(i) > 0 && EncLe(n, v)[i] == v / Pow256(i) % 0x100
    decreases n
  {
    if i > 0 {
      LeBytes(n - 1, v / 0x100, i - 1);
      DivideTwice(v, 0x100, Pow256(i - 1));
    }
  }

  function U64FromLe(bs: seq<byte>): u64
    requires |bs| == 8
  {
    LeBounded(bs);
    EightBytes();
    DecLe(bs)
  }

  // ---------- Entries ----------

  function EncEntry(e: LogEntry): (bs: seq<byte>)
    ensures bs != []
  {
    EncLe(8, e.txOffset) + EncTx(e.txData)
  }

  function DecEntry(bs: seq<byte>): Parse<LogEntry> {
    if |bs| < 8 then Eof
    else
      match DecTx(bs[8..])
      case Eof => Eof
      case Overflow => Overflow
      case Ok(data, rest) => Ok(LogEntry(U64FromLe(bs[..8]), data), rest)
  }

  ghost predicate EntryFits(e: LogEntry) {
    TxFits(e.txData)
  }

  ghost predicate LogFits(es: seq<LogEntry>) {
    forall e | e in es :: EntryFits(e)
  }

  lemma EntryReadsBack(e: LogEntry, rest: seq<byte>)
    ensures ReadsBackAt(EncEntry, DecEntry, EntryFits, e, rest)
  {
    var bs := EncEntry(e) + rest;
    assert bs[..8] == EncLe(8, e.txOffset) && bs[8..] == EncTx(e.txData) + rest;
    EightBytes();
    LeRoundTrip(8, e.txOffset);
    TxReadsBack(e.txData, rest);
  }

  lemma EntryStable(bs: seq<byte>, tail: seq<byte>)
    ensures StableAt(DecEntry, bs, tail)
  {
    if |bs| >= 8 {
      assert (bs + tail)[..8] == bs[..8] && (bs + tail)[8..] == bs[8..] + tail;
      TxStable(bs[8..], tail);
      if DecTx(bs[8..]).Ok? {
        SuffixTransitive(DecTx(bs[8..]).rest, bs[8..], bs);
      }
    }
  }

  /** An entry is its offset, eight bytes with the lowest first, and then its transaction. */
  lemma EntryBytes(e: LogEntry, i: nat)
    ensures |EncEntry(e)| >= 8 && EncEntry(e)[8..] == EncTx(e.txData)
    ensures i < 8 ==> Pow256(i) > 0 && EncEntry(e)[i] == e.txOffset / Pow256(i) % 0x100
  {
    if i < 8 {
      LeBytes(8, e.txOffset, i);
    }
  }

  /** A log entry is read back, with what follows it untouched, exactly when its lengths fit 32 bits. */
  lemma EntryCodec()
    ensures IsCodec(EncEntry, DecEntry, EntryFits)
  {
    forall e, rest ensures ReadsBackAt(EncEntry, DecEntry, EntryFits, e, rest) {
      EntryReadsBack(e, rest);
    }
    forall bs, tail ensures StableAt(DecEntry, bs, tail) {
      EntryStable(bs, tail);
    }
  }

  /** Two logs with the same bytes hold the same entries. */
  lemma LogIsInjective(es: seq<LogEntry>, fs: seq<LogEntry>)
    requires LogFits(es + fs)
    ensures EncAll(EncEntry, es) == EncAll(EncEntry, fs) <==> es == fs
  {
    EntryCodec();
    if EncAll(EncEntry, es) == EncAll(EncEntry, fs) {
      ConcatenationInjective(EncEntry, DecEntry, EntryFits, es, fs);
    }
  }

  // ---------- Scanning ----------

  /** What an iterator over the log yields before it first stops, and whether it stops in a panic. */
  datatype Scan = Scan(entries: seq<LogEntry>, panicked: bool)

  function ScanLog(bs: seq<byte>): Scan
    decreases |bs|
  {
    match DecEntry(bs)
    case Eof => Scan([], false)
    case Overflow => Scan([], true)
    case Ok(e, rest) =>
      DecEntryConsumes(bs);
      var later := ScanLog(rest);
      Scan([e] + later.entries, later.panicked)
  }

  lemma DecEntryConsumes(bs: seq<byte>)
    ensures DecEntry(bs).Ok? ==> |DecEntry(bs).rest| < |bs|
  {
    EntryStable(bs, []);
    if |bs| >= 8 {
      TxStable(bs[8..], []);
    }
  }

  /** How many leading entries lie wholly inside the first `cut` bytes of the log. */
  function WholeEntries(es: seq<LogEntry>, cut: nat): nat {
    if es == [] || cut < |EncEntry(es[0])| then 0 else 1 + WholeEntries(es[1..], cut - |EncEntry(es[0])|)
  }

  lemma EncTakeOneMore(es: seq<LogEntry>, k: nat)
    requires k < |es|
    ensures EncAll(EncEntry, es[..k + 1]) == EncEntry(es[0]) + EncAll(EncEntry, es[1..][..k])
  {
    TakeOneMore(es, k);
    assert es[..k + 1][1..] == es[1..][..k];
  }

  /** The length of the encoding of the first k entries. */
  function LengthOf(es: seq<LogEntry>, k: nat): nat
    requires k <= |es|
  {
    |EncAll(EncEntry, es[..k])|
  }

  lemma LengthOfMore(es: seq<LogEntry>, k: nat)
    requires k < |es|
    ensures LengthOf(es, k + 1) == |EncEntry(es[0])| + LengthOf(es[1..], k)
  {
    EncTakeOneMore(es, k);
  }

  lemma LengthOfNone(es: seq<LogEntry>)
    ensures LengthOf(es, 0) == 0
  {
  }

  /** The count is the largest whose encodings end at or before the cut. */
  lemma {:induction false} WholeEntriesIsLargest(es: seq<LogEntry>, cut: nat)
    ensures var k := WholeEntries(es, cut);
            && k <= |es|
            && LengthOf(es, k) <= cut
            && (k < |es| ==> cut < LengthOf(es, k + 1))
    decreases |es|
  {
    hide EncEntry, LengthOf;
    LengthOfNone(es);
    if es != [] {
      var first := |EncEntry(es[0])|;
      if cut < first {
        LengthOfNone(es[1..]);
        LengthOfMore(es, 0);
      } else {
        var k := WholeEntries(es[1..], cut - first);
        WholeEntriesIsLargest(es[1..], cut - first);
        LengthOfMore(es, k);
        if k + 1 < |es| {
          LengthOfMore(es, k + 1);
        }
      }
    }
  }

  /** A whole entry at the front is yielded, and the scan goes on behind it. */
  lemma ScanEntry(e: LogEntry, rest: seq<byte>)
    requires EntryFits(e)
    ensures ScanLog(EncEntry(e) + rest) == Scan([e] + ScanLog(rest).entries, ScanLog(rest).panicked)
  {
    EntryReadsBack(e, rest);
  }

  /** A torn entry at the front ends the scan quietly. */
  lemma ScanTornEntry(e: LogEntry, cut: nat)
    requires EntryFits(e) && cut < |EncEntry(e)|
    ensures ScanLog(EncEntry(e)[..cut]) == Scan([], false)
  {
    EntryCodec();
    StrictPrefixIsTorn(EncEntry, DecEntry, EntryFits, e, cut);
  }

  lemma ScanNothing()
    ensures ScanLog([]) == Scan([], false)
  {
  }

  lemma TakeOneMore<T>(xs: seq<T>, k: nat)
    requires k < |xs|
    ensures xs[..k + 1] == [xs[0]] + xs[1..][..k]
  {
  }

  lemma CutBehind(first: seq<byte>, later: seq<byte>, cut: nat)
    requires cut <= |first + later|
    ensures (first + later)[..cut] == if cut < |first| then first[..cut] else first + later[..cut - |first|]
  {
  }

  /**
   * Recovery of a torn log: after any cut through the concatenated encodings the scan yields
   * exactly the entries wholly before the cut, in order, and then stops without a panic.
   */
  lemma {:induction false} TornLog(es: seq<LogEntry>, cut: nat)
    requires LogFits(es)
    requires cut <= |EncAll(EncEntry, es)|
    ensures WholeEntries(es, cut) <= |es|
    ensures ScanLog(EncAll(EncEntry, es)[..cut]) == Scan(es[..WholeEntries(es, cut)], false)
    decreases |es|
  {
    hide EncEntry, ScanLog;
    if es == [] {
      ScanNothing();
    } else {
      var first, later := EncEntry(es[0]), EncAll(EncEntry, es[1..]);
      CutBehind(first, later, cut);
      if cut < |first| {
        ScanTornEntry(es[0], cut);
      } else {
        var cut' := cut - |first|;
        var k := WholeEntries(es[1..], cut');
        TornLog(es[1..], cut');
        assert WholeEntries(es, cut) == k + 1;
        calc {
          ScanLog(EncAll(EncEntry, es)[..cut]);
          ScanLog((first + later)[..cut]);
          ScanLog(first + later[..cut']);
          { ScanEntry(es[0], later[..cut']); }
          Scan([es[0]] + es[1..][..k], false);
          { TakeOneMore(es, k); }
          Scan(es[..k + 1], false);
        }
      }
    }
  }

  /** With nothing cut off, the scan of what was appended is what was appended. */
  lemma {:induction false} WholeLog(es: seq<LogEntry>)
    requires LogFits(es)
    ensures ScanLog(EncAll(EncEntry, es)) == Scan(es, false)
    decreases |es|
  {
    hide EncEntry, ScanLog;
    if es == [] {
      ScanNothing();
    } else {
      WholeLog(es[1..]);
      ScanEntry(es[0], EncAll(EncEntry, es[1..]));
    }
  }

  lemma AppendEntry(es: seq<LogEntry>, e: LogEntry)
    requires LogFits(es) && EntryFits(e)
    ensures EncAll(EncEntry, es + [e]) == EncAll(EncEntry, es) + EncEntry(e)
    ensures LogFits(es + [e])
  {
    EncAllAppend(EncEntry, es, [e]);
    assert EncAll(EncEntry, [e]) == EncEntry(e) + EncAll(EncEntry, []);
  }

  // ---------- The durability layer ----------

  method SerializeEntry(writer: Sink, e: LogEntry)
    modifies writer
    ensures writer.bytes == old(writer.bytes) + EncEntry(e)
  {
    writer.WriteAll(EncLe(8, e.txOffset));
    SerializeTxData(writer, e.txData);
  }

  method DeserializeEntry(reader: Source) returns (r: Read<LogEntry>)
    requires reader.Valid()
    modifies reader
    ensures reader.Landed(DecEntry(old(reader.Remaining())), r)
  {
    var bytes := reader.ReadExact(8);
    if !bytes.Got? {
      return UnexpectedEof;
    }
    var txData := DeserializeTxData(reader);
    match txData
    case UnexpectedEof => r := UnexpectedEof;
    case ShiftOverflow => r := ShiftOverflow;
    case Got(data) => r := Got(LogEntry(U64FromLe(bytes.value), data));
  }

  /** The iterator over the log: a file position that each call moves on. */
  class LogIterator {
    const file: Source

    constructor (log: seq<byte>)
      ensures fresh(file) && file.Valid() && file.Remaining() == log
    {
      file := new Source(log);
    }

    /** Got is the iterator's Some, UnexpectedEof its None; after None the file is at its end, so None comes again. */
    method Next() returns (r: Read<LogEntry>)
      requires file.Valid()
      modifies file
      ensures file.Valid()
      ensures r.Got? <==> ScanLog(old(file.Remaining())).entries != []
      ensures r.Got? ==> |file.Remaining()| < |old(file.Remaining())|
      ensures r.Got? ==> var later := ScanLog(file.Remaining());
                         ScanLog(old(file.Remaining())) == Scan([r.value] + later.entries, later.panicked)
      ensures r.UnexpectedEof? ==> !ScanLog(old(file.Remaining())).panicked && file.Remaining() == []
      ensures r.ShiftOverflow? ==> ScanLog(old(file.Remaining())).panicked
    {
      DecEntryConsumes(file.Remaining());
      r := DeserializeEntry(file);
    }

    /** Runs the iterator to its end and keeps the last offset, or 0 if there is none. */
    method Last() returns (r: Read<TxOffset>)
      requires file.Valid()
      modifies file
      ensures ScanLog(old(file.Remaining())).panicked ==> r == ShiftOverflow
      ensures var scan := ScanLog(old(file.Remaining()));
              !scan.panicked ==>
                r == if scan.entries == [] then Got(0) else Got(scan.entries[|scan.entries| - 1].txOffset)
    {
      hide ScanLog;
      var last: TxOffset := 0;
      ghost var whole, seen := ScanLog(file.Remaining()), [];
      while true
        invariant file.Valid()
        invariant whole == Scan(seen + ScanLog(file.Remaining()).entries, ScanLog(file.Remaining()).panicked)
        invariant last == if seen == [] then 0 else seen[|seen| - 1].txOffset
        decreases |file.Remaining()|
      {
        var next := Next();
        match next
        case UnexpectedEof => return Got(last);
        case ShiftOverflow => return ShiftOverflow;
        case Got(e) =>
          last := e.txOffset;
          seen := seen + [e];
      }
    }
  }

  class ExampleDurabilityLayer {
    var logFile: seq<byte>
    var durableOffset: Option<TxOffset>

    /** The file holds exactly the entries es, and a cached offset is that of the last of them. */
    ghost predicate Holds(es: seq<LogEntry>)
      reads this
    {
      && LogFits(es)
      && logFile == EncAll(EncEntry, es)
      && (durableOffset.Some? ==> durableOffset.value == if es == [] then 0 else es[|es| - 1].txOffset)
    }

    constructor ()
      ensures Holds([]) && durableOffset.None?
    {
      logFile := [];
      durableOffset := None;
    }

    /** One turn of the writer task: the entry is on disk before its offset becomes the durable one. */
    method FileWrite(e: LogEntry, ghost es: seq<LogEntry>)
      requires Holds(es) && EntryFits(e)
      modifies this
      ensures Holds(es + [e]) && durableOffset == Some(e.txOffset)
    {
      var src := new Sink();
      SerializeEntry(src, e);
      assert src.bytes == EncEntry(e);
      AppendEntry(es, e);
      logFile := logFile + src.bytes;
      durableOffset := Some(e.txOffset);
    }

    /** The cached offset, or the offset of the last entry that a scan of the whole log finds. */
    method GetDurableTxOffset() returns (r: Read<TxOffset>)
      modifies this
      ensures logFile == old(logFile)
      ensures old(durableOffset).Some? ==> r == Got(old(durableOffset).value) && durableOffset == old(durableOffset)
      ensures old(durableOffset).None? && !ScanLog(logFile).panicked
              ==> r.Got? && durableOffset == Some(r.value)
      ensures var scan := ScanLog(logFile);
              old(durableOffset).None? && !scan.panicked
              ==> r == if scan.entries == [] then Got(0) else Got(scan.entries[|scan.entries| - 1].txOffset)
      ensures old(durableOffset).None? && ScanLog(logFile).panicked ==> r.ShiftOverflow? && durableOffset.None?
    {
      if durableOffset.Some? {
        return Got(durableOffset.value);
      }
      var iter := new LogIterator(logFile);
      r := iter.Last();
      if r.Got? {
        durableOffset := Some(r.value);
      }
    }
  }

  /** Restarting on a torn file, the scan fallback answers with the last entry wholly written, or 0. */
  method RecoverDurableOffset(es: seq<LogEntry>, cut: nat, layer: ExampleDurabilityLayer) returns (r: Read<TxOffset>)
    requires LogFits(es)
    requires cut <= |EncAll(EncEntry, es)|
    requires layer.logFile == EncAll(EncEntry, es)[..cut] && layer.durableOffset.None?
    modifies layer
    ensures WholeEntries(es, cut) == 0 ==> r == Got(0)
    ensures WholeEntries(es, cut) > 0 ==> WholeEntries(es, cut) <= |es| && r == Got(es[WholeEntries(es, cut) - 1].txOffset)
  {
    TornLog(es, cut);
    r := layer.GetDurableTxOffset();
  }
}
