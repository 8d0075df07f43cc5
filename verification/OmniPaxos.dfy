/**
 * The consensus library as the durability layer sees it: a log with a decided prefix and a view of who leads.
 * How the library decides is not part of this model.
 */
module OmniPaxos {
  import opened TxData
  import opened Wrappers

  type NodeId = nat

  datatype Entry = Entry(txOffset: nat, txData: TxData)

  /** The log of one node, how many of its entries are known to be decided, and the current leader. */
  datatype Omni = Omni(log: seq<Entry>, decided: nat, leader: Option<NodeId>)

  /** What the library reports for one position. */
  datatype LogRead = Decided(entry: Entry) | Undecided(entry: Entry)

  function Read(o: Omni, i: nat): Option<LogRead> {
    if i >= |o.log| then None
    else if i < o.decided then Some(Decided(o.log[i]))
    else Some(Undecided(o.log[i]))
  }

  /** The offset carried by the last decided entry, not its position. */
  function DurableOffset(o: Omni): Option<nat> {
    match Read(o, if o.decided > 0 then o.decided - 1 else 0)
    case Some(Decided(e)) => Some(e.txOffset)
    case _ => None
  }

  /** What the library reads at positions lo to hi - 1, positions past the log skipped. */
  function ReadsIn(o: Omni, lo: nat, hi: nat): seq<LogRead>
    decreases hi - lo
  {
    if lo >= hi then []
    else (if lo < |o.log| then [Read(o, lo).value] else []) + ReadsIn(o, lo + 1, hi)
  }

  function OnlyDecided(found: seq<LogRead>): seq<Entry> {
    if found == [] then []
    else (if found[0].Decided? then [found[0].entry] else []) + OnlyDecided(found[1..])
  }

  /** The iterator from an offset; None is the panic of reading an empty log while nothing is decided. */
  function IterFrom(o: Omni, offset: nat): Option<seq<Entry>> {
    if o.decided == 0 then
      if offset < |o.log| then Some(OnlyDecided([Read(o, offset).value])) else None
    else Some(OnlyDecided(ReadsIn(o, offset + 1, o.decided + 1)))
  }

  lemma {:induction false} ReadsAreTheSlice(o: Omni, lo: nat)
    requires o.decided <= |o.log|
    ensures OnlyDecided(ReadsIn(o, lo, o.decided + 1)) == if lo <= o.decided then o.log[lo..o.decided] else []
    decreases o.decided + 1 - lo
  {
    if lo < o.decided {
      ReadsAreTheSlice(o, lo + 1);
      var later := ReadsIn(o, lo + 1, o.decided + 1);
      assert ([Read(o, lo).value] + later)[1..] == later;
    } else if lo == o.decided {
      assert ReadsIn(o, lo + 1, o.decided + 1) == [];
      if lo < |o.log| {
        assert ReadsIn(o, lo, o.decided + 1)[1..] == [];
      }
    }
  }

  /**
   * Gap-free iteration: from an applied offset k the iterator yields exactly the decided entries after position k;
   * the undecided entry its inclusive bound may read is filtered out. Two calls as the decided prefix grows
   * from d to e concatenate without a gap or a repeat.
   */
  lemma IterationIsGapFree(o: Omni, p: Omni, k: nat)
    requires k < o.decided <= |o.log| && o.decided <= p.decided <= |p.log|
    requires o.log[..o.decided] == p.log[..o.decided]
    ensures IterFrom(o, k) == Some(o.log[k + 1..o.decided])
    ensures IterFrom(p, o.decided - 1) == Some(p.log[o.decided..p.decided])
    ensures IterFrom(p, k) == Some(IterFrom(o, k).value + IterFrom(p, o.decided - 1).value)
  {
    hide OnlyDecided, ReadsIn;
    ReadsAreTheSlice(o, k + 1);
    ReadsAreTheSlice(p, k + 1);
    ReadsAreTheSlice(p, o.decided);
    assert o.log[k + 1..o.decided] == o.log[..o.decided][k + 1..] == p.log[k + 1..o.decided];
    assert p.log[k + 1..p.decided] == p.log[k + 1..o.decided] + p.log[o.decided..p.decided];
  }

  /**
   * Asked from offset 0 because nothing is applied yet, the iterator skips the first entry: it is complete
   * only when nothing is decided.
   */
  lemma IterationFromZeroSkipsFirst(o: Omni)
    requires o.decided <= |o.log| && o.log != []
    ensures IterFrom(o, 0) == Some(if o.decided == 0 then [] else o.log[1..o.decided])
    ensures IterFrom(o, 0) == Some(o.log[..o.decided]) <==> o.decided == 0
  {
    ReadsAreTheSlice(o, 1);
    if o.decided == 0 {
      var found := [Read(o, 0).value];
      assert found[1..] == [];
      assert OnlyDecided(found) == [];
    }
  }

  /** The durable offset is the one inside the last decided entry, whatever the entry's position. */
  lemma DurableOffsetIsInTheEntry(o: Omni)
    requires o.decided <= |o.log|
    ensures DurableOffset(o) == if o.decided == 0 then None else Some(o.log[o.decided - 1].txOffset)
  {
  }

  /** The iterator from any offset: the decided entries after it, or the panic of a log that is too short. */
  lemma IterationFromAnywhere(o: Omni, k: nat)
    requires o.decided <= |o.log|
    ensures o.decided == 0 ==> IterFrom(o, k) == if k < |o.log| then Some([]) else None
    ensures o.decided > 0 ==> IterFrom(o, k) == Some(if k < o.decided then o.log[k + 1..o.decided] else [])
  {
    ReadsAreTheSlice(o, k + 1);
    if o.decided == 0 && k < |o.log| {
      var found := [Read(o, k).value];
      assert found[1..] == [];
      assert OnlyDecided(found) == [];
    }
  }

  class OmniPaxosDurability {
    const nodeId: NodeId
    var log: seq<Entry>
    var decided: nat
    var leader: Option<NodeId>

    ghost function View(): Omni
      reads this
    {
      Omni(log, decided, leader)
    }

    constructor (nodeId: NodeId)
      ensures this.nodeId == nodeId && View() == Omni([], 0, None)
    {
      this.nodeId, log, decided, leader := nodeId, [], 0, None;
    }

    method IsLeader() returns (r: bool)
      ensures r == (leader == Some(nodeId))
    {
      r := leader == Some(nodeId);
    }

    /** The library's read. */
    method ReadAt(i: nat) returns (r: Option<LogRead>)
      ensures r == Read(View(), i)
    {
      if i < |log| {
        r := Some(if i < decided then Decided(log[i]) else Undecided(log[i]));
      } else {
        r := None;
      }
    }

    method GetDurableTxOffsetOptional() returns (r: Option<nat>)
      ensures r == DurableOffset(View())
      ensures decided == 0 ==> r == None
      ensures 0 < decided <= |log| ==> r == Some(log[decided - 1].txOffset)
    {
      var offset := decided;
      if offset > 0 {
        offset := offset - 1;
      }
      var read := ReadAt(offset);
      match read
      case Some(Decided(entry)) => r := Some(entry.txOffset);
      case _ => r := None;
    }

    /** Reads from position lo to the decided index, both included. */
    method ReadFrom(lo: nat) returns (entries: seq<LogRead>)
      ensures entries == ReadsIn(View(), lo, decided + 1)
    {
      entries := [];
      var i := lo;
      while i < decided + 1
        invariant entries + ReadsIn(View(), i, decided + 1) == ReadsIn(View(), lo, decided + 1)
      {
        var logEntry := ReadAt(i);
        if logEntry.Some? {
          entries := entries + [logEntry.value];
        }
        i := i + 1;
      }
    }

    method KeepDecided(entries: seq<LogRead>) returns (r: seq<Entry>)
      ensures r == OnlyDecided(entries)
    {
      r := [];
      for i := 0 to |entries|
        invariant r + OnlyDecided(entries[i..]) == OnlyDecided(entries)
      {
        assert entries[i..][1..] == entries[i + 1..];
        if entries[i].Decided? {
          r := r + [entries[i].entry];
        }
      }
    }

    method IterStartingFromOffset(offset: nat) returns (r: Option<seq<Entry>>)
      ensures r == IterFrom(View(), offset)
      ensures decided == 0 ==> r == if offset < |log| then Some([]) else None
      ensures 0 < decided <= |log| ==> r == Some(if offset < decided then log[offset + 1..decided] else [])
    {
      if decided <= |log| {
        IterationFromAnywhere(View(), offset);
      }
      var entries;
      if decided == 0 {
        var logEntry := ReadAt(offset);
        if logEntry.None? {
          return None;
        }
        entries := [logEntry.value];
      } else {
        entries := ReadFrom(offset + 1);
      }
      var kept := KeepDecided(entries);
      r := Some(kept);
    }

    method AppendTx(txOffset: nat, txData: TxData)
      modifies this`log
      ensures log == old(log) + [Entry(txOffset, txData)]
    {
      log := log + [Entry(txOffset, txData)];
    }
  }
}
