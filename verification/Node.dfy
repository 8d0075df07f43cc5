/** The node object: it owns a datastore and a durability layer and keeps the two in step. */
module Node {
  import opened Histories
  import opened Datastore
  import opened NodeSpec
  import opened OmniPaxos
  import opened Replaying
  import opened Store
  import opened Wrappers

  datatype CommitResult = Committed(result: TxResult) | NotLeader

  class Node {
    const nodeId: NodeId
    const variant: Variant
    const datastore: CommittedState
    const omniDurability: OmniPaxosDurability
    var lastAppliedIndex: Option<nat>
    var currentLeader: Option<NodeId>
    var gotPromotedLeader: bool

    /** The durability layer answers for this node when it is asked who leads. */
    ghost predicate Valid()
      reads this, omniDurability
    {
      omniDurability.nodeId == nodeId
    }

    ghost function View(): NodeState
      reads this, datastore, omniDurability
    {
      NodeState(nodeId, datastore.View(), omniDurability.View(), lastAppliedIndex, currentLeader, gotPromotedLeader)
    }

    constructor (nodeId: NodeId, variant: Variant)
      ensures Valid() && fresh(datastore) && fresh(omniDurability) && this.variant == variant
      ensures View() == NodeState(nodeId, EMPTY, Omni([], 0, None), None, None, false)
    {
      this.nodeId, this.variant := nodeId, variant;
      datastore := new CommittedState();
      omniDurability := new OmniPaxosDurability(nodeId);
      lastAppliedIndex, currentLeader, gotPromotedLeader := None, None, false;
    }

    /** Follows the library's view of the leader; panicked reports that the apply inside it did. */
    method UpdateLeader() returns (panicked: bool)
      requires Valid()
      modifies this, datastore
      ensures panicked <==> NodeSpec.UpdateLeader(variant, old(View())).None?
      ensures !panicked ==> NodeSpec.UpdateLeader(variant, old(View())) == Some(View())
      ensures old(omniDurability.leader) == Some(nodeId) && old(currentLeader).Some? && old(currentLeader) != Some(nodeId)
              && HasNews(old(View())) && old(datastore.nextTxOffset) == 0
              ==> panicked && View() == old(View()).(promoted := true)
    {
      hide ApplyReplicated, Rollback;
      panicked := false;
      var current, previous := omniDurability.leader, this.currentLeader;
      if previous.Some? && current.Some? && previous.value != current.value {
        if previous.value == nodeId {
          datastore.RollbackToReplicatedDurabilityOffset();
        } else if current.value == nodeId {
          gotPromotedLeader := true;
          panicked := ApplyReplicatedTxns();
          if panicked {
            return;
          }
        }
        this.currentLeader := current;
      }
      if previous.None? && current.Some? {
        this.currentLeader := current;
      }
    }

    /** The replay loop over decided entries. */
    method ReplayEntries(transactions: seq<Entry>) returns (panicked: bool)
      modifies this`lastAppliedIndex, datastore
      ensures panicked <==> ApplyEntries(variant, old(View()), transactions).None?
      ensures !panicked ==> ApplyEntries(variant, old(View()), transactions) == Some(View())
    {
      hide Replay, Advance;
      for i := 0 to |transactions|
        invariant View() == old(View()).(store := datastore.View(), lastApplied := lastAppliedIndex)
        invariant ApplyEntries(variant, View(), transactions[i..]) == ApplyEntries(variant, old(View()), transactions)
      {
        assert transactions[i..][0] == transactions[i] && transactions[i..][1..] == transactions[i + 1..];
        var e := transactions[i];
        var outcome := datastore.ReplayTransaction(e.txData);
        if outcome.Panicked? {
          return true;
        }
        lastAppliedIndex := Some(e.txOffset);
        datastore.AdvanceReplicatedDurabilityOffset(variant.keepsRest, e.txOffset);
      }
      panicked := false;
    }

    /** The entries to replay: after the last applied one, or from the start as the variant has it. */
    method TransactionsToReplay() returns (transactions: Option<seq<Entry>>)
      ensures transactions == Unapplied(variant, omniDurability.View(), lastAppliedIndex)
    {
      if lastAppliedIndex.None? && variant.startsAtFirst {
        var entries := omniDurability.ReadFrom(0);
        var decided := omniDurability.KeepDecided(entries);
        return Some(decided);
      }
      transactions := omniDurability.IterStartingFromOffset(
        if lastAppliedIndex.Some? then lastAppliedIndex.value else 0);
    }

    method ApplyReplicatedTxns() returns (panicked: bool)
      requires Valid()
      modifies this, datastore
      ensures panicked <==> ApplyReplicated(variant, old(View())).None?
      ensures !panicked ==> ApplyReplicated(variant, old(View())) == Some(View())
      ensures old(omniDurability.leader) == Some(nodeId) && old(gotPromotedLeader)
              && HasNews(old(View())) && old(datastore.nextTxOffset) == 0
              ==> panicked && View() == old(View())
    {
      hide Advance, Unapplied, ApplyEntries, DurableOffset;
      panicked := false;
      var decidedIndex := omniDurability.GetDurableTxOffsetOptional();
      if decidedIndex.None? || (lastAppliedIndex.Some? && decidedIndex.value == lastAppliedIndex.value) {
        return;
      }
      var leading := omniDurability.IsLeader();
      if leading && gotPromotedLeader {
        var cur := datastore.GetCurOffset();
        if cur.None? {
          return true;
        }
        leading := cur.value == decidedIndex.value;
      }
      if leading {
        lastAppliedIndex := decidedIndex;
        datastore.AdvanceReplicatedDurabilityOffset(variant.keepsRest, lastAppliedIndex.value);
      } else {
        var transactions := TransactionsToReplay();
        if transactions.None? {
          return true;
        }
        panicked := ReplayEntries(transactions.value);
        if panicked {
          return;
        }
      }
      gotPromotedLeader := false;
    }

    /** Only a leader commits; the data and its offset go to the log as well. */
    method CommitMutTx(tx: MutTx) returns (r: CommitResult)
      requires Valid() && tx.committedState == datastore
      modifies datastore, omniDurability`log
      ensures old(omniDurability.leader) == Some(nodeId) <==> r.Committed?
      ensures r.NotLeader? ==> View() == old(View())
      ensures r.Committed? ==> View() == CommitOn(old(View()), tx.diff, r.result.txData)
      ensures r.Committed? && RowsFit(tx.diff) ==> IsCommitOf(r.result.txData, tx.diff)
      ensures r.Committed? ==> r.result.txOffset == old(datastore.nextTxOffset)
    {
      hide Commit, TxDataOf;
      var leading := omniDurability.IsLeader();
      if !leading {
        return NotLeader;
      }
      var result := Datastore.CommitMutTx(tx);
      omniDurability.AppendTx(result.txOffset, result.txData);
      r := Committed(result);
    }
  }
}
