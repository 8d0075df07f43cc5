/**
 * What the guards of leader views keep out: nodes whose own pending transactions are replicated in place of the decided
 * ones, and runs of enabled steps in which a single unguarded change of view leads there.
 */
module Hazards {
  import opened Histories
  import opened Cluster
  import opened NodeApply
  import opened NodeGuards
  import opened NodeInvariant
  import opened NodeSpec
  import opened OmniPaxos
  import opened Refinement
  import opened LossyReplay
  import opened Replaying
  import opened Runs
  import opened Scenario
  import opened Store
  import opened TxData
  import opened Varint
  import opened Wrappers

  // ---------- Any node that keeps its own pending transactions ----------

  /** What a replay puts into the table of a node that holds live: its own transactions, and the log's only after them. */
  function OwnInstead(v: Variant, live: seq<Tx>, log: seq<Entry>, j: nat, d: nat): seq<Tx>
    requires j < d <= |log| && j < |live|
  {
    if v.keepsRest then Grown(live, log, d)[..d] else Kept(live, log, j, d)
  }

  /** A node that replays over pending transactions replicates those, whatever its log says in their place. */
  lemma ReplayReplicatesOwn(v: Variant, n: NodeState, live: seq<Tx>)
    requires LogOk(n.omni.log) && n.omni.decided <= |n.omni.log| && Represents(n.store, live, Applied(n))
    requires HasNews(n) && !UnwrapsNothing(n) && !LeaderAdvances(n)
    requires FirstAsked(v, n) < |live| && FirstAsked(v, n) < n.omni.decided
    ensures var d, r := n.omni.decided, ApplyReplicated(v, n);
            && r.Some? && r.value == n.(store := r.value.store, lastApplied := Some(d - 1), promoted := false)
            && r.value.store.state == Fold(OwnInstead(v, live, n.omni.log, FirstAsked(v, n), d))
  {
    hide Concretize, Advance, Effects, Unapplied, ApplyEntries, Fold, Hist, Grown, Kept;
    var j, d := FirstAsked(v, n), n.omni.decided;
    SliceIsRead(v, n);
    if v.keepsRest {
      ApplyEntriesFollow(v, n, j, d, live, Applied(n));
      ConcreteShape(Grown(live, n.omni.log, d), d);
    } else {
      ReplayOverPending(v, n, j, d, live, Applied(n));
    }
  }

  /** A leader that advances replicates its own transactions as well, as many of them as there are entries. */
  lemma AdvanceReplicatesOwn(v: Variant, n: NodeState, live: seq<Tx>)
    requires LogOk(n.omni.log) && Applied(n) < n.omni.decided <= |n.omni.log| && Represents(n.store, live, Applied(n))
    requires HasNews(n) && !UnwrapsNothing(n) && LeaderAdvances(n)
    ensures var d, r := n.omni.decided, ApplyReplicated(v, n);
            && r.Some? && r.value == n.(store := r.value.store, lastApplied := Some(d - 1), promoted := false)
            && r.value.store.state == Fold(live[..Min(d, |live|)])
  {
    hide Concretize, Advance, Fold;
    var d := n.omni.decided;
    if d <= |live| {
      AdvanceState(v.keepsRest, live, Applied(n), d - 1);
    } else {
      AdvancePastTheEnd(v.keepsRest, live, Applied(n), d - 1);
      ConcreteShape(live, |live|);
      assert live[..|live|] == live;
    }
  }

  /**
   * A node deposed with any transactions pending, made leader again before it noticed: its next apply replicates those
   * transactions in place of the decided ones and claims every decided entry.
   */
  lemma ReturnReplicatesOwn(v: Variant, decided: seq<Entry>, n: NodeState, live: seq<Tx>)
    requires NodeOk(decided, n) && Deposed(n) && HasNews(n) && Represents(n.store, live, Applied(n))
    requires var returned := n.(omni := n.omni.(leader := Some(n.id)));
             && !UnwrapsNothing(returned)
             && (LeaderAdvances(returned) || (FirstAsked(v, n) < |live| && FirstAsked(v, n) < n.omni.decided))
    ensures var returned := n.(omni := n.omni.(leader := Some(n.id)));
            var d, r := n.omni.decided, ApplyReplicated(v, returned);
            && HasNews(returned) && r.Some? && Applied(r.value) == d
            && r.value.store.state
               == Fold(if LeaderAdvances(returned) then live[..Min(d, |live|)]
                       else OwnInstead(v, live, n.omni.log, FirstAsked(v, n), d))
  {
    hide Concretize, Effects, LogOk, ApplyReplicated, OwnInstead, Fold, HoldsAHistory;
    var returned := n.(omni := n.omni.(leader := Some(n.id)));
    NewsMeansUnapplied(decided, n);
    ConcreteShape(live, Applied(n));
    if LeaderAdvances(returned) {
      AdvanceReplicatesOwn(v, returned, live);
    } else {
      ReplayReplicatesOwn(v, returned, live);
    }
  }

  /**
   * A leader that has not noticed that it leads, with any transactions committed, when the view moves on and its log is
   * replaced: noticing rolls nothing back, and the next apply replicates its own transactions in place of the decided ones.
   */
  lemma LeavingReplicatesOwn(v: Variant, decided: seq<Entry>, n: NodeState, leader: NodeId, log: seq<Entry>, d: nat)
    requires NodeOk(decided, n) && IsLeader(n) && n.currentLeader != Some(n.id) && leader != n.id
    requires LogOk(log) && Applied(n) < d <= |log| && FirstAsked(v, n) < n.store.next && FirstAsked(v, n) < d
    ensures var left := n.(omni := Omni(log, d, Some(leader)));
            var noticed := left.(currentLeader := Some(leader));
            var r, live := ApplyReplicated(v, noticed), Effects(n.omni.log[..n.store.next]);
            && UpdateLeader(v, left) == Some(noticed) && |live| == n.store.next
            && r.Some? && Applied(r.value) == d
            && r.value.store.state == Fold(OwnInstead(v, live, log, FirstAsked(v, n), d))
  {
    hide Concretize, Effects, ApplyReplicated, OwnInstead, Fold, HoldsAHistory, Rollback, Readable;
    var left := n.(omni := Omni(log, d, Some(leader)));
    EffectsLength(n.omni.log[..n.store.next]);
    ReplayReplicatesOwn(v, left.(currentLeader := Some(leader)), Effects(n.omni.log[..n.store.next]));
  }

  // ---------- A view that returns before the node looked ----------

  lemma SingleDiffs(tx: Tx, k: Text)
    ensures Hist([tx], 0, k) == if k in tx then [(0, tx[k])] else []
  {
    assert Hist([tx][..0], 0, k) == [];
  }

  /** A single pending transaction is logged exactly when the log has the same one. */
  lemma OneIsLogged(txA: Tx, dataA: TxData, txB: Tx, dataB: TxData)
    requires IsCommitOf(dataA, txA) && IsCommitOf(dataB, txB)
    ensures PendingIsLogged(DeposedNode(txA, dataB)) <==> txA == txB
  {
    hide IsCommitOf, Concretize, Commit, Hist, Effects;
    var n := DeposedNode(txA, dataB);
    OneEntry(dataB, txB);
    OnePending(txA);
    ConcreteShape([txA], 0);
    forall k ensures HistoryOf(n.store, k) == Hist([txB], 0, k) <==> (k in txA <==> k in txB) && (k in txA ==> txA[k] == txB[k]) {
      HistoryOfConcrete([txA], 0, k);
      SingleDiffs(txA, k);
      SingleDiffs(txB, k);
    }
  }

  /** Leading again, node 1 takes the decided offset for the end of its own pending diffs. */
  lemma StaleLeaderAdvances(v: Variant, txA: Tx, dataB: TxData)
    ensures var n := DeposedNode(txA, dataB);
            var returned := n.(omni := n.omni.(leader := Some(1)));
            && !Deposed(returned) && ApplyGuard(v, returned)
            && ApplyReplicated(v, returned)
               == Some(returned.(lastApplied := Some(0), store := Advance(v.keepsRest, Commit(EMPTY, txA), 0)))
  {
    hide Advance, Commit, Effect;
    CommitShape(EMPTY, txA);
  }

  lemma OnlyPendingAdvances(keepsRest: bool, tx: Tx)
    ensures Advance(keepsRest, Commit(EMPTY, tx), 0).state == Fold([tx])
  {
    hide Concretize, Advance, Commit, Fold;
    OnePending(tx);
    AdvancePastTheEnd(keepsRest, [tx], 0, 0);
    ConcreteShape([tx], 1);
    assert [tx][..1] == [tx];
  }

  /**
   * At the end of the run in which node 1 loses its leadership, the view may come back to it only if the decided
   * transaction is its own. Otherwise its next apply, whose own guard holds, replicates its transaction in place of that one.
   */
  lemma NoticedTooLate(v: Variant, txA: Tx, dataA: TxData, txB: Tx, dataB: TxData)
    requires IsCommitOf(dataA, txA) && IsCommitOf(dataB, txB)
    ensures var c := Lost(txA, txB, dataB);
            var c' := After(v, c, ChangeView(1, 1));
            && (Enabled(v, c, ChangeView(1, 1)) <==> txA == txB)
            && Enabled(v, c', ApplyDecided(1))
            && (Unsafe(After(v, c', ApplyDecided(1)), 1) <==> Fold([txA]) != Fold([txB]))
  {
    hide IsCommitOf, Effects, Advance, Commit, ApplyReplicated, ApplyGuard, PendingIsLogged, Fold;
    OneIsLogged(txA, dataA, txB, dataB);
    StaleLeaderAdvances(v, txA, dataB);
    OnlyPendingAdvances(v.keepsRest, txA);
    OneEntry(dataB, txB);
  }

  /** With two different writes that run is unsafe, whichever form the code has. */
  lemma NoticedTooLateIsUnsafe(v: Variant, x: Text, y: Text)
    requires x != y && |x| < TWO32 && |y| < TWO32
    ensures var c := Lost(Writing(x), Writing(y), WrittenData(y));
            var c' := After(v, c, ChangeView(1, 1));
            && Reachable(v, c) && !Enabled(v, c, ChangeView(1, 1))
            && Enabled(v, c', ApplyDecided(1)) && Unsafe(After(v, c', ApplyDecided(1)), 1)
  {
    hide IsRun, EndOf, IsCommitOf, Lost, LostLeadership, After, Enabled, Unsafe, Fold, WrittenData;
    WritingIsCommitted(x);
    WritingIsCommitted(y);
    LostLeadershipIsARun(v, Writing(x), WrittenData(x), Writing(y), WrittenData(y));
    NoticedTooLate(v, Writing(x), WrittenData(x), Writing(y), WrittenData(y));
    assert Writing(x)[KEY] != Writing(y)[KEY];
    FirstWritesDiffer(x, y);
  }

  // ---------- A leadership that is gone before the node noticed it ----------

  /** Node 1 follows node 2, leads without having noticed, and has committed transactions; so has node 2. */
  function BothWrote(esA: seq<Entry>, txsA: seq<Tx>, esB: seq<Entry>, txsB: seq<Tx>): Cluster {
    Pair(Writer(1, esA, txsA, Some(2), false), Writer(2, esB, txsB, Some(2), false), [])
  }

  lemma LeadsUnnoticed(v: Variant, c: Cluster)
    requires 1 in c.nodes && c.nodes[1] == Listener(1, [], 2, Some(2))
    ensures var c' := With(c, Writer(1, [], [], Some(2), false));
            Enabled(v, c, ChangeView(1, 1)) && After(v, c, ChangeView(1, 1)) == c'
  {
    hide Concretize, PendingIsLogged;
  }

  lemma BothWriteReached(v: Variant, esA: seq<Entry>, txsA: seq<Tx>, esB: seq<Entry>, txsB: seq<Tx>)
    requires Logged(esA, txsA) && Logged(esB, txsB)
    ensures Reachable(v, BothWrote(esA, txsA, esB, txsB))
  {
    hide IsCommitOf, Enabled, After, LeadsTo, Writer, FreshNode;
    var start := Initial({1, 2});
    var n2 := Writer(2, esB, txsB, Some(2), false);
    LeadsToItself(v, start);
    FreshWrites(v, start, start, 2, esB, txsB);
    var c := Pair(FreshNode(1), n2, []);
    assert With(start, n2) == c by {
      WriterId(2, esB, txsB, Some(2), false);
    }
    ListenerReached(v, start, c, 1, 2);
    var c1 := With(c, Listener(1, [], 2, Some(2)));
    LeadsUnnoticed(v, c1);
    var c2 := With(c1, Writer(1, [], [], Some(2), false));
    LeadsOn(v, start, c1, ChangeView(1, 1), c2);
    WriterWrites(v, start, c1, 1, esA, txsA, Some(2), false);
    WriterId(1, esA, txsA, Some(2), false);
    assert With(c1, Writer(1, esA, txsA, Some(2), false)) == BothWrote(esA, txsA, esB, txsB);
  }

  lemma WriterId(i: NodeId, es: seq<Entry>, txs: seq<Tx>, noticed: Option<NodeId>, promoted: bool)
    ensures Writer(i, es, txs, noticed, promoted).id == i
  {
  }

  /** Node 1 after the view has left it, under each log and decided count it then has. */
  function Left(txsA: seq<Tx>, log: seq<Entry>, d: nat): NodeState {
    NodeState(1, Concretize(txsA, 0), Omni(log, d, Some(2)), None, Some(2), false)
  }

  lemma ViewLeaves(v: Variant, esA: seq<Entry>, txsA: seq<Tx>, n2: NodeState)
    requires txsA != []
    ensures var c, c' := Pair(Writer(1, esA, txsA, Some(2), false), n2, []), Pair(Left(txsA, esA, 0), n2, []);
            !Enabled(v, c, ChangeView(1, 2)) && After(v, c, ChangeView(1, 2)) == c'
  {
    hide Concretize, PendingIsLogged;
    ConcreteShape(txsA, 0);
  }

  lemma NothingToNotice(v: Variant, c: Cluster, i: NodeId)
    requires i in c.nodes && c.nodes[i].currentLeader == c.nodes[i].omni.leader && !IsLeader(c.nodes[i])
    ensures Enabled(v, c, NoticeLeader(i)) && After(v, c, NoticeLeader(i)) == c
  {
    hide ApplyReplicated, ApplyGuard;
    assert c.nodes[i := c.nodes[i]] == c.nodes;
  }

  /** Node 1 with node 2's log, of which d entries are decided. */
  function LeftBehind(txsA: seq<Tx>, esB: seq<Entry>, txsB: seq<Tx>, d: nat): Cluster
    requires d <= |esB|
  {
    Pair(Left(txsA, esB, d), Writer(2, esB, txsB, Some(2), false), esB[..d])
  }

  /** Replaced log, decisions and leader check, all of them enabled, once the view is gone. */
  lemma LeftBehindReached(v: Variant, esA: seq<Entry>, txsA: seq<Tx>, esB: seq<Entry>, txsB: seq<Tx>, d: nat)
    requires d <= |esB|
    ensures var n2 := Writer(2, esB, txsB, Some(2), false);
            LeadsTo(v, Pair(Left(txsA, esA, 0), n2, []), LeftBehind(txsA, esB, txsB, d))
  {
    hide Enabled, After, LeadsTo, Concretize;
    var n2 := Writer(2, esB, txsB, Some(2), false);
    var c := Pair(Left(txsA, esA, 0), n2, []);
    LeadsToItself(v, c);
    TakesLog(v, c, 1, 2);
    var c1 := Pair(Left(txsA, esB, 0), n2, []);
    LeadsOn(v, c, c, Sync(1, esB), c1);
    assert Learned(c1, 1, esB, 0) == c1 by {
      assert esB[..0] == [];
    }
    LearnsMore(v, c, c1, 2, 1, esB, 0, d);
    assert Learned(c1, 1, esB, d) == LeftBehind(txsA, esB, txsB, d);
    NothingToNotice(v, LeftBehind(txsA, esB, txsB, d), 1);
    LeadsOn(v, c, LeftBehind(txsA, esB, txsB, d), NoticeLeader(1), LeftBehind(txsA, esB, txsB, d));
  }

  /** The position of the first entry that a node with nothing applied asks for. */
  function FirstEver(v: Variant): nat {
    if v.startsAtFirst then 0 else 1
  }

  lemma LeftBehindApplies(v: Variant, txsA: seq<Tx>, esB: seq<Entry>, txsB: seq<Tx>, d: nat)
    requires Logged(esB, txsB) && FirstEver(v) < |txsA| && FirstEver(v) < d <= |esB|
    ensures var n, j := Left(txsA, esB, d), FirstEver(v);
            && !Deposed(n) && (v.keepsRest || |txsA| == d == j + 1 ==> ApplyGuard(v, n))
            && ApplyReplicated(v, n).Some? && Applied(ApplyReplicated(v, n).value) == d
            && ApplyReplicated(v, n).value.store.state == Fold(OwnInstead(v, txsA, esB, j, d))
  {
    hide Concretize, Effects, IsCommitOf, ApplyReplicated, OwnInstead, Fold;
    var n := Left(txsA, esB, d);
    ConcreteShape(txsA, 0);
    LoggedEffects(esB, txsB);
    ReplayReplicatesOwn(v, n, txsA);
    if v.keepsRest || |txsA| == d == FirstEver(v) + 1 {
      LeftBehindMayApply(v, txsA, esB, d);
    }
  }

  lemma LeftBehindMayApply(v: Variant, txsA: seq<Tx>, esB: seq<Entry>, d: nat)
    requires FirstEver(v) < |txsA| && FirstEver(v) < d <= |esB| && (v.keepsRest || |txsA| == d == FirstEver(v) + 1)
    ensures ApplyGuard(v, Left(txsA, esB, d))
  {
    hide Concretize, Effect, Fold;
    ConcreteShape(txsA, 0);
  }

  /**
   * The view leaves node 1 before it noticed that it led: there is nothing to roll back for it, and every later step meets
   * its guard, in the intended code as well. It ends with its own transactions replicated in place of the decided ones.
   */
  lemma NeverNoticed(v: Variant, esA: seq<Entry>, txsA: seq<Tx>, esB: seq<Entry>, txsB: seq<Tx>, d: nat)
    requires Logged(esA, txsA) && Logged(esB, txsB) && FirstEver(v) < |txsA| && FirstEver(v) < d <= |esB|
    ensures var c, c2 := BothWrote(esA, txsA, esB, txsB), LeftBehind(txsA, esB, txsB, d);
            && Reachable(v, c) && !Enabled(v, c, ChangeView(1, 2))
            && LeadsTo(v, After(v, c, ChangeView(1, 2)), c2)
            && (v.keepsRest || |txsA| == d == FirstEver(v) + 1 ==> Enabled(v, c2, ApplyDecided(1)))
            && (Unsafe(After(v, c2, ApplyDecided(1)), 1)
                <==> Fold(OwnInstead(v, txsA, esB, FirstEver(v), d)) != Fold(txsB[..d]))
  {
    hide IsCommitOf, LeadsTo, Effects, Concretize, ApplyReplicated, ApplyGuard, PendingIsLogged, Fold, OwnInstead;
    BothWriteReached(v, esA, txsA, esB, txsB);
    ViewLeaves(v, esA, txsA, Writer(2, esB, txsB, Some(2), false));
    LeftBehindReached(v, esA, txsA, esB, txsB, d);
    LeftBehindApplies(v, txsA, esB, txsB, d);
    LoggedEffects(esB, txsB);
    assert esB[..d][..d] == esB[..d];
  }

  function Copies(x: Text, n: nat): seq<Text> {
    seq(n, i requires 0 <= i < n => x)
  }

  /** Two different writes make it unsafe in every form of the code, by steps that are all enabled but for the view. */
  lemma NeverNoticedIsUnsafe(v: Variant, x: Text, y: Text)
    requires x != y && |x| < TWO32 && |y| < TWO32
    ensures var d := FirstEver(v) + 1;
            var xs, ys := Copies(x, d), Copies(y, d);
            var c := BothWrote(WrittenEntries(xs), Writes(xs), WrittenEntries(ys), Writes(ys));
            var c2 := LeftBehind(Writes(xs), WrittenEntries(ys), Writes(ys), d);
            && Reachable(v, c) && LeadsTo(v, After(v, c, ChangeView(1, 2)), c2)
            && Enabled(v, c2, ApplyDecided(1)) && Unsafe(After(v, c2, ApplyDecided(1)), 1)
  {
    hide LeadsTo, IsCommitOf, After, Enabled, Unsafe, Fold, WrittenData, Writing, Effect;
    var d := FirstEver(v) + 1;
    var xs, ys := Copies(x, d), Copies(y, d);
    WritesAreLogged(xs);
    WritesAreLogged(ys);
    NeverNoticed(v, WrittenEntries(xs), Writes(xs), WrittenEntries(ys), Writes(ys), d);
    assert OwnInstead(v, Writes(xs), WrittenEntries(ys), FirstEver(v), d) == Writes(xs)[..d];
    LastWriteShows(xs, d);
    LastWriteShows(ys, d);
  }
}
