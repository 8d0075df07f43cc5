/**
 * A run in which a leader is deposed with a pending transaction while another one is decided in its place,
 * and what the node's own steps make of it.
 */
module Scenario {
  import opened Histories
  import opened Cluster
  import opened NodeApply
  import opened NodeGuards
  import opened NodeInvariant
  import opened NodeSpec
  import opened OmniPaxos
  import opened Refinement
  import opened Store
  import opened TxData
  import opened Wrappers

  function Lead(i: NodeId, tx: Tx, data: TxData): seq<Step> {
    [ChangeView(i, i), NoticeLeader(i), ClientCommit(i, tx, data)]
  }

  function Depose(dataB: TxData): seq<Step> {
    [Decide(2), ChangeView(1, 2), Sync(1, [Entry(0, dataB)]), Learn(1)]
  }

  /** Nodes 1 and 2 each lead once; node 1 commits txA, node 2 commits txB, and txB is decided. */
  function LostLeadership(txA: Tx, dataA: TxData, txB: Tx, dataB: TxData): seq<Step> {
    Lead(1, txA, dataA) + (Lead(2, txB, dataB) + Depose(dataB))
  }

  function Pair(n1: NodeState, n2: NodeState, decided: seq<Entry>): Cluster {
    Cluster(map[1 := n1, 2 := n2], decided)
  }

  /** One more enabled step in front of a run. */
  lemma RunFrom(v: Variant, c: Cluster, step: Step, c': Cluster, steps: seq<Step>, end: Cluster)
    requires Enabled(v, c, step) && After(v, c, step) == c' && IsRun(v, c', steps) && EndOf(v, c', steps) == end
    ensures IsRun(v, c, [step] + steps) && EndOf(v, c, [step] + steps) == end
  {
    assert ([step] + steps)[1..] == steps;
  }

  /** A new leader that starts from nothing and commits once. */
  function Led(i: NodeId): NodeState {
    NodeState(i, EMPTY, Omni([], 0, Some(i)), None, Some(i), false)
  }

  function Wrote(i: NodeId, tx: Tx, data: TxData): NodeState {
    NodeState(i, Commit(EMPTY, tx), Omni([Entry(0, data)], 0, Some(i)), None, Some(i), false)
  }

  /** Node 1 at the end: still its own leader, with txA pending, over a log that says txB. */
  function DeposedNode(txA: Tx, dataB: TxData): NodeState {
    NodeState(1, Commit(EMPTY, txA), Omni([Entry(0, dataB)], 1, Some(2)), None, Some(1), false)
  }

  lemma LeadAndWrite(v: Variant, i: NodeId, tx: Tx, data: TxData, c: Cluster)
    requires i in c.nodes && c.nodes[i] == FreshNode(i) && IsCommitOf(data, tx)
    ensures var viewed := FreshNode(i).(omni := Omni([], 0, Some(i)));
            var c1 := c.(nodes := c.nodes[i := viewed]);
            var c2 := c.(nodes := c.nodes[i := Led(i)]);
            var c3 := c.(nodes := c.nodes[i := Wrote(i, tx, data)]);
            && Enabled(v, c, ChangeView(i, i)) && After(v, c, ChangeView(i, i)) == c1
            && Enabled(v, c1, NoticeLeader(i)) && After(v, c1, NoticeLeader(i)) == c2
            && Enabled(v, c2, ClientCommit(i, tx, data)) && After(v, c2, ClientCommit(i, tx, data)) == c3
  {
    hide IsCommitOf, ApplyReplicated, ApplyGuard;
    assert [] + [Entry(0, data)] == [Entry(0, data)];
  }

  /** Node 1 while it is deposed: first its log is its own, then the decided one. */
  function Seen(n1: NodeState, log: seq<Entry>, decided: nat): NodeState {
    n1.(omni := Omni(log, decided, Some(2)))
  }

  lemma DecideStep(v: Variant, n1: NodeState, txB: Tx, dataB: TxData)
    ensures var n2, e := Wrote(2, txB, dataB), Entry(0, dataB);
            Enabled(v, Pair(n1, n2, []), Decide(2)) && After(v, Pair(n1, n2, []), Decide(2)) == Pair(n1, n2, [e])
  {
    hide Commit;
    assert [] + [Entry(0, dataB)] == [Entry(0, dataB)];
  }

  lemma DeposeStep(v: Variant, txA: Tx, dataA: TxData, n2: NodeState, e: Entry)
    ensures var n1 := Wrote(1, txA, dataA);
            && Enabled(v, Pair(n1, n2, [e]), ChangeView(1, 2))
            && After(v, Pair(n1, n2, [e]), ChangeView(1, 2)) == Pair(Seen(n1, n1.omni.log, 0), n2, [e])
  {
    hide Commit;
  }

  lemma LearnSteps(v: Variant, txA: Tx, dataA: TxData, n2: NodeState, e: Entry)
    ensures var n1 := Wrote(1, txA, dataA);
            var c, c' := Pair(Seen(n1, n1.omni.log, 0), n2, [e]), Pair(Seen(n1, [e], 0), n2, [e]);
            && Enabled(v, c, Sync(1, [e])) && After(v, c, Sync(1, [e])) == c'
            && Enabled(v, c', Learn(1)) && After(v, c', Learn(1)) == Pair(Seen(n1, [e], 1), n2, [e])
  {
    hide Commit, PendingIsLogged;
  }

  lemma {:induction false} RunAppend(v: Variant, c: Cluster, steps: seq<Step>, more: seq<Step>)
    requires IsRun(v, c, steps) && IsRun(v, EndOf(v, c, steps), more)
    ensures IsRun(v, c, steps + more) && EndOf(v, c, steps + more) == EndOf(v, EndOf(v, c, steps), more)
    decreases |steps|
  {
    hide After, UpdateGuard, ApplyGuard, SyncGuard, ViewGuard;
    if steps == [] {
      assert steps + more == more;
    } else {
      assert (steps + more)[1..] == steps[1..] + more;
      RunAppend(v, After(v, c, steps[0]), steps[1..], more);
    }
  }

  lemma LeadIsARun(v: Variant, i: NodeId, tx: Tx, data: TxData, c: Cluster)
    requires i in c.nodes && c.nodes[i] == FreshNode(i) && IsCommitOf(data, tx)
    ensures IsRun(v, c, Lead(i, tx, data))
    ensures EndOf(v, c, Lead(i, tx, data)) == c.(nodes := c.nodes[i := Wrote(i, tx, data)])
  {
    hide Enabled, After, IsCommitOf, FreshNode, Wrote, Led;
    LeadAndWrite(v, i, tx, data, c);
    var c1, c2 := After(v, c, ChangeView(i, i)), c.(nodes := c.nodes[i := Led(i)]);
    var c3 := c.(nodes := c.nodes[i := Wrote(i, tx, data)]);
    RunFrom(v, c2, ClientCommit(i, tx, data), c3, [], c3);
    RunFrom(v, c1, NoticeLeader(i), c2, [ClientCommit(i, tx, data)] + [], c3);
    RunFrom(v, c, ChangeView(i, i), c1, [NoticeLeader(i)] + ([ClientCommit(i, tx, data)] + []), c3);
    assert Lead(i, tx, data) == [ChangeView(i, i)] + ([NoticeLeader(i)] + ([ClientCommit(i, tx, data)] + []));
  }

  lemma DeposeIsARun(v: Variant, txA: Tx, dataA: TxData, txB: Tx, dataB: TxData)
    ensures IsRun(v, Pair(Wrote(1, txA, dataA), Wrote(2, txB, dataB), []), Depose(dataB))
    ensures EndOf(v, Pair(Wrote(1, txA, dataA), Wrote(2, txB, dataB), []), Depose(dataB)) == Lost(txA, txB, dataB)
  {
    hide Enabled, After, Commit;
    var e, end := Entry(0, dataB), Lost(txA, txB, dataB);
    var n1, n2 := Wrote(1, txA, dataA), Wrote(2, txB, dataB);
    var c0, c1 := Pair(n1, n2, []), Pair(n1, n2, [e]);
    DecideStep(v, n1, txB, dataB);
    DeposeStep(v, txA, dataA, n2, e);
    LearnSteps(v, txA, dataA, n2, e);
    assert Seen(n1, [e], 1) == DeposedNode(txA, dataB);
    var c2 := After(v, c1, ChangeView(1, 2));
    var c3 := After(v, c2, Sync(1, [e]));
    RunFrom(v, c3, Learn(1), end, [], end);
    RunFrom(v, c2, Sync(1, [e]), c3, [Learn(1)] + [], end);
    RunFrom(v, c1, ChangeView(1, 2), c2, [Sync(1, [e])] + ([Learn(1)] + []), end);
    RunFrom(v, c0, Decide(2), c1, [ChangeView(1, 2)] + ([Sync(1, [e])] + ([Learn(1)] + [])), end);
    assert Depose(dataB) == [Decide(2)] + ([ChangeView(1, 2)] + ([Sync(1, [e])] + ([Learn(1)] + [])));
  }

  /** The cluster at the end of the run. */
  function Lost(txA: Tx, txB: Tx, dataB: TxData): Cluster {
    Pair(DeposedNode(txA, dataB), Wrote(2, txB, dataB), [Entry(0, dataB)])
  }

  lemma StartsAreFresh(txA: Tx, dataA: TxData, txB: Tx, dataB: TxData)
    ensures var c := Initial({1, 2});
            var c' := c.(nodes := c.nodes[1 := Wrote(1, txA, dataA)]);
            && c.nodes[1] == FreshNode(1) && c'.nodes[2] == FreshNode(2)
            && c'.(nodes := c'.nodes[2 := Wrote(2, txB, dataB)]) == Pair(Wrote(1, txA, dataA), Wrote(2, txB, dataB), [])
  {
  }

  /** Every step of that run is enabled, so the guards admit leader changes, conflicts and depositions. */
  lemma LostLeadershipIsARun(v: Variant, txA: Tx, dataA: TxData, txB: Tx, dataB: TxData)
    requires IsCommitOf(dataA, txA) && IsCommitOf(dataB, txB)
    ensures IsRun(v, Initial({1, 2}), LostLeadership(txA, dataA, txB, dataB))
    ensures EndOf(v, Initial({1, 2}), LostLeadership(txA, dataA, txB, dataB)) == Lost(txA, txB, dataB)
  {
    hide Lead, Depose, IsRun, EndOf, IsCommitOf, FreshNode, Wrote, Lost;
    var c := Initial({1, 2});
    StartsAreFresh(txA, dataA, txB, dataB);
    LeadIsARun(v, 1, txA, dataA, c);
    var c' := c.(nodes := c.nodes[1 := Wrote(1, txA, dataA)]);
    LeadIsARun(v, 2, txB, dataB, c');
    DeposeIsARun(v, txA, dataA, txB, dataB);
    RunAppend(v, c', Lead(2, txB, dataB), Depose(dataB));
    RunAppend(v, c, Lead(1, txA, dataA), Lead(2, txB, dataB) + Depose(dataB));
  }

  lemma OneEntry(data: TxData, tx: Tx)
    requires IsCommitOf(data, tx)
    ensures Effects([Entry(0, data)]) == [tx] && LogOk([Entry(0, data)])
    ensures [Entry(0, data)][..1] == [Entry(0, data)] && [Entry(0, data)][..0] == []
  {
    CommitOfCarriesTx(data, tx);
  }

  lemma OnePending(tx: Tx)
    ensures Commit(EMPTY, tx) == Concretize([tx], 0)
  {
    assert [tx][..0] == [];
    CommitAllRefines([tx]);
    assert CommitAll(EMPTY, [tx]) == Commit(CommitAll(EMPTY, []), tx);
  }

  lemma LostIsOk(v: Variant, txA: Tx, dataA: TxData, txB: Tx, dataB: TxData)
    requires IsCommitOf(dataA, txA) && IsCommitOf(dataB, txB)
    ensures NodeOk([Entry(0, dataB)], DeposedNode(txA, dataB))
  {
    hide NodeOk, IsRun, EndOf, IsCommitOf, LostLeadership, Wrote;
    LostLeadershipIsARun(v, txA, dataA, txB, dataB);
    InitialIsOk({1, 2});
    RunKeepsCluster(v, Initial({1, 2}), LostLeadership(txA, dataA, txB, dataB));
    MemberOk(Lost(txA, txB, dataB), 1);
  }

  /**
   * In that run the deposed node, once it notices, drops txA; it replays txB exactly if the reading starts at the first
   * entry.
   */
  lemma NoticedInTime(v: Variant, txA: Tx, dataA: TxData, txB: Tx, dataB: TxData)
    requires IsCommitOf(dataA, txA) && IsCommitOf(dataB, txB)
    ensures var n := UpdateLeader(v, Lost(txA, txB, dataB).nodes[1]);
            && n.Some? && n.value.store == EMPTY && ApplyReplicated(v, n.value).Some?
            && (ApplyReplicated(v, n.value).value.store == Concretize([txB], 1) <==> v.startsAtFirst)
  {
    hide IsCommitOf, UpdateLeader, ApplyReplicated, NodeOk, Concretize, Effects, Commit, ReplayAll;
    LostIsOk(v, txA, dataA, txB, dataB);
    OneEntry(dataB, txB);
    DeposedRollsBack(v, DeposedNode(txA, dataB));
    CommitShape(EMPTY, txA);
    DeposedLeaderConverges(v, [Entry(0, dataB)], DeposedNode(txA, dataB));
  }

  lemma MemberOk(c: Cluster, i: NodeId)
    requires ClusterOk(c) && i in c.nodes
    ensures NodeOk(c.decided, c.nodes[i])
  {
  }
}
