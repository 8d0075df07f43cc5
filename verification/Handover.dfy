/** The surroundings of the intended code admit runs in which leadership changes hands, is lost, and is won back. */
module Handover {
  import opened Histories
  import opened Cluster
  import opened Environment
  import opened NodeApply
  import opened NodeGuards
  import opened NodeInvariant
  import opened NodeSpec
  import opened OmniPaxos
  import opened Refinement
  import opened Scenario
  import opened Store
  import opened TxData
  import opened Wrappers

  /** Some run that the surroundings allow goes from one to the other. */
  ghost predicate SurroundedTo(c: Cluster, c': Cluster) {
    exists steps :: IsSurroundedRun(c, steps) && EndOf(INTENDED, c, steps) == c'
  }

  lemma {:induction false} SurroundedAppend(c: Cluster, steps: seq<Step>, step: Step)
    requires IsSurroundedRun(c, steps) && Surrounded(EndOf(INTENDED, c, steps), step)
    ensures IsSurroundedRun(c, steps + [step])
    ensures EndOf(INTENDED, c, steps + [step]) == After(INTENDED, EndOf(INTENDED, c, steps), step)
    decreases |steps|
  {
    hide After, Surrounded;
    if steps == [] {
      assert steps + [step] == [step] && [step][1..] == [];
      assert IsSurroundedRun(After(INTENDED, c, step), []);
    } else {
      assert (steps + [step])[1..] == steps[1..] + [step];
      SurroundedAppend(After(INTENDED, c, steps[0]), steps[1..], step);
    }
  }

  lemma On(start: Cluster, c: Cluster, step: Step, c': Cluster)
    requires SurroundedTo(start, c) && Surrounded(c, step) && After(INTENDED, c, step) == c'
    ensures SurroundedTo(start, c')
  {
    hide After, Surrounded;
    var steps :| IsSurroundedRun(start, steps) && EndOf(INTENDED, start, steps) == c;
    SurroundedAppend(start, steps, step);
  }

  // ---------- Up to the deposition ----------

  lemma LeadIsSurrounded(i: NodeId, tx: Tx, data: TxData, start: Cluster, c: Cluster)
    requires SurroundedTo(start, c) && i in c.nodes && c.nodes[i] == FreshNode(i) && IsCommitOf(data, tx)
    ensures SurroundedTo(start, c.(nodes := c.nodes[i := Wrote(i, tx, data)]))
  {
    hide After, IsCommitOf, Wrote, Led, SurroundedTo, ViewGuard, PendingIsLogged;
    LeadAndWrite(INTENDED, i, tx, data, c);
    var c1, c2 := After(INTENDED, c, ChangeView(i, i)), c.(nodes := c.nodes[i := Led(i)]);
    On(start, c, ChangeView(i, i), c1);
    On(start, c1, NoticeLeader(i), c2);
    On(start, c2, ClientCommit(i, tx, data), c.(nodes := c.nodes[i := Wrote(i, tx, data)]));
  }

  lemma DeposeIsSurrounded(start: Cluster, txA: Tx, dataA: TxData, txB: Tx, dataB: TxData)
    requires SurroundedTo(start, Pair(Wrote(1, txA, dataA), Wrote(2, txB, dataB), []))
    ensures SurroundedTo(start, Lost(txA, txB, dataB))
  {
    hide After, SurroundedTo, Commit, SyncGuard, ViewGuard, Sourced;
    var e, n1, n2 := Entry(0, dataB), Wrote(1, txA, dataA), Wrote(2, txB, dataB);
    DecideStep(INTENDED, n1, txB, dataB);
    DeposeStep(INTENDED, txA, dataA, n2, e);
    LearnSteps(INTENDED, txA, dataA, n2, e);
    var c1 := Pair(n1, n2, [e]);
    var c2, c3 := Pair(Seen(n1, n1.omni.log, 0), n2, [e]), Pair(Seen(n1, [e], 0), n2, [e]);
    On(start, Pair(n1, n2, []), Decide(2), c1);
    On(start, c1, ChangeView(1, 2), c2);
    On(start, c2, Sync(1, [e]), c3);
    On(start, c3, Learn(1), Lost(txA, txB, dataB));
  }

  lemma LostIsSurrounded(txA: Tx, dataA: TxData, txB: Tx, dataB: TxData)
    requires IsCommitOf(dataA, txA) && IsCommitOf(dataB, txB)
    ensures SurroundedTo(Initial({1, 2}), Lost(txA, txB, dataB))
  {
    hide IsCommitOf, FreshNode, Wrote, Lost, SurroundedTo;
    var start := Initial({1, 2});
    assert SurroundedTo(start, start) by {
      NoSteps(start);
    }
    StartsAreFresh(txA, dataA, txB, dataB);
    LeadIsSurrounded(1, txA, dataA, start, start);
    LeadIsSurrounded(2, txB, dataB, start, start.(nodes := start.nodes[1 := Wrote(1, txA, dataA)]));
    DeposeIsSurrounded(start, txA, dataA, txB, dataB);
  }

  lemma NoSteps(c: Cluster)
    ensures SurroundedTo(c, c)
  {
    assert IsSurroundedRun(c, []) && EndOf(INTENDED, c, []) == c;
  }

  // ---------- Back into the lead ----------

  /** Node 1 from its rollback on: what it holds, the first r of it replicated, under the given log and views. */
  function Again(live: seq<Tx>, r: nat, log: seq<Entry>, d: nat, leader: NodeId, noticed: NodeId, promoted: bool): NodeState
    requires r <= |live|
  {
    NodeState(1, Concretize(live, r), Omni(log, d, Some(leader)), if r == 0 then None else Some(r - 1), Some(noticed), promoted)
  }

  lemma NodeRollsBack(txA: Tx, dataB: TxData)
    ensures UpdateLeader(INTENDED, DeposedNode(txA, dataB)) == Some(Again([], 0, [Entry(0, dataB)], 1, 2, 2, false))
  {
    hide Concretize, Commit, ApplyReplicated;
    EmptyIsConcrete();
    CommitShape(EMPTY, txA);
    DeposedRollsBack(INTENDED, DeposedNode(txA, dataB));
  }

  lemma RollsBack(txA: Tx, txB: Tx, dataB: TxData)
    ensures var c, n2, e := Lost(txA, txB, dataB), Wrote(2, txB, dataB), Entry(0, dataB);
            After(INTENDED, c, NoticeLeader(1)) == Pair(Again([], 0, [e], 1, 2, 2, false), n2, [e])
  {
    hide Concretize, Commit, UpdateLeader;
    NodeRollsBack(txA, dataB);
  }

  lemma CatchesUp(txA: Tx, dataA: TxData, txB: Tx, dataB: TxData)
    requires IsCommitOf(dataA, txA) && IsCommitOf(dataB, txB)
    ensures var n2, e := Wrote(2, txB, dataB), Entry(0, dataB);
            var c, c' := Pair(Again([], 0, [e], 1, 2, 2, false), n2, [e]), Pair(Again([txB], 1, [e], 1, 2, 2, false), n2, [e]);
            After(INTENDED, c, ApplyDecided(1)) == c'
  {
    hide IsCommitOf, Concretize, Effects, NodeOk, ApplyReplicated, ApplyGuard, Commit, HasNews, UpdateLeader;
    var n, e := Again([], 0, [Entry(0, dataB)], 1, 2, 2, false), Entry(0, dataB);
    LostIsOk(INTENDED, txA, dataA, txB, dataB);
    UpdateLeaderKeepsNode(INTENDED, [e], DeposedNode(txA, dataB));
    NodeRollsBack(txA, dataB);
    OneEntry(dataB, txB);
    ConcreteShape([], 0);
    FollowerGuard(INTENDED, [e], n);
    NewsMeansUnapplied([e], n);
    ApplyByReplay(INTENDED, [e], n);
  }

  lemma LeadsAgain(txB: Tx, dataB: TxData, n2: NodeState)
    ensures var e := Entry(0, dataB);
            var c, c1 := Pair(Again([txB], 1, [e], 1, 2, 2, false), n2, [e]), Pair(Again([txB], 1, [e], 1, 1, 2, false), n2, [e]);
            Surrounded(c, ChangeView(1, 1)) && After(INTENDED, c, ChangeView(1, 1)) == c1
  {
    hide Concretize, PendingIsLogged;
  }

  lemma NodeIsPromoted(txB: Tx, dataB: TxData)
    ensures var e := Entry(0, dataB);
            UpdateLeader(INTENDED, Again([txB], 1, [e], 1, 1, 2, false)) == Some(Again([txB], 1, [e], 1, 1, 1, true))
  {
    hide Concretize;
  }

  lemma NoticesAgain(txB: Tx, dataB: TxData, n2: NodeState)
    ensures var e := Entry(0, dataB);
            var c, c1 := Pair(Again([txB], 1, [e], 1, 1, 2, false), n2, [e]), Pair(Again([txB], 1, [e], 1, 1, 1, true), n2, [e]);
            Surrounded(c, NoticeLeader(1)) && After(INTENDED, c, NoticeLeader(1)) == c1
  {
    hide Concretize, UpdateLeader;
    NodeIsPromoted(txB, dataB);
  }

  lemma WritesAgain(txB: Tx, dataB: TxData, txC: Tx, dataC: TxData, n2: NodeState)
    requires IsCommitOf(dataC, txC)
    ensures var e, log := Entry(0, dataB), [Entry(0, dataB), Entry(1, dataC)];
            var c, c1 := Pair(Again([txB], 1, [e], 1, 1, 1, true), n2, [e]), Pair(Again([txB, txC], 1, log, 1, 1, 1, true), n2, [e]);
            Surrounded(c, ClientCommit(1, txC, dataC)) && After(INTENDED, c, ClientCommit(1, txC, dataC)) == c1
  {
    hide Concretize, Commit, IsCommitOf;
    ConcreteShape([txB], 1);
    CommitRefines([txB], 1, txC);
    assert [txB] + [txC] == [txB, txC] && [Entry(0, dataB)] + [Entry(1, dataC)] == [Entry(0, dataB), Entry(1, dataC)];
  }

  lemma DecidesAgain(n1: NodeState, n2: NodeState, e: Entry, f: Entry)
    requires n1.omni.log == [e, f]
    ensures var c, c1 := Pair(n1, n2, [e]), Pair(n1, n2, [e, f]);
            Surrounded(c, Decide(1)) && After(INTENDED, c, Decide(1)) == c1
  {
    assert [e] + [f] == [e, f];
  }

  lemma LearnsAgain(txB: Tx, txC: Tx, e: Entry, f: Entry, n2: NodeState)
    ensures var log := [e, f];
            var c, c1 := Pair(Again([txB, txC], 1, log, 1, 1, 1, true), n2, log), Pair(Again([txB, txC], 1, log, 2, 1, 1, true), n2, log);
            Surrounded(c, Learn(1)) && After(INTENDED, c, Learn(1)) == c1
  {
    hide Concretize;
  }

  lemma NodeApplies(txB: Tx, txC: Tx, e: Entry, dataC: TxData)
    ensures var log := [e, Entry(1, dataC)];
            ApplyReplicated(INTENDED, Again([txB, txC], 1, log, 2, 1, 1, true)) == Some(Again([txB, txC], 2, log, 2, 1, 1, false))
  {
    hide Concretize, Advance;
    ConcreteShape([txB, txC], 1);
    AdvanceRefines([txB, txC], 1, 1);
  }

  lemma AppliesAgain(txB: Tx, txC: Tx, e: Entry, dataC: TxData, n2: NodeState)
    ensures var log := [e, Entry(1, dataC)];
            var c, c1 := Pair(Again([txB, txC], 1, log, 2, 1, 1, true), n2, log), Pair(Again([txB, txC], 2, log, 2, 1, 1, false), n2, log);
            Surrounded(c, ApplyDecided(1)) && After(INTENDED, c, ApplyDecided(1)) == c1
  {
    hide Concretize, ApplyReplicated;
    NodeApplies(txB, txC, e, dataC);
  }

  /**
   * One such run: node 1 leads and writes, loses the leadership to node 2, rolls back and catches up, is made leader
   * again, writes and replicates. At its end it holds exactly the two decided transactions.
   */
  lemma HandoverIsSurrounded(txA: Tx, dataA: TxData, txB: Tx, dataB: TxData, txC: Tx, dataC: TxData)
    requires IsCommitOf(dataA, txA) && IsCommitOf(dataB, txB) && IsCommitOf(dataC, txC)
    ensures var log := [Entry(0, dataB), Entry(1, dataC)];
            SurroundedTo(Initial({1, 2}), Pair(Again([txB, txC], 2, log, 2, 1, 1, false), Wrote(2, txB, dataB), log))
  {
    hide IsCommitOf, SurroundedTo, After, Concretize, Lost, Initial, ViewGuard, Wrote;
    var start, n2, e, f := Initial({1, 2}), Wrote(2, txB, dataB), Entry(0, dataB), Entry(1, dataC);
    LostIsSurrounded(txA, dataA, txB, dataB);
    RollsBack(txA, txB, dataB);
    CatchesUp(txA, dataA, txB, dataB);
    LeadsAgain(txB, dataB, n2);
    NoticesAgain(txB, dataB, n2);
    WritesAgain(txB, dataB, txC, dataC, n2);
    LearnsAgain(txB, txC, e, f, n2);
    AppliesAgain(txB, txC, e, dataC, n2);
    MayNotice(txA, txB, dataB);
    var c1, c2 := Pair(Again([], 0, [e], 1, 2, 2, false), n2, [e]), Pair(Again([txB], 1, [e], 1, 2, 2, false), n2, [e]);
    var c3, c4 := Pair(Again([txB], 1, [e], 1, 1, 2, false), n2, [e]), Pair(Again([txB], 1, [e], 1, 1, 1, true), n2, [e]);
    var both, log := [txB, txC], [e, f];
    var c5, c6 := Pair(Again(both, 1, log, 1, 1, 1, true), n2, [e]), Pair(Again(both, 1, log, 1, 1, 1, true), n2, log);
    var c7 := Pair(Again(both, 1, log, 2, 1, 1, true), n2, log);
    DecidesAgain(Again(both, 1, log, 1, 1, 1, true), n2, e, f);
    On(start, Lost(txA, txB, dataB), NoticeLeader(1), c1);
    On(start, c1, ApplyDecided(1), c2);
    On(start, c2, ChangeView(1, 1), c3);
    On(start, c3, NoticeLeader(1), c4);
    On(start, c4, ClientCommit(1, txC, dataC), c5);
    On(start, c5, Decide(1), c6);
    On(start, c6, Learn(1), c7);
    On(start, c7, ApplyDecided(1), Pair(Again(both, 2, log, 2, 1, 1, false), n2, log));
  }

  lemma MayNotice(txA: Tx, txB: Tx, dataB: TxData)
    ensures Surrounded(Lost(txA, txB, dataB), NoticeLeader(1))
  {
  }
}
