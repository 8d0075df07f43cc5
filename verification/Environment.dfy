/**
 * Safety with fewer guards: when the library hands over leadership only over a fully decided log, nothing is asked of
 * applies and leader checks any more but their order in the runner. The guards of views, of replaced logs and of client
 * commits stay.
 */
module Environment {
  import opened Histories
  import opened Cluster
  import opened NodeApply
  import opened NodeGuards
  import opened NodeInvariant
  import opened NodeSpec
  import opened OmniPaxos
  import opened Refinement
  import opened Store
  import opened Wrappers

  /** Both points as they are meant to be. */
  const INTENDED: Variant := Variant(true, true)

  /**
   * Besides ViewGuard, SyncGuard and caught-up commits: the library makes a node leader only when everything in its log is
   * decided there, and, unless the log is empty, only after the node has followed some leader; a node that has not noticed
   * that it was deposed leads again only with all of its log in its store; the log of a leader grows by its own commits
   * only. The runner applies only right after it has looked for a new leader.
   */
  ghost predicate Surrounded(c: Cluster, step: Step) {
    && step.n in c.nodes
    && var n := c.nodes[step.n];
       match step
       case Sync(_, log) => Sourced(c, log) && SyncGuard(n, log) && !IsLeader(n)
       case ChangeView(_, leader) =>
         && ViewGuard(n, leader)
         && (leader == n.id && !IsLeader(n) ==>
               && |n.omni.log| == n.omni.decided && (n.currentLeader.Some? || n.omni.log == [])
               && (Deposed(n) ==> n.store.next == |n.omni.log|))
       case NoticeLeader(_) => true
       case ApplyDecided(_) => n.currentLeader == n.omni.leader
       case _ => Enabled(INTENDED, c, step)
  }

  /** A leader's store is level with its log, or its log is decided and a catch-up is still due. */
  ghost predicate Settled(n: NodeState) {
    IsLeader(n) ==>
      || n.store.next == |n.omni.log|
      || (&& n.omni.decided == |n.omni.log| && n.store.next <= |n.omni.log|
          && (n.promoted || (n.currentLeader.Some? && n.currentLeader != Some(n.id))))
  }

  ghost predicate AllSettled(c: Cluster) {
    forall i | i in c.nodes :: Settled(c.nodes[i])
  }

  /** A settled node that has looked for its leader, or is just being promoted, meets the guard of an apply. */
  lemma SettledMeetsGuard(decided: seq<Entry>, n: NodeState)
    requires NodeOk(decided, n) && Settled(n)
    requires n.promoted || n.currentLeader == n.omni.leader
    ensures ApplyGuard(INTENDED, n)
  {
    hide Effects, Held, StoreFollowsLog, ReplicatedIsDecided, LogOk;
    NewsMeansUnapplied(decided, n);
  }

  lemma ApplySettles(decided: seq<Entry>, n: NodeState)
    requires NodeOk(decided, n) && Settled(n) && !Deposed(n)
    requires ApplyGuard(INTENDED, n) && ApplyReplicated(INTENDED, n).Some?
    ensures Settled(ApplyReplicated(INTENDED, n).value)
    ensures n.promoted ==> Settled(ApplyReplicated(INTENDED, n).value.(currentLeader := Some(n.id)))
  {
    hide ApplyReplicated, ApplyGuard, Effects, StoreFollowsLog, ReplicatedIsDecided, LogOk, UnwrapsNothing, HasNews;
    ApplyKeepsNode(INTENDED, decided, n);
  }

  /** Every step such surroundings allow is enabled, and keeps the nodes settled. */
  lemma SurroundedStep(c: Cluster, step: Step)
    requires ClusterOk(c) && AllSettled(c) && Surrounded(c, step)
    ensures Enabled(INTENDED, c, step) && Settled(NodeAfter(INTENDED, c, step))
  {
    hide ApplyReplicated, ApplyGuard, Effects, Concretize, LogOk, SyncGuard, IsCommitOf, Commit;
    var n := c.nodes[step.n];
    match step {
      case NoticeLeader(_) =>
        var m := n.(promoted := true);
        if Promotes(n) {
          SettledMeetsGuard(c.decided, m);
          if ApplyReplicated(INTENDED, m).Some? {
            ApplySettles(c.decided, m);
          }
        }
      case ApplyDecided(_) =>
        SettledMeetsGuard(c.decided, n);
        if ApplyReplicated(INTENDED, n).Some? {
          ApplySettles(c.decided, n);
        }
      case ClientCommit(_, tx, data) => CommitShape(n.store, tx);
      case _ =>
    }
  }

  ghost predicate IsSurroundedRun(c: Cluster, steps: seq<Step>)
    decreases |steps|
  {
    steps == [] || (Surrounded(c, steps[0]) && IsSurroundedRun(After(INTENDED, c, steps[0]), steps[1..]))
  }

  lemma {:induction false} SurroundedRunsAreRuns(c: Cluster, steps: seq<Step>)
    requires ClusterOk(c) && AllSettled(c) && IsSurroundedRun(c, steps)
    ensures IsRun(INTENDED, c, steps)
    decreases |steps|
  {
    hide ClusterOk, Enabled, After, Settled;
    if steps != [] {
      SurroundedStep(c, steps[0]);
      StepKeepsCluster(INTENDED, c, steps[0]);
      OthersStay(INTENDED, c, steps[0]);
      SurroundedRunsAreRuns(After(INTENDED, c, steps[0]), steps[1..]);
    }
  }

  /**
   * Safety of the intended code in such surroundings: from any set of fresh nodes, in every state of every run, each
   * replicated table is the fold of the decided entries up to the last applied, and offsets are log positions.
   */
  lemma SafeInItsSurroundings(ids: set<NodeId>, steps: seq<Step>, i: NodeId, p: nat)
    requires IsSurroundedRun(Initial(ids), steps) && i in ids
    ensures IsRun(INTENDED, Initial(ids), steps)
    ensures var c := EndOf(INTENDED, Initial(ids), steps);
            && i in c.nodes
            && Applied(c.nodes[i]) <= |c.decided|
            && c.nodes[i].store.state == TableAt(c, Applied(c.nodes[i]))
            && (p < |c.decided| ==> c.decided[p].txOffset == p)
  {
    hide ClusterOk, IsRun, IsSurroundedRun, EndOf, TableAt;
    InitialIsOk(ids);
    SurroundedRunsAreRuns(Initial(ids), steps);
    Safety(INTENDED, ids, steps, i);
    RunsArePlaced(INTENDED, Initial(ids), steps);
    LogPositionIsOffset(INTENDED, ids, steps, i, p);
  }
}
