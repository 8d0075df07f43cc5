/**
 * Any number of nodes over one decided log, as a step system. The consensus library is the environment: it decides
 * entries, tells nodes about decisions, replaces undecided suffixes and moves leader views, one atomic step at a time.
 */
module Cluster {
  import opened Histories
  import opened NodeApply
  import opened NodeGuards
  import opened NodeInvariant
  import opened NodeSpec
  import opened OmniPaxos
  import opened Refinement
  import opened Replaying
  import opened Store
  import opened TxData
  import opened Wrappers

  datatype Cluster = Cluster(nodes: map<NodeId, NodeState>, decided: seq<Entry>)

  datatype Step =
    | ClientCommit(n: NodeId, tx: Tx, data: TxData)
    | Decide(n: NodeId)                              // the next entry of this node's log is chosen
    | Learn(n: NodeId)                               // the node hears that its next entry is decided
    | Sync(n: NodeId, log: seq<Entry>)               // the node's undecided suffix is replaced
    | ChangeView(n: NodeId, leader: NodeId)          // the library at this node follows another leader
    | NoticeLeader(n: NodeId)                        // update_leader
    | ApplyDecided(n: NodeId)                        // apply_replicated_txns

  // ---------- The environment ----------

  ghost predicate HasAt(c: Cluster, m: NodeId, i: nat, e: Entry) {
    m in c.nodes && i < |c.nodes[m].omni.log| && c.nodes[m].omni.log[i] == e
  }

  /** Every entry of the log is one that some node has, or that is decided, at the same position. */
  ghost predicate Sourced(c: Cluster, log: seq<Entry>) {
    forall i | 0 <= i < |log| ::
      || (i < |c.decided| && log[i] == c.decided[i])
      || exists m :: HasAt(c, m, i, log[i])
  }

  // ---------- Steps ----------

  ghost predicate Enabled(v: Variant, c: Cluster, step: Step) {
    && step.n in c.nodes
    && var n := c.nodes[step.n];
       match step
       case ClientCommit(_, tx, data) => IsLeader(n) && n.store.next == |n.omni.log| && IsCommitOf(data, tx)
       case Decide(_) => |c.decided| < |n.omni.log| && n.omni.log[..|c.decided|] == c.decided
       case Learn(_) => n.omni.decided < |n.omni.log| && n.omni.decided < |c.decided|
                        && n.omni.log[n.omni.decided] == c.decided[n.omni.decided]
       case Sync(_, log) => Sourced(c, log) && SyncGuard(n, log)
       case ChangeView(_, leader) => ViewGuard(n, leader)
       case NoticeLeader(_) => UpdateGuard(v, n)
       case ApplyDecided(_) => !Deposed(n) && ApplyGuard(v, n)
  }

  /**
   * A panic poisons the node's locks: its state stays as the panic found it, and in a real run it takes no further step.
   * A guarded operation panics only in the apply of a promotion, after the flag was raised.
   */
  function Survivor(r: Option<NodeState>, n: NodeState): NodeState {
    if r.Some? then r.value else n
  }

  function NodeAfter(v: Variant, c: Cluster, step: Step): NodeState
    requires step.n in c.nodes
  {
    var n := c.nodes[step.n];
    match step
    case ClientCommit(_, tx, data) => CommitOn(n, tx, data)
    case Decide(_) => n
    case Learn(_) => n.(omni := n.omni.(decided := n.omni.decided + 1))
    case Sync(_, log) => n.(omni := n.omni.(log := log))
    case ChangeView(_, leader) => n.(omni := n.omni.(leader := Some(leader)))
    case NoticeLeader(_) => Survivor(UpdateLeader(v, n), n.(promoted := true))
    case ApplyDecided(_) => Survivor(ApplyReplicated(v, n), n)
  }

  /** What a step does, whether or not it is enabled; a step of no node does nothing. */
  function After(v: Variant, c: Cluster, step: Step): Cluster {
    if step.n !in c.nodes then c
    else
      var n := c.nodes[step.n];
      Cluster(
        c.nodes[step.n := NodeAfter(v, c, step)],
        if step.Decide? && |c.decided| < |n.omni.log| then c.decided + [n.omni.log[|c.decided|]] else c.decided)
  }

  // ---------- The invariant ----------

  ghost predicate ClusterOk(c: Cluster) {
    && LogOk(c.decided)
    && forall i | i in c.nodes :: c.nodes[i].id == i && NodeOk(c.decided, c.nodes[i])
  }

  ghost predicate IsPrefix<T>(a: seq<T>, b: seq<T>) {
    |a| <= |b| && b[..|a|] == a
  }

  lemma NodeOkAsLogGrows(decided: seq<Entry>, decided': seq<Entry>, n: NodeState)
    requires NodeOk(decided, n) && IsPrefix(decided, decided')
    ensures NodeOk(decided', n)
  {
    hide Effects, LogOk, StoreFollowsLog;
    assert decided'[..n.omni.decided] == decided'[..|decided|][..n.omni.decided];
    assert decided'[..Applied(n)] == decided'[..|decided|][..Applied(n)];
  }

  lemma LearnKeepsNode(decided: seq<Entry>, n: NodeState)
    requires NodeOk(decided, n) && n.omni.decided < |n.omni.log| && n.omni.decided < |decided|
    requires n.omni.log[n.omni.decided] == decided[n.omni.decided]
    ensures NodeOk(decided, n.(omni := n.omni.(decided := n.omni.decided + 1)))
  {
    hide Effects, LogOk, Concretize;
    var d := n.omni.decided;
    assert n.omni.log[..d + 1] == n.omni.log[..d] + [n.omni.log[d]] == decided[..d + 1];
  }

  lemma SourcedIsOk(c: Cluster, log: seq<Entry>)
    requires ClusterOk(c) && Sourced(c, log)
    ensures LogOk(log)
  {
    hide Effects, Concretize;
    forall i | 0 <= i < |log| ensures log[i].txOffset == i && Readable(log[i].txData) {
      if !(i < |c.decided| && log[i] == c.decided[i]) {
        var m :| HasAt(c, m, i, log[i]);
        assert NodeOk(c.decided, c.nodes[m]);
      }
    }
  }

  lemma StepKeepsNode(v: Variant, c: Cluster, step: Step)
    requires ClusterOk(c) && Enabled(v, c, step)
    ensures var n' := NodeAfter(v, c, step);
            NodeOk(c.decided, n') && n'.id == step.n && Applied(c.nodes[step.n]) <= Applied(n')
  {
    hide NodeOk, Effects, ApplyGuard, UpdateGuard, SyncGuard, ViewGuard, UpdateLeader, ApplyReplicated;
    var n := c.nodes[step.n];
    match step {
      case ClientCommit(_, tx, data) => CommitGuardIsExact(c.decided, n, tx, data);
      case Decide(_) =>
      case Learn(_) => LearnKeepsNode(c.decided, n);
      case Sync(_, log) =>
        SourcedIsOk(c, log);
        SyncGuardIsExact(c.decided, n, log);
      case ChangeView(_, leader) => ViewGuardIsExact(c.decided, n, leader);
      case NoticeLeader(_) =>
        UpdateLeaderKeepsNode(v, c.decided, n);
        FlagIsFree(c.decided, n);
      case ApplyDecided(_) => ApplyKeepsNode(v, c.decided, n);
    }
  }

  lemma DecidedKeepsPositions(v: Variant, c: Cluster, step: Step)
    requires ClusterOk(c) && Enabled(v, c, step)
    ensures LogOk(After(v, c, step).decided) && IsPrefix(c.decided, After(v, c, step).decided)
  {
    hide NodeAfter, Readable;
    assert NodeOk(c.decided, c.nodes[step.n]);
  }

  lemma OthersStay(v: Variant, c: Cluster, step: Step)
    requires step.n in c.nodes
    ensures var c' := After(v, c, step);
            && c'.nodes.Keys == c.nodes.Keys && c'.nodes[step.n] == NodeAfter(v, c, step)
            && forall i | i in c.nodes && i != step.n :: c'.nodes[i] == c.nodes[i]
  {
    hide NodeAfter;
  }

  /** Every enabled step keeps the invariant; the decided log only grows and no node goes back. */
  lemma StepKeepsCluster(v: Variant, c: Cluster, step: Step)
    requires ClusterOk(c) && Enabled(v, c, step)
    ensures ClusterOk(After(v, c, step)) && Later(c, After(v, c, step))
  {
    hide NodeOk, LogOk, UpdateGuard, ApplyGuard, SyncGuard, ViewGuard, IsCommitOf, NodeAfter, IsPrefix, After, Applied;
    var c' := After(v, c, step);
    StepKeepsNode(v, c, step);
    DecidedKeepsPositions(v, c, step);
    OthersStay(v, c, step);
    forall i | i in c'.nodes ensures c'.nodes[i].id == i && NodeOk(c'.decided, c'.nodes[i]) {
      if i == step.n {
        NodeOkAsLogGrows(c.decided, c'.decided, NodeAfter(v, c, step));
      } else {
        NodeOkAsLogGrows(c.decided, c'.decided, c.nodes[i]);
      }
    }
  }

  // ---------- Runs ----------

  /** The second cluster can come after the first: same nodes, a longer decided log, no application undone. */
  ghost predicate Later(c: Cluster, c': Cluster) {
    && c'.nodes.Keys == c.nodes.Keys
    && IsPrefix(c.decided, c'.decided)
    && forall i | i in c.nodes :: Applied(c.nodes[i]) <= Applied(c'.nodes[i])
  }

  ghost predicate IsRun(v: Variant, c: Cluster, steps: seq<Step>)
    decreases |steps|
  {
    steps == [] || (Enabled(v, c, steps[0]) && IsRun(v, After(v, c, steps[0]), steps[1..]))
  }

  /** Where a sequence of steps leads, enabled or not. */
  function EndOf(v: Variant, c: Cluster, steps: seq<Step>): Cluster
    decreases |steps|
  {
    if steps == [] then c else EndOf(v, After(v, c, steps[0]), steps[1..])
  }

  function FreshNode(i: NodeId): NodeState {
    NodeState(i, EMPTY, Omni([], 0, None), None, None, false)
  }

  function Initial(ids: set<NodeId>): Cluster {
    Cluster(map i | i in ids :: FreshNode(i), [])
  }

  lemma InitialIsOk(ids: set<NodeId>)
    ensures ClusterOk(Initial(ids))
  {
    forall i | i in ids ensures NodeOk([], FreshNode(i)) {
      assert Effects([]) == [] && Fold([]) == map[];
      EmptyIsConcrete();
      assert Represents(EMPTY, [], 0);
    }
  }

  lemma {:induction false} RunKeepsCluster(v: Variant, c: Cluster, steps: seq<Step>)
    requires ClusterOk(c) && IsRun(v, c, steps)
    ensures ClusterOk(EndOf(v, c, steps)) && Later(c, EndOf(v, c, steps))
    decreases |steps|
  {
    hide ClusterOk, After, IsPrefix, UpdateGuard, ApplyGuard, SyncGuard;
    if steps == [] {
      LaterIsReflexive(c);
    } else {
      StepKeepsCluster(v, c, steps[0]);
      var c' := After(v, c, steps[0]);
      RunKeepsCluster(v, c', steps[1..]);
      LaterIsTransitive(c, c', EndOf(v, c', steps[1..]));
    }
  }

  lemma LaterIsReflexive(c: Cluster)
    ensures Later(c, c)
  {
  }

  lemma LaterIsTransitive(a: Cluster, b: Cluster, c: Cluster)
    requires Later(a, b) && Later(b, c)
    ensures Later(a, c)
  {
    assert c.decided[..|a.decided|] == c.decided[..|b.decided|][..|a.decided|];
  }

  // ---------- What the runs guarantee ----------

  /** The table the decided log gives after its first k entries. */
  function TableAt(c: Cluster, k: nat): Table
    requires k <= |c.decided|
  {
    Fold(Effects(c.decided[..k]))
  }

  /**
   * Cluster safety: in every state of every run, from any set of nodes, the replicated table of every node is the
   * fold of the decided entries up to the last it applied, and its replicated offset is that entry's position.
   */
  lemma Safety(v: Variant, ids: set<NodeId>, steps: seq<Step>, i: NodeId)
    requires IsRun(v, Initial(ids), steps) && i in ids
    ensures var c := EndOf(v, Initial(ids), steps);
            && i in c.nodes
            && Applied(c.nodes[i]) <= |c.decided|
            && c.nodes[i].store.state == TableAt(c, Applied(c.nodes[i]))
            && c.nodes[i].store.replicated == c.nodes[i].lastApplied
  {
    InitialIsOk(ids);
    RunKeepsCluster(v, Initial(ids), steps);
    assert NodeOk(EndOf(v, Initial(ids), steps).decided, EndOf(v, Initial(ids), steps).nodes[i]);
  }

  /** What node i had applied in c and what node j has applied in c' are prefixes of one history, that of c'. */
  ghost predicate Agree(c: Cluster, i: NodeId, c': Cluster, j: NodeId) {
    && i in c.nodes && j in c'.nodes
    && var n, m := c.nodes[i], c'.nodes[j];
       && Applied(n) <= |c'.decided| && n.store.state == TableAt(c', Applied(n))
       && Applied(m) <= |c'.decided| && m.store.state == TableAt(c', Applied(m))
       && (Applied(n) == Applied(m) ==> n.store.state == m.store.state)
  }

  lemma LaterAgrees(c: Cluster, i: NodeId, c': Cluster, j: NodeId)
    requires ClusterOk(c) && ClusterOk(c') && Later(c, c') && i in c.nodes && j in c.nodes
    ensures Agree(c, i, c', j)
  {
    hide Effects, StoreFollowsLog, OmniOk, LogOk;
    assert NodeOk(c.decided, c.nodes[i]) && NodeOk(c'.decided, c'.nodes[j]);
    var a := Applied(c.nodes[i]);
    assert c'.decided[..a] == c'.decided[..|c.decided|][..a] == c.decided[..a];
  }

  /**
   * Agreement and durability: what a node had applied at one time and what any node has applied at a later time
   * are prefixes of one history; with as many entries applied, their replicated tables are equal, and no node
   * ever gives up an entry it applied.
   */
  lemma Agreement(v: Variant, ids: set<NodeId>, steps: seq<Step>, more: seq<Step>, i: NodeId, j: NodeId)
    requires IsRun(v, Initial(ids), steps) && i in ids && j in ids
    requires IsRun(v, EndOf(v, Initial(ids), steps), more)
    ensures var c := EndOf(v, Initial(ids), steps);
            var c' := EndOf(v, c, more);
            Agree(c, i, c', j) && Later(c, c')
  {
    hide ClusterOk, Agree;
    var c := EndOf(v, Initial(ids), steps);
    InitialIsOk(ids);
    RunKeepsCluster(v, Initial(ids), steps);
    RunKeepsCluster(v, c, more);
    LaterAgrees(c, i, EndOf(v, c, more), j);
  }

  // ---------- Log positions ----------

  ghost predicate Positioned(log: seq<Entry>) {
    forall i | 0 <= i < |log| :: log[i].txOffset == i
  }

  ghost predicate AllPositioned(c: Cluster) {
    Positioned(c.decided) && forall i | i in c.nodes :: Positioned(c.nodes[i].omni.log)
  }

  /**
   * All that positions need: a commit is made on a store level with its log, and a log is replaced by entries that
   * are somewhere at their place. Views, applies, decisions and leader checks may come in any state.
   */
  ghost predicate Placed(c: Cluster, step: Step) {
    && step.n in c.nodes
    && (step.ClientCommit? ==> c.nodes[step.n].store.next == |c.nodes[step.n].omni.log|)
    && (step.Sync? ==> Sourced(c, step.log))
  }

  ghost predicate IsPlacedRun(v: Variant, c: Cluster, steps: seq<Step>)
    decreases |steps|
  {
    steps == [] || (Placed(c, steps[0]) && IsPlacedRun(v, After(v, c, steps[0]), steps[1..]))
  }

  lemma NoticingKeepsOmni(v: Variant, n: NodeState)
    ensures UpdateLeader(v, n).Some? ==> UpdateLeader(v, n).value.omni == n.omni
  {
    hide ApplyReplicated, Rollback;
    ApplyKeepsOmni(v, n.(promoted := true));
  }

  lemma SourcedIsPositioned(c: Cluster, log: seq<Entry>)
    requires AllPositioned(c) && Sourced(c, log)
    ensures Positioned(log)
  {
    forall i | 0 <= i < |log| ensures log[i].txOffset == i {
      if !(i < |c.decided| && log[i] == c.decided[i]) {
        var m :| HasAt(c, m, i, log[i]);
        assert Positioned(c.nodes[m].omni.log);
      }
    }
  }

  lemma StepKeepsPositions(v: Variant, c: Cluster, step: Step)
    requires AllPositioned(c) && Placed(c, step)
    ensures AllPositioned(After(v, c, step))
  {
    hide ApplyReplicated, UpdateLeader, Commit, Sourced;
    var n := c.nodes[step.n];
    ApplyKeepsOmni(v, n);
    NoticingKeepsOmni(v, n);
    if step.Sync? {
      SourcedIsPositioned(c, step.log);
    }
    assert Positioned(n.omni.log);
    assert Positioned(NodeAfter(v, c, step).omni.log);
  }

  lemma {:induction false} RunKeepsPositions(v: Variant, c: Cluster, steps: seq<Step>)
    requires AllPositioned(c) && IsPlacedRun(v, c, steps)
    ensures AllPositioned(EndOf(v, c, steps)) && EndOf(v, c, steps).nodes.Keys == c.nodes.Keys
    decreases |steps|
  {
    hide AllPositioned, After;
    if steps != [] {
      StepKeepsPositions(v, c, steps[0]);
      OthersStay(v, c, steps[0]);
      RunKeepsPositions(v, After(v, c, steps[0]), steps[1..]);
    }
  }

  /** Every run of enabled steps is one of these. */
  lemma {:induction false} RunsArePlaced(v: Variant, c: Cluster, steps: seq<Step>)
    requires IsRun(v, c, steps)
    ensures IsPlacedRun(v, c, steps)
    decreases |steps|
  {
    hide After, ApplyGuard, UpdateGuard, ViewGuard, Sourced;
    if steps != [] {
      RunsArePlaced(v, After(v, c, steps[0]), steps[1..]);
    }
  }

  /**
   * The entry at position p of the decided log, and of every node's log, carries offset p, in every run in which
   * commits are caught up: also where views turn back, applies skip or diverge, and the loop as written drops diffs.
   */
  lemma LogPositionIsOffset(v: Variant, ids: set<NodeId>, steps: seq<Step>, i: NodeId, p: nat)
    requires IsPlacedRun(v, Initial(ids), steps) && i in ids
    ensures var c := EndOf(v, Initial(ids), steps);
            && i in c.nodes
            && (p < |c.decided| ==> c.decided[p].txOffset == p)
            && (p < |c.nodes[i].omni.log| ==> c.nodes[i].omni.log[p].txOffset == p)
  {
    hide IsPlacedRun, EndOf;
    assert AllPositioned(Initial(ids));
    RunKeepsPositions(v, Initial(ids), steps);
  }

  // ---------- What clients read ----------

  /** At Memory level every key reads as in the fold of the transactions. */
  ghost predicate ShowsInMemory(s: Store, txs: seq<Tx>)
    requires NoEmptyHistory(s)
  {
    forall k :: Get(s, k, Memory) == Look(Fold(txs), k)
  }

  ghost predicate ShowsReplicated(s: Store, m: Table)
    requires NoEmptyHistory(s)
  {
    forall k :: Get(s, k, Replicated) == Look(m, k)
  }

  lemma RepresentedShows(s: Store, live: seq<Tx>, r: nat)
    requires Represents(s, live, r)
    ensures WellFormed(s) && s.next == |live| && ShowsInMemory(s, live) && ShowsReplicated(s, Fold(live[..r]))
  {
    hide Concretize, Fold, Get;
    ConcreteIsWellFormed(live, r);
    ConcreteShape(live, r);
    forall k ensures Get(s, k, Memory) == Look(Fold(live), k) && Get(s, k, Replicated) == Look(Fold(live[..r]), k) {
      Views(live, r, k);
    }
  }

  lemma NodeShows(decided: seq<Entry>, n: NodeState)
    requires NodeOk(decided, n)
    ensures WellFormed(n.store) && Applied(n) <= |decided|
    ensures ShowsReplicated(n.store, Fold(Effects(decided[..Applied(n)])))
    ensures exists live ::
              IsPrefix(Effects(decided[..Applied(n)]), live) && |live| == n.store.next && ShowsInMemory(n.store, live)
    ensures !Deposed(n) ==>
              n.store.next <= |n.omni.log| && ShowsInMemory(n.store, Effects(n.omni.log[..n.store.next]))
  {
    hide Concretize, Fold, Effects, Get, LogOk, WellFormed, ShowsInMemory, ShowsReplicated;
    var a := Applied(n);
    EffectsLength(decided[..a]);
    var live :| Represents(n.store, live, a) && live[..a] == Effects(decided[..a]);
    RepresentedShows(n.store, live, a);
    assert IsPrefix(Effects(decided[..a]), live);
    if !Deposed(n) {
      EffectsLength(n.omni.log[..n.store.next]);
      RepresentedShows(n.store, Effects(n.omni.log[..n.store.next]), a);
    }
  }

  /**
   * What clients read, on every node in every run: at Replicated level the decided prefix the node applied; at Memory level
   * that prefix followed by the transactions pending here, which are those of the node's log unless the node has yet to
   * notice that it was deposed.
   */
  lemma WhatClientsRead(v: Variant, ids: set<NodeId>, steps: seq<Step>, i: NodeId)
    requires IsRun(v, Initial(ids), steps) && i in ids
    ensures var c := EndOf(v, Initial(ids), steps);
            && i in c.nodes
            && var n := c.nodes[i];
               && WellFormed(n.store) && Applied(n) <= |c.decided|
               && ShowsReplicated(n.store, TableAt(c, Applied(n)))
               && (exists live ::
                     && IsPrefix(Effects(c.decided[..Applied(n)]), live) && |live| == n.store.next
                     && ShowsInMemory(n.store, live))
               && (!Deposed(n) ==>
                     && n.store.next <= |n.omni.log|
                     && ShowsInMemory(n.store, Effects(n.omni.log[..n.store.next])))
  {
    hide NodeOk, IsRun, EndOf, Effects, ShowsInMemory, ShowsReplicated;
    InitialIsOk(ids);
    RunKeepsCluster(v, Initial(ids), steps);
    NodeShows(EndOf(v, Initial(ids), steps).decided, EndOf(v, Initial(ids), steps).nodes[i]);
  }
}
