/** Building blocks for runs of two nodes: leaders that write, nodes that follow, and clusters that such runs lead to. */
module Runs {
  import opened Histories
  import opened Cluster
  import opened NodeApply
  import opened NodeGuards
  import opened NodeInvariant
  import opened NodeSpec
  import opened OmniPaxos
  import opened Refinement
  import opened Replaying
  import opened Scenario
  import opened Store
  import opened TxData
  import opened Varint
  import opened Wrappers

  /** The replicated table of the node is not that of the decided entries it claims to have applied. */
  ghost predicate Unsafe(c: Cluster, i: NodeId) {
    && i in c.nodes && Applied(c.nodes[i]) <= |c.decided|
    && c.nodes[i].store.state != TableAt(c, Applied(c.nodes[i]))
  }

  /** Some run of enabled steps goes from one to the other. */
  ghost predicate LeadsTo(v: Variant, c: Cluster, c': Cluster) {
    exists steps :: IsRun(v, c, steps) && EndOf(v, c, steps) == c'
  }

  /** Some run of enabled steps of two fresh nodes ends here. */
  ghost predicate Reachable(v: Variant, c: Cluster) {
    LeadsTo(v, Initial({1, 2}), c)
  }

  lemma LeadsToItself(v: Variant, c: Cluster)
    ensures LeadsTo(v, c, c)
  {
    assert IsRun(v, c, []) && EndOf(v, c, []) == c;
  }

  lemma LeadsOn(v: Variant, start: Cluster, c: Cluster, step: Step, c': Cluster)
    requires LeadsTo(v, start, c) && Enabled(v, c, step) && After(v, c, step) == c'
    ensures LeadsTo(v, start, c')
  {
    hide Enabled, After;
    var steps :| IsRun(v, start, steps) && EndOf(v, start, steps) == c;
    assert [step][1..] == [];
    RunAppend(v, start, steps, [step]);
  }

  lemma Reach(v: Variant, c: Cluster, step: Step, c': Cluster)
    requires Reachable(v, c) && Enabled(v, c, step) && After(v, c, step) == c'
    ensures Reachable(v, c')
  {
    hide Enabled, After, LeadsTo;
    LeadsOn(v, Initial({1, 2}), c, step, c');
  }

  lemma ReachableIsOk(v: Variant, c: Cluster)
    requires Reachable(v, c)
    ensures ClusterOk(c)
  {
    var start := Initial({1, 2});
    var steps :| IsRun(v, start, steps) && EndOf(v, start, steps) == c;
    InitialIsOk({1, 2});
    RunKeepsCluster(v, start, steps);
  }

  // ---------- Concrete transactions ----------

  const KEY: Text := [1]

  /** Sets the one key. */
  function Writing(x: Text): Tx {
    map[KEY := Insert(x)]
  }

  function WrittenData(x: Text): TxData {
    TxDataOf(Writing(x), [KEY])
  }

  function Writes(values: seq<Text>): seq<Tx> {
    seq(|values|, i requires 0 <= i < |values| => Writing(values[i]))
  }

  function WrittenEntries(values: seq<Text>): seq<Entry> {
    seq(|values|, i requires 0 <= i < |values| => Entry(i, WrittenData(values[i])))
  }

  lemma WritingIsCommitted(x: Text)
    requires |x| < TWO32
    ensures IsCommitOf(WrittenData(x), Writing(x))
  {
    assert Enumerates([KEY], Writing(x));
  }

  lemma WritesAreLogged(values: seq<Text>)
    requires forall x | x in values :: |x| < TWO32
    ensures Logged(WrittenEntries(values), Writes(values))
  {
    hide IsCommitOf, Writing, WrittenData;
    forall i | 0 <= i < |values| ensures IsCommitOf(WrittenData(values[i]), Writing(values[i])) {
      WritingIsCommitted(values[i]);
    }
  }

  /** The key shows the last value written. */
  lemma LastWriteShows(values: seq<Text>, k: nat)
    requires 0 < k <= |values|
    ensures Look(Fold(Writes(values)[..k]), KEY) == Some(values[k - 1])
  {
    var txs := Writes(values);
    assert txs[..k] == txs[..k - 1] + [Writing(values[k - 1])];
    FoldAppend(txs[..k - 1], Writing(values[k - 1]));
    LookApply(Fold(txs[..k - 1]), Writing(values[k - 1]), KEY);
  }

  lemma FirstWritesDiffer(x: Text, y: Text)
    requires x != y
    ensures Fold([Writing(x)]) != Fold([Writing(y)])
  {
    assert Writes([x])[..1] == [Writing(x)] && Writes([y])[..1] == [Writing(y)];
    LastWriteShows([x], 1);
    LastWriteShows([y], 1);
  }

  // ---------- A leader that writes ----------

  /** Entries as a leader commits them on an empty log. */
  ghost predicate Logged(es: seq<Entry>, txs: seq<Tx>) {
    && |es| == |txs|
    && forall i | 0 <= i < |es| :: es[i].txOffset == i && IsCommitOf(es[i].txData, txs[i])
  }

  lemma LoggedEffects(es: seq<Entry>, txs: seq<Tx>)
    requires Logged(es, txs)
    ensures LogOk(es) && Effects(es) == txs && forall k | 0 <= k <= |es| :: Effects(es[..k]) == txs[..k]
  {
    hide IsCommitOf, Effect, Readable;
    forall i | 0 <= i < |es| ensures Readable(es[i].txData) && Effect(es[i].txData) == txs[i] {
      CommitOfCarriesTx(es[i].txData, txs[i]);
    }
    forall k | 0 <= k <= |es| ensures Effects(es[..k]) == txs[..k] {
      EffectsOfPrefix(es, k);
    }
  }

  /** A leader, fresh but for what it committed, whatever it has noticed and whether or not its promotion flag is up. */
  function Writer(i: NodeId, es: seq<Entry>, txs: seq<Tx>, noticed: Option<NodeId>, promoted: bool): NodeState {
    NodeState(i, Concretize(txs, 0), Omni(es, 0, Some(i)), None, noticed, promoted)
  }

  function With(c: Cluster, n: NodeState): Cluster {
    c.(nodes := c.nodes[n.id := n])
  }

  lemma WriterCommits(v: Variant, c: Cluster, i: NodeId, es: seq<Entry>, txs: seq<Tx>, k: nat, noticed: Option<NodeId>,
                      promoted: bool)
    requires Logged(es, txs) && k < |es|
    ensures var c1 := With(c, Writer(i, es[..k], txs[..k], noticed, promoted));
            var c2 := With(c, Writer(i, es[..k + 1], txs[..k + 1], noticed, promoted));
            var step := ClientCommit(i, txs[k], es[k].txData);
            Enabled(v, c1, step) && After(v, c1, step) == c2
  {
    hide IsCommitOf, Concretize, Commit;
    ConcreteShape(txs[..k], 0);
    CommitRefines(txs[..k], 0, txs[k]);
    assert txs[..k] + [txs[k]] == txs[..k + 1] && es[..k] + [Entry(k, es[k].txData)] == es[..k + 1];
  }

  /** A leader with nothing committed may commit any transactions one after the other. */
  lemma WriterWrites(v: Variant, start: Cluster, c: Cluster, i: NodeId, es: seq<Entry>, txs: seq<Tx>,
                     noticed: Option<NodeId>, promoted: bool)
    requires Logged(es, txs) && LeadsTo(v, start, With(c, Writer(i, [], [], noticed, promoted)))
    ensures LeadsTo(v, start, With(c, Writer(i, es, txs, noticed, promoted)))
  {
    hide Enabled, After, LeadsTo, IsCommitOf, Writer, With;
    assert es[..0] == [] && txs[..0] == [] && es[..|es|] == es && txs[..|es|] == txs;
    for k := 0 to |es|
      invariant LeadsTo(v, start, With(c, Writer(i, es[..k], txs[..k], noticed, promoted)))
    {
      WriterCommits(v, c, i, es, txs, k, noticed, promoted);
      LeadsOn(v, start, With(c, Writer(i, es[..k], txs[..k], noticed, promoted)), ClientCommit(i, txs[k], es[k].txData),
        With(c, Writer(i, es[..k + 1], txs[..k + 1], noticed, promoted)));
    }
  }

  /** A fresh node that the library makes leader has noticed no other before. */
  lemma FreshLeads(v: Variant, c: Cluster, i: NodeId)
    requires i in c.nodes && c.nodes[i] == FreshNode(i)
    ensures var c1 := With(c, FreshNode(i).(omni := Omni([], 0, Some(i))));
            var c2 := With(c, Writer(i, [], [], Some(i), false));
            && Enabled(v, c, ChangeView(i, i)) && After(v, c, ChangeView(i, i)) == c1
            && Enabled(v, c1, NoticeLeader(i)) && After(v, c1, NoticeLeader(i)) == c2
  {
    hide Concretize, ApplyReplicated, ApplyGuard, PendingIsLogged;
    EmptyIsConcrete();
  }

  lemma FreshWrites(v: Variant, start: Cluster, c: Cluster, i: NodeId, es: seq<Entry>, txs: seq<Tx>)
    requires LeadsTo(v, start, c) && i in c.nodes && c.nodes[i] == FreshNode(i) && Logged(es, txs)
    ensures LeadsTo(v, start, With(c, Writer(i, es, txs, Some(i), false)))
  {
    hide Enabled, After, LeadsTo, IsCommitOf, Writer, With, FreshNode;
    FreshLeads(v, c, i);
    var c1 := After(v, c, ChangeView(i, i));
    LeadsOn(v, start, c, ChangeView(i, i), c1);
    LeadsOn(v, start, c1, NoticeLeader(i), With(c, Writer(i, [], [], Some(i), false)));
    WriterWrites(v, start, c, i, es, txs, Some(i), false);
  }

  // ---------- A node that follows another ----------

  /** A fresh node that follows a leader. */
  function Listener(i: NodeId, log: seq<Entry>, leader: NodeId, noticed: Option<NodeId>): NodeState {
    NodeState(i, Concretize([], 0), Omni(log, 0, Some(leader)), None, noticed, false)
  }

  lemma FreshListens(v: Variant, c: Cluster, i: NodeId, leader: NodeId)
    requires i in c.nodes && c.nodes[i] == FreshNode(i) && leader != i
    ensures var c1, c2 := With(c, Listener(i, [], leader, None)), With(c, Listener(i, [], leader, Some(leader)));
            && Enabled(v, c, ChangeView(i, leader)) && After(v, c, ChangeView(i, leader)) == c1
            && Enabled(v, c1, NoticeLeader(i)) && After(v, c1, NoticeLeader(i)) == c2
  {
    hide Concretize, ApplyReplicated, ApplyGuard, PendingIsLogged;
    EmptyIsConcrete();
  }

  /** A node without decided entries that does not lead takes over the log of another. */
  lemma TakesLog(v: Variant, c: Cluster, i: NodeId, m: NodeId)
    requires i in c.nodes && m in c.nodes && c.nodes[i].id == i && !IsLeader(c.nodes[i]) && c.nodes[i].omni.decided == 0
    ensures var n, log := c.nodes[i], c.nodes[m].omni.log;
            && Enabled(v, c, Sync(i, log))
            && After(v, c, Sync(i, log)) == With(c, n.(omni := n.omni.(log := log)))
  {
    hide PendingIsLogged;
    var log := c.nodes[m].omni.log;
    forall p | 0 <= p < |log| ensures HasAt(c, m, p, log[p]) {
    }
  }

  lemma ListenerReached(v: Variant, start: Cluster, c: Cluster, i: NodeId, leader: NodeId)
    requires LeadsTo(v, start, c) && i in c.nodes && c.nodes[i] == FreshNode(i) && leader != i && leader in c.nodes
    ensures LeadsTo(v, start, With(c, Listener(i, [], leader, Some(leader))))
    ensures LeadsTo(v, start, With(c, Listener(i, c.nodes[leader].omni.log, leader, Some(leader))))
  {
    hide Enabled, After, LeadsTo, Concretize, FreshNode;
    FreshListens(v, c, i, leader);
    var c1, c2 := With(c, Listener(i, [], leader, None)), With(c, Listener(i, [], leader, Some(leader)));
    LeadsOn(v, start, c, ChangeView(i, leader), c1);
    LeadsOn(v, start, c1, NoticeLeader(i), c2);
    TakesLog(v, c2, i, leader);
    var log := c.nodes[leader].omni.log;
    assert c2.nodes[leader] == c.nodes[leader];
    assert With(c2, c2.nodes[i].(omni := c2.nodes[i].omni.(log := log))) == With(c, Listener(i, log, leader, Some(leader)));
    LeadsOn(v, start, c2, Sync(i, log), With(c, Listener(i, log, leader, Some(leader))));
  }

  // ---------- Decisions ----------

  /** The cluster in which d entries of the log are decided and node i knows it. */
  function Learned(c: Cluster, i: NodeId, es: seq<Entry>, d: nat): Cluster
    requires i in c.nodes && d <= |es|
  {
    Cluster(c.nodes[i := c.nodes[i].(omni := c.nodes[i].omni.(decided := d))], es[..d])
  }

  lemma LearnsOne(v: Variant, c: Cluster, m: NodeId, i: NodeId, es: seq<Entry>, d: nat)
    requires m in c.nodes && i in c.nodes && c.nodes[m].omni.log == es && c.nodes[i].omni.log == es && d < |es|
    ensures var c1, c3 := Learned(c, i, es, d), Learned(c, i, es, d + 1);
            var c2 := c1.(decided := es[..d + 1]);
            && Enabled(v, c1, Decide(m)) && After(v, c1, Decide(m)) == c2
            && Enabled(v, c2, Learn(i)) && After(v, c2, Learn(i)) == c3
  {
    var c1 := Learned(c, i, es, d);
    assert es[..d] + [es[d]] == es[..d + 1];
    assert c1.nodes[m].omni.log == es;
    assert c1.nodes[m := c1.nodes[m]] == c1.nodes;
  }

  /** Node m has its entries chosen one after the other, and node i, with the same log, hears of each. */
  lemma LearnsMore(v: Variant, start: Cluster, c: Cluster, m: NodeId, i: NodeId, es: seq<Entry>, a: nat, d: nat)
    requires m in c.nodes && i in c.nodes && c.nodes[m].omni.log == es && c.nodes[i].omni.log == es && a <= d <= |es|
    requires LeadsTo(v, start, Learned(c, i, es, a))
    ensures LeadsTo(v, start, Learned(c, i, es, d))
  {
    hide Enabled, After, LeadsTo, Learned;
    for k := a to d
      invariant LeadsTo(v, start, Learned(c, i, es, k))
    {
      LearnsOne(v, c, m, i, es, k);
      var c2 := After(v, Learned(c, i, es, k), Decide(m));
      LeadsOn(v, start, Learned(c, i, es, k), Decide(m), c2);
      LeadsOn(v, start, c2, Learn(i), Learned(c, i, es, k + 1));
    }
  }
}
