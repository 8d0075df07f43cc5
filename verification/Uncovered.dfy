/**
 * A node leads over a log that is not yet decided. Either its one catch-up spends the promotion flag, or there never was
 * a flag since it had noticed no leader before; entries decided after that are claimed without being replayed.
 */
module Uncovered {
  import opened Cluster
  import opened Histories
  import opened NodeApply
  import opened NodeGuards
  import opened NodeInvariant
  import opened NodeSpec
  import opened OmniPaxos
  import opened Refinement
  import opened Runs
  import opened Scenario
  import opened Store
  import opened TxData
  import opened Varint
  import opened Wrappers

  /** Node 2 over the whole log, with k entries applied, d known to be decided and nothing pending. */
  function Second(es: seq<Entry>, txs: seq<Tx>, k: nat, d: nat, leader: NodeId, noticed: NodeId, promoted: bool): NodeState
    requires k <= |txs|
  {
    NodeState(2, Concretize(txs[..k], k), Omni(es, d, Some(leader)), if k == 0 then None else Some(k - 1), Some(noticed), promoted)
  }

  /** Node 1 wrote everything; node 2 is as given, and d entries are decided. */
  function Beside(es: seq<Entry>, txs: seq<Tx>, n2: NodeState, d: nat): Cluster
    requires d <= |es|
  {
    Pair(Writer(1, es, txs, Some(1), false), n2, es[..d])
  }

  lemma FirstWrote(v: Variant, es: seq<Entry>, txs: seq<Tx>)
    requires Logged(es, txs)
    ensures Reachable(v, Beside(es, txs, FreshNode(2), 0))
  {
    hide IsCommitOf, LeadsTo, Concretize;
    var start := Initial({1, 2});
    LeadsToItself(v, start);
    FreshWrites(v, start, start, 1, es, txs);
    assert With(start, Writer(1, es, txs, Some(1), false)) == Beside(es, txs, FreshNode(2), 0);
  }

  lemma SecondFollows(v: Variant, es: seq<Entry>, txs: seq<Tx>)
    requires Logged(es, txs)
    ensures Reachable(v, Beside(es, txs, Second(es, txs, 0, 0, 1, 1, false), 0))
  {
    hide IsCommitOf, LeadsTo, Concretize;
    var c := Beside(es, txs, FreshNode(2), 0);
    FirstWrote(v, es, txs);
    ListenerReached(v, Initial({1, 2}), c, 2, 1);
    assert txs[..0] == [];
    assert With(c, Listener(2, es, 1, Some(1))) == Beside(es, txs, Second(es, txs, 0, 0, 1, 1, false), 0);
  }

  lemma SecondLearns(v: Variant, es: seq<Entry>, txs: seq<Tx>, n2: NodeState, d: nat)
    requires n2.omni.log == es && n2.omni.decided <= d <= |es|
    requires Reachable(v, Beside(es, txs, n2, n2.omni.decided))
    ensures Reachable(v, Beside(es, txs, n2.(omni := n2.omni.(decided := d)), d))
  {
    hide LeadsTo, Concretize;
    var a, c := n2.omni.decided, Beside(es, txs, n2, n2.omni.decided);
    assert n2.omni.(decided := a) == n2.omni;
    assert Learned(c, 2, es, a) == c;
    LearnsMore(v, Initial({1, 2}), c, 1, 2, es, a, d);
    assert Learned(c, 2, es, d) == Beside(es, txs, n2.(omni := n2.omni.(decided := d)), d);
  }

  // ---------- Node 2 follows, then leads ----------

  lemma SecondIsDue(v: Variant, es: seq<Entry>, txs: seq<Tx>, k: nat, d: nat, leader: NodeId, promoted: bool)
    requires v.startsAtFirst && Logged(es, txs) && k < d <= |es| && (leader == 2 ==> promoted && k > 0)
    ensures var n := Second(es, txs, k, d, leader, leader, promoted);
            && !Deposed(n) && HasNews(n) && !UnwrapsNothing(n) && !LeaderAdvances(n) && ApplyGuard(v, n)
            && n.store.next == k && FirstAsked(v, n) == k
  {
    hide Concretize, IsCommitOf, Effects;
    ConcreteShape(txs[..k], k);
    EffectsLength(es[..k]);
  }

  /** The entries decided since are replayed, by a follower or by a leader with its flag still up. */
  lemma SecondApplies(v: Variant, es: seq<Entry>, txs: seq<Tx>, k: nat, d: nat, leader: NodeId, promoted: bool)
    requires v.startsAtFirst && Logged(es, txs) && k < d <= |es| && (leader == 2 ==> promoted && k > 0)
    requires Reachable(v, Beside(es, txs, Second(es, txs, k, k, leader, leader, promoted), k))
    ensures Reachable(v, Beside(es, txs, Second(es, txs, d, d, leader, leader, false), d))
  {
    hide Concretize, Effects, ApplyReplicated, ApplyGuard, NodeOk, LeadsTo, IsCommitOf, HasNews, LeaderAdvances;
    var n2 := Second(es, txs, k, d, leader, leader, promoted);
    SecondLearns(v, es, txs, Second(es, txs, k, k, leader, leader, promoted), d);
    var c := Beside(es, txs, n2, d);
    ReachableIsOk(v, c);
    MemberOk(c, 2);
    LoggedEffects(es, txs);
    SecondIsDue(v, es, txs, k, d, leader, promoted);
    ApplyByReplay(v, es[..d], n2);
    Reach(v, c, ApplyDecided(2), Beside(es, txs, Second(es, txs, d, d, leader, leader, false), d));
  }

  /** Made leader with nothing new to apply, node 2 raises its flag and returns at once. */
  lemma SecondIsPromoted(v: Variant, es: seq<Entry>, txs: seq<Tx>, a: nat)
    requires Logged(es, txs) && 0 < a <= |es|
    ensures var c, c1 := Beside(es, txs, Second(es, txs, a, a, 1, 1, false), a), Beside(es, txs, Second(es, txs, a, a, 2, 1, false), a);
            var c2 := Beside(es, txs, Second(es, txs, a, a, 2, 2, true), a);
            && Enabled(v, c, ChangeView(2, 2)) && After(v, c, ChangeView(2, 2)) == c1
            && Enabled(v, c1, NoticeLeader(2)) && After(v, c1, NoticeLeader(2)) == c2
  {
    hide Concretize, IsCommitOf, PendingIsLogged;
  }

  /** Node 2 just promoted, with a entries applied and more in its log. */
  function Promoted(es: seq<Entry>, txs: seq<Tx>, a: nat): Cluster
    requires a <= |es| && a <= |txs|
  {
    Beside(es, txs, Second(es, txs, a, a, 2, 2, true), a)
  }

  /** Node 2 after its one catch-up to b, when d entries are decided. */
  function Behind(es: seq<Entry>, txs: seq<Tx>, b: nat, d: nat): Cluster
    requires b <= |txs| && d <= |es|
  {
    Beside(es, txs, Second(es, txs, b, d, 2, 2, false), d)
  }

  lemma ReachPromoted(v: Variant, es: seq<Entry>, txs: seq<Tx>, a: nat)
    requires v.startsAtFirst && Logged(es, txs) && 0 < a <= |es|
    ensures Reachable(v, Promoted(es, txs, a))
  {
    hide Enabled, After, Reachable, IsCommitOf, Second, Beside;
    SecondFollows(v, es, txs);
    SecondApplies(v, es, txs, 0, a, 1, false);
    SecondIsPromoted(v, es, txs, a);
    var c := Beside(es, txs, Second(es, txs, a, a, 1, 1, false), a);
    var c1 := After(v, c, ChangeView(2, 2));
    Reach(v, c, ChangeView(2, 2), c1);
    Reach(v, c1, NoticeLeader(2), Promoted(es, txs, a));
  }

  lemma ReachBehind(v: Variant, es: seq<Entry>, txs: seq<Tx>, a: nat, b: nat, d: nat)
    requires v.startsAtFirst && Logged(es, txs) && 0 < a < b <= d <= |es|
    ensures Reachable(v, Behind(es, txs, b, d))
  {
    hide Reachable, IsCommitOf, Concretize, Beside;
    ReachPromoted(v, es, txs, a);
    SecondApplies(v, es, txs, a, b, 2, true);
    SecondLearns(v, es, txs, Second(es, txs, b, b, 2, 2, false), d);
  }

  // ---------- Node 2 leads without ever having followed ----------

  lemma FreshTakesOver(v: Variant, es: seq<Entry>, txs: seq<Tx>)
    requires Logged(es, txs)
    ensures Reachable(v, Beside(es, txs, Second(es, txs, 0, 0, 2, 2, false), 0))
  {
    hide IsCommitOf, LeadsTo, Concretize, Enabled, After, FreshNode;
    var start, c := Initial({1, 2}), Beside(es, txs, FreshNode(2), 0);
    FirstWrote(v, es, txs);
    IsFresh(2);
    FreshListens(v, c, 2, 1);
    var n := Listener(2, [], 1, None);
    LeadsOn(v, start, c, ChangeView(2, 1), With(c, n));
    TakesLog(v, With(c, n), 2, 1);
    var c1 := Beside(es, txs, n.(omni := n.omni.(log := es)), 0);
    LeadsOn(v, start, With(c, n), Sync(2, es), c1);
    assert txs[..0] == [];
    LeadsAtOnce(v, es, txs);
    var c2 := After(v, c1, ChangeView(2, 2));
    LeadsOn(v, start, c1, ChangeView(2, 2), c2);
    LeadsOn(v, start, c2, NoticeLeader(2), Beside(es, txs, Second(es, txs, 0, 0, 2, 2, false), 0));
  }

  lemma IsFresh(i: NodeId)
    ensures FreshNode(i).id == i
  {
  }

  lemma LeadsAtOnce(v: Variant, es: seq<Entry>, txs: seq<Tx>)
    requires |es| == |txs|
    ensures var c := Beside(es, txs, Listener(2, es, 1, None), 0);
            var c1 := After(v, c, ChangeView(2, 2));
            && Enabled(v, c, ChangeView(2, 2)) && Enabled(v, c1, NoticeLeader(2))
            && After(v, c1, NoticeLeader(2)) == Beside(es, txs, Second(es, txs, 0, 0, 2, 2, false), 0)
  {
    hide Concretize, PendingIsLogged, ApplyReplicated, ApplyGuard;
    assert txs[..0] == [];
  }

  lemma FreshReachesBehind(v: Variant, es: seq<Entry>, txs: seq<Tx>, d: nat)
    requires Logged(es, txs) && d <= |es|
    ensures Reachable(v, Behind(es, txs, 0, d))
  {
    hide Reachable, IsCommitOf, Concretize, Beside;
    FreshTakesOver(v, es, txs);
    SecondLearns(v, es, txs, Second(es, txs, 0, 0, 2, 2, false), d);
  }

  // ---------- What then goes wrong ----------

  /** A client may write at once on a node so promoted, and its entry then carries an offset that is not its position. */
  lemma EarlyCommitIsMisplaced(v: Variant, es: seq<Entry>, txs: seq<Tx>, a: nat, tx: Tx, data: TxData)
    requires Logged(es, txs) && a < |es| && (a == 0 || v.startsAtFirst) && IsCommitOf(data, tx)
    ensures var c := if a == 0 then Behind(es, txs, 0, 0) else Promoted(es, txs, a);
            var step := ClientCommit(2, tx, data);
            && Reachable(v, c) && IsLeader(c.nodes[2]) && !Enabled(v, c, step)
            && After(v, c, step).nodes[2].omni.log == es + [Entry(a, data)]
  {
    hide Reachable, IsCommitOf, Concretize, Commit;
    ConcreteShape(txs[..a], a);
    if a == 0 {
      FreshReachesBehind(v, es, txs, 0);
    } else {
      ReachPromoted(v, es, txs, a);
    }
  }

  /** Once that entry is decided, the durable offset is the misplaced one, although as many entries as there are precede it. */
  lemma EarlyCommitIsDurable(v: Variant, es: seq<Entry>, txs: seq<Tx>, a: nat, tx: Tx, data: TxData)
    requires Logged(es, txs) && a < |es| && (a == 0 || v.startsAtFirst) && IsCommitOf(data, tx)
    ensures var c := if a == 0 then Behind(es, txs, 0, 0) else Promoted(es, txs, a);
            var o := After(v, c, ClientCommit(2, tx, data)).nodes[2].omni;
            |o.log| == |es| + 1 && DurableOffset(o.(decided := |es| + 1)) == Some(a)
  {
    hide IsCommitOf, Concretize, Commit, LeadsTo;
    var c := if a == 0 then Behind(es, txs, 0, 0) else Promoted(es, txs, a);
    EarlyCommitIsMisplaced(v, es, txs, a, tx, data);
    DurableOffsetIsInTheEntry(After(v, c, ClientCommit(2, tx, data)).nodes[2].omni.(decided := |es| + 1));
  }

  lemma BehindApplies(v: Variant, es: seq<Entry>, txs: seq<Tx>, b: nat, d: nat)
    requires Logged(es, txs) && b < d <= |es| && Reachable(v, Behind(es, txs, b, d))
    ensures var n := Behind(es, txs, b, d).nodes[2];
            && !ApplyGuard(v, n) && ApplyReplicated(v, n).Some?
            && Applied(ApplyReplicated(v, n).value) == d && ApplyReplicated(v, n).value.store.state == Fold(txs[..b])
  {
    hide Concretize, Effects, NodeOk, Reachable, IsCommitOf, ApplyReplicated, Fold;
    var c := Behind(es, txs, b, d);
    var n := c.nodes[2];
    ReachableIsOk(v, c);
    MemberOk(c, 2);
    LoggedEffects(es, txs);
    ConcreteShape(txs[..b], b);
    assert es[..d][..b] == es[..b];
    UncoveredLeaderSkips(v, es[..d], n);
  }

  /**
   * The next apply of a leader that is behind claims every decided entry and leaves out the transactions it lacks. Such
   * leaders are reached with any b > 1 entries applied when the reading starts at the first, and with none in every form
   * of the code.
   */
  lemma UncoveredLeader(v: Variant, es: seq<Entry>, txs: seq<Tx>, b: nat, d: nat)
    requires Logged(es, txs) && b < d <= |es| && (b == 0 || (v.startsAtFirst && b > 1))
    ensures var c := Behind(es, txs, b, d);
            && Reachable(v, c) && !Enabled(v, c, ApplyDecided(2))
            && (Unsafe(After(v, c, ApplyDecided(2)), 2) <==> Fold(txs[..b]) != Fold(txs[..d]))
  {
    hide Concretize, Effects, LeadsTo, IsCommitOf, ApplyReplicated, ApplyGuard, Fold;
    if b == 0 {
      FreshReachesBehind(v, es, txs, d);
    } else {
      ReachBehind(v, es, txs, 1, b, d);
    }
    BehindApplies(v, es, txs, b, d);
    LoggedEffects(es, txs);
    assert es[..d][..d] == es[..d];
  }

  /** A write that differs from the one before it makes both runs unsafe, in both forms of the advance. */
  lemma UncoveredLeaderIsUnsafe(v: Variant, x: Text, y: Text, b: nat)
    requires x != y && |x| < TWO32 && |y| < TWO32 && (b == 0 || (b == 2 && v.startsAtFirst))
    ensures var values := [x, x, y];
            var c := Behind(WrittenEntries(values), Writes(values), b, 3);
            Reachable(v, c) && Unsafe(After(v, c, ApplyDecided(2)), 2)
  {
    hide Reachable, IsCommitOf, Behind, After, Enabled, Unsafe, Fold, WrittenData, Writing;
    var values := [x, x, y];
    WritesAreLogged(values);
    UncoveredLeader(v, WrittenEntries(values), Writes(values), b, 3);
    LastWriteShows(values, 3);
    if b == 2 {
      LastWriteShows(values, 2);
    } else {
      assert Writes(values)[..0] == [];
      NothingShows();
    }
  }

  lemma NothingShows()
    ensures Look(Fold([]), KEY) == None
  {
  }
}
