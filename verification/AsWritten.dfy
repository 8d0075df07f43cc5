/**
 * What the code as written does by itself, without any view that moves too fast: reachable clusters in which the next
 * apply drops diffs or skips the first entry, and the replicated tables that come of it.
 */
module AsWritten {
  import opened Cluster
  import opened Hazards
  import opened Histories
  import opened LossyReplay
  import opened NodeApply
  import opened NodeGuards
  import opened NodeInvariant
  import opened NodeSpec
  import opened OmniPaxos
  import opened Refinement
  import opened Replaying
  import opened Runs
  import opened Scenario
  import opened Store
  import opened Uncovered
  import opened Varint
  import opened Wrappers

  // ---------- A leader that applies while it has more pending ----------

  /** Node 1 leads and has committed everything; it has applied a entries, and knows d to be decided. */
  function Leading(s: Store, es: seq<Entry>, a: nat, d: nat, promoted: bool): Cluster
    requires d <= |es|
  {
    var n1 := NodeState(1, s, Omni(es, d, Some(1)), if a == 0 then None else Some(a - 1), Some(1), promoted);
    Pair(n1, FreshNode(2), es[..d])
  }

  lemma LeadingLearns(v: Variant, start: Cluster, s: Store, es: seq<Entry>, a: nat, d: nat, e: nat, promoted: bool)
    requires d <= e <= |es| && LeadsTo(v, start, Leading(s, es, a, d, promoted))
    ensures LeadsTo(v, start, Leading(s, es, a, e, promoted))
  {
    hide LeadsTo;
    var c := Leading(s, es, a, d, promoted);
    assert Learned(c, 1, es, d) == c;
    LearnsMore(v, start, c, 1, 1, es, d, e);
    assert Learned(c, 1, es, e) == Leading(s, es, a, e, promoted);
  }

  lemma LeadingReached(v: Variant, es: seq<Entry>, txs: seq<Tx>, d: nat)
    requires Logged(es, txs) && d <= |es|
    ensures Reachable(v, Leading(Concretize(txs, 0), es, 0, d, false))
  {
    hide LeadsTo, IsCommitOf, Concretize;
    var start := Initial({1, 2});
    LeadsToItself(v, start);
    FreshWrites(v, start, start, 1, es, txs);
    assert With(start, Writer(1, es, txs, Some(1), false)) == Leading(Concretize(txs, 0), es, 0, 0, false);
    LeadingLearns(v, start, Concretize(txs, 0), es, 0, 0, d, false);
  }

  lemma LeadingApplies(v: Variant, s: Store, es: seq<Entry>, a: nat, d: nat)
    requires a < d <= |es| == s.next && es[d - 1].txOffset == d - 1
    ensures After(v, Leading(s, es, a, d, false), ApplyDecided(1)) == Leading(Advance(v.keepsRest, s, d - 1), es, d, d, false)
    ensures d == s.next ==> Enabled(v, Leading(s, es, a, d, false), ApplyDecided(1))
  {
    hide Advance, Effect, Fold;
  }

  /** The store of node 1 after it applied d of its entries. */
  function Struck(v: Variant, txs: seq<Tx>, d: nat): Store
    requires 0 < d <= |txs|
  {
    Advance(v.keepsRest, Concretize(txs, 0), d - 1)
  }

  /**
   * A leader commits everything, applies the first d entries while the others are pending, and then, all steps but that
   * first apply enabled, the rest. Its table is wrong exactly if a key that has one single diff after position d shows
   * a value there that it did not have before.
   */
  lemma AdvanceDropsUpdates(v: Variant, es: seq<Entry>, txs: seq<Tx>, d: nat)
    requires !v.keepsRest && Logged(es, txs) && 0 < d < |es|
    ensures var c, e := Leading(Concretize(txs, 0), es, 0, d, false), |es|;
            var c1, c2 := After(v, c, ApplyDecided(1)), Leading(Struck(v, txs, d), es, d, |es|, false);
            && Reachable(v, c) && (Enabled(v, c, ApplyDecided(1)) <==> NothingBeyond(txs, d))
            && LeadsTo(v, c1, c2) && Enabled(v, c2, ApplyDecided(1))
            && (Unsafe(After(v, c2, ApplyDecided(1)), 1)
                <==> exists k :: |Hist(txs, d, k)| == 1 && Look(Fold(txs[..d]), k) != Look(Fold(txs), k))
  {
    hide LeadsTo, IsCommitOf, Concretize, Advance, Effects, Hist, Fold, ApplyReplicated, NothingBeyond;
    var s, e := Concretize(txs, 0), |es|;
    LeadingReached(v, es, txs, d);
    ConcreteShape(txs, 0);
    AdvanceShape(v.keepsRest, s, d - 1);
    LeadingApplies(v, s, es, 0, d);
    LeadingGuard(v, es, txs, d);
    var c1 := Leading(Struck(v, txs, d), es, d, d, false);
    LeadsToItself(v, c1);
    LeadingLearns(v, c1, Struck(v, txs, d), es, d, d, e, false);
    LeadingApplies(v, Struck(v, txs, d), es, d, e);
    LoggedEffects(es, txs);
    assert txs[..e] == txs && es[..e][..e] == es;
    TwoAdvances(v, txs, d);
  }

  lemma LeadingGuard(v: Variant, es: seq<Entry>, txs: seq<Tx>, d: nat)
    requires !v.keepsRest && Logged(es, txs) && 0 < d < |es|
    ensures Enabled(v, Leading(Concretize(txs, 0), es, 0, d, false), ApplyDecided(1)) <==> NothingBeyond(txs, d)
  {
    hide IsCommitOf, Concretize, Effects, NothingBeyond, Fold;
    ConcreteShape(txs, 0);
    LoggedEffects(es, txs);
    assert es[..|es|] == es;
  }

  lemma TwoAdvances(v: Variant, txs: seq<Tx>, d: nat)
    requires !v.keepsRest && 0 < d < |txs|
    ensures Advance(false, Struck(v, txs, d), |txs| - 1).state != Fold(txs)
            <==> exists k :: |Hist(txs, d, k)| == 1 && Look(Fold(txs[..d]), k) != Look(Fold(txs), k)
  {
    hide Concretize, Advance, Hist, Fold;
    var state := Advance(false, Struck(v, txs, d), |txs| - 1).state;
    assert txs[..|txs|] == txs;
    forall k ensures Look(state, k) == if |Hist(txs, d, k)| == 1 then Look(Fold(txs[..d]), k) else Look(Fold(txs), k) {
      AsWrittenLosesUpdates(txs, 0, d - 1, |txs| - 1, k);
    }
    if forall k :: Look(state, k) == Look(Fold(txs), k) {
      SameLooks(state, Fold(txs));
    }
  }

  lemma SecondOfTwo(x: Text, y: Text)
    ensures |Hist(Writes([x, y]), 1, KEY)| == 1
  {
    var txs := Writes([x, y]);
    assert Hist(txs[..1], 1, KEY) == [];
  }

  /** Two writes of one key are enough: the second never arrives. */
  lemma SecondWriteNeverArrives(v: Variant, x: Text, y: Text)
    requires !v.keepsRest && x != y && |x| < TWO32 && |y| < TWO32
    ensures var es, txs := WrittenEntries([x, y]), Writes([x, y]);
            var c := Leading(Concretize(txs, 0), es, 0, 1, false);
            && Reachable(v, c)
            && Unsafe(EndOf(v, c, [ApplyDecided(1), Decide(1), Learn(1), ApplyDecided(1)]), 1)
  {
    hide LeadsTo, IsCommitOf, Concretize, Advance, Fold, After, Enabled, Unsafe, Hist, Writing, WrittenData;
    var es, txs := WrittenEntries([x, y]), Writes([x, y]);
    WritesAreLogged([x, y]);
    AdvanceDropsUpdates(v, es, txs, 1);
    SecondOfTwo(x, y);
    LastWriteShows([x, y], 1);
    LastWriteShows([x, y], 2);
    assert txs[..2] == txs;
    var c := Leading(Concretize(txs, 0), es, 0, 1, false);
    ConcreteShape(txs, 0);
    LeadingApplies(v, Concretize(txs, 0), es, 0, 1);
    LearnsOnce(v, Struck(v, txs, 1), es);
    FourSteps(v, c, ApplyDecided(1), Decide(1), Learn(1), ApplyDecided(1));
  }

  lemma LearnsOnce(v: Variant, s: Store, es: seq<Entry>)
    requires |es| == 2
    ensures After(v, After(v, Leading(s, es, 1, 1, false), Decide(1)), Learn(1)) == Leading(s, es, 1, 2, false)
  {
    var c := Leading(s, es, 1, 1, false);
    assert Learned(c, 1, es, 1) == c && Learned(c, 1, es, 2) == Leading(s, es, 1, 2, false);
    LearnsOne(v, c, 1, 1, es, 1);
  }

  lemma FourSteps(v: Variant, c: Cluster, s: Step, t: Step, u: Step, w: Step)
    ensures EndOf(v, c, [s, t, u, w]) == After(v, After(v, After(v, After(v, c, s), t), u), w)
  {
    hide After;
    var c1 := After(v, c, s);
    var c2 := After(v, c1, t);
    var c3 := After(v, c2, u);
    assert [s, t, u, w][1..] == [t, u, w] && [t, u, w][1..] == [u, w] && [u, w][1..] == [w] && [w][1..] == [];
    assert EndOf(v, c3, [w]) == EndOf(v, After(v, c3, w), []);
    assert EndOf(v, c2, [u, w]) == EndOf(v, c3, [w]);
    assert EndOf(v, c1, [t, u, w]) == EndOf(v, c2, [u, w]);
  }

  // ---------- A promotion flag that outlives the promotion ----------

  /** Promoted with nothing to apply, node 1 keeps its flag while it commits. */
  lemma FlagStaysUp(v: Variant)
    ensures Reachable(v, Leading(EMPTY, [], 0, 0, true))
  {
    hide LeadsTo, Concretize, Enabled, After, FreshNode;
    var start := Initial({1, 2});
    LeadsToItself(v, start);
    assert start.nodes[1] == FreshNode(1) by {
      StartsFresh();
    }
    ListenerReached(v, start, start, 1, 2);
    var c := With(start, Listener(1, [], 2, Some(2)));
    PromotedAgain(v, c);
    var c1 := After(v, c, ChangeView(1, 1));
    LeadsOn(v, start, c, ChangeView(1, 1), c1);
    LeadsOn(v, start, c1, NoticeLeader(1), With(c, Writer(1, [], [], Some(1), true)));
    StartsLeading();
  }

  lemma StartsFresh()
    ensures Initial({1, 2}).nodes[1] == FreshNode(1) && Initial({1, 2}).nodes[2] == FreshNode(2)
  {
  }

  lemma StartsLeading()
    ensures With(With(Initial({1, 2}), Listener(1, [], 2, Some(2))), Writer(1, [], [], Some(1), true))
            == Leading(EMPTY, [], 0, 0, true)
  {
    hide Concretize;
    EmptyIsConcrete();
  }

  lemma PromotedAgain(v: Variant, c: Cluster)
    requires 1 in c.nodes && c.nodes[1] == Listener(1, [], 2, Some(2))
    ensures var c1 := After(v, c, ChangeView(1, 1));
            && Enabled(v, c, ChangeView(1, 1)) && Enabled(v, c1, NoticeLeader(1))
            && After(v, c1, NoticeLeader(1)) == With(c, Writer(1, [], [], Some(1), true))
  {
    hide Concretize, PendingIsLogged;
  }

  lemma FlaggedReached(v: Variant, es: seq<Entry>, txs: seq<Tx>, d: nat)
    requires Logged(es, txs) && d <= |es|
    ensures Reachable(v, Leading(Concretize(txs, 0), es, 0, d, true))
  {
    hide LeadsTo, IsCommitOf, Concretize;
    var start, c := Initial({1, 2}), Leading(EMPTY, [], 0, 0, true);
    FlagStaysUp(v);
    EmptyIsConcrete();
    assert With(c, Writer(1, [], [], Some(1), true)) == c;
    WriterWrites(v, start, c, 1, es, txs, Some(1), true);
    assert With(c, Writer(1, es, txs, Some(1), true)) == Leading(Concretize(txs, 0), es, 0, 0, true);
    LeadingLearns(v, start, Concretize(txs, 0), es, 0, 0, d, true);
  }

  lemma FlaggedApplies(v: Variant, es: seq<Entry>, txs: seq<Tx>, d: nat)
    requires !v.keepsRest && Logged(es, txs) && FirstEver(v) < d < |es|
    ensures var n, r := Leading(Concretize(txs, 0), es, 0, d, true).nodes[1], FirstEver(v);
            var o := ApplyReplicated(v, n);
            && (ApplyGuard(v, n) <==> LossIsInvisible(es, FirstEver(v), d, |es|)) && !Deposed(n)
            && o.Some? && Applied(o.value) == d && o.value.store.state == Fold(txs[..FirstEver(v) + 1])
  {
    hide Concretize, Effects, IsCommitOf, ApplyReplicated, Fold, LossIsInvisible;
    var n := Leading(Concretize(txs, 0), es, 0, d, true).nodes[1];
    ConcreteShape(txs, 0);
    LoggedEffects(es, txs);
    ReplayReplicatesOwn(v, n, txs);
    EffectsLength(es[d..d]);
    assert OwnInstead(v, txs, es, FirstEver(v), d) == txs[..FirstEver(v) + 1];
  }

  /**
   * A leader whose flag is still up replays its own entries before the last is decided: it keeps one transaction of those
   * it reads and loses the others, in the loop as written.
   */
  lemma FlaggedLeaderLosesItsOwn(v: Variant, es: seq<Entry>, txs: seq<Tx>, d: nat)
    requires !v.keepsRest && Logged(es, txs) && FirstEver(v) < d < |es|
    ensures var c := Leading(Concretize(txs, 0), es, 0, d, true);
            && Reachable(v, c)
            && (Enabled(v, c, ApplyDecided(1)) <==> LossIsInvisible(es, FirstEver(v), d, |es|))
            && (Unsafe(After(v, c, ApplyDecided(1)), 1) <==> Fold(txs[..FirstEver(v) + 1]) != Fold(txs[..d]))
  {
    hide Concretize, Effects, IsCommitOf, ApplyReplicated, ApplyGuard, Fold, LossIsInvisible, LeadsTo;
    FlaggedReached(v, es, txs, d);
    FlaggedApplies(v, es, txs, d);
    LoggedEffects(es, txs);
    assert es[..d][..d] == es[..d];
  }

  /**
   * With every entry decided that same leader advances, in every form of the code, and has the decided table: its current
   * offset is the decided one, so nothing is read.
   */
  lemma FlaggedLeaderLevel(v: Variant, es: seq<Entry>, txs: seq<Tx>)
    requires Logged(es, txs) && es != []
    ensures var d := |es|;
            var c := Leading(Concretize(txs, 0), es, 0, d, true);
            && Reachable(v, c) && Enabled(v, c, ApplyDecided(1))
            && After(v, c, ApplyDecided(1)) == Leading(Concretize(txs, d), es, d, d, false)
            && !Unsafe(After(v, c, ApplyDecided(1)), 1)
  {
    hide Concretize, Effects, IsCommitOf, ApplyReplicated, Fold, LeadsTo, NodeOk, NothingBeyond;
    var d := |es|;
    var c := Leading(Concretize(txs, 0), es, 0, d, true);
    FlaggedReached(v, es, txs, d);
    ReachableIsOk(v, c);
    MemberOk(c, 1);
    LoggedEffects(es, txs);
    ConcreteShape(txs, 0);
    ConcreteShape(txs, d);
    assert es[..d] == es && txs[..d] == txs;
    FlaggedLeaderAdvances(v, es, c.nodes[1]);
    LevelMayApply(v, es, c.nodes[1]);
  }

  lemma LevelMayApply(v: Variant, decided: seq<Entry>, n: NodeState)
    requires NodeOk(decided, n) && IsLeader(n) && n.store.next == n.omni.decided
    requires HasNews(n) ==> LeaderAdvances(n)
    ensures ApplyGuard(v, n)
  {
    hide LogOk, Concretize, HoldsAHistory, Effect;
  }

  lemma FlaggedLeaderIsUnsafe(v: Variant, x: Text, y: Text)
    requires !v.keepsRest && x != y && |x| < TWO32 && |y| < TWO32
    ensures var j := FirstEver(v);
            var values := Copies(x, j + 1) + [y, y];
            var c := Leading(Concretize(Writes(values), 0), WrittenEntries(values), 0, j + 2, true);
            Reachable(v, c) && Unsafe(After(v, c, ApplyDecided(1)), 1)
  {
    hide LeadsTo, IsCommitOf, Concretize, Fold, After, Enabled, Unsafe, Writing, WrittenData, Writes, WrittenEntries;
    var j := FirstEver(v);
    var values := Copies(x, j + 1) + [y, y];
    WritesAreLogged(values);
    WritesLength(values);
    FlaggedLeaderLosesItsOwn(v, WrittenEntries(values), Writes(values), j + 2);
    LastWriteShows(values, j + 1);
    LastWriteShows(values, j + 2);
  }

  lemma WritesLength(values: seq<Text>)
    ensures |Writes(values)| == |WrittenEntries(values)| == |values|
  {
  }

  // ---------- A follower that starts behind the first entry ----------

  lemma FollowerReached(v: Variant, es: seq<Entry>, txs: seq<Tx>, d: nat)
    requires Logged(es, txs) && d <= |es|
    ensures Reachable(v, Beside(es, txs, Second(es, txs, 0, d, 1, 1, false), d))
  {
    hide LeadsTo, IsCommitOf, Concretize, Beside;
    SecondFollows(v, es, txs);
    SecondLearns(v, es, txs, Second(es, txs, 0, 0, 1, 1, false), d);
  }

  lemma FollowerSkips(v: Variant, es: seq<Entry>, txs: seq<Tx>, d: nat)
    requires !v.startsAtFirst && Logged(es, txs) && 1 < d <= |es|
    requires NodeOk(es[..d], Second(es, txs, 0, d, 1, 1, false))
    ensures var n := Second(es, txs, 0, d, 1, 1, false);
            var r := ApplyReplicated(v, n);
            && !ApplyGuard(v, n) && r.Some? && Applied(r.value) == d && r.value.store.state == Fold([txs[1]])
            && !AtReplicated(r.value.store)
  {
    hide Concretize, Effect, IsCommitOf, ApplyReplicated, Fold, NodeOk, LogOk;
    var n := Second(es, txs, 0, d, 1, 1, false);
    ConcreteShape(txs[..0], 0);
    LoggedEffects(es, txs);
    assert Effects(es)[1] == txs[1];
    SkippedStartIsStuck(v, es[..d], n);
  }

  /**
   * A follower that is promoted before its first apply asks an empty datastore for its offset: the leader check panics, in
   * every form of the code, with the flag up and nothing noticed.
   */
  lemma PromotedTooEarlyPanics(v: Variant, es: seq<Entry>, txs: seq<Tx>, d: nat)
    requires Logged(es, txs) && 0 < d <= |es|
    ensures var c := Beside(es, txs, Second(es, txs, 0, d, 2, 1, false), d);
            && Reachable(v, c) && UpdateLeader(v, c.nodes[2]).None?
            && After(v, c, NoticeLeader(2)) == Beside(es, txs, Second(es, txs, 0, d, 2, 1, true), d)
  {
    hide Concretize, Effects, IsCommitOf, UpdateLeader, LeadsTo, NodeOk, Enabled;
    var c0, c := Beside(es, txs, Second(es, txs, 0, d, 1, 1, false), d), Beside(es, txs, Second(es, txs, 0, d, 2, 1, false), d);
    FollowerReached(v, es, txs, d);
    ViewComes(v, es, txs, d);
    Reach(v, c0, ChangeView(2, 2), c);
    ReachableIsOk(v, c);
    MemberOk(c, 2);
    ConcreteShape(txs[..0], 0);
    NoticingPanicsExactlyWhenEmpty(v, es[..d], c.nodes[2]);
  }

  lemma ViewComes(v: Variant, es: seq<Entry>, txs: seq<Tx>, d: nat)
    requires Logged(es, txs) && d <= |es|
    ensures var c := Beside(es, txs, Second(es, txs, 0, d, 1, 1, false), d);
            && Enabled(v, c, ChangeView(2, 2))
            && After(v, c, ChangeView(2, 2)) == Beside(es, txs, Second(es, txs, 0, d, 2, 1, false), d)
  {
    hide Concretize, IsCommitOf, PendingIsLogged;
  }

  /**
   * With the reading as written, a follower that first applies when two or more entries are decided has, from then on, the
   * table of the second transaction alone, and refuses every replay.
   */
  lemma FollowerSkipsFirst(v: Variant, es: seq<Entry>, txs: seq<Tx>, d: nat)
    requires !v.startsAtFirst && Logged(es, txs) && 1 < d <= |es|
    ensures var c := Beside(es, txs, Second(es, txs, 0, d, 1, 1, false), d);
            && Reachable(v, c) && !Enabled(v, c, ApplyDecided(2))
            && (Unsafe(After(v, c, ApplyDecided(2)), 2) <==> Fold([txs[1]]) != Fold(txs[..d]))
            && !AtReplicated(After(v, c, ApplyDecided(2)).nodes[2].store)
  {
    hide Concretize, Effects, IsCommitOf, ApplyReplicated, ApplyGuard, Fold, LeadsTo, NodeOk;
    var c := Beside(es, txs, Second(es, txs, 0, d, 1, 1, false), d);
    FollowerReached(v, es, txs, d);
    ReachableIsOk(v, c);
    MemberOk(c, 2);
    FollowerSkips(v, es, txs, d);
    LoggedEffects(es, txs);
    assert es[..d][..d] == es[..d];
  }

  lemma FollowerSkipsFirstIsUnsafe(v: Variant, x: Text, y: Text)
    requires !v.startsAtFirst && x != y && |x| < TWO32 && |y| < TWO32
    ensures var es, txs := WrittenEntries([x, x, y]), Writes([x, x, y]);
            var c := Beside(es, txs, Second(es, txs, 0, 3, 1, 1, false), 3);
            Reachable(v, c) && Unsafe(After(v, c, ApplyDecided(2)), 2)
  {
    hide LeadsTo, IsCommitOf, Concretize, Fold, After, Enabled, Unsafe, WrittenData, Beside, Second;
    var es, txs := WrittenEntries([x, x, y]), Writes([x, x, y]);
    WritesAreLogged([x, x, y]);
    FollowerSkipsFirst(v, es, txs, 3);
    LastWriteShows([x, x, y], 3);
    LastWriteShows([x], 1);
    assert Writes([x])[..1] == [txs[1]];
  }
}
