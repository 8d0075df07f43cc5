/** The guard that each operation of a node needs to keep the invariant, and that none can do with less. */
module NodeGuards {
  import opened LossyReplay
  import opened NodeApply
  import opened NodeInvariant
  import opened Histories
  import opened NodeSpec
  import opened OmniPaxos
  import opened Refinement
  import opened Replaying
  import opened Store
  import opened TxData
  import opened Wrappers

  // ---------- The guard of an apply is exact ----------

  /** Once the replicated offset has outrun the next offset, every further replay is rejected and the table stays. */
  lemma {:induction false} ReplayIsStuck(v: Variant, n: NodeState, j: nat, d: nat)
    requires LogOk(n.omni.log) && 1 < j <= d <= |n.omni.log|
    requires n.store.next == 1 && n.store.replicated == n.lastApplied == Some(j - 1) && n.store.pending == map[]
    ensures ApplyEntries(v, n, n.omni.log[j..d])
            == Some(n.(store := n.store.(replicated := Some(d - 1)), lastApplied := Some(d - 1)))
    decreases d - j
  {
    hide Advance, Readable;
    var log := n.omni.log;
    if j < d {
      assert log[j..d][0] == log[j] && log[j..d][1..] == log[j + 1..d];
      AdvanceWithNothingPending(v.keepsRest, n.store, j);
      ReplayIsStuck(v, n.(store := n.store.(replicated := Some(j)), lastApplied := Some(j)), j + 1, d);
    }
  }

  /** What a replay of entry 1 makes of a store that lacks it: nothing of entry 0 if the store was empty. */
  function TableOfSkipped(decided: seq<Entry>, n: NodeState): Table
    requires |decided| > 1
  {
    Fold([Effect(decided[if n.store.next == 0 then 1 else 0].txData)])
  }

  lemma SkippedEntry(v: Variant, decided: seq<Entry>, n: NodeState)
    requires NodeOk(decided, n) && !Deposed(n) && n.lastApplied.None? && n.omni.decided > 1 && n.store.next <= 1
    ensures ApplyEntry(v, n, n.omni.log[1])
            == Some(n.(store := Store(1, Some(1), TableOfSkipped(decided, n), map[]), lastApplied := Some(1)))
  {
    hide Advance, Readable, Effect, Replay;
    var log, e := n.omni.log, n.omni.log[1];
    assert log[1] == decided[1] && log[0] == decided[0] by {
      assert log[..n.omni.decided][1] == log[1] && log[..n.omni.decided][0] == log[0];
    }
    var live := Effects(log[..n.store.next]);
    ReplayRefines(live, 0, e.txData);
    if n.store.next == 0 {
      assert live + [Effect(e.txData)] == [Effect(e.txData)];
      NothingPendingWhenReplicated([Effect(e.txData)]);
      AdvanceWithNothingPending(v.keepsRest, Concretize([Effect(e.txData)], 1), 1);
    } else {
      assert live == [Effect(log[0].txData)];
      AdvancePastTheEnd(v.keepsRest, live, 0, 1);
      NothingPendingWhenReplicated(live);
    }
  }

  /**
   * The reading as written, started behind an entry that the node lacks, loses it and everything after: the node claims
   * every decided entry, its table stops after one transaction, and from then on it refuses every replay.
   */
  lemma SkippedStartIsStuck(v: Variant, decided: seq<Entry>, n: NodeState)
    requires NodeOk(decided, n) && !Deposed(n) && HasNews(n) && !UnwrapsNothing(n)
    requires !LeaderAdvances(n) && !StartsInside(v, n)
    ensures var d := n.omni.decided;
            && 1 < d <= |decided|
            && ApplyReplicated(v, n)
               == Some(n.(store := Store(1, Some(d - 1), TableOfSkipped(decided, n), map[]),
                          lastApplied := Some(d - 1), promoted := false))
            && !AtReplicated(ApplyReplicated(v, n).value.store)
  {
    hide ApplyEntry, Readable, Unapplied, Effects, Concretize, TableOfSkipped;
    var log, d := n.omni.log, n.omni.decided;
    NewsMeansUnapplied(decided, n);
    UnappliedIsSlice(v, decided, n);
    assert log[1..d][0] == log[1] && log[1..d][1..] == log[2..d];
    SkippedEntry(v, decided, n);
    ReplayIsStuck(v, ApplyEntry(v, n, log[1]).value, 2, d);
  }

  /** An advancing leader that lacks decided entries claims them without having them: its table stops at what it held. */
  lemma UncoveredLeaderSkips(v: Variant, decided: seq<Entry>, n: NodeState)
    requires NodeOk(decided, n) && !Deposed(n) && HasNews(n) && !UnwrapsNothing(n)
    requires LeaderAdvances(n) && n.omni.decided > n.store.next
    ensures var r := ApplyReplicated(v, n);
            r.Some? && Applied(r.value) == n.omni.decided && r.value.store.next == n.store.next
            && r.value == n.(store := r.value.store, lastApplied := r.value.lastApplied, promoted := false)
            && r.value.store.state == Fold(Effects(decided[..n.store.next]))
  {
    hide Advance, Readable, Effects;
    var log, d, next := n.omni.log, n.omni.decided, n.store.next;
    NewsMeansUnapplied(decided, n);
    assert log[..next] == log[..d][..next] == decided[..next];
    EffectsLength(log[..next]);
    AdvancePastTheEnd(v.keepsRest, Effects(log[..next]), Applied(n), d - 1);
    assert Effects(log[..next])[..next] == Effects(log[..next]);
  }

  /** With the loop as written, an advancing leader drops a pending diff whenever there is one beyond the decided count. */
  lemma AdvancingLeaderDrops(v: Variant, decided: seq<Entry>, n: NodeState)
    requires NodeOk(decided, n) && !Deposed(n) && HasNews(n) && !UnwrapsNothing(n) && LeaderAdvances(n)
    requires n.omni.decided <= n.store.next && !DropsNothing(v, Held(n), n.omni.decided)
    ensures ApplyReplicated(v, n).Some?
    ensures var n' := ApplyReplicated(v, n).value; !Deposed(n') && !StoreFollowsLog(n')
  {
    hide Advance, Concretize, Effects, NothingBeyond, LogOk;
    NewsMeansUnapplied(decided, n);
    EffectsLength(n.omni.log[..n.store.next]);
    AdvanceAsWrittenRefines(Effects(n.omni.log[..n.store.next]), Applied(n), n.omni.decided - 1);
    AdvanceShape(false, n.store, n.omni.decided - 1);
  }

  /** An apply keeps the invariant exactly under its guard, in every form of the code. */
  lemma ApplyGuardIsExact(v: Variant, decided: seq<Entry>, n: NodeState)
    requires NodeOk(decided, n) && !Deposed(n) && !UnwrapsNothing(n)
    ensures ApplyReplicated(v, n).Some?
    ensures NodeOk(decided, ApplyReplicated(v, n).value) <==> ApplyGuard(v, n)
  {
    hide ApplyReplicated, Effects, LogOk, Concretize, Held, TableOfSkipped, HoldsAHistory, LosesNothing, Lossy;
    if ApplyGuard(v, n) {
      ApplyKeepsNode(v, decided, n);
    } else if LeaderAdvances(n) {
      if n.omni.decided > n.store.next {
        UncoveredLeaderSkips(v, decided, n);
      } else {
        AdvancingLeaderDrops(v, decided, n);
      }
      assert !StoreFollowsLog(ApplyReplicated(v, n).value);
    } else if !StartsInside(v, n) {
      SkippedStartIsStuck(v, decided, n);
      assert !StoreFollowsLog(ApplyReplicated(v, n).value);
    } else {
      OverPendingLoses(v, decided, n);
    }
  }

  lemma OverPendingLoses(v: Variant, decided: seq<Entry>, n: NodeState)
    requires NodeOk(decided, n) && !Deposed(n) && HasNews(n) && !UnwrapsNothing(n)
    requires !v.keepsRest && !LeaderAdvances(n) && ReadsOverPending(v, n) && !LosesNothing(v, n)
    ensures ApplyReplicated(v, n).Some?
    ensures var n' := ApplyReplicated(v, n).value; !Deposed(n') && !StoreFollowsLog(n')
  {
    hide ApplyReplicated, Effects, LogOk, Concretize, Held, LosesNothing;
    EffectsLength(n.omni.log[..n.store.next]);
    ReplaysOverPending(v, decided, n);
  }

  // ---------- Leader changes ----------

  /** Only a promotion runs an apply inside. */
  predicate Promotes(n: NodeState) {
    n.currentLeader.Some? && n.currentLeader != Some(n.id) && IsLeader(n)
  }

  ghost predicate UpdateGuard(v: Variant, n: NodeState) {
    Promotes(n) ==> ApplyGuard(v, n.(promoted := true))
  }

  /** The promotion flag is not part of the invariant. */
  lemma FlagIsFree(decided: seq<Entry>, n: NodeState)
    requires NodeOk(decided, n)
    ensures NodeOk(decided, n.(promoted := true)) && Applied(n.(promoted := true)) == Applied(n)
  {
    hide LogOk, Concretize, Effects;
  }

  /** Rolling back leaves a deposed leader with exactly the decided transactions it has applied. */
  lemma RollbackFollowsLog(decided: seq<Entry>, n: NodeState)
    requires NodeOk(decided, n)
    ensures Rollback(n.store) == Concretize(Effects(n.omni.log[..Applied(n)]), Applied(n))
  {
    var a, log := Applied(n), n.omni.log;
    assert log[..a] == log[..n.omni.decided][..a] == decided[..n.omni.decided][..a] == decided[..a];
    EffectsLength(log[..a]);
    assert Effects(log[..a])[..a] == Effects(log[..a]);
  }

  /**
   * Noticing a leader change keeps the invariant, and afterwards no deposition is left unnoticed; it panics only
   * when the apply of a promotion asks an empty datastore for its offset.
   */
  lemma UpdateLeaderKeepsNode(v: Variant, decided: seq<Entry>, n: NodeState)
    requires NodeOk(decided, n) && UpdateGuard(v, n)
    ensures UpdateLeader(v, n).None? <==> Promotes(n) && n.store.next == 0 && n.omni.decided > 0
    ensures UpdateLeader(v, n).Some? ==>
              var n' := UpdateLeader(v, n).value;
              && NodeOk(decided, n') && n'.id == n.id && n'.omni == n.omni && Applied(n) <= Applied(n')
              && (n.omni.leader.Some? ==> !Deposed(n') && n'.currentLeader == n.omni.leader)
  {
    hide ApplyReplicated, ApplyGuard, Effects, LogOk, Concretize, Rollback;
    if Promotes(n) {
      ApplyKeepsNode(v, decided, n.(promoted := true));
    } else if Deposed(n) && n.omni.leader.Some? {
      RollbackFollowsLog(decided, n);
      RollbackShape(n.store);
      var n' := UpdateLeader(v, n).value;
      EffectsLength(n.omni.log[..Applied(n)]);
      ConcreteShape(Effects(n.omni.log[..Applied(n)]), Applied(n));
      FollowingLogIsReplicated(decided, n');
    }
  }

  /**
   * In any state that keeps the invariant a leader check panics exactly when a node that had noticed another leader finds
   * itself the leader, with an empty datastore, and knows of a decided entry.
   */
  lemma NoticingPanicsExactlyWhenEmpty(v: Variant, decided: seq<Entry>, n: NodeState)
    requires NodeOk(decided, n)
    ensures UpdateLeader(v, n).None?
            <==> && n.currentLeader.Some? && n.currentLeader != Some(n.id) && n.omni.leader == Some(n.id)
                 && n.store.next == 0 && n.omni.decided > 0
  {
    hide ApplyReplicated, Rollback, NodeOk;
    FlagIsFree(decided, n);
    ApplyPanicsExactlyWhenEmpty(v, decided, n.(promoted := true));
  }

  /**
   * A node with nothing pending that finds itself the leader catches up at once with every decided entry; its flag stays
   * up only if there was none to catch up with.
   */
  lemma PromotionCatchesUp(v: Variant, decided: seq<Entry>, n: NodeState)
    requires NodeOk(decided, n) && 0 < Applied(n) == n.store.next
    requires n.currentLeader.Some? && n.currentLeader != Some(n.id) && n.omni.leader == Some(n.id)
    ensures var d := n.omni.decided;
            UpdateLeader(v, n)
            == Some(n.(store := Concretize(Effects(n.omni.log[..d]), d), lastApplied := Some(d - 1),
                       currentLeader := n.omni.leader, promoted := Applied(n) == d))
  {
    hide ApplyReplicated, LogOk, Concretize, Effects, HoldsAHistory;
    var m := n.(promoted := true);
    FlagIsFree(decided, n);
    NewsMeansUnapplied(decided, m);
    EmptyLeaderUnwraps(decided, m);
    if HasNews(m) {
      ApplyByReplay(v, decided, m);
    } else {
      ApplyIdles(v, m);
    }
  }

  /** While the library names no leader, nothing is noticed, whatever the node noticed before. */
  lemma NoLeaderNothingNoticed(v: Variant, n: NodeState)
    requires n.omni.leader == None
    ensures UpdateLeader(v, n) == Some(n)
  {
  }

  /** Noticing a promotion keeps the invariant exactly under its guard. */
  lemma UpdateGuardIsExact(v: Variant, decided: seq<Entry>, n: NodeState)
    requires NodeOk(decided, n) && Promotes(n) && !UnwrapsNothing(n.(promoted := true))
    ensures UpdateLeader(v, n).Some?
    ensures NodeOk(decided, UpdateLeader(v, n).value) <==> UpdateGuard(v, n)
  {
    hide ApplyReplicated, ApplyGuard, Effects, LogOk, Concretize, HoldsAHistory;
    var m := n.(promoted := true);
    FlagIsFree(decided, n);
    ApplyGuardIsExact(v, decided, m);
    ApplyKeepsOmni(v, m);
  }

  lemma RollbackShape(s: Store)
    ensures Rollback(s).next == NextAfter(s.replicated) && Rollback(s).replicated == s.replicated
    ensures Rollback(s).state == s.state
  {
  }

  /**
   * Rollback then catch-up: whatever pending suffix a deposed leader had, noticing the new leader and applying
   * brings it to the very store of a fresh node that replays the decided entries from the first, exactly when the reading
   * does not skip that entry: when the node has applied some, is meant to start at the first, or there is none.
   */
  lemma DeposedLeaderConverges(v: Variant, decided: seq<Entry>, n: NodeState)
    requires NodeOk(decided, n) && Deposed(n) && n.omni.leader.Some?
    ensures UpdateLeader(v, n).Some? && ApplyReplicated(v, UpdateLeader(v, n).value).Some?
    ensures var d := n.omni.decided;
            ApplyReplicated(v, UpdateLeader(v, n).value).value.store == Concretize(Effects(decided[..d]), d)
            <==> ReadsFirst(v, n) || d == 0
    ensures var d := n.omni.decided;
            ReplayAll(EMPTY, DataOf(decided[..d])) == (Concretize(Effects(decided[..d]), d), true)
  {
    hide ApplyReplicated, Effects, Concretize, UpdateLeader, ReplayAll, HoldsAHistory, LogOk;
    var d := n.omni.decided;
    EffectsLength(decided[..d]);
    PrefixReadable(decided, n.omni, d);
    ReplayAllRefines(Effects(decided[..d]), DataOf(decided[..d]));
    UpdateLeaderKeepsNode(v, decided, n);
    DeposedRollsBack(v, n);
    FollowerConverges(v, decided, UpdateLeader(v, n).value);
  }

  lemma DeposedRollsBack(v: Variant, n: NodeState)
    requires Deposed(n) && n.omni.leader.Some?
    ensures UpdateLeader(v, n) == Some(n.(store := Rollback(n.store), currentLeader := n.omni.leader))
  {
  }

  /** A follower that applies ends with the store of the decided entries, or keeps lacking them for good. */
  lemma FollowerConverges(v: Variant, decided: seq<Entry>, n: NodeState)
    requires NodeOk(decided, n) && !Deposed(n) && !IsLeader(n)
    ensures ApplyReplicated(v, n).Some?
    ensures var d := n.omni.decided;
            ApplyReplicated(v, n).value.store == Concretize(Effects(decided[..d]), d) <==> ReadsFirst(v, n) || d == 0
  {
    hide ApplyReplicated, Effects, Concretize, TableOfSkipped, HoldsAHistory, LogOk;
    var d := n.omni.decided;
    EffectsLength(decided[..d]);
    ConcreteShape(Effects(decided[..d]), d);
    assert n.omni.log[..d] == decided[..d];
    if StartsInside(v, n) {
      FollowerGuard(v, decided, n);
      ApplyKeepsNode(v, decided, n);
      NewsMeansUnapplied(decided, n);
      if HasNews(n) && !ReadsFirst(v, n) {
        ApplyReadsNothing(v, decided, n);
      }
    } else {
      NewsMeansUnapplied(decided, n);
      SkippedStartIsStuck(v, decided, n);
    }
  }

  function DataOf(es: seq<Entry>): seq<TxData> {
    seq(|es|, i requires 0 <= i < |es| => es[i].txData)
  }

  lemma PrefixReadable(decided: seq<Entry>, o: Omni, d: nat)
    requires OmniOk(decided, o) && d == o.decided
    ensures var datas, txs := DataOf(decided[..d]), Effects(decided[..d]);
            forall i | 0 <= i < d :: Readable(datas[i]) && Effect(datas[i]) == txs[i]
  {
    assert decided[..d] == o.log[..d];
  }

  /** A follower has nothing pending, so its guard is only that the reading skips nothing it lacks. */
  lemma FollowerGuard(v: Variant, decided: seq<Entry>, n: NodeState)
    requires NodeOk(decided, n) && !Deposed(n) && !IsLeader(n)
    ensures !UnwrapsNothing(n) && (ApplyGuard(v, n) <==> (HasNews(n) ==> StartsInside(v, n)))
  {
    hide HoldsAHistory, LogOk, Concretize;
    NewsMeansUnapplied(decided, n);
  }

  // ---------- Leader views ----------

  /** The node's log has, up to the store's next offset, the very diffs that the store has pending. */
  ghost predicate PendingIsLogged(n: NodeState) {
    && n.store.next <= |n.omni.log|
    && forall k :: HistoryOf(n.store, k) == Hist(Effects(n.omni.log[..n.store.next]), Applied(n), k)
  }

  /**
   * What a change of view needs, where the library moves faster than the node looks. A node that has not noticed that it
   * was deposed may lead again only over a log that still has what its store has pending, and a node that has not
   * noticed that it leads may lose the leadership only with nothing pending.
   */
  ghost predicate ViewGuard(n: NodeState, leader: NodeId) {
    && (leader == n.id && Deposed(n) ==> PendingIsLogged(n))
    && (leader != n.id && IsLeader(n) && n.currentLeader != Some(n.id) ==> n.store.next == Applied(n))
  }

  /** A store that holds some history represents the node's log exactly when its pending diffs are those of the log. */
  lemma PendingDecides(decided: seq<Entry>, n: NodeState)
    requires OmniOk(decided, n.omni) && ReplicatedIsDecided(decided, n) && HoldsAHistory(decided, n.store, Applied(n))
    ensures StoreFollowsLog(n) <==> PendingIsLogged(n)
  {
    hide LogOk, Concretize, Effects, Hist, Fold;
    var a, log := Applied(n), n.omni.log;
    var held :| Represents(n.store, held, a) && held[..a] == Effects(decided[..a]);
    ConcreteShape(held, a);
    if n.store.next <= |log| {
      var live := Effects(log[..n.store.next]);
      EffectsLength(log[..n.store.next]);
      AppliedIsLogPrefix(decided, n);
      EffectsOfPrefix(log[..n.store.next], a);
      assert log[..n.store.next][..a] == log[..a];
      SamePending(held, live, a);
    }
  }

  lemma SamePending(held: seq<Tx>, live: seq<Tx>, a: nat)
    requires a <= |held| == |live| && held[..a] == live[..a]
    ensures Concretize(held, a) == Concretize(live, a)
            <==> forall k :: HistoryOf(Concretize(held, a), k) == Hist(live, a, k)
  {
    hide Fold;
    var s, t := Concretize(held, a), Concretize(live, a);
    forall k ensures HistoryOf(t, k) == Hist(live, a, k) {
      HistoryOfConcrete(live, a, k);
    }
    ConcreteIsWellFormed(held, a);
    ConcreteIsWellFormed(live, a);
    if forall k :: HistoryOf(s, k) == Hist(live, a, k) {
      SameHistories(s, t);
    }
  }

  /** A change of view keeps the invariant exactly under its guard. */
  lemma ViewGuardIsExact(decided: seq<Entry>, n: NodeState, leader: NodeId)
    requires NodeOk(decided, n)
    ensures NodeOk(decided, n.(omni := n.omni.(leader := Some(leader)))) <==> ViewGuard(n, leader)
  {
    hide LogOk, Concretize, Effects, PendingIsLogged;
    PendingDecides(decided, n);
  }

  // ---------- Replaced logs ----------

  /** Decided entries stay, and a node that the library calls the leader keeps in its log what its store has pending. */
  ghost predicate SyncGuard(n: NodeState, log: seq<Entry>) {
    && n.omni.decided <= |log| && n.omni.decided <= |n.omni.log| && log[..n.omni.decided] == n.omni.log[..n.omni.decided]
    && (IsLeader(n) ==> PendingIsLogged(n.(omni := n.omni.(log := log))))
  }

  /** Replacing a node's log, by entries at their places, keeps the invariant exactly under its guard. */
  lemma SyncGuardIsExact(decided: seq<Entry>, n: NodeState, log: seq<Entry>)
    requires NodeOk(decided, n) && LogOk(log)
    ensures NodeOk(decided, n.(omni := n.omni.(log := log))) <==> SyncGuard(n, log)
  {
    hide LogOk, Concretize, Effects, PendingIsLogged;
    var n' := n.(omni := n.omni.(log := log));
    if OmniOk(decided, n'.omni) {
      PendingDecides(decided, n');
      AppliedIsLogPrefix(decided, n);
      AppliedIsLogPrefix(decided, n');
    }
  }

  // ---------- Client commits ----------

  /**
   * A leader's commit keeps the invariant exactly when its store is level with its log: only then is the
   * position at which consensus puts the entry the offset under which the store committed it.
   */
  lemma CommitGuardIsExact(decided: seq<Entry>, n: NodeState, tx: Tx, data: TxData)
    requires NodeOk(decided, n) && IsLeader(n) && IsCommitOf(data, tx)
    ensures NodeOk(decided, CommitOn(n, tx, data)) <==> n.store.next == |n.omni.log|
  {
    hide Effect, Readable, Concretize, Commit, IsCommitOf;
    var log, n' := n.omni.log, CommitOn(n, tx, data);
    CommitOfCarriesTx(data, tx);
    assert n'.omni.log[|log|] == Entry(n.store.next, data);
    if n.store.next == |log| {
      assert n'.omni.log[..n.omni.decided] == log[..n.omni.decided];
      EffectsLength(log);
      EffectsOfMore(n'.omni.log, |log|);
      assert n'.omni.log[..|log|] == log && n'.omni.log[..|log| + 1] == n'.omni.log && log[..|log|] == log;
      CommitRefines(Effects(log), Applied(n), tx);
      CommitShape(n.store, tx);
      FollowingLogIsReplicated(decided, n');
    } else {
      assert !LogOk(n'.omni.log);
    }
  }

  lemma CommitShape(s: Store, tx: Tx)
    ensures Commit(s, tx).next == s.next + 1 && Commit(s, tx).replicated == s.replicated && Commit(s, tx).state == s.state
  {
  }
}
