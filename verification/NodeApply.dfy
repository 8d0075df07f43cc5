/** Applying decided entries: what an apply does under its guard, and that it keeps the invariant of the node. */
module NodeApply {
  import opened LossyReplay
  import opened NodeInvariant
  import opened NodeSpec
  import opened OmniPaxos
  import opened Refinement
  import opened Replaying
  import opened Store
  import opened Wrappers

  // ---------- Applying ----------

  lemma DurableOffsetIsPosition(decided: seq<Entry>, o: Omni)
    requires OmniOk(decided, o)
    ensures DurableOffset(o) == if o.decided == 0 then None else Some(o.decided - 1)
  {
  }

  lemma NewsMeansUnapplied(decided: seq<Entry>, n: NodeState)
    requires NodeOk(decided, n)
    ensures HasNews(n) <==> Applied(n) < n.omni.decided
    ensures HasNews(n) ==> DurableOffset(n.omni) == Some(n.omni.decided - 1)
  {
    hide DurableOffset, LogOk, HoldsAHistory, StoreFollowsLog, Effects, Fold;
    DurableOffsetIsPosition(decided, n.omni);
  }

  /** News is a last decided entry with another offset than the one applied last; which of them is larger does not matter. */
  lemma NewsIsAnotherOffset(n: NodeState)
    requires n.omni.decided <= |n.omni.log|
    ensures HasNews(n) <==> n.omni.decided > 0 && n.lastApplied != Some(n.omni.log[n.omni.decided - 1].txOffset)
  {
  }

  /** The node asks for the entries right after those it applied: the reading as written does once there are any. */
  predicate ReadsFirst(v: Variant, n: NodeState) {
    v.startsAtFirst || n.lastApplied.Some?
  }

  /** The position of the first entry a node asks for. */
  function FirstAsked(v: Variant, n: NodeState): nat {
    if ReadsFirst(v, n) then Applied(n) else 1
  }

  lemma SliceIsRead(v: Variant, n: NodeState)
    requires 0 < n.omni.decided <= |n.omni.log| && FirstAsked(v, n) <= n.omni.decided
    ensures Unapplied(v, n.omni, n.lastApplied) == Some(n.omni.log[FirstAsked(v, n)..n.omni.decided])
  {
    hide ReadsIn, OnlyDecided;
    ReadsAreTheSlice(n.omni, FirstAsked(v, n));
  }

  lemma UnappliedIsSlice(v: Variant, decided: seq<Entry>, n: NodeState)
    requires NodeOk(decided, n) && HasNews(n)
    ensures var lo, d := FirstAsked(v, n), n.omni.decided;
            lo <= d && Unapplied(v, n.omni, n.lastApplied) == Some(n.omni.log[lo..d])
  {
    hide Unapplied, StoreFollowsLog, HoldsAHistory, LogOk, Fold, Effects;
    NewsMeansUnapplied(decided, n);
    SliceIsRead(v, n);
  }

  /** The transactions a node that follows its log holds in its store. */
  function Held(n: NodeState): seq<Tx> {
    Effects(n.omni.log[..Min(n.store.next, |n.omni.log|)])
  }

  /**
   * What an apply needs. A leader that advances must hold every newly decided entry in its store, and the loop as written
   * must drop no pending diff; a node that replays must not skip a first entry it lacks, and what the loop as written
   * strikes out of its own pending diffs must make no difference.
   */
  ghost predicate ApplyGuard(v: Variant, n: NodeState) {
    HasNews(n) ==>
      if LeaderAdvances(n) then n.omni.decided <= n.store.next && DropsNothing(v, Held(n), n.omni.decided)
      else StartsInside(v, n) && (v.keepsRest || !ReadsOverPending(v, n) || LosesNothing(v, n))
  }

  /** There are entries to read, and the first is one that the store already holds. */
  predicate ReadsOverPending(v: Variant, n: NodeState) {
    FirstAsked(v, n) < n.store.next <= |n.omni.log| && FirstAsked(v, n) < n.omni.decided <= |n.omni.log|
  }

  /** What the loop as written strikes out of the node's pending diffs is nothing a reader could see. */
  ghost predicate LosesNothing(v: Variant, n: NodeState)
    requires ReadsOverPending(v, n)
  {
    LossIsInvisible(n.omni.log, FirstAsked(v, n), n.omni.decided, n.store.next)
  }

  /** Skipping position 0 does no harm when nothing is read after it or when the node's own diffs cover it and the next. */
  predicate StartsInside(v: Variant, n: NodeState) {
    ReadsFirst(v, n) || n.omni.decided <= 1 || n.store.next >= 2
  }

  lemma ApplyAsLeader(v: Variant, decided: seq<Entry>, n: NodeState)
    requires NodeOk(decided, n) && !Deposed(n) && HasNews(n) && !UnwrapsNothing(n)
    requires LeaderAdvances(n) && ApplyGuard(v, n)
    ensures var d := n.omni.decided;
            ApplyReplicated(v, n)
            == Some(n.(lastApplied := Some(d - 1), promoted := false,
                       store := Concretize(Effects(n.omni.log[..n.store.next]), d)))
  {
    hide Concretize, Advance, LogOk, Effects, NothingBeyond;
    NewsMeansUnapplied(decided, n);
    EffectsLength(n.omni.log[..n.store.next]);
    AdvanceEither(v, Effects(n.omni.log[..n.store.next]), Applied(n), n.omni.decided - 1);
  }

  /**
   * A leader whose promotion flag is up but whose store ends at the decided count advances, as one without a flag does:
   * all it holds is replicated and nothing is read, in every form of the code.
   */
  lemma FlaggedLeaderAdvances(v: Variant, decided: seq<Entry>, n: NodeState)
    requires NodeOk(decided, n) && n.omni.leader == Some(n.id) && n.promoted
    requires Applied(n) < n.omni.decided == n.store.next
    ensures var d := n.omni.decided;
            ApplyReplicated(v, n)
            == Some(n.(lastApplied := Some(d - 1), promoted := false,
                       store := Concretize(Effects(n.omni.log[..n.store.next]), d)))
  {
    hide Concretize, Advance, LogOk, HoldsAHistory, ApplyReplicated;
    NewsMeansUnapplied(decided, n);
    ApplyAsLeader(v, decided, n);
  }

  // ---------- Panics ----------

  lemma {:induction false} ReadableNeverPanics(v: Variant, n: NodeState, es: seq<Entry>)
    requires forall e | e in es :: Readable(e.txData)
    ensures ApplyEntries(v, n, es).Some?
    decreases |es|
  {
    hide Readable, ReplayRows, Advance;
    if es != [] {
      assert es[0] in es && forall e | e in es[1..] :: e in es;
      ReplayRowsApply(n.store.state, es[0].txData);
      ReadableNeverPanics(v, ApplyEntry(v, n, es[0]).value, es[1..]);
    }
  }

  lemma EmptyLeaderUnwraps(decided: seq<Entry>, n: NodeState)
    requires NodeOk(decided, n)
    ensures UnwrapsNothing(n)
            <==> n.omni.leader == Some(n.id) && n.promoted && n.store.next == 0 && n.omni.decided > 0
  {
    hide LogOk, StoreFollowsLog, Effects, Fold, Hist, DurableOffset;
    NewsMeansUnapplied(decided, n);
    var live :| Represents(n.store, live, Applied(n)) && live[..Applied(n)] == Effects(decided[..Applied(n)]);
  }

  /**
   * In any state that keeps the invariant, guard or no guard, an apply panics exactly on a leader with its flag up and an
   * empty datastore that knows of a decided entry.
   */
  lemma ApplyPanicsExactlyWhenEmpty(v: Variant, decided: seq<Entry>, n: NodeState)
    requires NodeOk(decided, n)
    ensures ApplyReplicated(v, n).None?
            <==> n.omni.leader == Some(n.id) && n.promoted && n.store.next == 0 && n.omni.decided > 0
  {
    hide Advance, Unapplied, ApplyEntries, HoldsAHistory, StoreFollowsLog, ReplicatedIsDecided, Readable, HasNews, LogOk;
    EmptyLeaderUnwraps(decided, n);
    if HasNews(n) {
      UnappliedIsSlice(v, decided, n);
      var es := n.omni.log[FirstAsked(v, n)..n.omni.decided];
      SliceIsReadable(n.omni.log, FirstAsked(v, n), n.omni.decided);
      ReadableNeverPanics(v, n, es);
    }
  }

  lemma SliceIsReadable(log: seq<Entry>, lo: nat, hi: nat)
    requires LogOk(log) && lo <= hi <= |log|
    ensures forall e | e in log[lo..hi] :: Readable(e.txData)
  {
    hide Readable;
  }

  /**
   * Any entry on a node with nothing pending, readable or not: a foreign table or an overlong length panics; a row that
   * does not decode leaves what came before it, and the node goes on with both offsets and its count moved.
   */
  lemma AnyEntryApplies(v: Variant, n: NodeState, e: Entry, live: seq<Tx>)
    requires n.store == Concretize(live, |live|)
    ensures ApplyEntry(v, n, e)
            == if ReplayRows(Fold(live), e.txData).1 == Panicked then None
               else Some(n.(store := Concretize(live + [Effect(e.txData)], |live| + 1).(replicated := Some(e.txOffset)),
                            lastApplied := Some(e.txOffset)))
  {
    hide ReplayRows, Effect, Readable, Advance, Fold;
    NothingPendingWhenReplicated(live);
    NothingPendingWhenReplicated(live + [Effect(e.txData)]);
    ReplayRowsApply(Fold(live), e.txData);
    FoldAppend(live, Effect(e.txData));
    AdvanceWithNothingPending(v.keepsRest, Replay(n.store, e.txData).0, e.txOffset);
  }

  /** Where something is pending the rows are not even looked at, so no entry panics. */
  lemma RefusedNeverPanics(v: Variant, n: NodeState, e: Entry, live: seq<Tx>, r: nat)
    requires r < |live| && n.store == Concretize(live, r)
    ensures ApplyEntry(v, n, e).Some? && ApplyEntry(v, n, e).value.lastApplied == Some(e.txOffset)
  {
    hide Concretize, Replay, Effect, Readable, Advance;
    ReplayRefines(live, r, e.txData);
  }

  // ---------- Replaying ----------

  /** A replaying node with something to read ends exactly at its decided count. */
  lemma ApplyByReplay(v: Variant, decided: seq<Entry>, n: NodeState)
    requires NodeOk(decided, n) && !Deposed(n) && HasNews(n) && !UnwrapsNothing(n)
    requires !LeaderAdvances(n) && ApplyGuard(v, n) && FirstAsked(v, n) < n.omni.decided
    ensures var d := n.omni.decided;
            ApplyReplicated(v, n)
            == Some(n.(lastApplied := Some(d - 1), promoted := false,
                       store := Concretize(Effects(n.omni.log[..Max(n.store.next, d)]), d)))
  {
    hide Concretize, Advance, LogOk, Effects, NothingBeyond, Unapplied, ApplyEntries, ReplicatedIsDecided;
    NewsMeansUnapplied(decided, n);
    UnappliedIsSlice(v, decided, n);
    if v.keepsRest || !ReadsOverPending(v, n) {
      NothingBeyondItself(v, n);
      EffectsLength(n.omni.log[..n.store.next]);
      GrownOfLog(n.omni.log, n.store.next, n.omni.decided);
      ApplyEntriesFollow(v, n, FirstAsked(v, n), n.omni.decided, Effects(n.omni.log[..n.store.next]), Applied(n));
    } else {
      ReplaysOverPending(v, decided, n);
    }
  }

  lemma NothingBeyondItself(v: Variant, n: NodeState)
    requires n.store.next <= |n.omni.log|
    ensures n.store.next <= FirstAsked(v, n) ==> NothingBeyond(Effects(n.omni.log[..n.store.next]), FirstAsked(v, n) + 1)
  {
  }

  /** With the loop as written, over diffs of its own, a replaying node ends with what the loop leaves of them. */
  lemma ReplaysOverPending(v: Variant, decided: seq<Entry>, n: NodeState)
    requires NodeOk(decided, n) && !Deposed(n) && HasNews(n) && !UnwrapsNothing(n)
    requires !v.keepsRest && !LeaderAdvances(n) && ReadsOverPending(v, n)
    ensures var j, d, m := FirstAsked(v, n), n.omni.decided, n.store.next;
            var r := ApplyReplicated(v, n);
            && j < |Effects(n.omni.log[..m])|
            && r.Some? && Lossy(n, r.value.(promoted := n.promoted), Effects(n.omni.log[..m]), j, d) && !r.value.promoted
            && (r.value.store == Concretize(Effects(n.omni.log[..Max(m, d)]), d) <==> LosesNothing(v, n))
  {
    hide Concretize, Advance, LogOk, Effects, NothingBeyond, Unapplied, ApplyEntries, ReplicatedIsDecided, Fold, Hist;
    var j, d, m := FirstAsked(v, n), n.omni.decided, n.store.next;
    NewsMeansUnapplied(decided, n);
    UnappliedIsSlice(v, decided, n);
    EffectsLength(n.omni.log[..m]);
    ReplayOverPending(v, n, j, d, Effects(n.omni.log[..m]), Applied(n));
    LossyIsConcrete(n, ApplyEntries(v, n, n.omni.log[j..d]).value, j, d, m);
  }

  /** The only other case: one decided entry, and the reading as written starts behind it. */
  lemma ApplyReadsNothing(v: Variant, decided: seq<Entry>, n: NodeState)
    requires NodeOk(decided, n) && HasNews(n) && !UnwrapsNothing(n)
    requires !LeaderAdvances(n) && FirstAsked(v, n) >= n.omni.decided
    ensures ApplyReplicated(v, n) == Some(n.(promoted := false))
    ensures n.omni.decided == 1 && n.lastApplied.None? && !v.startsAtFirst
  {
    hide LogOk, Effects, Unapplied;
    NewsMeansUnapplied(decided, n);
    UnappliedIsSlice(v, decided, n);
  }

  /** What an apply leaves alone, and that it never goes back. */
  ghost predicate AppliedFrom(n: NodeState, n': NodeState) {
    && n'.id == n.id && n'.omni == n.omni && n'.currentLeader == n.currentLeader
    && Applied(n) <= Applied(n') && n.store.next <= n'.store.next
  }

  /**
   * Under its guard an apply keeps the invariant, panics only by asking an empty datastore for its offset, and,
   * unless the reading skips the first entry, leaves the node with every entry it knows to be decided. The promotion
   * flag goes down unless there was nothing new, and then nothing changes.
   */
  lemma ApplyKeepsNode(v: Variant, decided: seq<Entry>, n: NodeState)
    requires NodeOk(decided, n) && !Deposed(n) && ApplyGuard(v, n)
    ensures ApplyReplicated(v, n).None?
            <==> n.omni.leader == Some(n.id) && n.promoted && n.store.next == 0 && n.omni.decided > 0
    ensures ApplyReplicated(v, n).Some? ==>
              var n' := ApplyReplicated(v, n).value;
              && NodeOk(decided, n') && AppliedFrom(n, n')
              && (if HasNews(n) then !n'.promoted else n' == n)
              && (ReadsFirst(v, n) ==> Applied(n') == n.omni.decided)
              && (ReadsFirst(v, n) && HasNews(n) ==> n'.store.next == Max(n.store.next, n.omni.decided))
  {
    hide ApplyReplicated, ApplyGuard, Effects, LogOk, Concretize, Unapplied;
    NewsMeansUnapplied(decided, n);
    EmptyLeaderUnwraps(decided, n);
    if !UnwrapsNothing(n) && HasNews(n) {
      var d := n.omni.decided;
      if LeaderAdvances(n) {
        ApplyAsLeader(v, decided, n);
        GuardCovers(v, n);
        FollowsAgain(decided, n, ApplyReplicated(v, n).value, n.store.next);
      } else if FirstAsked(v, n) < d {
        ApplyByReplay(v, decided, n);
        FollowsAgain(decided, n, ApplyReplicated(v, n).value, Max(n.store.next, d));
      } else {
        ApplyReadsNothing(v, decided, n);
      }
    } else {
      ApplyIdles(v, n);
    }
  }

  lemma ApplyIdles(v: Variant, n: NodeState)
    ensures !HasNews(n) ==> ApplyReplicated(v, n) == Some(n)
    ensures UnwrapsNothing(n) ==> ApplyReplicated(v, n).None?
  {
  }

  lemma GuardCovers(v: Variant, n: NodeState)
    requires ApplyGuard(v, n) && HasNews(n) && LeaderAdvances(n)
    ensures n.omni.decided <= n.store.next
  {
  }

  /** A store rebuilt from the node's own log up to m, replicated up to the decided count, satisfies the invariant. */
  lemma FollowsAgain(decided: seq<Entry>, n: NodeState, n': NodeState, m: nat)
    requires NodeOk(decided, n) && !Deposed(n) && n.omni.decided > 0
    requires n.omni.decided <= m <= |n.omni.log| && (!IsLeader(n) ==> m == n.omni.decided)
    requires n' == n.(lastApplied := Some(n.omni.decided - 1), promoted := false,
                      store := Concretize(EffectsTo(n, m), n.omni.decided))
    ensures NodeOk(decided, n') && n'.store.next == m
  {
    FollowingLogIsReplicated(decided, n');
  }

  function EffectsTo(n: NodeState, m: nat): (e: seq<Tx>)
    requires m <= |n.omni.log|
    ensures |e| == m
  {
    Effects(n.omni.log[..m])
  }

  lemma {:induction false} ReplayKeepsOmni(v: Variant, n: NodeState, es: seq<Entry>)
    ensures ApplyEntries(v, n, es).Some? ==>
              var n' := ApplyEntries(v, n, es).value; n'.id == n.id && n'.omni == n.omni
    decreases |es|
  {
    hide Replay, Advance;
    if es != [] && ApplyEntry(v, n, es[0]).Some? {
      ReplayKeepsOmni(v, ApplyEntry(v, n, es[0]).value, es[1..]);
    }
  }

  /** In any state, an apply does not touch the library. */
  lemma ApplyKeepsOmni(v: Variant, n: NodeState)
    ensures ApplyReplicated(v, n).Some? ==>
              var n' := ApplyReplicated(v, n).value; n'.id == n.id && n'.omni == n.omni
  {
    hide Unapplied, ApplyEntries, Advance;
    var es := Unapplied(v, n.omni, n.lastApplied);
    if es.Some? {
      ReplayKeepsOmni(v, n, es.value);
    }
  }
}
