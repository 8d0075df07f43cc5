/**
 * The replay loop with the advance as written, on a store with diffs of its own pending: the first advance applies what
 * is pending at its entry, and from then on every advance strikes out one diff of each key before it is reached.
 */
module LossyReplay {
  import opened NodeInvariant
  import opened NodeSpec
  import opened OmniPaxos
  import opened Refinement
  import opened Replaying
  import opened Store
  import opened Wrappers

  function Drop(h: History, n: nat): History {
    if n <= |h| then h[n..] else []
  }

  /** Every pending diff lies at least two offsets beyond t. */
  ghost predicate Sparse(s: Store, t: nat) {
    NoEmptyHistory(s) && forall k | k in s.pending :: Spread(s.pending[k], t + 2, s.next)
  }

  lemma SparseReaches(s: Store, t: nat, k: Text)
    requires Sparse(s, t) && k in s.pending
    ensures t + 2 < s.next
  {
    assert t + 2 <= s.pending[k][0].0 < s.next;
  }

  lemma SparseAtTheEnd(s: Store, t: nat)
    requires Sparse(s, t) && s.next <= t + 2
    ensures s.pending == map[]
  {
    if s.pending != map[] {
      var k :| k in s.pending;
      SparseReaches(s, t, k);
    }
  }

  /** An advance by one then reaches no diff and strikes out the first of each key. */
  lemma AdvanceStrikes(s: Store, t: nat)
    requires Sparse(s, t)
    ensures var s' := Advance(false, s, t + 1);
            && s' == s.(replicated := Some(t + 1), pending := s'.pending) && Sparse(s', t + 1)
            && forall k :: HistoryOf(s', k) == Drop(HistoryOf(s, k), 1)
  {
    var s' := Advance(false, s, t + 1);
    forall k ensures Popped(false, s, t + 1, k) == (Drop(HistoryOf(s, k), 1), Look(s.state, k)) {
    }
    forall k ensures Look(s'.state, k) == Look(s.state, k) {
      assert Popped(false, s, t + 1, k).1 == Look(s.state, k);
    }
    SameLooks(s'.state, s.state);
  }

  lemma AdvanceWithNothingPending(keepsRest: bool, s: Store, t: nat)
    requires s.pending == map[]
    ensures Advance(keepsRest, s, t) == s.(replicated := Some(t))
  {
  }

  /** What a run of refused entries, from position t up to u, does to such a store. */
  ghost predicate Strikes(n: NodeState, n': NodeState, t: nat, u: nat)
    requires t <= u
  {
    && u > 0 && n' == n.(store := n'.store, lastApplied := Some(u - 1))
    && n'.store == n.store.(replicated := Some(u - 1), pending := n'.store.pending)
    && Sparse(n'.store, u - 1)
    && forall k :: HistoryOf(n'.store, k) == Drop(HistoryOf(n.store, k), u - t)
  }

  lemma StrikesOnce(v: Variant, n: NodeState, t: nat)
    requires !v.keepsRest && LogOk(n.omni.log) && 0 < t < |n.omni.log| && t < n.store.next
    requires n.store.replicated == n.lastApplied == Some(t - 1) && Sparse(n.store, t - 1)
    ensures ApplyEntry(v, n, n.omni.log[t]).Some? && Strikes(n, ApplyEntry(v, n, n.omni.log[t]).value, t, t + 1)
  {
    hide Advance, Readable;
    AdvanceStrikes(n.store, t - 1);
  }

  lemma {:induction false} RefusedEntries(v: Variant, n: NodeState, t: nat, u: nat)
    requires !v.keepsRest && LogOk(n.omni.log) && 0 < t <= u <= |n.omni.log| && u <= n.store.next
    requires n.store.replicated == n.lastApplied == Some(t - 1) && Sparse(n.store, t - 1)
    ensures var r := ApplyEntries(v, n, n.omni.log[t..u]); r.Some? && Strikes(n, r.value, t, u)
    decreases u - t
  {
    hide ApplyEntry, Readable, Sparse;
    var log := n.omni.log;
    if t < u {
      assert log[t..u][0] == log[t] && log[t..u][1..] == log[t + 1..u];
      StrikesOnce(v, n, t);
      RefusedEntries(v, ApplyEntry(v, n, log[t]).value, t + 1, u);
    }
  }

  /** With nothing pending, entries from the next offset on are replayed one after the other. */
  lemma {:induction false} ReplayedEntries(v: Variant, n: NodeState, m: nat, d: nat, txs: seq<Tx>)
    requires LogOk(n.omni.log) && 0 < m <= d <= |n.omni.log|
    requires n.lastApplied == Some(m - 1) && n.store == Store(m, Some(m - 1), Fold(txs), map[])
    ensures ApplyEntries(v, n, n.omni.log[m..d])
            == Some(n.(store := Store(d, Some(d - 1), Fold(txs + Effects(n.omni.log[m..d])), map[]),
                       lastApplied := Some(d - 1)))
    decreases d - m
  {
    hide Advance, ReplayRows, Effect, Readable, Fold;
    var log := n.omni.log;
    if m < d {
      var e := log[m];
      assert log[m..d][0] == e && log[m..d][1..] == log[m + 1..d];
      ReplayRowsApply(Fold(txs), e.txData);
      FoldAppend(txs, Effect(e.txData));
      AdvanceWithNothingPending(v.keepsRest, Replay(n.store, e.txData).0, m);
      ReplayedEntries(v, ApplyEntry(v, n, e).value, m + 1, d, txs + [Effect(e.txData)]);
      assert txs + [Effect(e.txData)] + Effects(log[m + 1..d]) == txs + Effects(log[m..d]);
    } else {
      assert txs + Effects(log[m..d]) == txs;
    }
  }

  lemma {:induction false} ApplyEntriesAppend(v: Variant, n: NodeState, a: seq<Entry>, b: seq<Entry>)
    requires ApplyEntries(v, n, a).Some?
    ensures ApplyEntries(v, n, a + b) == ApplyEntries(v, ApplyEntries(v, n, a).value, b)
    decreases |a|
  {
    hide ApplyEntry;
    if a == [] {
      assert a + b == b;
    } else {
      assert (a + b)[0] == a[0] && (a + b)[1..] == a[1..] + b;
      ApplyEntriesAppend(v, ApplyEntry(v, n, a[0]).value, a[1..], b);
    }
  }

  lemma {:induction false} HistIsBounded(live: seq<Tx>, r: nat, k: Text)
    requires r <= |live|
    ensures |Hist(live, r, k)| <= |live| - r
    decreases |live|
  {
    if |live| > r {
      HistIsBounded(live[..|live| - 1], r, k);
    }
  }

  lemma LaterAscends(h: History, live: seq<Tx>, r: nat, k: Text)
    requires Ascends(h, live, r, k) && h != []
    ensures Spread(h[1..], r + 1, |live|)
  {
    assert forall i | 1 <= i < |h| :: h[0].0 < h[i].0;
  }

  /** The first entry, where something is already pending, is refused; after it every diff lies two or more beyond. */
  lemma FirstIsRefused(v: Variant, n: NodeState, j: nat, live: seq<Tx>, r: nat)
    requires !v.keepsRest && LogOk(n.omni.log) && r <= j < |live| && j < |n.omni.log|
    requires n.store == Concretize(live, r)
    ensures var n' := ApplyEntry(v, n, n.omni.log[j]);
            && n'.Some? && n'.value == n.(store := n'.value.store, lastApplied := Some(j))
            && Sparse(n'.value.store, j) && n'.value.store.next == |live| && n'.value.store.replicated == Some(j)
            && n'.value.store.state == Fold(live[..j + 1])
            && forall k :: HistoryOf(n'.value.store, k) == Drop(Hist(live, j + 1, k), 1)
  {
    hide Concretize, Advance, Replay, Readable, Effect, Fold, Hist;
    ConcreteShape(live, r);
    ReplayRefines(live, r, n.omni.log[j].txData);
    AdvanceState(false, live, r, j);
    AdvanceShape(false, n.store, j);
    var s' := Advance(false, n.store, j);
    forall k ensures HistoryOf(s', k) == Drop(Hist(live, j + 1, k), 1)
                     && (k in s'.pending ==> s'.pending[k] != [] && Spread(s'.pending[k], j + 2, |live|)) {
      PendingAfterAsWritten(live, r, j, k);
      HistAscends(live, j + 1, k);
      if k in s'.pending {
        LaterAscends(Hist(live, j + 1, k), live, j + 1, k);
      }
    }
  }

  /** What reaches the table: what the store held up to position j, and the log's entries from where the store ended. */
  function Kept(live: seq<Tx>, log: seq<Entry>, j: nat, d: nat): seq<Tx>
    requires j < d <= |log| && j < |live|
  {
    live[..j + 1] + Effects(log[Min(|live|, d)..d])
  }

  /**
   * Entries from position j up to d, on a store that holds more than j transactions: of each key's diffs beyond j the first
   * d - j are lost, among them all below d, and none of the lost ones reaches the table.
   */
  ghost predicate Lossy(n: NodeState, n': NodeState, live: seq<Tx>, j: nat, d: nat)
    requires j < d <= |n.omni.log| && j < |live|
  {
    && n' == n.(store := n'.store, lastApplied := Some(d - 1))
    && n'.store.next == Max(|live|, d) && n'.store.replicated == Some(d - 1) && NoEmptyHistory(n'.store)
    && n'.store.state == Fold(Kept(live, n.omni.log, j, d))
    && forall k :: HistoryOf(n'.store, k) == Drop(Hist(live, j + 1, k), d - j)
  }

  lemma OnlyRefused(v: Variant, n: NodeState, j: nat, u: nat, live: seq<Tx>, r: nat)
    requires !v.keepsRest && LogOk(n.omni.log) && r <= j < u <= |live| && u <= |n.omni.log|
    requires n.store == Concretize(live, r)
    ensures var o := ApplyEntries(v, n, n.omni.log[j..u]);
            && o.Some? && o.value == n.(store := o.value.store, lastApplied := Some(u - 1))
            && o.value.store == Store(|live|, Some(u - 1), Fold(live[..j + 1]), o.value.store.pending)
            && Sparse(o.value.store, u - 1)
            && forall k :: HistoryOf(o.value.store, k) == Drop(Hist(live, j + 1, k), u - j)
  {
    hide Concretize, ApplyEntry, LogOk, Fold, Hist, Effects, Sparse;
    var log := n.omni.log;
    FirstIsRefused(v, n, j, live, r);
    RefusedEntries(v, ApplyEntry(v, n, log[j]).value, j + 1, u);
    assert log[j..u][0] == log[j] && log[j..u][1..] == log[j + 1..u];
  }

  /** The whole loop, whether it ends among the pending transactions or goes on to replay those the store lacks. */
  lemma ReplayOverPending(v: Variant, n: NodeState, j: nat, d: nat, live: seq<Tx>, r: nat)
    requires !v.keepsRest && LogOk(n.omni.log) && r <= j < d <= |n.omni.log| && j < |live|
    requires n.store == Concretize(live, r)
    ensures var o := ApplyEntries(v, n, n.omni.log[j..d]); o.Some? && Lossy(n, o.value, live, j, d)
  {
    hide Concretize, ApplyEntry, ApplyEntries, LogOk, Fold, Hist, Effects;
    var log := n.omni.log;
    OnlyRefused(v, n, j, Min(|live|, d), live, r);
    if |live| < d {
      ThenReplayed(v, n, j, d, live);
    } else {
      EffectsLength(log[d..d]);
      assert live[..j + 1] + Effects(log[d..d]) == live[..j + 1];
    }
  }

  lemma ThenReplayed(v: Variant, n: NodeState, j: nat, d: nat, live: seq<Tx>)
    requires LogOk(n.omni.log) && j < |live| < d <= |n.omni.log|
    requires var m, o := |live|, ApplyEntries(v, n, n.omni.log[j..|live|]);
             && o.Some? && o.value == n.(store := o.value.store, lastApplied := Some(m - 1))
             && o.value.store == Store(m, Some(m - 1), Fold(live[..j + 1]), o.value.store.pending)
             && Sparse(o.value.store, m - 1)
    ensures var o := ApplyEntries(v, n, n.omni.log[j..d]); o.Some? && Lossy(n, o.value, live, j, d)
  {
    hide Concretize, ApplyEntry, ApplyEntries, LogOk, Fold, Hist, Effects;
    var log, m := n.omni.log, |live|;
    var n2 := ApplyEntries(v, n, log[j..m]).value;
    ApplyEntriesAppend(v, n, log[j..m], log[m..d]);
    assert log[j..m] + log[m..d] == log[j..d];
    SparseAtTheEnd(n2.store, m - 1);
    ReplayedEntries(v, n2, m, d, live[..j + 1]);
    var next := j + 1;
    forall k ensures |Hist(live, next, k)| <= m - next {
      HistIsBounded(live, next, k);
    }
  }

  // ---------- When nothing is lost ----------

  lemma NothingPendingWhenReplicated(live: seq<Tx>)
    ensures Concretize(live, |live|)
            == Store(|live|, if live == [] then None else Some(|live| - 1), Fold(live), map[])
  {
    assert live[..|live|] == live;
    assert Touched(live, |live|) == {};
  }

  lemma LossyOnKey(live: seq<Tx>, j: nat, d: nat, k: Text)
    requires j < d <= |live|
    ensures Drop(Hist(live, j + 1, k), d - j) == Hist(live, d, k) <==> Hist(live, d, k) == []
  {
    hide Hist;
    HistSplit(live, j + 1, d, k);
    HistIsBounded(live[..d], j + 1, k);
  }

  lemma LossyPending(live: seq<Tx>, s: Store, j: nat, d: nat)
    requires j < d <= |live| && NoEmptyHistory(s)
    requires forall k :: HistoryOf(s, k) == Drop(Hist(live, j + 1, k), d - j)
    ensures s.pending == Concretize(live, d).pending <==> NothingBeyond(live, d)
  {
    hide Hist, Fold, Touched, Concretize;
    var t := Concretize(live, d);
    ConcreteIsWellFormed(live, d);
    forall k ensures HistoryOf(s, k) == HistoryOf(t, k) <==> forall i | d <= i < |live| :: k !in live[i] {
      HistoryOfConcrete(live, d, k);
      LossyOnKey(live, j, d, k);
      HistEmptyIffUntouched(live, d, k);
    }
    if NothingBeyond(live, d) {
      SameHistories(s, t);
    } else {
      var i :| d <= i < |live| && live[i] != map[];
      var k :| k in live[i];
      assert HistoryOf(s, k) != HistoryOf(t, k);
    }
  }

  lemma SameHistories(s: Store, t: Store)
    requires NoEmptyHistory(s) && NoEmptyHistory(t) && forall k :: HistoryOf(s, k) == HistoryOf(t, k)
    ensures s.pending == t.pending
  {
    forall k ensures k in s.pending <==> k in t.pending {
      assert HistoryOf(s, k) == HistoryOf(t, k);
    }
    forall k | k in s.pending ensures s.pending[k] == t.pending[k] {
      assert HistoryOf(s, k) == HistoryOf(t, k);
    }
  }

  /** The last diff of a key in some transactions. */
  function LastDiff(txs: seq<Tx>, k: Text): Option<Diff> {
    if txs == [] then None
    else
      var n := |txs| - 1;
      if k in txs[n] then Some(txs[n][k]) else LastDiff(txs[..n], k)
  }

  lemma {:induction false} LookAfter(base: seq<Tx>, txs: seq<Tx>, k: Text)
    ensures var last := LastDiff(txs, k);
            Look(Fold(base + txs), k) == if last.Some? then DiffValue(last.value) else Look(Fold(base), k)
    decreases |txs|
  {
    hide Fold, Apply;
    if txs == [] {
      assert base + txs == base;
    } else {
      var n := |txs| - 1;
      LookAfter(base, txs[..n], k);
      assert base + txs == base + txs[..n] + [txs[n]];
      FoldAppend(base + txs[..n], txs[n]);
      LookApply(Fold(base + txs[..n]), txs[n], k);
    }
  }

  /** Each key whose last write is among the lost transactions already had the value it would have got. */
  ghost predicate WroteWhatWasThere(kept: seq<Tx>, lost: seq<Tx>, later: seq<Tx>) {
    forall k | LastDiff(lost, k).Some? && LastDiff(later, k).None? ::
      DiffValue(LastDiff(lost, k).value) == Look(Fold(kept), k)
  }

  lemma LossIsHarmless(kept: seq<Tx>, lost: seq<Tx>, later: seq<Tx>)
    ensures Fold(kept + later) == Fold(kept + lost + later) <==> WroteWhatWasThere(kept, lost, later)
  {
    hide Fold, LastDiff;
    var without, with := Fold(kept + later), Fold(kept + lost + later);
    forall k ensures Look(without, k) == Look(with, k)
                     <==> (LastDiff(lost, k).Some? && LastDiff(later, k).None?
                           ==> DiffValue(LastDiff(lost, k).value) == Look(Fold(kept), k)) {
      LookAfter(kept, later, k);
      LookAfter(kept + lost, later, k);
      LookAfter(kept, lost, k);
    }
    if WroteWhatWasThere(kept, lost, later) {
      SameLooks(without, with);
    }
  }

  /**
   * Read off the log before the loop runs over m transactions of its own: no diff is pending at or beyond d, and what
   * positions j + 1 and on wrote, up to where the pending ones end or d, either was there or is written again before d.
   */
  ghost predicate LossIsInvisible(log: seq<Entry>, j: nat, d: nat, m: nat)
    requires j < d <= |log| && j < m <= |log|
  {
    && NothingBeyond(Effects(log[..m]), d)
    && var u := Min(m, d);
       WroteWhatWasThere(Effects(log[..j + 1]), Effects(log[j + 1..u]), Effects(log[u..d]))
  }

  lemma KeptAndLost(log: seq<Entry>, j: nat, d: nat, m: nat)
    requires j < d <= |log| && j < m <= |log|
    ensures var u, kept := Min(m, d), Effects(log[..j + 1]);
            && j < |Effects(log[..m])| == m
            && Kept(Effects(log[..m]), log, j, d) == kept + Effects(log[u..d])
            && Effects(log[..d]) == kept + Effects(log[j + 1..u]) + Effects(log[u..d])
  {
    hide Effect;
    assert Effects(log[..m])[..j + 1] == Effects(log[..j + 1]);
  }

  /** On a store that follows the log, the loss makes no difference exactly when it is invisible. */
  lemma LossyIsConcrete(n: NodeState, n': NodeState, j: nat, d: nat, m: nat)
    requires j < d <= |n.omni.log| && j < m <= |n.omni.log| && Lossy(n, n', Effects(n.omni.log[..m]), j, d)
    ensures n'.store == Concretize(Effects(n.omni.log[..Max(m, d)]), d) <==> LossIsInvisible(n.omni.log, j, d, m)
  {
    hide Concretize, Fold, Hist, Effects, Kept, WroteWhatWasThere;
    var log, s, u := n.omni.log, n'.store, Min(m, d);
    var live := Effects(log[..Max(m, d)]);
    EffectsLength(log[..Max(m, d)]);
    EffectsLength(log[..m]);
    ConcreteShape(live, d);
    EffectsOfPrefix(log[..Max(m, d)], d);
    assert log[..Max(m, d)][..d] == log[..d];
    KeptAndLost(log, j, d, m);
    LossIsHarmless(Effects(log[..j + 1]), Effects(log[j + 1..u]), Effects(log[u..d]));
    if m > d {
      LossyPending(live, s, j, d);
    } else {
      forall k ensures HistoryOf(s, k) == [] {
        HistIsBounded(Effects(log[..m]), j + 1, k);
      }
      NothingPendingWhenReplicated(live);
      SameHistories(s, Concretize(live, d));
    }
  }
}
