/**
 * The datastore against its simple meaning: an append-only sequence of live transactions and the
 * number of them that are replicated. Concretize builds the only store that represents such a pair,
 * and every operation of the store is the obvious operation on the pair.
 */
module Refinement {
  import opened Store
  import opened Wrappers

  // ---------- The meaning of transactions ----------

  /** Running one transaction against a table. */
  function Apply(m: Table, tx: Tx): Table {
    map k | k in m.Keys + tx.Keys && (if k in tx then tx[k].Insert? else true) ::
      if k in tx then tx[k].value else m[k]
  }

  function Fold(txs: seq<Tx>): Table {
    if txs == [] then map[] else Apply(Fold(txs[..|txs| - 1]), txs[|txs| - 1])
  }

  lemma LookApply(m: Table, tx: Tx, k: Text)
    ensures Look(Apply(m, tx), k) == if k in tx then DiffValue(tx[k]) else Look(m, k)
  {
  }

  lemma SameLooks(m: Table, n: Table)
    requires forall k :: Look(m, k) == Look(n, k)
    ensures m == n
  {
    forall k ensures k in m <==> k in n {
      assert Look(m, k) == Look(n, k);
    }
    forall k | k in m ensures m[k] == n[k] {
      assert Look(m, k) == Look(n, k);
    }
  }

  lemma FoldAppend(txs: seq<Tx>, tx: Tx)
    ensures Fold(txs + [tx]) == Apply(Fold(txs), tx)
  {
    assert (txs + [tx])[..|txs|] == txs;
  }

  // ---------- The store that represents a pair ----------

  /** The diffs of one key in the transactions from number r on, in order. */
  function Hist(live: seq<Tx>, r: nat, k: Text): History {
    if |live| <= r then []
    else
      var n := |live| - 1;
      Hist(live[..n], r, k) + if k in live[n] then [(n, live[n][k])] else []
  }

  function Touched(live: seq<Tx>, r: nat): set<Text> {
    if |live| <= r then {} else Touched(live[..|live| - 1], r) + live[|live| - 1].Keys
  }

  function Concretize(live: seq<Tx>, r: nat): Store
    requires r <= |live|
  {
    Store(|live|, if r == 0 then None else Some(r - 1), Fold(live[..r]),
      map k | k in Touched(live, r) :: Hist(live, r, k))
  }

  lemma {:induction false} TouchedHasHistory(live: seq<Tx>, r: nat, k: Text)
    ensures k in Touched(live, r) <==> Hist(live, r, k) != []
    decreases |live|
  {
    if |live| > r {
      TouchedHasHistory(live[..|live| - 1], r, k);
    }
  }

  /** The diffs h of key k lie in transactions r, r + 1, .. of live, in ascending order. */
  ghost predicate Ascends(h: History, live: seq<Tx>, r: nat, k: Text) {
    && (forall i | 0 <= i < |h| :: r <= h[i].0 < |live| && k in live[h[i].0] && h[i].1 == live[h[i].0][k])
    && (forall i, j | 0 <= i < j < |h| :: h[i].0 < h[j].0)
  }

  lemma AscendsMore(h: History, live: seq<Tx>, r: nat, k: Text)
    requires |live| > r && Ascends(h, live[..|live| - 1], r, k)
    ensures Ascends(h, live, r, k)
    ensures var n := |live| - 1; k in live[n] ==> Ascends(h + [(n, live[n][k])], live, r, k)
  {
    var n := |live| - 1;
    forall i | 0 <= i < |h| ensures r <= h[i].0 < n && k in live[h[i].0] && h[i].1 == live[h[i].0][k] {
      assert live[..n][h[i].0] == live[h[i].0];
    }
  }

  lemma {:induction false} HistAscends(live: seq<Tx>, r: nat, k: Text)
    ensures Ascends(Hist(live, r, k), live, r, k)
    decreases |live|
  {
    if |live| > r {
      var n := |live| - 1;
      HistAscends(live[..n], r, k);
      AscendsMore(Hist(live[..n], r, k), live, r, k);
      assert Hist(live[..n], r, k) + [] == Hist(live[..n], r, k);
    }
  }

  lemma HistoryOfConcrete(live: seq<Tx>, r: nat, k: Text)
    requires r <= |live|
    ensures HistoryOf(Concretize(live, r), k) == Hist(live, r, k)
  {
    TouchedHasHistory(live, r, k);
  }

  lemma {:induction false} HistEmptyIffUntouched(live: seq<Tx>, r: nat, k: Text)
    ensures Hist(live, r, k) == [] <==> forall i | r <= i < |live| :: k !in live[i]
    decreases |live|
  {
    if |live| > r {
      var n := |live| - 1;
      HistEmptyIffUntouched(live[..n], r, k);
      assert forall i | r <= i < n :: live[..n][i] == live[i];
    }
  }

  lemma ConcreteShape(live: seq<Tx>, r: nat)
    requires r <= |live|
    ensures var s := Concretize(live, r);
            s.next == |live| && NextAfter(s.replicated) == r && s.state == Fold(live[..r])
            && (s.replicated == if r == 0 then None else Some(r - 1))
  {
  }

  /** The offsets of a history strictly ascend from lo on and stay below hi. */
  ghost predicate Spread(h: History, lo: nat, hi: nat) {
    && (forall i | 0 <= i < |h| :: lo <= h[i].0 < hi)
    && (forall i, j | 0 <= i < j < |h| :: h[i].0 < h[j].0)
  }

  /**
   * The representation invariant: every history is non-empty, its offsets strictly ascend
   * and lie beyond the replicated offset and below the next one.
   */
  ghost predicate WellFormed(s: Store) {
    && NoEmptyHistory(s)
    && NextAfter(s.replicated) <= s.next
    && forall k | k in s.pending :: Spread(s.pending[k], NextAfter(s.replicated), s.next)
  }

  lemma ConcreteIsWellFormed(live: seq<Tx>, r: nat)
    requires r <= |live|
    ensures WellFormed(Concretize(live, r))
  {
    hide Hist, Touched, Fold;
    var s := Concretize(live, r);
    forall k | k in s.pending ensures s.pending[k] != [] && Spread(s.pending[k], NextAfter(s.replicated), s.next) {
      TouchedHasHistory(live, r, k);
      HistAscends(live, r, k);
    }
  }

  // ---------- The two views ----------

  lemma {:induction false} LatestDiffWins(live: seq<Tx>, r: nat, k: Text)
    requires r <= |live|
    ensures var h := Hist(live, r, k);
            Look(Fold(live), k) == if h == [] then Look(Fold(live[..r]), k) else DiffValue(h[|h| - 1].1)
    decreases |live|
  {
    if |live| > r {
      var n := |live| - 1;
      LatestDiffWins(live[..n], r, k);
      assert live[..n][..r] == live[..r];
      LookApply(Fold(live[..n]), live[n], k);
    } else {
      assert live[..r] == live;
    }
  }

  /** The Memory view is the fold of all live transactions, the Replicated view of the replicated prefix. */
  lemma Views(live: seq<Tx>, r: nat, k: Text)
    requires r <= |live|
    ensures NoEmptyHistory(Concretize(live, r))
    ensures Get(Concretize(live, r), k, Memory) == Look(Fold(live), k)
    ensures Get(Concretize(live, r), k, Replicated) == Look(Fold(live[..r]), k)
  {
    hide Hist, Fold, Touched;
    ConcreteIsWellFormed(live, r);
    LatestDiffWins(live, r, k);
    TouchedHasHistory(live, r, k);
  }

  // ---------- Commit and rollback ----------

  lemma HistAppend(live: seq<Tx>, r: nat, tx: Tx, k: Text)
    requires r <= |live|
    ensures Hist(live + [tx], r, k) == Hist(live, r, k) + if k in tx then [(|live|, tx[k])] else []
    ensures k in Touched(live + [tx], r) <==> k in Touched(live, r) || k in tx
  {
    assert (live + [tx])[..|live|] == live;
  }

  lemma CommitRefines(live: seq<Tx>, r: nat, tx: Tx)
    requires r <= |live|
    ensures Commit(Concretize(live, r), tx) == Concretize(live + [tx], r)
  {
    assert (live + [tx])[..r] == live[..r];
    var p, q := Commit(Concretize(live, r), tx).pending, Concretize(live + [tx], r).pending;
    forall k ensures k in p <==> k in q {
      HistAppend(live, r, tx, k);
    }
    forall k | k in p ensures p[k] == q[k] {
      HistAppend(live, r, tx, k);
      HistoryOfConcrete(live, r, k);
    }
    assert p == q;
  }

  lemma RollbackRefines(live: seq<Tx>, r: nat)
    requires r <= |live|
    ensures Rollback(Concretize(live, r)) == Concretize(live[..r], r)
  {
    assert live[..r][..r] == live[..r];
  }

  // ---------- Advance ----------

  lemma {:induction false} HistSplit(live: seq<Tx>, r: nat, m: nat, k: Text)
    requires r <= m <= |live|
    ensures Hist(live, r, k) == Hist(live[..m], r, k) + Hist(live, m, k)
    decreases |live|
  {
    if |live| > m {
      var n := |live| - 1;
      HistSplit(live[..n], r, m, k);
      assert live[..n][..m] == live[..m];
    } else {
      assert live[..m] == live;
    }
  }

  /** The inner loop on a history that is cut in two by the target: early diffs are applied, one late diff is lost. */
  lemma {:induction false} PopSplits(keepsRest: bool, early: History, late: History, t: nat, v: Option<Text>)
    requires forall i | 0 <= i < |early| :: early[i].0 <= t
    requires forall i | 0 <= i < |late| :: late[i].0 > t
    ensures PopUpTo(keepsRest, early + late, t, v)
            == (if keepsRest || late == [] then late else late[1..],
                if early == [] then v else DiffValue(early[|early| - 1].1))
    decreases |early|
  {
    if early == [] {
      assert early + late == late;
    } else {
      assert (early + late)[1..] == early[1..] + late;
      PopSplits(keepsRest, early[1..], late, t, DiffValue(early[0].1));
    }
  }

  /**
   * On any ascending history the loop is one cut: where the offsets pass the target, the place a binary search
   * for the latest offset at or below it finds.
   */
  lemma PopIsOneCut(keepsRest: bool, h: History, t: nat, v: Option<Text>, p: nat)
    requires forall i, j | 0 <= i < j < |h| :: h[i].0 < h[j].0
    requires p <= |h| && (p > 0 ==> h[p - 1].0 <= t) && (p < |h| ==> h[p].0 > t)
    ensures PopUpTo(keepsRest, h, t, v)
            == (if keepsRest || p == |h| then h[p..] else h[p + 1..], if p == 0 then v else DiffValue(h[p - 1].1))
  {
    hide PopUpTo;
    var early, late := h[..p], h[p..];
    assert h == early + late;
    forall i | 0 <= i < |early| ensures early[i].0 <= t {
      assert i < p - 1 ==> h[i].0 < h[p - 1].0;
    }
    forall i | 0 <= i < |late| ensures late[i].0 > t {
      assert i > 0 ==> h[p].0 < h[p + i].0;
    }
    PopSplits(keepsRest, early, late, t, v);
    assert p < |h| ==> late[1..] == h[p + 1..];
  }

  /**
   * The exact effect of an advance on one key, for targets from the replicated offset on and below
   * the next: the value becomes that of the latest diff at or below the target, which is the key's
   * value in the fold up to there; the loop as written leaves all later diffs but the first.
   */
  lemma AdvanceOnKey(keepsRest: bool, live: seq<Tx>, r: nat, t: nat, k: Text)
    requires r <= t + 1 <= |live|
    ensures var late := Hist(live, t + 1, k);
            Popped(keepsRest, Concretize(live, r), t, k)
            == (if keepsRest || late == [] then late else late[1..], Look(Fold(live[..t + 1]), k))
  {
    hide Hist, Fold, Touched, PopUpTo, HistoryOf;
    var early, late := Hist(live[..t + 1], r, k), Hist(live, t + 1, k);
    HistAscends(live[..t + 1], r, k);
    HistAscends(live, t + 1, k);
    HistoryOfConcrete(live, r, k);
    HistSplit(live, r, t + 1, k);
    PopSplits(keepsRest, early, late, t, Look(Fold(live[..r]), k));
    LatestDiffWins(live[..t + 1], r, k);
    assert live[..t + 1][..r] == live[..r];
  }

  lemma AdvanceState(keepsRest: bool, live: seq<Tx>, r: nat, t: nat)
    requires r <= t + 1 <= |live|
    ensures Advance(keepsRest, Concretize(live, r), t).state == Fold(live[..t + 1])
  {
    var s := Concretize(live, r);
    forall k ensures Look(Advance(keepsRest, s, t).state, k) == Look(Fold(live[..t + 1]), k) {
      AdvanceOnKey(keepsRest, live, r, t, k);
      if k !in s.state.Keys + s.pending.Keys {
        assert Popped(keepsRest, s, t, k) == ([], None);
      }
    }
    SameLooks(Advance(keepsRest, s, t).state, Fold(live[..t + 1]));
  }

  /** The intended advance, which keeps the rest of each history, refines moving the replicated mark. */
  lemma AdvanceRefines(live: seq<Tx>, r: nat, t: nat)
    requires r <= t + 1 <= |live|
    ensures Advance(true, Concretize(live, r), t) == Concretize(live, t + 1)
  {
    var s := Concretize(live, r);
    AdvanceState(true, live, r, t);
    forall k ensures k in Advance(true, s, t).pending <==> k in Touched(live, t + 1) {
      AdvanceOnKey(true, live, r, t, k);
      TouchedHasHistory(live, t + 1, k);
      TouchedHasHistory(live, r, k);
      HistSplit(live, r, t + 1, k);
    }
    forall k | k in Touched(live, t + 1) ensures Advance(true, s, t).pending[k] == Hist(live, t + 1, k) {
      AdvanceOnKey(true, live, r, t, k);
    }
  }

  /** A target at or past the end replicates everything pending, but sets an offset the store does not hold. */
  lemma AdvancePastTheEnd(keepsRest: bool, live: seq<Tx>, r: nat, t: nat)
    requires r <= |live| <= t + 1
    ensures Advance(keepsRest, Concretize(live, r), t) == Concretize(live, |live|).(replicated := Some(t))
  {
    var s := Concretize(live, r);
    var s' := Advance(keepsRest, s, t);
    forall k ensures Popped(keepsRest, s, t, k) == ([], Look(Fold(live), k)) {
      PastTheEndOnKey(keepsRest, live, r, t, k);
    }
    forall k ensures Look(s'.state, k) == Look(Fold(live), k) {
      if k !in s.state.Keys + s.pending.Keys {
        assert Popped(keepsRest, s, t, k).1 == Look(s.state, k);
      }
    }
    SameLooks(s'.state, Fold(live));
    assert live[..|live|] == live;
    assert Touched(live, |live|) == {};
  }

  lemma PastTheEndOnKey(keepsRest: bool, live: seq<Tx>, r: nat, t: nat, k: Text)
    requires r <= |live| <= t + 1
    ensures Popped(keepsRest, Concretize(live, r), t, k) == ([], Look(Fold(live), k))
  {
    hide Hist, Fold, Touched, PopUpTo, HistoryOf;
    var h := Hist(live, r, k);
    HistAscends(live, r, k);
    HistoryOfConcrete(live, r, k);
    assert h + [] == h;
    PopSplits(keepsRest, h, [], t, Look(Fold(live[..r]), k));
    LatestDiffWins(live, r, k);
  }

  ghost predicate NothingBeyond(live: seq<Tx>, m: nat) {
    forall i | m <= i < |live| :: live[i] == map[]
  }

  lemma NothingBeyondDropsNothing(live: seq<Tx>, r: nat, t: nat)
    requires r <= t + 1 <= |live| && NothingBeyond(live, t + 1)
    ensures Advance(false, Concretize(live, r), t) == Advance(true, Concretize(live, r), t)
  {
    hide Popped, Hist, Concretize;
    var s := Concretize(live, r);
    var written, intended := Advance(false, s, t), Advance(true, s, t);
    forall k ensures Popped(false, s, t, k) == Popped(true, s, t, k) {
      AdvanceOnKey(false, live, r, t, k);
      AdvanceOnKey(true, live, r, t, k);
      HistEmptyIffUntouched(live, t + 1, k);
    }
    assert written.pending == intended.pending;
    AdvanceState(false, live, r, t);
    AdvanceState(true, live, r, t);
  }

  lemma SomethingBeyondIsDropped(live: seq<Tx>, r: nat, t: nat, i: nat, k: Text)
    requires r <= t + 1 <= i < |live| && k in live[i]
    ensures HistoryOf(Advance(false, Concretize(live, r), t), k) != HistoryOf(Concretize(live, t + 1), k)
  {
    AdvanceOnKey(false, live, r, t, k);
    HistEmptyIffUntouched(live, t + 1, k);
    HistSplit(live, r, t + 1, k);
    HistoryOfConcrete(live, r, k);
    HistoryOfConcrete(live, t + 1, k);
  }

  /** The loop as written agrees with the intended one exactly when no diff is pending beyond the target. */
  lemma AdvanceAsWrittenRefines(live: seq<Tx>, r: nat, t: nat)
    requires r <= t + 1 <= |live|
    ensures Advance(false, Concretize(live, r), t) == Concretize(live, t + 1) <==> NothingBeyond(live, t + 1)
  {
    if NothingBeyond(live, t + 1) {
      NothingBeyondDropsNothing(live, r, t);
      AdvanceRefines(live, r, t);
    } else {
      var i :| t + 1 <= i < |live| && live[i] != map[];
      var k :| k in live[i];
      SomethingBeyondIsDropped(live, r, t, i, k);
    }
  }

  lemma PendingAfterAsWritten(live: seq<Tx>, r: nat, t: nat, k: Text)
    requires r <= t + 1 <= |live|
    ensures var late := Hist(live, t + 1, k); var p := Advance(false, Concretize(live, r), t).pending;
            if |late| > 1 then k in p && p[k] == late[1..] else k !in p
  {
    AdvanceOnKey(false, live, r, t, k);
    HistoryOfConcrete(live, r, k);
    HistSplit(live, r, t + 1, k);
    TouchedHasHistory(live, r, k);
  }

  /**
   * What a reader at Memory level sees of the loop as written, on any well-formed store and whatever it lost before:
   * with p the place of the cut in the key's history, the key can only change if exactly one diff lies beyond the
   * target, and then it falls back to the latest diff before the cut or to its replicated value.
   */
  lemma AdvanceAsWrittenInMemory(s: Store, t: nat, k: Text, p: nat)
    requires WellFormed(s)
    requires var h := HistoryOf(s, k); p <= |h| && (p > 0 ==> h[p - 1].0 <= t) && (p < |h| ==> h[p].0 > t)
    ensures var s', h := Advance(false, s, t), HistoryOf(s, k);
            && NoEmptyHistory(s')
            && Get(s', k, Memory)
               == if p + 1 == |h| then (if p == 0 then Look(s.state, k) else DiffValue(h[p - 1].1)) else Get(s, k, Memory)
  {
    hide PopUpTo;
    PopIsOneCut(false, HistoryOf(s, k), t, Look(s.state, k), p);
    StateAfterAdvance(false, s, t, k);
  }

  /** The same on a store that represents a log: the key falls back to its value in the fold up to the target. */
  lemma AsWrittenInMemoryOfLog(live: seq<Tx>, r: nat, t: nat, k: Text)
    requires r <= t + 1 <= |live|
    ensures var s' := Advance(false, Concretize(live, r), t);
            && NoEmptyHistory(s')
            && Get(s', k, Memory)
               == if |Hist(live, t + 1, k)| == 1 then Look(Fold(live[..t + 1]), k) else Look(Fold(live), k)
  {
    AdvanceState(false, live, r, t);
    PendingAfterAsWritten(live, r, t, k);
    LatestDiffWins(live, t + 1, k);
  }

  /** The transactions from number m on without the first diff of each key. */
  function DropFirst(live: seq<Tx>, m: nat): (dropped: seq<Tx>)
    ensures |dropped| == |live|
  {
    seq(|live|, i requires 0 <= i < |live| =>
      if i < m then live[i] else map k | k in live[i] && k in Touched(live[..i], m) :: live[i][k])
  }

  lemma DropFirstOfPrefix(live: seq<Tx>, m: nat, n: nat)
    requires n <= |live|
    ensures DropFirst(live, m)[..n] == DropFirst(live[..n], m)
  {
    hide Touched;
    forall i | 0 <= i < n ensures DropFirst(live, m)[i] == DropFirst(live[..n], m)[i] {
      assert live[..n][..i] == live[..i];
    }
  }

  lemma DropFirstBefore(live: seq<Tx>, m: nat)
    requires m <= |live|
    ensures DropFirst(live, m)[..m] == live[..m]
  {
  }

  lemma {:induction false} HistOfDropped(live: seq<Tx>, m: nat, k: Text)
    requires m <= |live|
    ensures var h := Hist(live, m, k); Hist(DropFirst(live, m), m, k) == if h == [] then [] else h[1..]
    decreases |live|
  {
    if |live| > m {
      var n := |live| - 1;
      hide Touched;
      HistOfDropped(live[..n], m, k);
      DropFirstOfPrefix(live, m, n);
      TouchedHasHistory(live[..n], m, k);
      var before := Hist(live[..n], m, k);
      if before != [] && k in live[n] {
        assert (before + [(n, live[n][k])])[1..] == before[1..] + [(n, live[n][k])];
      }
    }
  }

  /**
   * The loop as written on any represented store and any target in range: it replicates up to the target and, besides,
   * strikes the first later diff of every key out of the log.
   */
  lemma AdvanceAsWrittenDropsFirst(live: seq<Tx>, r: nat, t: nat)
    requires r <= t + 1 <= |live|
    ensures Advance(false, Concretize(live, r), t) == Concretize(DropFirst(live, t + 1), t + 1)
  {
    hide Hist, Touched, Fold, DropFirst, Advance;
    var live' := DropFirst(live, t + 1);
    var s, s' := Advance(false, Concretize(live, r), t), Concretize(live', t + 1);
    AdvanceState(false, live, r, t);
    DropFirstBefore(live, t + 1);
    AdvanceShape(false, Concretize(live, r), t);
    forall k ensures k in s.pending <==> k in s'.pending {
      PendingAfterAsWritten(live, r, t, k);
      HistOfDropped(live, t + 1, k);
      TouchedHasHistory(live', t + 1, k);
    }
    forall k | k in s.pending ensures s.pending[k] == s'.pending[k] {
      PendingAfterAsWritten(live, r, t, k);
      HistOfDropped(live, t + 1, k);
      TouchedHasHistory(live', t + 1, k);
    }
    assert s.pending == s'.pending;
  }

  lemma AdvanceShape(keepsRest: bool, s: Store, t: nat)
    ensures Advance(keepsRest, s, t).next == s.next && Advance(keepsRest, s, t).replicated == Some(t)
  {
  }

  /** The loop as written on a history whose first diff is gone: with a single early diff, the old value stays. */
  lemma PopWithoutFirst(between: History, late: History, u: nat, before: Option<Text>)
    requires forall i | 0 <= i < |between| :: between[i].0 <= u
    requires forall i | 0 <= i < |late| :: late[i].0 > u
    ensures PopUpTo(false, if |between + late| > 1 then (between + late)[1..] else [], u, before).1
            == if |between| <= 1 then before else DiffValue(between[|between| - 1].1)
  {
    if between == [] {
      assert between + late == late;
      if |late| > 1 {
        assert [] + late[1..] == late[1..];
        PopSplits(false, [], late[1..], u, before);
      }
    } else {
      assert (between + late)[1..] == between[1..] + late;
      PopSplits(false, between[1..], late, u, before);
    }
  }

  /**
   * What the loop as written loses for good: after an advance to t, a later advance to u misses the update of a key
   * at Replicated level exactly when the key has one single diff between the two targets.
   */
  lemma AsWrittenLosesUpdates(live: seq<Tx>, r: nat, t: nat, u: nat, k: Text)
    requires r <= t + 1 <= u + 1 <= |live|
    ensures Look(Advance(false, Advance(false, Concretize(live, r), t), u).state, k)
            == if |Hist(live[..u + 1], t + 1, k)| == 1 then Look(Fold(live[..t + 1]), k) else Look(Fold(live[..u + 1]), k)
  {
    hide Hist, Fold, Touched, PopUpTo, Concretize;
    var s := Advance(false, Concretize(live, r), t);
    var between, late := Hist(live[..u + 1], t + 1, k), Hist(live, u + 1, k);
    AdvanceState(false, live, r, t);
    PendingAfterAsWritten(live, r, t, k);
    HistSplit(live, t + 1, u + 1, k);
    HistAscends(live[..u + 1], t + 1, k);
    HistAscends(live, u + 1, k);
    LatestDiffWins(live[..u + 1], t + 1, k);
    assert live[..u + 1][..t + 1] == live[..t + 1];
    PopWithoutFirst(between, late, u, Look(s.state, k));
    StateAfterAdvance(false, s, u, k);
  }

  lemma StateAfterAdvance(keepsRest: bool, s: Store, u: nat, k: Text)
    ensures Look(Advance(keepsRest, s, u).state, k) == PopUpTo(keepsRest, HistoryOf(s, k), u, Look(s.state, k)).1
  {
  }

  lemma TwoCommits(a: Tx, b: Tx)
    ensures Commit(Commit(EMPTY, a), b) == Concretize([a, b], 0)
    ensures Fold([a, b][..1]) == Apply(map[], a) && Fold([a, b][..2]) == Apply(Apply(map[], a), b)
  {
    assert EMPTY == Concretize([], 0);
    CommitRefines([], 0, a);
    CommitRefines([a], 0, b);
    assert [] + [a] == [a] && [a] + [b] == [a, b] && [a, b][..1] == [a] && [a, b][..2] == [a, b];
    FoldAppend([], a);
    FoldAppend([a], b);
  }

  /** Two writes of one key, made durable one after the other: the replicated value stays the first one. */
  lemma SecondWriteIsLost(k: Text, x: Text, y: Text)
    ensures var s := Commit(Commit(EMPTY, map[k := Insert(x)]), map[k := Insert(y)]);
            && Look(Advance(false, Advance(false, s, 0), 1).state, k) == Some(x)
            && Look(Advance(true, Advance(true, s, 0), 1).state, k) == Some(y)
  {
    hide Commit, Concretize, Advance, Fold;
    var a, b: Tx := map[k := Insert(x)], map[k := Insert(y)];
    TwoCommits(a, b);
    AsWrittenLosesUpdates([a, b], 0, 0, 1, k);
    OneDiff(a, b, k);
    AdvanceRefines([a, b], 0, 0);
    AdvanceRefines([a, b], 1, 1);
    ConcreteShape([a, b], 2);
  }

  lemma OneDiff(a: Tx, b: Tx, k: Text)
    requires k in b
    ensures |Hist([a, b][..2], 1, k)| == 1
  {
    assert [a, b][..2] == [a, b] && [a, b][..1] == [a];
    assert Hist([a], 1, k) == [];
  }

  /** Advancing twice is advancing to the later target, and the Memory view stays as it was throughout. */
  lemma AdvancesCompose(live: seq<Tx>, r: nat, a: nat, b: nat, k: Text)
    requires r <= a + 1 <= b + 1 <= |live|
    ensures var s := Concretize(live, r);
            && Advance(true, Advance(true, s, a), b) == Advance(true, s, b)
            && NoEmptyHistory(s) && NoEmptyHistory(Advance(true, s, a))
            && Get(Advance(true, s, a), k, Memory) == Get(s, k, Memory)
  {
    hide Concretize, Advance, Get;
    AdvanceRefines(live, r, a);
    AdvanceRefines(live, a + 1, b);
    AdvanceRefines(live, r, b);
    Views(live, r, k);
    Views(live, a + 1, k);
  }
}
