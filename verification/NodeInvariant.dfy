/** What every node keeps, and the replay loop on a store that follows the node's log. */
module NodeInvariant {
  import opened NodeSpec
  import opened OmniPaxos
  import opened Refinement
  import opened Replaying
  import opened Store
  import opened Wrappers

  // ---------- The meaning of logs ----------

  function Effects(es: seq<Entry>): seq<Tx> {
    seq(|es|, i requires 0 <= i < |es| => Effect(es[i].txData))
  }

  lemma EffectsLength(es: seq<Entry>)
    ensures |Effects(es)| == |es|
  {
  }

  lemma EffectsOfPrefix(es: seq<Entry>, k: nat)
    requires k <= |es|
    ensures Effects(es[..k]) == Effects(es)[..k]
  {
  }

  lemma EffectsOfMore(es: seq<Entry>, k: nat)
    requires k < |es|
    ensures Effects(es[..k + 1]) == Effects(es[..k]) + [Effect(es[k].txData)]
  {
  }

  /** The entry at position i carries offset i, and its rows are readable. */
  ghost predicate LogOk(log: seq<Entry>) {
    forall i | 0 <= i < |log| :: log[i].txOffset == i && Readable(log[i].txData)
  }

  // ---------- The invariant ----------

  /** The number of entries applied. */
  function Applied(n: NodeState): nat {
    NextAfter(n.lastApplied)
  }

  /** The node still takes itself for the leader although the library no longer does: it has not rolled back yet. */
  predicate Deposed(n: NodeState) {
    n.currentLeader == Some(n.id) && !IsLeader(n)
  }

  ghost predicate OmniOk(decided: seq<Entry>, o: Omni) {
    && o.decided <= |o.log| && o.decided <= |decided|
    && o.log[..o.decided] == decided[..o.decided]
    && LogOk(o.log)
  }

  /** The store is the one that represents the node's log up to its next offset, replicated as far as applied. */
  ghost predicate StoreFollowsLog(n: NodeState) {
    && Applied(n) <= n.store.next <= |n.omni.log|
    && n.store == Concretize(Effects(n.omni.log[..n.store.next]), Applied(n))
  }

  ghost predicate ReplicatedIsDecided(decided: seq<Entry>, n: NodeState) {
    && Applied(n) <= n.omni.decided <= |decided|
    && n.store.replicated == n.lastApplied
    && n.store.state == Fold(Effects(decided[..Applied(n)]))
  }

  ghost predicate Represents(s: Store, live: seq<Tx>, r: nat) {
    r <= |live| && s == Concretize(live, r)
  }

  /** The store represents some history: the first a decided transactions, replicated, and after them those pending. */
  ghost predicate HoldsAHistory(decided: seq<Entry>, s: Store, a: nat) {
    && a <= |decided|
    && exists live :: Represents(s, live, a) && live[..a] == Effects(decided[..a])
  }

  ghost predicate NodeOk(decided: seq<Entry>, n: NodeState) {
    && OmniOk(decided, n.omni)
    && ReplicatedIsDecided(decided, n)
    && HoldsAHistory(decided, n.store, Applied(n))
    && (!Deposed(n) ==> StoreFollowsLog(n))
    && (!Deposed(n) && !IsLeader(n) ==> n.store.next == Applied(n))
  }

  /** The clauses about the replicated table and the held history follow from the one about the log. */
  lemma FollowingLogIsReplicated(decided: seq<Entry>, n: NodeState)
    requires OmniOk(decided, n.omni) && StoreFollowsLog(n) && Applied(n) <= n.omni.decided
    ensures ReplicatedIsDecided(decided, n) && HoldsAHistory(decided, n.store, Applied(n))
  {
    hide LogOk, Concretize, Effects;
    var a, log := Applied(n), n.omni.log;
    var live := Effects(log[..n.store.next]);
    EffectsLength(log[..n.store.next]);
    AppliedIsLogPrefix(decided, n);
    EffectsOfPrefix(log[..n.store.next], a);
    assert log[..n.store.next][..a] == log[..a];
    ConcreteShape(live, a);
    assert Represents(n.store, live, a);
  }

  lemma AppliedIsLogPrefix(decided: seq<Entry>, n: NodeState)
    requires OmniOk(decided, n.omni) && Applied(n) <= n.omni.decided
    ensures n.omni.log[..Applied(n)] == decided[..Applied(n)]
  {
    var a := Applied(n);
    assert n.omni.log[..a] == n.omni.log[..n.omni.decided][..a];
    assert decided[..a] == decided[..n.omni.decided][..a];
  }

  // ---------- The replay loop ----------

  function Min(a: nat, b: nat): nat {
    if a < b then a else b
  }

  function Max(a: nat, b: nat): nat {
    if a < b then b else a
  }

  ghost predicate DropsNothing(v: Variant, live: seq<Tx>, m: nat) {
    v.keepsRest || NothingBeyond(live, m)
  }

  lemma AdvanceEither(v: Variant, live: seq<Tx>, r: nat, t: nat)
    requires r <= t + 1 <= |live| && DropsNothing(v, live, t + 1)
    ensures Advance(v.keepsRest, Concretize(live, r), t) == Concretize(live, t + 1)
  {
    AdvanceRefines(live, r, t);
    AdvanceAsWrittenRefines(live, r, t);
  }

  /** What a store holds, and after it the log's entries from where that ends up to position d. */
  function Grown(live: seq<Tx>, log: seq<Entry>, d: nat): (grown: seq<Tx>)
    requires d <= |log|
    ensures |grown| == Max(|live|, d)
  {
    live + Effects(log[Min(|live|, d)..d])
  }

  lemma GrownOfLog(log: seq<Entry>, m: nat, d: nat)
    requires m <= |log| && d <= |log|
    ensures Grown(Effects(log[..m]), log, d) == Effects(log[..Max(m, d)])
  {
    if m < d {
      assert log[..d] == log[..m] + log[m..d];
    }
  }

  lemma GrownByOne(live: seq<Tx>, log: seq<Entry>, j: nat)
    requires j < |log| && j <= |live|
    ensures Grown(live, log, j + 1) == if |live| == j then live + [Effect(log[j].txData)] else live
  {
    hide Effect;
  }

  lemma GrownTwice(live: seq<Tx>, log: seq<Entry>, j: nat, d: nat)
    requires j < d <= |log| && j <= |live|
    ensures Grown(Grown(live, log, j + 1), log, d) == Grown(live, log, d)
  {
    hide Effect;
    if |live| == j {
      GrownByOne(live, log, j);
      assert Effects(log[j..d]) == [Effect(log[j].txData)] + Effects(log[j + 1..d]);
    }
  }

  /**
   * One entry, at position j of the log, applied to a store with any live transactions: whether it is replayed because
   * they end there or refused because they go on, the store then is replicated up to it.
   */
  lemma ApplyEntryFollows(v: Variant, n: NodeState, j: nat, live: seq<Tx>, r: nat)
    requires LogOk(n.omni.log) && j < |n.omni.log| && r <= j <= |live| && (|live| == j ==> r == j)
    requires n.store == Concretize(live, r) && DropsNothing(v, live, j + 1)
    ensures ApplyEntry(v, n, n.omni.log[j])
            == Some(n.(store := Concretize(Grown(live, n.omni.log, j + 1), j + 1), lastApplied := Some(j)))
  {
    hide Concretize, Replay, Advance, Effect, Readable, Grown;
    ReplayRefines(live, r, n.omni.log[j].txData);
    GrownByOne(live, n.omni.log, j);
    if |live| == j {
      AdvanceEither(v, Grown(live, n.omni.log, j + 1), j + 1, j);
    } else {
      AdvanceEither(v, live, r, j);
    }
  }

  /**
   * The replay loop from position j up to d. What the store held is replicated in its place, and only where it ends are the
   * log's entries replayed; so the table is that of the log exactly as far as the store held what the log says.
   */
  lemma {:induction false} ApplyEntriesFollow(v: Variant, n: NodeState, j: nat, d: nat, live: seq<Tx>, r: nat)
    requires LogOk(n.omni.log) && r <= j < d <= |n.omni.log| && j <= |live| && (|live| == j ==> r == j)
    requires n.store == Concretize(live, r) && DropsNothing(v, live, j + 1)
    ensures ApplyEntries(v, n, n.omni.log[j..d])
            == Some(n.(store := Concretize(Grown(live, n.omni.log, d), d), lastApplied := Some(d - 1)))
    decreases d - j
  {
    hide Concretize, ApplyEntry, LogOk, Effects, Grown;
    var log := n.omni.log;
    var live' := Grown(live, log, j + 1);
    ApplyEntryFollows(v, n, j, live, r);
    assert log[j..d][0] == log[j] && log[j..d][1..] == log[j + 1..d];
    if j + 1 < d {
      GrownByOne(live, log, j);
      GrownTwice(live, log, j, d);
      ApplyEntriesFollow(v, ApplyEntry(v, n, log[j]).value, j + 1, d, live', j + 1);
    }
  }
}
