/** Time as the server's polling loops see it: the reading of `Date.now()` at
    the k-th deadline check of a loop is `clock(k)`.  Between two checks the
    loop sleeps for its poll interval, so the readings advance by at least
    that much. */
module Clock {

  ghost predicate Advancing(clock: nat -> int, interval: int) {
    forall k: nat :: clock(k) + interval <= clock(k + 1)
  }

  /** Readings of an advancing clock are at least `interval` apart per step. */
  lemma {:induction false} AdvancingSpan(clock: nat -> int, interval: int, i: nat, j: nat)
    requires Advancing(clock, interval)
    requires i <= j
    ensures clock(i) + (j - i) * interval <= clock(j)
    decreases j - i
  {
    if i < j {
      AdvancingSpan(clock, interval, i + 1, j);
      assert clock(i) + interval <= clock(i + 1);
    }
  }
}
