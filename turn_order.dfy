/**
 * The pure rule by which the round-robin cursor moves: after a turn taken by
 * the actor at index c, the next turn goes to the first index after c,
 * counting cyclically, whose exit flag is clear. The flags are the exit
 * registry as a sequence, one entry per input engine.
 */
module TurnOrder {

  /** Every input engine has exited. */
  predicate AllSet(flags: seq<bool>)
  {
    forall i :: 0 <= i < |flags| ==> flags[i]
  }

  /** The index at cyclic offset k from c. */
  function At(c: nat, k: nat, n: nat): (j: nat)
    requires n > 0
    ensures j < n
  {
    (c + k) % n
  }

  /** Within one cycle, the cyclic index is the plain sum, wrapped once. */
  lemma AtValue(c: nat, k: nat, n: nat)
    requires c < n && k <= n
    ensures At(c, k, n) == if c + k < n then c + k else c + k - n
  {
  }

  /**
   * The count the advance loop stops at, starting from offset k: the first
   * offset from k on whose flag is clear, and never beyond a full cycle.
   */
  function ScanFrom(flags: seq<bool>, c: nat, k: nat): (count: nat)
    requires 0 < |flags| && 1 <= k <= |flags|
    ensures k <= count <= |flags|
    ensures forall e :: k <= e < count ==> flags[At(c, e, |flags|)]
    ensures count < |flags| ==> !flags[At(c, count, |flags|)]
    decreases |flags| - k
  {
    if !flags[At(c, k, |flags|)] || k == |flags| then k else ScanFrom(flags, c, k + 1)
  }

  /**
   * The actor that gets the turn after actor c: one that has not exited,
   * unless every actor at cyclic offsets 1..n from c has.
   */
  function NextTurn(flags: seq<bool>, c: nat): (j: nat)
    requires 0 < |flags|
    ensures j < |flags|
    ensures !flags[j] || forall e :: 1 <= e <= |flags| ==> flags[At(c, e, |flags|)]
  {
    At(c, ScanFrom(flags, c, 1), |flags|)
  }

  /** The offsets 1..n from c reach every index, so if all of them are set, every flag is set. */
  lemma FullCycle(flags: seq<bool>, c: nat)
    requires 0 < |flags| && c < |flags|
    requires forall e :: 1 <= e <= |flags| ==> flags[At(c, e, |flags|)]
    ensures AllSet(flags)
  {
    var n := |flags|;
    forall j | 0 <= j < n
      ensures flags[j]
    {
      var e := if j > c then j - c else j + n - c;
      AtValue(c, e, n);
    }
  }

  /** While some flag is clear, a scan whose flags so far were all set stops short of a full cycle. */
  lemma ScanStopsEarly(flags: seq<bool>, c: nat, count: nat)
    requires 0 < |flags| && c < |flags| && !AllSet(flags)
    requires 1 <= count <= |flags|
    requires forall e :: 1 <= e <= count ==> flags[At(c, e, |flags|)]
    ensures count < |flags|
  {
    if count == |flags| {
      FullCycle(flags, c);
    }
  }

  /**
   * While some actor has not exited, the next turn goes to a non-exited actor
   * at cyclic offset d in 1..n from c, and every actor strictly between has exited.
   */
  lemma {:induction false} NextTurnSpec(flags: seq<bool>, c: nat)
    requires 0 < |flags| && c < |flags| && !AllSet(flags)
    ensures NextTurn(flags, c) < |flags| && !flags[NextTurn(flags, c)]
    ensures exists d :: 1 <= d <= |flags| && NextTurn(flags, c) == At(c, d, |flags|)
                        && forall e :: 1 <= e < d ==> flags[At(c, e, |flags|)]
  {
    var d := ScanFrom(flags, c, 1);
    if flags[At(c, d, |flags|)] {
      ScanStopsEarly(flags, c, d);
    }
    assert NextTurn(flags, c) == At(c, d, |flags|);
  }

  /** The turn comes back to the same actor only when it is the sole actor not exited. */
  lemma {:induction false} NextTurnSame(flags: seq<bool>, c: nat)
    requires 0 < |flags| && c < |flags| && !AllSet(flags)
    requires NextTurn(flags, c) == c
    ensures !flags[c]
    ensures forall j :: 0 <= j < |flags| && j != c ==> flags[j]
  {
    var n := |flags|;
    var d := ScanFrom(flags, c, 1);
    if flags[At(c, d, n)] {
      ScanStopsEarly(flags, c, d);
    }
    assert d == n by {
      AtValue(c, d, n);
    }
    forall j | 0 <= j < n && j != c
      ensures flags[j]
    {
      var e := if j > c then j - c else j + n - c;
      AtValue(c, e, n);
    }
  }

  /** The cyclically first clear flag after c is the one the next turn goes to. */
  lemma NextTurnIsFirstClear(flags: seq<bool>, c: nat, d: nat)
    requires 0 < |flags| && 1 <= d <= |flags|
    requires !flags[At(c, d, |flags|)]
    requires forall e :: 1 <= e < d ==> flags[At(c, e, |flags|)]
    ensures NextTurn(flags, c) == At(c, d, |flags|)
  {
  }

  /**
   * The same in terms of indices: the next turn goes to k when k is clear
   * and every index after c and before k, counting cyclically, is set.
   */
  lemma FirstClearAfter(flags: seq<bool>, c: nat, k: nat)
    requires c < |flags| && k < |flags| && !flags[k]
    requires c < k ==> forall j :: c < j < k ==> flags[j]
    requires k <= c ==> (forall j :: c < j < |flags| ==> flags[j]) && (forall j :: 0 <= j < k ==> flags[j])
    ensures NextTurn(flags, c) == k
  {
    var n := |flags|;
    var d := if c < k then k - c else n - c + k;
    AtValue(c, d, n);
    forall e | 1 <= e < d
      ensures flags[At(c, e, n)]
    {
      AtValue(c, e, n);
    }
    NextTurnIsFirstClear(flags, c, d);
  }
}
