/**
 * The order in which a round-robin replay processes actions, stated
 * independently of the cursor: the replay runs in rounds r = 0, 1, 2, ...;
 * in round r the input engines take their turns in index order, and an
 * engine takes part in round r exactly when it has more than r actions up to
 * and including its first Exit. Positions are pairs (round, index).
 */
module Rounds {
  import opened Actions
  import opened TurnOrder

  /** Every input engine eventually yields an Exit. */
  predicate WellFormed(scripts: seq<seq<Action>>)
  {
    forall j :: 0 <= j < |scripts| ==> Exit in scripts[j]
  }

  function Min(a: nat, b: nat): nat
  {
    if a <= b then a else b
  }

  /** The number of rounds: the longest processed prefix over all input engines. */
  function MaxLen(scripts: seq<seq<Action>>): (m: nat)
    requires WellFormed(scripts)
    ensures forall j :: 0 <= j < |scripts| ==> Len(scripts[j]) <= m
  {
    if scripts == [] then 0
    else
      var rest := MaxLen(scripts[1..]);
      assert forall j :: 1 <= j < |scripts| ==> scripts[j] == scripts[1..][j - 1];
      if Len(scripts[0]) <= rest then rest else Len(scripts[0])
  }

  /** No round is needed beyond a bound that every input engine's length respects. */
  lemma {:induction false} MaxLenLeast(scripts: seq<seq<Action>>, bound: nat)
    requires WellFormed(scripts)
    requires forall j :: 0 <= j < |scripts| ==> Len(scripts[j]) <= bound
    ensures MaxLen(scripts) <= bound
  {
    if scripts != [] {
      assert forall j :: 0 <= j < |scripts| - 1 ==> scripts[1..][j] == scripts[j + 1];
      MaxLenLeast(scripts[1..], bound);
    }
  }

  /** The entries processed from position (r, i) on. */
  function RoundRobinFrom(scripts: seq<seq<Action>>, r: nat, i: nat): seq<Applied>
    requires WellFormed(scripts) && i <= |scripts|
    decreases MaxLen(scripts) - r, |scripts| - i
  {
    if r >= MaxLen(scripts) then []
    else if i == |scripts| then RoundRobinFrom(scripts, r + 1, 0)
    else
      (if r < Len(scripts[i]) then [Applied(i, scripts[i][r])] else [])
      + RoundRobinFrom(scripts, r, i + 1)
  }

  /** The whole order of a round-robin replay, starting with input engine 0 in round 0. */
  function RoundRobinOrder(scripts: seq<seq<Action>>): seq<Applied>
    requires WellFormed(scripts)
  {
    RoundRobinFrom(scripts, 0, 0)
  }

  /** Every engine's actions in the round-robin order are exactly those up to and including its first Exit, in the order it yields them. */
  lemma RoundRobinOrderConsumes(scripts: seq<seq<Action>>, j: nat)
    requires WellFormed(scripts) && j < |scripts|
    ensures Project(RoundRobinOrder(scripts), j) == Consumed(scripts[j])
  {
    ProjectFrom(scripts, 0, 0, j);
    assert DoneAt(scripts, 0, 0, j) == 0;
  }

  /** What position (r, i) itself processes of engine j: its action of round r if (r, i) is j's turn, nothing otherwise. */
  lemma ProjectAtPosition(scripts: seq<seq<Action>>, r: nat, i: nat, j: nat)
    requires WellFormed(scripts) && i < |scripts| && j < |scripts|
    ensures DoneAt(scripts, r, i, j) <= DoneAt(scripts, r, i + 1, j) <= Len(scripts[j])
    ensures Project(if r < Len(scripts[i]) then [Applied(i, scripts[i][r])] else [], j)
            == scripts[j][DoneAt(scripts, r, i, j)..DoneAt(scripts, r, i + 1, j)]
  {
    var d0, d1 := DoneAt(scripts, r, i, j), DoneAt(scripts, r, i + 1, j);
    if r < Len(scripts[i]) {
      var e := Applied(i, scripts[i][r]);
      ProjectAppend([], e, j);
      assert [] + [e] == [e];
      if j == i {
        assert d0 == r && d1 == r + 1;
        assert scripts[j][d0..d1] == [scripts[j][r]];
      } else {
        assert d0 == d1;
      }
    } else {
      assert d0 == d1;
    }
  }

  /** From position (r, i) on, engine j gets processed the rest of its actions up to its first Exit, in order. */
  ghost predicate ProjectsRest(scripts: seq<seq<Action>>, r: nat, i: nat, j: nat)
    requires WellFormed(scripts) && i <= |scripts| && j < |scripts|
  {
    && DoneAt(scripts, r, i, j) <= Len(scripts[j])
    && Project(RoundRobinFrom(scripts, r, i), j) == scripts[j][DoneAt(scripts, r, i, j)..Len(scripts[j])]
  }

  /** The claim of ProjectsRest holds at every position, by induction on the positions left. */
  lemma {:induction false} ProjectFrom(scripts: seq<seq<Action>>, r: nat, i: nat, j: nat)
    requires WellFormed(scripts) && i <= |scripts| && j < |scripts|
    ensures ProjectsRest(scripts, r, i, j)
    decreases MaxLen(scripts) - r, |scripts| - i
  {
    if r >= MaxLen(scripts) {
      ProjectPastEnd(scripts, r, i, j);
    } else if i == |scripts| {
      ProjectFrom(scripts, r + 1, 0, j);
      ProjectRoundEnd(scripts, r, j);
    } else {
      ProjectFrom(scripts, r, i + 1, j);
      ProjectStep(scripts, r, i, j);
    }
  }

  /** Once every round is over, nothing is left to process and every engine has fetched all its actions up to its first Exit. */
  lemma ProjectPastEnd(scripts: seq<seq<Action>>, r: nat, i: nat, j: nat)
    requires WellFormed(scripts) && i <= |scripts| && j < |scripts| && r >= MaxLen(scripts)
    ensures DoneAt(scripts, r, i, j) == Len(scripts[j])
    ensures ProjectsRest(scripts, r, i, j)
  {
    assert Len(scripts[j]) <= MaxLen(scripts);
  }

  /** The end of round r is the start of round r + 1. */
  lemma ProjectRoundEnd(scripts: seq<seq<Action>>, r: nat, j: nat)
    requires WellFormed(scripts) && j < |scripts| && r < MaxLen(scripts)
    requires ProjectsRest(scripts, r + 1, 0, j)
    ensures ProjectsRest(scripts, r, |scripts|, j)
  {
    assert RoundRobinFrom(scripts, r, |scripts|) == RoundRobinFrom(scripts, r + 1, 0);
    assert DoneAt(scripts, r, |scripts|, j) == DoneAt(scripts, r + 1, 0, j);
  }

  /** One position further back: the claim at (r, i + 1) gives the claim at (r, i). */
  lemma ProjectStep(scripts: seq<seq<Action>>, r: nat, i: nat, j: nat)
    requires WellFormed(scripts) && i < |scripts| && j < |scripts| && r < MaxLen(scripts)
    requires ProjectsRest(scripts, r, i + 1, j)
    ensures ProjectsRest(scripts, r, i, j)
  {
    var head := if r < Len(scripts[i]) then [Applied(i, scripts[i][r])] else [];
    var rest := RoundRobinFrom(scripts, r, i + 1);
    assert RoundRobinFrom(scripts, r, i) == head + rest;
    ProjectAtPosition(scripts, r, i, j);
    ProjectJoin(head, rest, j, scripts[j], DoneAt(scripts, r, i, j), DoneAt(scripts, r, i + 1, j), Len(scripts[j]));
  }

  /** Two consecutive stretches of a log that hold two consecutive slices of an engine's actions together hold the joined slice. */
  lemma ProjectJoin(head: seq<Applied>, rest: seq<Applied>, j: nat, s: seq<Action>, d0: nat, d1: nat, len: nat)
    requires d0 <= d1 <= len <= |s|
    requires Project(head, j) == s[d0..d1] && Project(rest, j) == s[d1..len]
    ensures Project(head + rest, j) == s[d0..len]
  {
    ProjectConcat(head, rest, j);
    assert s[d0..d1] + s[d1..len] == s[d0..len];
  }

  /** The first index from i0 on that takes part in round r, or the number of engines if none does. */
  function FirstActive(scripts: seq<seq<Action>>, r: nat, i0: nat): (k: nat)
    requires WellFormed(scripts) && i0 <= |scripts|
    ensures i0 <= k <= |scripts|
    ensures k < |scripts| ==> r < Len(scripts[k])
    ensures forall j :: i0 <= j < k ==> Len(scripts[j]) <= r
    decreases |scripts| - i0
  {
    if i0 == |scripts| || r < Len(scripts[i0]) then i0 else FirstActive(scripts, r, i0 + 1)
  }

  /**
   * The first position at or after (r, i0) whose engine takes part in its
   * round; a position whose round is MaxLen or more when none is left.
   */
  function NextPosition(scripts: seq<seq<Action>>, r: nat, i0: nat): (p: (nat, nat))
    requires WellFormed(scripts) && i0 <= |scripts|
    ensures r <= p.0 && p.1 <= |scripts|
    ensures p.0 < MaxLen(scripts) ==> p.1 < |scripts| && p.0 < Len(scripts[p.1])
    decreases MaxLen(scripts) - r
  {
    if r >= MaxLen(scripts) then (r, i0)
    else
      var k := FirstActive(scripts, r, i0);
      if k < |scripts| then (r, k) else NextPosition(scripts, r + 1, 0)
  }

  /** How many actions engine j has fetched when position (r, i) is the next to act. */
  function DoneAt(scripts: seq<seq<Action>>, r: nat, i: nat, j: nat): nat
    requires WellFormed(scripts) && j < |scripts|
  {
    if j < i then Min(Len(scripts[j]), r + 1) else Min(Len(scripts[j]), r)
  }

  /** Skipping engines that sit out round r changes neither what is left to process nor the fetch counts. */
  lemma {:induction false} SkipWithinRound(scripts: seq<seq<Action>>, r: nat, i0: nat, k: nat)
    requires WellFormed(scripts) && i0 <= k <= |scripts|
    requires forall j :: i0 <= j < k ==> Len(scripts[j]) <= r
    ensures RoundRobinFrom(scripts, r, i0) == RoundRobinFrom(scripts, r, k)
    ensures forall j :: 0 <= j < |scripts| ==> DoneAt(scripts, r, i0, j) == DoneAt(scripts, r, k, j)
    decreases k - i0
  {
    if i0 < k {
      assert RoundRobinFrom(scripts, r, i0) == RoundRobinFrom(scripts, r, i0 + 1);
      SkipWithinRound(scripts, r, i0 + 1, k);
    }
  }

  /** Moving on to the next position that acts changes neither what is left to process nor the fetch counts. */
  lemma {:induction false} SkipInactive(scripts: seq<seq<Action>>, r: nat, i0: nat)
    requires WellFormed(scripts) && i0 <= |scripts|
    ensures var p := NextPosition(scripts, r, i0);
            RoundRobinFrom(scripts, r, i0) == RoundRobinFrom(scripts, p.0, p.1)
            && forall j :: 0 <= j < |scripts| ==> DoneAt(scripts, r, i0, j) == DoneAt(scripts, p.0, p.1, j)
    decreases MaxLen(scripts) - r
  {
    if r < MaxLen(scripts) {
      var k := FirstActive(scripts, r, i0);
      SkipWithinRound(scripts, r, i0, k);
      if k == |scripts| {
        SkipInactive(scripts, r + 1, 0);
      }
    }
  }

  /**
   * The cursor rule and the rounds agree. Engine i has just taken its turn
   * at position (r, i), so the exit flags are those of position (r, i + 1).
   * Then some engine remains exactly when a later position acts, and the
   * engine NextTurn hands the turn to is the one at that position.
   */
  lemma TurnHandoff(scripts: seq<seq<Action>>, r: nat, i: nat, flags: seq<bool>)
    requires WellFormed(scripts) && i < |scripts| && r < Len(scripts[i])
    requires |flags| == |scripts|
    requires forall j :: 0 <= j < |scripts| ==>
               (flags[j] <==> DoneAt(scripts, r, i + 1, j) == Len(scripts[j]))
    ensures var p := NextPosition(scripts, r, i + 1);
            (p.0 < MaxLen(scripts) <==> !AllSet(flags))
            && (p.0 < MaxLen(scripts) ==> p.1 == NextTurn(flags, i))
  {
    var n := |scripts|;
    var k1 := FirstActive(scripts, r, i + 1);
    if k1 < n {
      FirstClearAfter(flags, i, k1);
    } else {
      var k2 := FirstActive(scripts, r + 1, 0);
      if k2 < n {
        FirstClearAfter(flags, i, k2);
      } else {
        MaxLenLeast(scripts, r + 1);
      }
    }
  }

  /**
   * One turn at position (r, i), seen from the rounds: engine i fetches its
   * action of round r, the fetch counts become those of the next position
   * that acts, that position is the one the cursor moves to, and what is left
   * to process loses exactly the entry just processed.
   */
  lemma TurnFollowsRounds(scripts: seq<seq<Action>>, r: nat, i: nat,
                          fetched: seq<nat>, flags': seq<bool>, fetched': seq<nat>)
    requires WellFormed(scripts) && i < |scripts| && r < Len(scripts[i])
    requires |fetched| == |scripts| && forall j :: 0 <= j < |scripts| ==> fetched[j] == DoneAt(scripts, r, i, j)
    requires fetched' == fetched[i := fetched[i] + 1]
    requires |flags'| == |scripts|
    requires forall j :: 0 <= j < |scripts| ==> (flags'[j] <==> fetched'[j] == Len(scripts[j]))
    ensures fetched[i] == r
    ensures var p := NextPosition(scripts, r, i + 1);
            && (forall j :: 0 <= j < |scripts| ==> fetched'[j] == DoneAt(scripts, p.0, p.1, j))
            && (p.0 < MaxLen(scripts) <==> !AllSet(flags'))
            && (p.0 < MaxLen(scripts) ==> p.1 == NextTurn(flags', i))
            && RoundRobinFrom(scripts, r, i)
               == [Applied(i, scripts[i][r])] + RoundRobinFrom(scripts, p.0, p.1)
  {
    assert forall j :: 0 <= j < |scripts| ==> fetched'[j] == DoneAt(scripts, r, i + 1, j);
    TurnHandoff(scripts, r, i, flags');
    SkipInactive(scripts, r, i + 1);
  }
}
