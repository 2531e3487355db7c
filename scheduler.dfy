/**
 * The round-robin scheduler of a replay, run one turn at a time.
 *
 * One RoundRobinRun is the state of one run: the exit registry (one flag per
 * input engine), the turn cursor, and the effects a run has on its
 * collaborators: how many actions each input engine has yielded, the
 * actions passed to processAction in order, and the messages forwarded to
 * the rendering engine. The threads that take these turns in the original
 * are replaced by a loop that lets the engine named by the cursor act.
 */
module Scheduler {
  import opened Actions
  import opened TurnOrder
  import opened Rounds
  import opened Game

  /**
   * What a run keeps true at every step, over its values: each engine has
   * yielded at most its actions up to its first Exit, its flag is set exactly
   * when it has yielded that Exit, what it yielded was processed in that
   * order, and a message was forwarded for each failed processing.
   */
  ghost predicate RunState(scripts: seq<seq<Action>>, judge: seq<Applied> -> ActionResult,
                           flags: seq<bool>, fetched: seq<nat>,
                           processed: seq<Applied>, messages: seq<string>)
  {
    && |scripts| == |flags| == |fetched|
    && WellFormed(scripts)
    && (forall j :: 0 <= j < |scripts| ==> EngineState(scripts, flags, fetched, processed, j))
    && messages == Messages(processed, judge)
  }

  /** Input engine j's part of the run state. */
  ghost predicate EngineState(scripts: seq<seq<Action>>, flags: seq<bool>, fetched: seq<nat>,
                              processed: seq<Applied>, j: nat)
    requires j < |scripts| == |flags| == |fetched|
  {
    && Exit in scripts[j]
    && fetched[j] <= Len(scripts[j])
    && (flags[j] <==> fetched[j] == Len(scripts[j]))
    && Project(processed, j) == scripts[j][..fetched[j]]
  }

  /**
   * One action by engine c, which has not exited, seen from engine j: c
   * yields its next action, and j's part of the run state holds afterwards.
   */
  lemma EngineAfterAct(scripts: seq<seq<Action>>, flags: seq<bool>, fetched: seq<nat>,
                       processed: seq<Applied>, c: nat, j: nat)
    requires c < |scripts| == |flags| == |fetched| && j < |scripts| && !flags[c]
    requires EngineState(scripts, flags, fetched, processed, c)
    requires EngineState(scripts, flags, fetched, processed, j)
    ensures fetched[c] < |scripts[c]|
    ensures var a := scripts[c][fetched[c]];
            EngineState(scripts, if a == Exit then flags[c := true] else flags,
                        fetched[c := fetched[c] + 1], processed + [Applied(c, a)], j)
  {
    var f := fetched[c];
    var a := scripts[c][f];
    ProjectAppend(processed, Applied(c, a), j);
    if j == c {
      assert f + 1 == Len(scripts[c]) <==> a == Exit by {
        var k := FirstExit(scripts[c]);
        if f < k {
          assert scripts[c][..k][f] == a;
        }
      }
      assert scripts[c][..f + 1] == scripts[c][..f] + [a];
    }
  }

  /** One action by an engine that has not exited keeps the run state. */
  lemma ActKeepsRunState(scripts: seq<seq<Action>>, judge: seq<Applied> -> ActionResult,
                         flags: seq<bool>, fetched: seq<nat>,
                         processed: seq<Applied>, messages: seq<string>, c: nat)
    requires RunState(scripts, judge, flags, fetched, processed, messages)
    requires c < |scripts| && !flags[c]
    ensures fetched[c] < |scripts[c]|
    ensures var a := scripts[c][fetched[c]];
            var log := processed + [Applied(c, a)];
            RunState(scripts, judge,
                     if a == Exit then flags[c := true] else flags,
                     fetched[c := fetched[c] + 1],
                     log, messages + Reason(judge(log)))
  {
    assert EngineState(scripts, flags, fetched, processed, c);
    var a := scripts[c][fetched[c]];
    var log := processed + [Applied(c, a)];
    var flags' := if a == Exit then flags[c := true] else flags;
    var fetched' := fetched[c := fetched[c] + 1];
    forall j | 0 <= j < |scripts|
      ensures EngineState(scripts, flags', fetched', log, j)
    {
      assert EngineState(scripts, flags, fetched, processed, j);
      EngineAfterAct(scripts, flags, fetched, processed, c, j);
    }
    assert log[..|processed|] == processed;
  }

  class RoundRobinRun {
    /** What each input engine yields, in order. */
    const scripts: seq<seq<Action>>
    /** What processAction reports for the last entry of a processed history. */
    const judge: seq<Applied> -> ActionResult
    /** The number of input engines. */
    const n: nat
    /** The exit registry. */
    const exits: array<bool>
    /** The turn cursor. */
    var nextId: nat
    /** How many actions each input engine has yielded so far. */
    var fetched: seq<nat>
    /** The actions passed to processAction, in order. */
    var processed: seq<Applied>
    /** The messages forwarded to the rendering engine, in order. */
    var messages: seq<string>

    /** What a run keeps true at every step. */
    ghost predicate Consistent()
      reads this`fetched, this`processed, this`messages, exits
    {
      && n == |scripts| == exits.Length && 0 < n
      && RunState(scripts, judge, exits[..], fetched, processed, messages)
    }

    /** The run invariant between turns: also, while some engine has not exited, the cursor names one that has not. */
    ghost predicate Valid()
      reads this, exits
    {
      Consistent() && nextId < n && (!AllSet(exits[..]) ==> !exits[nextId])
    }

    /** Start of a run: the cursor at 0 and one clear flag per input engine. */
    constructor Start(scripts: seq<seq<Action>>, judge: seq<Applied> -> ActionResult)
      requires 0 < |scripts| && WellFormed(scripts)
      ensures Valid() && fresh(exits)
      ensures this.scripts == scripts && this.judge == judge
      ensures nextId == 0 && forall j :: 0 <= j < n ==> !exits[j]
      ensures fetched == seq(|scripts|, _ => 0) && processed == [] && messages == []
    {
      var flags := new bool[|scripts|];
      var i := 0;
      while i < |scripts|
        invariant 0 <= i <= |scripts|
        invariant forall j :: 0 <= j < i ==> !flags[j]
      {
        flags[i] := false;
        i := i + 1;
      }
      this.scripts := scripts;
      this.judge := judge;
      n := |scripts|;
      exits := flags;
      nextId := 0;
      fetched := seq(|scripts|, _ => 0);
      processed := [];
      messages := [];
      new;
      forall j | 0 <= j < n
        ensures EngineState(scripts, exits[..], fetched, processed, j)
      {
      }
    }

    /** True exactly when every input engine has exited. */
    method AllExit() returns (all: bool)
      requires exits.Length == n
      ensures all <==> AllSet(exits[..])
    {
      var i := 0;
      while i < n
        invariant 0 <= i <= n
        invariant forall j :: 0 <= j < i ==> exits[j]
      {
        if !exits[i] {
          return false;
        }
        i := i + 1;
      }
      return true;
    }

    /**
     * The wait before a turn: engine `index` goes on once the cursor names it
     * or every engine has exited. While some engine has not exited, only the
     * engine the cursor names goes on, and it has not exited.
     */
    method MayProceed(index: nat) returns (proceed: bool)
      requires Valid() && index < n
      ensures AllSet(exits[..]) ==> proceed
      ensures !AllSet(exits[..]) ==> (proceed <==> index == nextId)
      ensures proceed && !AllSet(exits[..]) ==> !exits[index]
    {
      var all := AllExit();
      proceed := nextId == index || all;
    }

    /**
     * Moving the cursor after a turn: unless every engine has exited, to the
     * first index after the current one, cyclically, whose flag is clear.
     */
    method Advance()
      requires exits.Length == n && 0 < n && nextId < n
      modifies this`nextId
      ensures nextId == if AllSet(exits[..]) then old(nextId) else NextTurn(exits[..], old(nextId))
    {
      var all := AllExit();
      if !all {
        ghost var flags := exits[..];
        var c := nextId;
        var count := 1;
        while exits[(c + count) % n]
          invariant 1 <= count <= n
          invariant forall e :: 1 <= e < count ==> flags[At(c, e, n)]
          invariant ScanFrom(flags, c, count) == ScanFrom(flags, c, 1)
          decreases n - count
        {
          assert flags[At(c, count, n)];
          ScanStopsEarly(flags, c, count);
          count := count + 1;
        }
        assert !flags[At(c, count, n)];
        nextId := (c + count) % n;
      }
    }

    /**
     * The engine the cursor names acts: it fetches its next action, sets its
     * exit flag first if that action is Exit, gets the action processed, and
     * forwards the failure reason if processing failed.
     */
    method Act() returns (a: Action)
      requires Consistent() && nextId < n && !exits[nextId]
      modifies this`fetched, this`processed, this`messages, exits
      ensures Consistent()
      ensures old(fetched)[nextId] < |scripts[nextId]| && a == scripts[nextId][old(fetched)[nextId]]
      ensures fetched == old(fetched)[nextId := old(fetched)[nextId] + 1]
      ensures exits[..] == if a == Exit then old(exits[..])[nextId := true] else old(exits[..])
      ensures processed == old(processed) + [Applied(nextId, a)]
      ensures messages == old(messages) + Reason(judge(processed))
    {
      var c := nextId;
      ghost var flags := exits[..];
      ActKeepsRunState(scripts, judge, flags, fetched, processed, messages, c);
      a := scripts[c][fetched[c]];
      var fetched' := fetched[c := fetched[c] + 1];
      var log := processed + [Applied(c, a)];
      var messages' := messages + Reason(judge(log));
      ghost var flags' := if a == Exit then flags[c := true] else flags;
      assert RunState(scripts, judge, flags', fetched', log, messages');
      if a == Exit {
        exits[c] := true;
      }
      fetched, processed, messages := fetched', log, messages';
      assert exits[..] == flags';
    }

    /**
     * One turn: the engine the cursor names acts, then the cursor advances.
     * Returns the action that engine fetched.
     */
    method Turn() returns (a: Action)
      requires Valid() && !AllSet(exits[..])
      modifies this, exits
      ensures Valid()
      ensures old(fetched)[old(nextId)] < |scripts[old(nextId)]|
      ensures a == scripts[old(nextId)][old(fetched)[old(nextId)]]
      ensures fetched == old(fetched)[old(nextId) := old(fetched)[old(nextId)] + 1]
      ensures exits[..] == if a == Exit then old(exits[..])[old(nextId) := true] else old(exits[..])
      ensures forall j :: 0 <= j < n && old(exits[j]) ==> exits[j]
      ensures processed == old(processed) + [Applied(old(nextId), a)]
      ensures messages == old(messages) + Reason(judge(processed))
      ensures nextId == if AllSet(exits[..]) then old(nextId) else NextTurn(exits[..], old(nextId))
    {
      var c := nextId;
      a := Act();
      Advance();
      if !AllSet(exits[..]) {
        NextTurnSpec(exits[..], c);
      }
    }

    /** An engine's flag is set exactly when its Exit has been processed. */
    lemma ExitFlagMeansExitProcessed()
      requires Valid()
      ensures forall j :: 0 <= j < n ==> (exits[j] <==> Exit in Project(processed, j))
    {
      forall j | 0 <= j < n
        ensures exits[j] <==> Exit in Project(processed, j)
      {
        assert EngineState(scripts, exits[..], fetched, processed, j);
        ExitInPrefix(scripts[j], fetched[j]);
      }
    }

    /**
     * The guard of an input engine's loop as written: go on unless the game
     * should stop and every engine has exited; `stop` stands for shouldStop().
     * It does not look at the engine's own flag.
     */
    method KeepGoingAsWritten(stop: bool) returns (go: bool)
      requires exits.Length == n
      ensures go <==> !stop || !AllSet(exits[..])
    {
      var all := AllExit();
      go := !stop || !all;
    }

    /**
     * What the guard as written lets through. While another engine has not
     * exited, KeepGoingAsWritten lets an engine that has processed its Exit go
     * round again, whatever shouldStop() says. Its wait for the cursor then
     * goes on: the cursor names another engine, one that has not exited, so
     * the wait ends only once every engine has exited, and the engine then
     * fetches another action.
     */
    lemma ExitedEngineWaitsForAll(index: nat)
      requires Valid() && index < n && Exit in Project(processed, index)
      requires !AllSet(exits[..])
      ensures nextId != index && !exits[nextId]
    {
      ExitFlagMeansExitProcessed();
    }

    /** The corrected guard: an input engine goes round again exactly while its Exit has not been processed. */
    method KeepGoing(index: nat) returns (go: bool)
      requires Valid() && index < n
      ensures go <==> Exit !in Project(processed, index)
      ensures go ==> |Project(processed, index)| < |Consumed(scripts[index])|
      ensures !go ==> Project(processed, index) == Consumed(scripts[index])
    {
      ExitFlagMeansExitProcessed();
      go := !exits[index];
      assert EngineState(scripts, exits[..], fetched, processed, index);
    }
  }

  /**
   * A whole round-robin replay: set up the run, then let the engine the
   * cursor names take its turn until every engine has exited. The actions are
   * processed in round-robin order, each engine's actions up to and
   * including its first Exit are processed once, in order, and none after.
   */
  method RunRoundRobin(game: Game, judge: seq<Applied> -> ActionResult)
    returns (processed: seq<Applied>, messages: seq<string>)
    requires game.mode == RoundRobin
    requires 0 < |game.inputEngines| && WellFormed(game.inputEngines)
    ensures processed == RoundRobinOrder(game.inputEngines)
    ensures forall j :: 0 <= j < |game.inputEngines| ==>
              Project(processed, j) == Consumed(game.inputEngines[j])
    ensures messages == Messages(processed, judge)
  {
    var scripts := game.inputEngines;
    var n := |scripts|;
    var run := new RoundRobinRun.Start(scripts, judge);
    ghost var r: nat, i: nat := 0, 0;
    var all := run.AllExit();
    assert !run.exits[..][0];
    while !all
      invariant fresh(run.exits)
      invariant run.Valid()
      invariant all <==> AllSet(run.exits[..])
      invariant i <= n
      invariant forall j :: 0 <= j < n ==> run.fetched[j] == DoneAt(scripts, r, i, j)
      invariant !all ==> r < MaxLen(scripts) && i < n && r < Len(scripts[i]) && run.nextId == i
      invariant all ==> r >= MaxLen(scripts)
      invariant run.processed + RoundRobinFrom(scripts, r, i) == RoundRobinOrder(scripts)
      decreases |RoundRobinFrom(scripts, r, i)|
    {
      ghost var fetched := run.fetched;
      ghost var before := run.processed;
      var _ := run.Turn();
      ghost var flags' := run.exits[..];
      ghost var fetched' := run.fetched;
      assert fetched' == fetched[i := fetched[i] + 1];
      forall j | 0 <= j < n
        ensures flags'[j] <==> fetched'[j] == Len(scripts[j])
      {
        assert EngineState(scripts, flags', fetched', run.processed, j);
      }
      TurnFollowsRounds(scripts, r, i, fetched, flags', fetched');
      ghost var p := NextPosition(scripts, r, i + 1);
      ghost var x := Applied(i, scripts[i][r]);
      assert run.processed == before + [x];
      AppendOne(before, x, RoundRobinFrom(scripts, p.0, p.1));
      r, i := p.0, p.1;
      all := run.AllExit();
    }
    processed, messages := run.processed, run.messages;
    assert processed == RoundRobinOrder(scripts);
    forall j | 0 <= j < n
      ensures Project(processed, j) == Consumed(scripts[j])
    {
      RoundRobinOrderConsumes(scripts, j);
    }
  }

  /**
   * The guard as written on engines [Exit] and [Right, Exit]. After engine 0
   * has processed its Exit, its loop goes round again even when the game
   * should stop, while the corrected guard stops it; the cursor names engine
   * 1. Engine 1 then takes its two turns. Once it has exited, the wait of
   * engine 0 ends although engine 0's processed actions already hold its
   * Exit, so engine 0 goes on to fetch past its Exit.
   */
  method ReentryExample() returns (goAsWritten: bool, go: bool, cursor: nat, released: bool, engine0: seq<Action>)
    ensures goAsWritten && !go && cursor == 1
    ensures released && Exit in engine0
  {
    var run := new RoundRobinRun.Start([[Exit], [Move(Right), Exit]], _ => Success);
    assert !run.exits[..][0];
    var a := run.Turn();
    assert a == Exit && run.exits[..] == [true, false];
    assert run.fetched == [1, 0] && run.processed == [Applied(0, Exit)];
    FirstClearAfter([true, false], 0, 1);
    goAsWritten := run.KeepGoingAsWritten(true);
    go := run.KeepGoing(0);
    cursor := run.nextId;

    EngineOneFinishes(run);
    released := run.MayProceed(0);
    run.ExitFlagMeansExitProcessed();
    engine0 := Project(run.processed, 0);
  }

  /** The rest of the replay in ReentryExample: engine 1 moves right and then exits. */
  method EngineOneFinishes(run: RoundRobinRun)
    requires run.Valid() && run.scripts == [[Exit], [Move(Right), Exit]]
    requires run.exits[..] == [true, false] && run.nextId == 1
    requires run.fetched == [1, 0] && run.processed == [Applied(0, Exit)]
    modifies run, run.exits
    ensures run.Valid() && run.exits[..] == [true, true]
    ensures run.processed == [Applied(0, Exit), Applied(1, Move(Right)), Applied(1, Exit)]
  {
    assert !run.exits[..][1];
    var a := run.Turn();
    assert a == Move(Right) && run.exits[..] == [true, false];
    FirstClearAfter([true, false], 1, 1);
    assert !run.exits[..][1];
    a := run.Turn();
    assert a == Exit;
  }
}
