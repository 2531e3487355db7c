# Round-robin replay scheduler of ReplaySokobanGame

This project models the part of `ReplaySokobanGame` that decides who acts when
a recorded Sokoban game is replayed in `ROUND_ROBIN` mode. One input engine per
player yields that player's recorded actions. Each engine runs a loop that:

1. waits until the shared turn cursor `NEXTID` names it;
2. fetches one action and gets it processed;
3. forwards the failure reason to the rendering engine when processing fails;
4. advances the cursor to the next engine, cyclically, whose exit flag is clear.

The engine's exit flag is set just before its `Exit` action is processed.

The model is split into five modules:

- `Actions` (`actions.dfy`): actions, processing results and processed logs. It also defines the views of a log the guarantees are stated in:
  - the actions of one engine (`Project`);
  - the prefix up to and including the first `Exit` (`Consumed`);
  - the forwarded messages (`Messages`).
- `Game` (`game.dfy`): the two constructors and their check for an empty list of input engines.
- `TurnOrder` (`turn_order.dfy`): the cursor rule as a pure function `NextTurn` over the exit flags, with its properties.
- `Rounds` (`rounds.dfy`): a definition of round-robin order that does not mention the cursor.
  - Replay runs in rounds 0, 1, 2, … and engines act in index order within a round.
  - Engine `j` takes part in round `r` exactly when `r < Len(scripts[j])`.
  - The lemmas connect this definition to the cursor rule.
- `Scheduler` (`scheduler.dfy`): the class `RoundRobinRun`, which holds the state of one run:
  - the exit registry, an `array<bool>`;
  - the cursor `nextId`;
  - for each engine, how many actions it has yielded;
  - the log of processed actions;
  - the forwarded messages.

  Its methods are the steps of the engine loop. `RunRoundRobin` drives the turns until every engine has exited. It is proved to process exactly `RoundRobinOrder`, which gives every engine's actions up to and including its first `Exit`, in order.

`RoundExamples` (`round_examples.dfy`) works out the round-robin order on two concrete replays.

## Model

| member | source | states |
|---|---|---|
| Game.NewGame | src/main/java/hk/ust/comp3021/replay/ReplaySokobanGame.java:78-92 | The constructor fails with IllegalArgumentException("No input engine specified") exactly when the list of input engines is empty. Otherwise it keeps mode, frame rate and input engines as given. |
| Game.NewDefaultGame | src/main/java/hk/ust/comp3021/replay/ReplaySokobanGame.java:99-104 | The short constructor is free-race mode at 60 fps. It fails exactly when the list of input engines is empty, with the same IllegalArgumentException("No input engine specified") that the full constructor it delegates to throws. |
| Actions.FirstExit | src/main/java/hk/ust/comp3021/replay/ReplaySokobanGame.java:137-145 | The first Exit an input engine yields: it is an Exit, and no Exit comes before it. |
| Actions.Consumed | src/main/java/hk/ust/comp3021/replay/ReplaySokobanGame.java:142-145 | What an engine must get processed is a prefix of what it yields. The prefix ends with an Exit and holds no other Exit. |
| Actions.ExitInPrefix | src/main/java/hk/ust/comp3021/replay/ReplaySokobanGame.java:190-196 | A prefix of an engine's actions, no longer than its consumed part, contains an Exit exactly when it is the whole consumed part. |
| Actions.ProjectAppend | src/main/java/hk/ust/comp3021/replay/ReplaySokobanGame.java:189-198 | Processing one more action extends the acting engine's view of the log by that action and leaves every other engine's view unchanged. |
| Actions.ProjectConcat | src/main/java/hk/ust/comp3021/replay/ReplaySokobanGame.java:189-198 | An engine's view of two stretches of processing, one after the other, is its view of the first followed by its view of the second. |
| Actions.Reason | src/main/java/hk/ust/comp3021/replay/ReplaySokobanGame.java:191-193 | A success forwards no message. A failure forwards exactly one message: its own reason, as `failed.getReason()` does. |
| Actions.MessagePerFailure | src/main/java/hk/ust/comp3021/replay/ReplaySokobanGame.java:191-201 | The forwarded messages number exactly the failed processings, and no more than the actions processed. |
| TurnOrder.ScanFrom | src/main/java/hk/ust/comp3021/replay/ReplaySokobanGame.java:208-211 | The count the skip loop stops at: every offset before it is exited. Short of a full cycle, the offset it stops at is not exited. |
| TurnOrder.NextTurn | src/main/java/hk/ust/comp3021/replay/ReplaySokobanGame.java:207-214 | The cursor rule of lines 208-213: the new cursor is in [0, N). It names an engine that has not exited, unless every engine at cyclic offsets 1..N from the old cursor has exited. The lemmas below pin it down completely. |
| TurnOrder.NextTurnSpec | src/main/java/hk/ust/comp3021/replay/ReplaySokobanGame.java:207-214 | While some engine has not exited, the advanced cursor is in [0, N) and names a non-exited engine at cyclic offset 1..N. Every engine strictly between has exited. |
| TurnOrder.NextTurnIsFirstClear | src/main/java/hk/ust/comp3021/replay/ReplaySokobanGame.java:207-214 | Conversely, the first non-exited engine at a cyclic offset of 1 or more is the one the cursor moves to. |
| TurnOrder.NextTurnSame | src/main/java/hk/ust/comp3021/replay/ReplaySokobanGame.java:207-214 | The cursor comes back to the engine that just acted only when that engine is the sole one not exited. |
| TurnOrder.FirstClearAfter | src/main/java/hk/ust/comp3021/replay/ReplaySokobanGame.java:207-214 | Stated in indices: the cursor moves to k when k has not exited and every index after the old cursor and before k, counting cyclically, has exited. |
| TurnOrder.ScanStopsEarly | src/main/java/hk/ust/comp3021/replay/ReplaySokobanGame.java:207-211 | While some engine has not exited, the skip loop stops before a full cycle. |
| TurnOrder.FullCycle | src/main/java/hk/ust/comp3021/replay/ReplaySokobanGame.java:209 | The N cyclic offsets 1..N from any cursor reach every engine. |
| Rounds.FirstActive | src/main/java/hk/ust/comp3021/replay/ReplaySokobanGame.java:207-211 | The first engine from a given index on that takes part in a round; every engine skipped sits that round out. |
| Rounds.NextPosition | src/main/java/hk/ust/comp3021/replay/ReplaySokobanGame.java:207-214 | The next position that acts lies in a round that is not over, and its engine takes part in that round. |
| Rounds.SkipWithinRound | src/main/java/hk/ust/comp3021/replay/ReplaySokobanGame.java:207-211 | Skipping engines that sit a round out changes neither what is left to process nor how many actions each engine has yielded. |
| Rounds.SkipInactive | src/main/java/hk/ust/comp3021/replay/ReplaySokobanGame.java:207-214 | The same holds when the skip crosses into later rounds. |
| Rounds.TurnHandoff | src/main/java/hk/ust/comp3021/replay/ReplaySokobanGame.java:205-216 | After a turn, some engine remains exactly when a later position acts. The cursor rule moves to that position's engine. |
| Rounds.TurnFollowsRounds | src/main/java/hk/ust/comp3021/replay/ReplaySokobanGame.java:184-216 | One turn, seen from the rounds: the acting engine fetches its action of the current round, and the yielded counts become those of the next acting position. That position's engine is the one the cursor names. What is left loses exactly the processed entry. |
| Rounds.RoundRobinOrderConsumes | src/main/java/hk/ust/comp3021/replay/ReplaySokobanGame.java:22-25 | The round-robin order (round by round, index order, engines that have exited skipped), which the doc comment at lines 22-25 describes. Each engine's actions in it are exactly its actions up to and including its first Exit, in the order it yields them, as lines 142-145 require. |
| Rounds.ProjectFrom | src/main/java/hk/ust/comp3021/replay/ReplaySokobanGame.java:142-145 | From any position of the round-robin order on, each engine still gets processed exactly the rest of its actions up to its first Exit, in order. |
| Rounds.ProjectStep | src/main/java/hk/ust/comp3021/replay/ReplaySokobanGame.java:142-145 | The same claim carries over from one position to the position before it. |
| Rounds.ProjectPastEnd | src/main/java/hk/ust/comp3021/replay/ReplaySokobanGame.java:142-145 | Once every round is over, nothing is left to process, and every engine has fetched all its actions up to its first Exit. |
| Rounds.ProjectRoundEnd | src/main/java/hk/ust/comp3021/replay/ReplaySokobanGame.java:207-214 | The end of one round is the start of the next: the claim of ProjectFrom carries over from round r + 1's start to round r's end. |
| Rounds.ProjectAtPosition | src/main/java/hk/ust/comp3021/replay/ReplaySokobanGame.java:184-198 | One position processes, of each engine, exactly the slice between its fetch counts before and after: the acting engine's action of that round, or nothing. |
| RoundExamples.AlternatingEngines | src/main/java/hk/ust/comp3021/replay/ReplaySokobanGame.java:22-25 | Engines A and B, each yielding R, L and then Exit, are processed as A.R, B.R, A.L, B.L, and then the two Exits. |
| RoundExamples.EarlyExit | src/main/java/hk/ust/comp3021/replay/ReplaySokobanGame.java:207-214 | For engines [Exit], [R, Exit] and [L, Exit], the order is (0,Exit), (1,R), (2,L), (1,Exit), (2,Exit). Engine 0 is skipped once it has exited. |
| Scheduler.EngineAfterAct | src/main/java/hk/ust/comp3021/replay/ReplaySokobanGame.java:189-202 | When an engine that has not exited acts, it has an action left to yield. Every engine's part of the run state holds afterwards. |
| Scheduler.ActKeepsRunState | src/main/java/hk/ust/comp3021/replay/ReplaySokobanGame.java:189-202 | One action by an engine that has not exited keeps the run state. No engine has yielded past its first Exit. A flag is set exactly when that Exit was yielded. Each engine's processed actions are what it yielded, in order. Messages match the failures. |
| Scheduler.RoundRobinRun.Start | src/main/java/hk/ust/comp3021/replay/ReplaySokobanGame.java:273-278 | Run start: the cursor is at 0, a fresh exit registry holds one clear flag per engine, nothing has been fetched or processed, and the run invariant holds. |
| Scheduler.RoundRobinRun.AllExit | src/main/java/hk/ust/comp3021/replay/ReplaySokobanGame.java:114-121 | True exactly when every flag in the exit registry is set. |
| Scheduler.RoundRobinRun.MayProceed | src/main/java/hk/ust/comp3021/replay/ReplaySokobanGame.java:183-187 | The wait ends for an engine once all have exited. Before then, it ends exactly for the engine the cursor names, and that engine has not exited. |
| Scheduler.RoundRobinRun.Advance | src/main/java/hk/ust/comp3021/replay/ReplaySokobanGame.java:205-216 | When every engine has exited, the cursor stays. Otherwise it moves to NextTurn of the flags. |
| Scheduler.RoundRobinRun.Act | src/main/java/hk/ust/comp3021/replay/ReplaySokobanGame.java:189-202 | The engine the cursor names fetches its next action. Its flag is set exactly if the action is Exit. The action is appended to the processed log, the failure reason (if any) to the messages, and the run state is kept. |
| Scheduler.RoundRobinRun.Turn | src/main/java/hk/ust/comp3021/replay/ReplaySokobanGame.java:184-216 | One turn is Act followed by Advance. It keeps the run invariant, including that the cursor is in [0, N) and names a non-exited engine while one remains. Exit flags never revert. |
| Scheduler.RoundRobinRun.ExitFlagMeansExitProcessed | src/main/java/hk/ust/comp3021/replay/ReplaySokobanGame.java:195-198 | An engine's flag is set exactly when its Exit has been processed. |
| Scheduler.RoundRobinRun.KeepGoingAsWritten | src/main/java/hk/ust/comp3021/replay/ReplaySokobanGame.java:181 | The loop guard as written: the loop goes on unless shouldStop() holds and every engine has exited. |
| Scheduler.RoundRobinRun.ExitedEngineWaitsForAll | src/main/java/hk/ust/comp3021/replay/ReplaySokobanGame.java:181-189 | While another engine has not exited, the cursor names a different engine, and that engine has not exited. So the wait at line 184 (`NEXTID != index && !allExit()`) of an engine whose Exit has been processed ends only once every engine has exited. |
| Scheduler.RoundRobinRun.KeepGoing | src/main/java/hk/ust/comp3021/replay/ReplaySokobanGame.java:160 | The corrected guard: an engine goes round again exactly while its Exit is unprocessed. It then has consumed actions left. Once it stops, its processed actions are exactly its consumed prefix. |
| Scheduler.ReentryExample | src/main/java/hk/ust/comp3021/replay/ReplaySokobanGame.java:181-201 | For engines [Exit] and [R, Exit], after engine 0's turn the guard as written lets engine 0 go round again even when shouldStop() holds, and the corrected guard does not. The cursor then names engine 1. After engine 1's two turns, the wait releases engine 0 although its processed actions already hold its Exit, so it goes on to fetch at line 189. |
| Scheduler.EngineOneFinishes | src/main/java/hk/ust/comp3021/replay/ReplaySokobanGame.java:184-216 | The rest of that replay: engine 1 takes its two turns, moving right and then exiting, and afterwards every engine has exited. |
| Scheduler.RunRoundRobin | src/main/java/hk/ust/comp3021/replay/ReplaySokobanGame.java:179-217 | A whole round-robin run processes exactly RoundRobinOrder. Each engine's processed actions are its actions up to and including its first Exit, in order, and none after. Messages are those for the failed processings. |

## Left out

- The `FREE_RACE` mode (lines 159-177) is left out. Its order is not determined, and it needs a model of interleaved threads.
- Threads, `synchronized`, `wait`/`notifyAll` and interruption are left out. The run is modelled as the sequence of turns the cursor allows, one at a time. The rule that at most one engine acts at once is taken as given, not proved.
- The rendering engine's thread (lines 224-259) is left out. It concerns timing and rendering only. Forwarding a failure reason is modelled, as the `messages` log.
- `shouldStop()` is defined in `AbstractSokobanGame`, which is not part of this model.
  - It appears only as the parameter `stop` of the guard as written.
  - `RunRoundRobin` follows the documented requirement that an engine stops after its first `Exit`, rather than the loop at line 181 (see Findings).
- `processAction` and the game state are not part of this model. They are replaced by a function `judge` from the history of processed actions to a result.
- Input engines are not part of this model either. Each is replaced by the finite sequence of actions it yields.
- What `fetchAction` returns after an engine's last action is left out.
- The shared `static` fields are left out, and with them interference between games running in parallel. `NEXTID` and `exits` are shared by every game in the process. The model gives each run its own cursor and registry, as its `Start` constructor does at lines 273-278.
- Scheduler.RunRoundRobin requires every engine to yield an `Exit` somewhere. This is weaker than the assumption at line 138, which says the last fetchable action is an `Exit`. Actions after the first `Exit` are allowed and proved never to be processed.
- Java's `int` is modelled as an unbounded `nat`. The cursor stays in [0, N) and the skip count in [1, N]. The sum `NEXTID.get() + count` at lines 209 and 213 can reach 2N - 1, which overflows Java's `int` only when there are more than 2^30 input engines. The model does not capture that overflow.

## Findings

| source | as written | input that shows it | evidently intended | confidence | as-written member | corrected member |
|---|---|---|---|---|---|---|
| src/main/java/hk/ust/comp3021/replay/ReplaySokobanGame.java:181 | The round-robin loop goes on while `!shouldStop()` or `!allExit()` holds, which is true while any other engine has not exited. So an engine that has processed its `Exit` goes round again and waits at line 184. The cursor never names it, so the wait ends only when all have exited. The engine then fetches and processes another action at line 189. This breaks the rule at lines 144-145 that nothing after the first `Exit` is processed. | Engines [Exit] and [R, Exit]: after engine 0's Exit, engine 0 goes round again even with shouldStop() true. Once engine 1 exits, engine 0 fetches a second action. | The loop stops after the engine's own `Exit`, as the free-race loop at line 160 does with `!exits.get(index)`. | medium, not executed | Scheduler.RoundRobinRun.KeepGoingAsWritten | Scheduler.RoundRobinRun.KeepGoing |
