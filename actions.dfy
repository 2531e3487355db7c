/**
 * Actions that an input engine yields, the result the game state reports when
 * one is processed, and the views of a replay log that the scheduler's
 * guarantees are stated in.
 *
 * The concrete action classes and GameState.processAction are not part of
 * this model: an action is an abstract value whose only distinguished case
 * is Exit, and a processing result is Success or Failed(reason).
 */
module Actions {

  datatype Direction = Up | Down | Left | Right

  datatype Action = Move(dir: Direction) | Undo | InvalidInput(text: string) | Exit

  datatype ActionResult = Success | Failed(reason: string)

  /** One call of processAction during a replay: which input engine, which action. */
  datatype Applied = Applied(actor: nat, action: Action)

  /** Position of the first Exit in what an input engine yields. */
  function FirstExit(script: seq<Action>): (k: nat)
    requires Exit in script
    ensures k < |script| && script[k] == Exit
    ensures Exit !in script[..k]
  {
    if script[0] == Exit then 0
    else
      assert script == [script[0]] + script[1..];
      1 + FirstExit(script[1..])
  }

  /** How many actions an input engine gets processed: everything up to and including its first Exit. */
  function Len(script: seq<Action>): (k: nat)
    requires Exit in script
    ensures 1 <= k <= |script|
  {
    FirstExit(script) + 1
  }

  /** The actions an input engine gets processed, in the order it yields them. */
  function Consumed(script: seq<Action>): (c: seq<Action>)
    requires Exit in script
    ensures |c| >= 1 && c[|c| - 1] == Exit
    ensures Exit !in c[..|c| - 1]
    ensures |c| <= |script| && c == script[..|c|]
  {
    script[..Len(script)]
  }

  /** A prefix of an input engine's actions contains an Exit exactly when it reaches past the first Exit. */
  lemma ExitInPrefix(script: seq<Action>, f: nat)
    requires Exit in script && f <= Len(script)
    ensures Exit in script[..f] <==> f == Len(script)
  {
    var k := FirstExit(script);
    if f == Len(script) {
      assert script[..f][k] == Exit;
    } else {
      assert script[..f] <= script[..k];
    }
  }

  /** Regrouping a log extended by one entry, followed by what is still to come. */
  lemma AppendOne<T>(before: seq<T>, x: T, rest: seq<T>)
    ensures (before + [x]) + rest == before + ([x] + rest)
  {
  }

  /** The actions of one input engine in a log, in log order. */
  function Project(log: seq<Applied>, j: nat): (p: seq<Action>)
    ensures |p| <= |log|
  {
    if log == [] then []
    else
      var last := log[|log| - 1];
      Project(log[..|log| - 1], j) + (if last.actor == j then [last.action] else [])
  }

  /** Appending one entry extends exactly that entry's actor's projection. */
  lemma ProjectAppend(log: seq<Applied>, e: Applied, j: nat)
    ensures Project(log + [e], j) == Project(log, j) + (if e.actor == j then [e.action] else [])
  {
    assert (log + [e])[..|log|] == log;
  }

  /** An engine's view of two logs one after the other is its view of the first followed by its view of the second. */
  lemma {:induction false} ProjectConcat(first: seq<Applied>, second: seq<Applied>, j: nat)
    ensures Project(first + second, j) == Project(first, j) + Project(second, j)
    decreases |second|
  {
    if second != [] {
      var init := second[..|second| - 1];
      var e := second[|second| - 1];
      assert second == init + [e];
      assert first + second == (first + init) + [e];
      ProjectConcat(first, init, j);
      ProjectAppend(first + init, e, j);
      ProjectAppend(init, e, j);
    } else {
      assert first + second == first;
    }
  }

  /** The reason forwarded to the rendering engine for one result, if any. */
  function Reason(result: ActionResult): (m: seq<string>)
    ensures |m| <= 1
    ensures m == [] <==> result.Success?
    ensures result.Failed? ==> m == [result.reason]
  {
    match result
    case Success => []
    case Failed(reason) => [reason]
  }

  /**
   * The messages forwarded during a replay whose processed actions are `log`,
   * where `judge(h)` is what processAction reports for the last entry of the
   * history `h`.
   */
  function Messages(log: seq<Applied>, judge: seq<Applied> -> ActionResult): seq<string>
  {
    if log == [] then []
    else Messages(log[..|log| - 1], judge) + Reason(judge(log))
  }

  /** The number of entries of `log` whose processing failed. */
  function Failures(log: seq<Applied>, judge: seq<Applied> -> ActionResult): nat
  {
    if log == [] then 0
    else Failures(log[..|log| - 1], judge) + (if judge(log).Failed? then 1 else 0)
  }

  /** Exactly one message per failed processing, and none for a success. */
  lemma {:induction false} MessagePerFailure(log: seq<Applied>, judge: seq<Applied> -> ActionResult)
    ensures |Messages(log, judge)| == Failures(log, judge) <= |log|
  {
    if log != [] {
      MessagePerFailure(log[..|log| - 1], judge);
    }
  }
}
