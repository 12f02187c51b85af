/**
 * Waiting for a machine to reach the state an action leads to
 * (internal/machine/wait.go): map the action to the state, call the
 * machines API's wait until it succeeds, and classify each failure as
 * final or worth another try after a growing pause.
 */
module MachineWait {
  import opened Common

  /** `math.Pow(factor, n)` on whole numbers. */
  function Pow(factor: nat, n: nat): nat
  {
    if n == 0 then 1 else factor * Pow(factor, n - 1)
  }

  /** The pause, in milliseconds, the backoff gives for attempt `n` (counting from 0), without jitter. */
  function ForAttempt(minMs: nat, maxMs: nat, factor: nat, n: nat): nat
  {
    if minMs >= maxMs then maxMs
    else
      var d := minMs * Pow(factor, n);
      if d < minMs then minMs else if d > maxMs then maxMs else d
  }

  /** The backoff object: each `Duration` call gives the pause for the next attempt. */
  class Backoff {
    const minMs: nat
    const maxMs: nat
    const factor: nat
    var attempt: nat

    constructor(minMs: nat, maxMs: nat, factor: nat)
      ensures this.minMs == minMs && this.maxMs == maxMs && this.factor == factor && attempt == 0
    {
      this.minMs := minMs;
      this.maxMs := maxMs;
      this.factor := factor;
      attempt := 0;
    }

    method Duration() returns (d: nat)
      modifies this
      ensures d == ForAttempt(minMs, maxMs, factor, old(attempt))
      ensures attempt == old(attempt) + 1
    {
      d := ForAttempt(minMs, maxMs, factor, attempt);
      attempt := attempt + 1;
    }
  }

  const MinPauseMs: nat := 500
  const MaxPauseMs: nat := 2000

  /** The pause before the next try, after `n` failed tries have already been followed by a pause. */
  function Pause(n: nat): nat
  {
    ForAttempt(MinPauseMs, MaxPauseMs, 2, n)
  }

  /** The pauses are 500 ms, 1 s, then 2 s for every further try. */
  lemma {:induction false} PauseSchedule(n: nat)
    ensures Pause(0) == 500 && Pause(1) == 1000
    ensures n >= 2 ==> Pause(n) == 2000
  {
    if n >= 2 {
      PowAtLeast(n);
    }
  }

  lemma {:induction false} PowAtLeast(n: nat)
    requires n >= 2
    ensures Pow(2, n) >= 4
  {
    if n > 2 {
      PowAtLeast(n - 1);
    }
  }

  /** The waiting context after a failed wait: still live, cancelled by the caller, or past its timeout. */
  datatype ContextState = Live | Canceled | DeadlineExceeded

  /** A failed wait: its message, and the status code when it is a machines API error. */
  datatype WaitError = WaitError(msg: string, status: Option<int>)

  /** What one call to the machines API's wait returned, and the context's state right after. */
  datatype Attempt = Attempt(err: Option<WaitError>, ctx: ContextState)

  /** How the wait ended; `Undecided` when the observed attempts ran out while retrying. */
  datatype WaitOutcome = Reached | Failed(msg: string) | Undecided

  /** The outcome, the state asked for in each wait call, and the pauses taken between them. */
  datatype WaitRun = WaitRun(outcome: WaitOutcome, waitedFor: seq<string>, slept: seq<nat>)

  const StatusBadRequest := 400

  /** The state an action leads to. */
  function TargetState(action: string): Option<string>
  {
    if action == "start" then Some("started")
    else if action == "stop" then Some("stopped")
    else None
  }

  /** A failure that leads to a pause and another wait. */
  predicate Retryable(a: Attempt)
  {
    a.err.Some? && a.ctx == Live && a.err.value.status != Some(StatusBadRequest)
  }

  /** The loop from attempt `k` on, with what it has done so far. */
  function WaitFrom(target: string, attempts: seq<Attempt>, k: nat, waitedFor: seq<string>, slept: seq<nat>): WaitRun
    requires k <= |attempts|
    decreases |attempts| - k
  {
    if k == |attempts| then WaitRun(Undecided, waitedFor, slept)
    else
      var a := attempts[k];
      var w := waitedFor + [target];
      match a.err
      case None => WaitRun(Reached, w, slept)
      case Some(e) =>
        if a.ctx == Canceled then WaitRun(Failed(e.msg), w, slept)
        else if a.ctx == DeadlineExceeded then WaitRun(Failed("timeout reached waiting for machine to " + target + " " + e.msg), w, slept)
        else if e.status == Some(StatusBadRequest) then WaitRun(Failed("failed waiting for machine: " + e.msg), w, slept)
        else WaitFrom(target, attempts, k + 1, w, slept + [Pause(|slept|)])
  }

  /** `WaitForStartOrStop` on the observed attempts. */
  function WaitSpec(action: string, attempts: seq<Attempt>): WaitRun
  {
    match TargetState(action)
    case None => WaitRun(Failed("action must be either start or stop"), [], [])
    case Some(target) => WaitFrom(target, attempts, 0, [], [])
  }

  /** `WaitForStartOrStop`: wait on the target state, pausing with a growing backoff after every failure that is not final. */
  method WaitForStartOrStop(action: string, attempts: seq<Attempt>) returns (r: WaitOutcome, waitedFor: seq<string>, slept: seq<nat>)
    ensures WaitRun(r, waitedFor, slept) == WaitSpec(action, attempts)
  {
    var target: string;
    if action == "start" {
      target := "started";
    } else if action == "stop" {
      target := "stopped";
    } else {
      return Failed("action must be either start or stop"), [], [];
    }
    var b := new Backoff(MinPauseMs, MaxPauseMs, 2);
    waitedFor, slept := [], [];
    var k := 0;
    while k < |attempts|
      invariant 0 <= k <= |attempts|
      invariant b.minMs == MinPauseMs && b.maxMs == MaxPauseMs && b.factor == 2
      invariant b.attempt == |slept|
      invariant WaitFrom(target, attempts, k, waitedFor, slept) == WaitSpec(action, attempts)
      decreases |attempts| - k
    {
      var a := attempts[k];
      waitedFor := waitedFor + [target];
      if a.err.None? {
        return Reached, waitedFor, slept;
      }
      var e := a.err.value;
      if a.ctx == Canceled {
        return Failed(e.msg), waitedFor, slept;
      } else if a.ctx == DeadlineExceeded {
        return Failed("timeout reached waiting for machine to " + target + " " + e.msg), waitedFor, slept;
      } else if e.status == Some(StatusBadRequest) {
        return Failed("failed waiting for machine: " + e.msg), waitedFor, slept;
      }
      var d := b.Duration();
      slept := slept + [d];
      k := k + 1;
    }
    r := Undecided;
  }

  /** The first attempt that ends the loop, if any; every attempt before it is retryable. */
  function FirstFinal(attempts: seq<Attempt>, k: nat): (r: nat)
    requires k <= |attempts|
    ensures k <= r <= |attempts|
    ensures forall j | k <= j < r :: Retryable(attempts[j])
    ensures r < |attempts| ==> !Retryable(attempts[r])
    decreases |attempts| - k
  {
    if k == |attempts| || !Retryable(attempts[k]) then k else FirstFinal(attempts, k + 1)
  }

  /** How a final attempt ends the wait. */
  function Decide(target: string, a: Attempt): WaitOutcome
    requires !Retryable(a)
  {
    match a.err
    case None => Reached
    case Some(e) =>
      if a.ctx == Canceled then Failed(e.msg)
      else if a.ctx == DeadlineExceeded then Failed("timeout reached waiting for machine to " + target + " " + e.msg)
      else Failed("failed waiting for machine: " + e.msg)
  }

  /** The pauses of the first `n` retries. */
  function Pauses(n: nat): (r: seq<nat>)
    ensures |r| == n
    ensures forall i | 0 <= i < n :: r[i] == Pause(i)
  {
    if n == 0 then [] else Pauses(n - 1) + [Pause(n - 1)]
  }

  /** The wait loop with what it has done so far, stated without the loop. */
  lemma {:induction false} WaitFromDecided(target: string, attempts: seq<Attempt>, k: nat, waitedFor: seq<string>, n: nat)
    requires k <= |attempts|
    ensures var f := FirstFinal(attempts, k); var r := WaitFrom(target, attempts, k, waitedFor, Pauses(n));
      && r.outcome == (if f == |attempts| then Undecided else Decide(target, attempts[f]))
      && r.waitedFor == waitedFor + seq(if f == |attempts| then f - k else f - k + 1, _ => target)
      && r.slept == Pauses(n + f - k)
    decreases |attempts| - k
  {
    var f := FirstFinal(attempts, k);
    if k < |attempts| && Retryable(attempts[k]) {
      assert Pauses(n) + [Pause(|Pauses(n)|)] == Pauses(n + 1);
      WaitFromDecided(target, attempts, k + 1, waitedFor + [target], n + 1);
      var m := if f == |attempts| then f - k - 1 else f - k;
      assert (waitedFor + [target]) + seq(m, _ => target) == waitedFor + seq(m + 1, _ => target);
    } else if k < |attempts| {
      assert seq(1, _ => target) == [target];
    } else {
      assert seq(0, _ => target) == [];
    }
  }

  /**
   * `WaitForStartOrStop` for "start" or "stop": the wait calls go on while
   * the failures are retryable (the context live and not a 400 from the
   * API). The first attempt that is not retryable decides the outcome: a
   * success returns nil at once, a cancellation returns the wait's error as
   * is, a timeout wraps it as "timeout reached", and a 400 fails without a
   * retry. Every wait asks for the action's target state, and the k-th
   * retry is preceded by the k-th pause of the backoff schedule.
   */
  lemma WaitOutcomeClassified(action: string, attempts: seq<Attempt>)
    requires TargetState(action).Some?
    ensures var target := TargetState(action).value; var f := FirstFinal(attempts, 0); var r := WaitSpec(action, attempts);
      && r.outcome == (if f == |attempts| then Undecided else Decide(target, attempts[f]))
      && |r.waitedFor| == (if f == |attempts| then f else f + 1)
      && (forall s | s in r.waitedFor :: s == target)
      && r.slept == Pauses(f)
  {
    WaitFromDecided(TargetState(action).value, attempts, 0, [], 0);
  }

  /** An action other than "start" or "stop" fails before any wait call. */
  lemma UnknownActionRefused(action: string, attempts: seq<Attempt>)
    requires action != "start" && action != "stop"
    ensures WaitSpec(action, attempts) == WaitRun(Failed("action must be either start or stop"), [], [])
  {
  }

  /** A first wait that succeeds ends the loop with no pause. */
  lemma FirstSuccessReturns(action: string, attempts: seq<Attempt>)
    requires TargetState(action).Some? && |attempts| >= 1 && attempts[0].err.None?
    ensures WaitSpec(action, attempts) == WaitRun(Reached, [TargetState(action).value], [])
  {
  }
}
