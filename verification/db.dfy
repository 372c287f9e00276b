/**
 The bounded-retry connection bootstrap (backend/src/config/db.ts).

 The database driver is replaced by a sequence of attempt outcomes:
 `outcomes[i]` is true when the i-th connection attempt of this call
 succeeds. The timer is replaced by a record of the delays the call waits,
 and the console by the list of messages it logs.
 */
module Db {

  const MAX_RETRIES: int := 5
  const RETRY_DELAY_MS: int := 2000

  /** The module-level `dbConnected` flag before `connectDB` has run. */
  const INITIAL_DB_CONNECTED: bool := false

  /** What `connectDB` logs. `ConnectionError` shows the attempt number and
      the `MAX_RETRIES` it is displayed against. */
  datatype Message =
    | ConnectedOk
    | ConnectionError(attempt: int, shownMax: int)
    | RetryingIn(ms: int)
    | GaveUp

  /** One run of `connectDB`: the value `dbConnected` holds after each
      attempt, the delays waited between attempts, and the log. */
  datatype Run = Run(flags: seq<bool>, delaysMs: seq<int>, log: seq<Message>) {

    function Attempts(): nat {
      |flags|
    }

    function Delays(): nat {
      |delaysMs|
    }

    /** `dbConnected` when the call returns. */
    function Connected(): bool
      requires flags != []
    {
      flags[|flags| - 1]
    }
  }

  /** The most attempts a call starting at `retries` can make: one, plus one
      per retry still allowed by `retries < MAX_RETRIES`. */
  function AttemptBudget(retries: int): (n: nat)
    ensures n >= 1
    ensures retries >= MAX_RETRIES ==> n == 1
    ensures retries < MAX_RETRIES ==> n == MAX_RETRIES - retries + 1
  {
    if retries < MAX_RETRIES then MAX_RETRIES - retries + 1 else 1
  }

  /** Every wait lasts `RETRY_DELAY_MS`. */
  predicate AllRetryDelays(delays: seq<int>) {
    forall i :: 0 <= i < |delays| ==> delays[i] == RETRY_DELAY_MS
  }

  /** The message logged for an attempt made with counter `retries`. */
  function AttemptMessage(retries: int, ok: bool): Message {
    if ok then ConnectedOk else ConnectionError(retries + 1, MAX_RETRIES)
  }

  /** None of the first `n` attempts succeeds. */
  predicate FailedBefore(outcomes: seq<bool>, n: nat)
    requires n <= |outcomes|
  {
    forall i :: 0 <= i < n ==> !outcomes[i]
  }

  /** `connectDB(retries)`. Each attempt overwrites `dbConnected` with its
      outcome; a failure is retried after one delay while
      `retries < MAX_RETRIES`, and otherwise the call gives up and returns
      normally. The outcome sequence must cover every attempt the call can
      make. */
  function ConnectDB(retries: int, outcomes: seq<bool>): (r: Run)
    requires |outcomes| >= AttemptBudget(retries)
    // attempts never exceed the budget, with one delay between consecutive attempts
    ensures 1 <= r.Attempts() <= AttemptBudget(retries)
    ensures r.Delays() == r.Attempts() - 1
    decreases if retries < MAX_RETRIES then MAX_RETRIES - retries else 0
  {
    if outcomes[0] then
      Run([true], [], [AttemptMessage(retries, true)])
    else if retries < MAX_RETRIES then
      var rest := ConnectDB(retries + 1, outcomes[1..]);
      Run([false] + rest.flags, [RETRY_DELAY_MS] + rest.delaysMs,
          [AttemptMessage(retries, false), RetryingIn(RETRY_DELAY_MS)] + rest.log)
    else
      Run([false], [], [AttemptMessage(retries, false), GaveUp])
  }

  /** The final flag is the outcome of the last attempt, and the call stops
      at a success or once the budget is used up. */
  lemma {:induction false} StopsAtSuccessOrBudget(retries: int, outcomes: seq<bool>)
    requires |outcomes| >= AttemptBudget(retries)
    ensures ConnectDB(retries, outcomes).Connected() == outcomes[ConnectDB(retries, outcomes).Attempts() - 1]
    ensures ConnectDB(retries, outcomes).Connected() || ConnectDB(retries, outcomes).Attempts() == AttemptBudget(retries)
    decreases if retries < MAX_RETRIES then MAX_RETRIES - retries else 0
  {
    if !outcomes[0] && retries < MAX_RETRIES {
      StopsAtSuccessOrBudget(retries + 1, outcomes[1..]);
      ConnectDBStep(retries, outcomes);
    }
  }

  /** The whole history of a call: the flag after each attempt is that
      attempt's outcome, no attempt before the last succeeded, and every
      delay is `RETRY_DELAY_MS`. */
  lemma ConnectDBHistory(retries: int, outcomes: seq<bool>)
    requires |outcomes| >= AttemptBudget(retries)
    ensures ConnectDB(retries, outcomes).flags == outcomes[..ConnectDB(retries, outcomes).Attempts()]
    ensures FailedBefore(outcomes, ConnectDB(retries, outcomes).Attempts() - 1)
    ensures AllRetryDelays(ConnectDB(retries, outcomes).delaysMs)
  {
    FlagsFollowOutcomes(retries, outcomes);
    OnlyLastMaySucceed(retries, outcomes);
    DelaysAreFixed(retries, outcomes);
  }

  lemma {:induction false} FlagsFollowOutcomes(retries: int, outcomes: seq<bool>)
    requires |outcomes| >= AttemptBudget(retries)
    ensures ConnectDB(retries, outcomes).flags == outcomes[..ConnectDB(retries, outcomes).Attempts()]
    decreases if retries < MAX_RETRIES then MAX_RETRIES - retries else 0
  {
    if !outcomes[0] && retries < MAX_RETRIES {
      var rest := outcomes[1..];
      FlagsFollowOutcomes(retries + 1, rest);
      StepFlags(retries, outcomes);
      PrependFailedFlag(outcomes, ConnectDB(retries + 1, rest).flags);
    } else {
      SingleAttempt(retries, outcomes);
    }
  }

  /** A call whose first attempt is its last. */
  lemma SingleAttempt(retries: int, outcomes: seq<bool>)
    requires |outcomes| >= AttemptBudget(retries)
    requires outcomes[0] || retries >= MAX_RETRIES
    ensures ConnectDB(retries, outcomes).flags == [outcomes[0]] == outcomes[..1]
    ensures ConnectDB(retries, outcomes).delaysMs == []
  {
  }

  lemma PrependFailedFlag(outcomes: seq<bool>, flags: seq<bool>)
    requires |flags| < |outcomes| && !outcomes[0]
    requires flags == outcomes[1..][..|flags|]
    ensures [false] + flags == outcomes[..|flags| + 1]
  {
  }

  lemma {:induction false} OnlyLastMaySucceed(retries: int, outcomes: seq<bool>)
    requires |outcomes| >= AttemptBudget(retries)
    ensures FailedBefore(outcomes, ConnectDB(retries, outcomes).Attempts() - 1)
    decreases if retries < MAX_RETRIES then MAX_RETRIES - retries else 0
  {
    if !outcomes[0] && retries < MAX_RETRIES {
      var rest := outcomes[1..];
      OnlyLastMaySucceed(retries + 1, rest);
      ConnectDBStep(retries, outcomes);
      FailedBeforeStep(outcomes, ConnectDB(retries + 1, rest).Attempts() - 1);
    }
  }

  lemma {:induction false} DelaysAreFixed(retries: int, outcomes: seq<bool>)
    requires |outcomes| >= AttemptBudget(retries)
    ensures AllRetryDelays(ConnectDB(retries, outcomes).delaysMs)
    decreases if retries < MAX_RETRIES then MAX_RETRIES - retries else 0
  {
    if !outcomes[0] && retries < MAX_RETRIES {
      var rest := outcomes[1..];
      DelaysAreFixed(retries + 1, rest);
      var delays := ConnectDB(retries + 1, rest).delaysMs;
      StepDelays(retries, outcomes);
      forall i | 0 <= i < |delays| + 1 ensures ([RETRY_DELAY_MS] + delays)[i] == RETRY_DELAY_MS {
        if i > 0 {
          assert ([RETRY_DELAY_MS] + delays)[i] == delays[i - 1];
        }
      }
    }
  }

  lemma FailedBeforeStep(outcomes: seq<bool>, n: nat)
    requires n < |outcomes| && !outcomes[0] && FailedBefore(outcomes[1..], n)
    ensures FailedBefore(outcomes, n + 1)
  {
    forall i | 0 <= i < n + 1 ensures !outcomes[i] {
      if i > 0 {
        assert outcomes[i] == outcomes[1..][i - 1];
      }
    }
  }

  /** Startup: `connectDB()` with its default `retries = 0`, seen through the
      history of `dbConnected`, which starts out false. */
  function Startup(outcomes: seq<bool>): (history: seq<bool>)
    requires |outcomes| >= AttemptBudget(0)
    ensures 2 <= |history| <= MAX_RETRIES + 2
    ensures history[0] == false
    ensures history[1..] == outcomes[..|history| - 1]
  {
    var r := ConnectDB(0, outcomes);
    ConnectDBHistory(0, outcomes);
    [INITIAL_DB_CONNECTED] + r.flags
  }

  /** If the first success is attempt `k` (0-based) within the budget, the
      call makes exactly `k + 1` attempts, waits exactly `k` delays and ends
      connected. */
  lemma FirstSuccessAt(retries: int, outcomes: seq<bool>, k: nat)
    requires |outcomes| >= AttemptBudget(retries)
    requires k < AttemptBudget(retries) && outcomes[k] && FailedBefore(outcomes, k)
    ensures ConnectDB(retries, outcomes).Attempts() == k + 1
    ensures ConnectDB(retries, outcomes).Delays() == k
    ensures ConnectDB(retries, outcomes).Connected()
  {
    StopsAtSuccessOrBudget(retries, outcomes);
    OnlyLastMaySucceed(retries, outcomes);
  }

  /** A successful first attempt ends the call: no later outcome is
      consulted, no delay is waited. */
  lemma SuccessStops(retries: int, outcomes: seq<bool>, other: seq<bool>)
    requires |outcomes| >= AttemptBudget(retries) && |other| >= AttemptBudget(retries)
    requires outcomes[0] && other[0]
    ensures ConnectDB(retries, outcomes) == ConnectDB(retries, other)
    ensures ConnectDB(retries, outcomes) == Run([true], [], [ConnectedOk])
  {
  }

  /** If every attempt in the budget fails, the call uses the whole budget,
      waits one delay fewer, ends disconnected and was never connected. */
  lemma AllFail(retries: int, outcomes: seq<bool>)
    requires |outcomes| >= AttemptBudget(retries)
    requires FailedBefore(outcomes, AttemptBudget(retries))
    ensures ConnectDB(retries, outcomes).Attempts() == AttemptBudget(retries)
    ensures ConnectDB(retries, outcomes).Delays() == AttemptBudget(retries) - 1
    ensures !ConnectDB(retries, outcomes).Connected()
    ensures true !in ConnectDB(retries, outcomes).flags
  {
    var r := ConnectDB(retries, outcomes);
    StopsAtSuccessOrBudget(retries, outcomes);
    FlagsFollowOutcomes(retries, outcomes);
    assert forall i :: 0 <= i < |r.flags| ==> r.flags[i] == outcomes[i];
  }

  /** From a fresh start: at most six attempts and five delays, at most
      `MAX_RETRIES * RETRY_DELAY_MS` milliseconds of waiting in all. */
  lemma StartupBounds(outcomes: seq<bool>)
    requires |outcomes| >= AttemptBudget(0)
    ensures ConnectDB(0, outcomes).Attempts() <= 6
    ensures ConnectDB(0, outcomes).Delays() <= 5
    ensures TotalDelayMs(ConnectDB(0, outcomes).delaysMs) <= MAX_RETRIES * RETRY_DELAY_MS
  {
    var r := ConnectDB(0, outcomes);
    ConnectDBHistory(0, outcomes);
    TotalFixedDelays(r.delaysMs);
  }

  /** From a fresh start with six failures: five delays of 2000 ms,
      `dbConnected` false before, throughout and after, and the call still
      returns normally. */
  lemma StartupExhausted(outcomes: seq<bool>)
    requires |outcomes| >= AttemptBudget(0)
    requires FailedBefore(outcomes, 6)
    ensures ConnectDB(0, outcomes).Attempts() == 6
    ensures ConnectDB(0, outcomes).Delays() == 5
    ensures TotalDelayMs(ConnectDB(0, outcomes).delaysMs) == 10000
    ensures true !in Startup(outcomes)
  {
    AllFail(0, outcomes);
    ConnectDBHistory(0, outcomes);
    TotalFixedDelays(ConnectDB(0, outcomes).delaysMs);
  }

  /** A call made with `retries >= MAX_RETRIES` tries exactly once and never
      waits. */
  lemma NoRetryAtLimit(retries: int, outcomes: seq<bool>)
    requires retries >= MAX_RETRIES && |outcomes| >= 1
    ensures ConnectDB(retries, outcomes).Attempts() == 1
    ensures ConnectDB(retries, outcomes).Delays() == 0
    ensures ConnectDB(retries, outcomes).Connected() == outcomes[0]
  {
  }

  /** One failed attempt below the limit: the rest of the run is the run of
      the recursive call with `retries + 1`, one attempt later. */
  lemma ConnectDBStep(retries: int, outcomes: seq<bool>)
    requires |outcomes| >= AttemptBudget(retries)
    requires !outcomes[0] && retries < MAX_RETRIES
    ensures ConnectDB(retries, outcomes).Attempts() == 1 + ConnectDB(retries + 1, outcomes[1..]).Attempts()
    ensures ConnectDB(retries, outcomes).Connected() == ConnectDB(retries + 1, outcomes[1..]).Connected()
  {
  }

  lemma StepFlags(retries: int, outcomes: seq<bool>)
    requires |outcomes| >= AttemptBudget(retries)
    requires !outcomes[0] && retries < MAX_RETRIES
    ensures ConnectDB(retries, outcomes).flags == [false] + ConnectDB(retries + 1, outcomes[1..]).flags
  {
  }

  lemma StepDelays(retries: int, outcomes: seq<bool>)
    requires |outcomes| >= AttemptBudget(retries)
    requires !outcomes[0] && retries < MAX_RETRIES
    ensures ConnectDB(retries, outcomes).delaysMs == [RETRY_DELAY_MS] + ConnectDB(retries + 1, outcomes[1..]).delaysMs
  {
  }

  /** A failed attempt below the limit logs its error and the retry notice
      ahead of the recursive call's log. */
  lemma StepLog(retries: int, outcomes: seq<bool>)
    requires |outcomes| >= AttemptBudget(retries)
    requires !outcomes[0] && retries < MAX_RETRIES
    ensures ConnectDB(retries, outcomes).log ==
              [AttemptMessage(retries, false), RetryingIn(RETRY_DELAY_MS)] + ConnectDB(retries + 1, outcomes[1..]).log
  {
  }

  /** Attempt `j` is made exactly when the budget allows it and all the
      attempts before it failed; its log entry sits at position `2 * j`: a
      success is logged as such, and a failure shows attempt number
      `retries + j + 1` against `MAX_RETRIES`. */
  lemma {:induction false} AttemptLogged(retries: int, outcomes: seq<bool>, j: nat)
    requires |outcomes| >= AttemptBudget(retries)
    requires j < AttemptBudget(retries) && FailedBefore(outcomes, j)
    ensures j < ConnectDB(retries, outcomes).Attempts()
    ensures 2 * j < |ConnectDB(retries, outcomes).log|
    ensures ConnectDB(retries, outcomes).log[2 * j] == AttemptMessage(retries + j, outcomes[j])
    decreases j
  {
    if j == 0 {
      FirstAttemptLogged(retries, outcomes);
    } else {
      var rest := outcomes[1..];
      assert FailedBefore(rest, j - 1) by {
        forall i | 0 <= i < j - 1 ensures !rest[i] {
          assert rest[i] == outcomes[i + 1];
        }
      }
      AttemptLogged(retries + 1, rest, j - 1);
      assert !outcomes[0];
      ConnectDBStep(retries, outcomes);
      StepLog(retries, outcomes);
      var tail := ConnectDB(retries + 1, rest).log;
      var log := ConnectDB(retries, outcomes).log;
      var prefix := [AttemptMessage(retries, false), RetryingIn(RETRY_DELAY_MS)];
      ElementAfterPrefix(prefix, tail, 2 * (j - 1));
      assert log == prefix + tail;
      assert |prefix| + 2 * (j - 1) == 2 * j;
      assert log[2 * j] == tail[2 * (j - 1)];
      assert retries + 1 + (j - 1) == retries + j;
      assert rest[j - 1] == outcomes[j];
      assert tail[2 * (j - 1)] == AttemptMessage(retries + j, outcomes[j]);
    }
  }

  /** The first log entry reports the first attempt. */
  lemma FirstAttemptLogged(retries: int, outcomes: seq<bool>)
    requires |outcomes| >= AttemptBudget(retries)
    ensures 1 <= |ConnectDB(retries, outcomes).log|
    ensures ConnectDB(retries, outcomes).log[0] == AttemptMessage(retries, outcomes[0])
  {
  }

  lemma ElementAfterPrefix<T>(a: seq<T>, b: seq<T>, k: nat)
    requires k < |b|
    ensures |a| + k < |a + b| && (a + b)[|a| + k] == b[k]
  {
  }

  /** When every attempt of a call starting at or below the limit fails, the
      last logged error shows attempt `MAX_RETRIES + 1` against a displayed
      maximum of `MAX_RETRIES` ("attempt 6/5"), and the log ends by giving up. */
  lemma {:induction false} ExhaustedLogShowsAttemptAboveMax(retries: int, outcomes: seq<bool>)
    requires retries <= MAX_RETRIES && |outcomes| >= AttemptBudget(retries)
    requires FailedBefore(outcomes, AttemptBudget(retries))
    ensures var log := ConnectDB(retries, outcomes).log;
            |log| >= 2 &&
            log[|log| - 2] == ConnectionError(MAX_RETRIES + 1, MAX_RETRIES) &&
            log[|log| - 1] == GaveUp
    decreases MAX_RETRIES - retries
  {
    if retries < MAX_RETRIES {
      var rest := outcomes[1..];
      assert FailedBefore(rest, AttemptBudget(retries + 1)) by {
        forall i | 0 <= i < AttemptBudget(retries + 1) ensures !rest[i] {
          assert rest[i] == outcomes[i + 1];
        }
      }
      ExhaustedLogShowsAttemptAboveMax(retries + 1, rest);
      assert !outcomes[0];
      StepLog(retries, outcomes);
    } else {
      assert !outcomes[0];
    }
  }

  /** The same bootstrap as a counted loop over the attempt counter. It agrees with `ConnectDB`
      started from `retries = 0`. */
  method ConnectLoop(outcomes: seq<bool>) returns (connected: bool, attempts: nat, delays: nat)
    requires |outcomes| >= AttemptBudget(0)
    ensures 1 <= attempts <= MAX_RETRIES + 1 && delays == attempts - 1
    ensures connected == outcomes[attempts - 1]
    ensures FailedBefore(outcomes, attempts - 1)
    ensures connected || attempts == MAX_RETRIES + 1
    ensures attempts == ConnectDB(0, outcomes).Attempts()
    ensures delays == ConnectDB(0, outcomes).Delays()
    ensures connected == ConnectDB(0, outcomes).Connected()
  {
    var retries := 0;
    delays := 0;
    connected := outcomes[0];
    while !connected && retries < MAX_RETRIES
      invariant 0 <= retries <= MAX_RETRIES
      invariant delays == retries
      invariant connected == outcomes[retries]
      invariant FailedBefore(outcomes, retries)
      invariant ConnectDB(0, outcomes).Attempts() == retries + ConnectDB(retries, outcomes[retries..]).Attempts()
      invariant ConnectDB(0, outcomes).Connected() == ConnectDB(retries, outcomes[retries..]).Connected()
      decreases MAX_RETRIES - retries
    {
      ConnectDBStep(retries, outcomes[retries..]);
      assert outcomes[retries..][1..] == outcomes[retries + 1..];
      delays := delays + 1;
      retries := retries + 1;
      connected := outcomes[retries];
    }
    attempts := retries + 1;
  }

  /** Total time spent waiting, in milliseconds. */
  function TotalDelayMs(delays: seq<int>): int {
    if delays == [] then 0 else delays[0] + TotalDelayMs(delays[1..])
  }

  lemma {:induction false} TotalFixedDelays(delays: seq<int>)
    requires AllRetryDelays(delays)
    ensures TotalDelayMs(delays) == |delays| * RETRY_DELAY_MS
  {
    if delays != [] {
      TotalFixedDelays(delays[1..]);
    }
  }
}
