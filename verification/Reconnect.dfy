/** The shim's outer loop: connect, serve the connection until it is lost, wait,
    connect again. */
module Reconnect {
  import opened Backoff

  const RECONNECT_MIN: nat := 1_000
  const RECONNECT_MAX: nat := 30_000
  const STABLE_CONNECTION: nat := 5_000

  /** One attempt: refused after a while, or a connection that lasted a while. */
  datatype Attempt = Refused(took: nat) | Connected(lasted: nat)

  predicate Stable(a: Attempt) {
    a.Connected? && a.lasted >= STABLE_CONNECTION
  }

  /** Unstable attempts in a row just before attempt `i`. */
  function Streak(attempts: seq<Attempt>, i: nat): nat
    requires i <= |attempts|
  {
    if i == 0 || Stable(attempts[i - 1]) then 0 else Streak(attempts, i - 1) + 1
  }

  /** How long the loop waits after attempt `i`. */
  function PauseAfter(attempts: seq<Attempt>, i: nat): nat
    requires i < |attempts|
  {
    if Stable(attempts[i]) then 0 else Wait(RECONNECT_MIN, RECONNECT_MAX, Streak(attempts, i))
  }

  function Took(a: Attempt): nat {
    match a case Refused(took) => took case Connected(lasted) => lasted
  }

  /** Attempt `i` is made at time `at[i]`. */
  predicate Schedule(attempts: seq<Attempt>, at: seq<nat>) {
    && |at| == |attempts| + 1
    && forall i :: 0 <= i < |attempts| ==> at[i + 1] == at[i] + Took(attempts[i]) + PauseAfter(attempts, i)
  }

  /** Any finite stretch of the loop: when each attempt was made. */
  method BrokerLoop(attempts: seq<Attempt>, start: nat) returns (at: seq<nat>)
    ensures Schedule(attempts, at) && at[0] == start
  {
    var backoff, clock := RECONNECT_MIN, start;
    at := [start];
    for i := 0 to |attempts|
      invariant |at| == i + 1 && at[0] == start && at[i] == clock
      invariant backoff == Wait(RECONNECT_MIN, RECONNECT_MAX, Streak(attempts, i))
      invariant forall k :: 0 <= k < i ==> at[k + 1] == at[k] + Took(attempts[k]) + PauseAfter(attempts, k)
    {
      match attempts[i] {
        case Refused(took) =>
          clock := clock + took + backoff;
          backoff := Doubled(backoff, RECONNECT_MAX);
        case Connected(lasted) =>
          clock := clock + lasted;
          if lasted >= STABLE_CONNECTION {
            backoff := RECONNECT_MIN;
          } else {
            clock := clock + backoff;
            backoff := Doubled(backoff, RECONNECT_MAX);
          }
      }
      at := at + [clock];
    }
  }

  /** No hot loop, whatever the listener does: from one attempt to the next at
      least a second passes, and `n` unstable attempts in a row after a stable one
      (or the start) take at least the sum of `n` doubled and capped waits. */
  lemma {:induction false} AttemptsAreSpaced(attempts: seq<Attempt>, at: seq<nat>, i: nat)
    requires Schedule(attempts, at) && i < |attempts|
    ensures at[i + 1] >= at[i] + RECONNECT_MIN
    ensures Streak(attempts, i + 1) <= i + 1
    ensures at[i + 1] >= at[i + 1 - Streak(attempts, i + 1)]
            + CappedSum(RECONNECT_MIN, RECONNECT_MAX, Streak(attempts, i + 1))
  {
    WaitIsCapped(RECONNECT_MIN, RECONNECT_MAX, Streak(attempts, i));
    if i > 0 {
      AttemptsAreSpaced(attempts, at, i - 1);
    }
  }
}
