/** A broker delivery task for a Codex recipient: deliveries are attempted anew,
    over fresh connections if need be, for as long as the recipient's session
    stays and the app-server cannot be reached. */
module CodexTask {
  import opened Wrappers
  import opened Delivery
  import opened Attach
  import opened Backoff
  import Acks

  const RETRY_FIRST: nat := 1_000
  const RETRY_MAX: nat := 30_000

  /** What the task meets in one round: the session that holds the recipient's
      name, whether a client can be had, and how the app-server behaves. */
  datatype Round = Round(holder: Option<nat>, dials: bool, server: AppServer, oversleep: seq<Event> -> nat, clock: nat)

  datatype Ending =
    | Vanished                       // no session holds the name any more
    | Stale                          // another session does
    | Finished(outcome: Delivered)   // processed or failed
    | Dropped                        // an untracked copy, not retried
    | Pending                        // still retrying

  /** The acknowledgment updates an ending stands for. */
  function AcksOf(ending: Ending, tracked: bool): seq<Acks.AckState> {
    if !tracked then []
    else
      match ending
      case Vanished => [Acks.Failed]
      case Finished(Processed) => [Acks.Relayed, Acks.Processed]
      case Finished(_) => [Acks.Failed]
      case _ => []
  }

  predicate EndingAccounts(ending: Ending, injections: nat) {
    match ending
    case Finished(Processed) => injections == 1
    case Finished(_) => injections <= 1
    case _ => injections == 0
  }

  lemma {:induction false} InjectionsJoin(a: seq<Event>, b: seq<Event>)
    ensures Injections(a + b) == Injections(a) + Injections(b)
  {
    if b == [] {
      assert a + b == a;
    } else {
      var n := |b| - 1;
      InjectionsJoin(a, b[..n]);
      assert (a + b)[..|a + b| - 1] == a + b[..n];
    }
  }

  /** The task against any finite stretch of any environment. `wire` is all it
      did to any app-server, over all rounds. */
  method DeliverViaCodex(rounds: seq<Round>, session: nat, tracked: bool, thread: string, text: string)
    returns (ending: Ending, acks: seq<Acks.AckState>, waits: seq<nat>, ghost wire: seq<Event>)
    ensures EndingAccounts(ending, Injections(wire)) && Injections(wire) <= 1
    ensures acks == AcksOf(ending, tracked)
    ensures ending != Finished(Unreachable) && (ending.Dropped? ==> !tracked)
    ensures |waits| <= |rounds| && forall i :: 0 <= i < |waits| ==> waits[i] == Wait(RETRY_FIRST, RETRY_MAX, i)
    ensures ending.Pending? ==> |waits| == |rounds|
    ensures forall i :: 0 <= i < |waits| ==> rounds[i].holder == Some(session)
    ensures !ending.Pending? ==> |waits| < |rounds|
    ensures !ending.Pending? ==> (ending.Vanished? <==> rounds[|waits|].holder == None)
    ensures !ending.Pending? ==>
            (ending.Stale? <==> rounds[|waits|].holder.Some? && rounds[|waits|].holder != Some(session))
  {
    var retry := RETRY_FIRST;
    acks, waits, wire := [], [], [];
    for i := 0 to |rounds|
      invariant Injections(wire) == 0 && acks == []
      invariant |waits| == i && retry == Wait(RETRY_FIRST, RETRY_MAX, i)
      invariant forall k :: 0 <= k < i ==>
                waits[k] == Wait(RETRY_FIRST, RETRY_MAX, k) && rounds[k].holder == Some(session)
    {
      var round := rounds[i];
      match round.holder {
        case None => return Vanished, (if tracked then [Acks.Failed] else []), waits, wire;
        case Some(holder) =>
          if holder != session {
            return Stale, [], waits, wire;
          }
      }
      var outcome := Unreachable;
      if round.dials {
        var client := new CodexAttach(round.server, round.oversleep, round.clock);
        ghost var run;
        outcome, run := client.Deliver(thread, text);
        AtMostOnce(thread, text, round.clock, run);
        InjectionsJoin(wire, run);
        wire := wire + run;
      }
      match outcome {
        case Processed =>
          return Finished(Processed), (if tracked then [Acks.Relayed, Acks.Processed] else []), waits, wire;
        case Failed => return Finished(Failed), (if tracked then [Acks.Failed] else []), waits, wire;
        case Unreachable =>
          if !tracked {
            return Dropped, [], waits, wire;
          }
          waits := waits + [retry];
          retry := Doubled(retry, RETRY_MAX);
      }
    }
    ending := Pending;
  }
}
