/** The attach client of one app-server connection and the broker task that
    drives it: the loops of `deliver` and `deliver_via_codex`. */
module Attach {
  import opened Wrappers
  import opened Delivery

  /** How the app-server answers one request: the reply, whether a request whose
      reply leaves it open took effect, and how long it took. */
  datatype Response = Response(reply: Reply, executed: bool, delay: nat)

  type AppServer = (seq<Event>, Request) -> Response

  /** What the request did, given what the reply proves. */
  function Effect(q: Request, r: Response): bool {
    if r.reply.Rpc? then false else NamesTurn(q, r.reply) || r.executed
  }

  class CodexAttach {
    const server: AppServer
    const oversleep: seq<Event> -> nat
    var clock: nat
    var log: seq<Event>

    constructor (server: AppServer, oversleep: seq<Event> -> nat, clock: nat)
      ensures this.clock == clock && log == []
    {
      this.server := server;
      this.oversleep := oversleep;
      this.clock := clock;
      log := [];
    }

    method Ask(q: Request) returns (r: Reply)
      modifies this
      ensures clock >= old(clock)
      ensures exists executed :: log == old(log) + [Call(q, r, executed, clock)] && Honest(Call(q, r, executed, clock))
    {
      var response := server(log, q);
      clock := clock + response.delay;
      r := response.reply;
      log := log + [Call(q, r, Effect(q, response), clock)];
    }

    method Sleep()
      modifies this
      ensures log == old(log) + [Nap(old(clock), clock)] && clock >= old(clock) + POLL_INTERVAL
    {
      var from := clock;
      clock := clock + POLL_INTERVAL + oversleep(log);
      log := log + [Nap(from, clock)];
    }

    /** The part of the log after `base` is a run of the delivery `t`, which has
        now reached the given state. */
    ghost predicate Runs(t: Task, start: nat, base: seq<Event>, run: seq<Event>, reached: Task)
      reads this
    {
      log == base + run && IsRun(t, start, run) && Reached(t, run) == reached && Now(run, start) == clock
    }

    /** One request of a delivery that is ready to send it. */
    method Advance(ghost t: Task, ghost start: nat, ghost base: seq<Event>, ghost run: seq<Event>, ghost now: Task,
                   q: Request)
      returns (r: Reply, ghost longer: seq<Event>)
      requires Runs(t, start, base, run, now) && Asks(now) == Some(q)
      modifies this
      ensures Runs(t, start, base, longer, Got(now, r, clock)) && clock >= old(clock)
    {
      ghost var before := log;
      r := Ask(q);
      ghost var executed :| log == before + [Call(q, r, executed, clock)] && Honest(Call(q, r, executed, clock));
      ghost var e := Call(q, r, executed, clock);
      RunGrows(t, start, run, e);
      longer := run + [e];
      assert base + longer == (base + run) + [e];
    }

    /** One sleep of a delivery that may sleep. */
    method Rest(ghost t: Task, ghost start: nat, ghost base: seq<Event>, ghost run: seq<Event>, ghost now: Task)
      returns (ghost longer: seq<Event>)
      requires Runs(t, start, base, run, now) && (now.pc.Settle? || (now.pc.Busy? && clock <= now.deadline))
      modifies this
      ensures Runs(t, start, base, longer, now.(pc := if now.pc.Settle? then Poll(now.pc.turn) else Read))
      ensures clock >= old(clock) + POLL_INTERVAL
    {
      ghost var from := clock;
      Sleep();
      ghost var e := Nap(from, clock);
      RunGrows(t, start, run, e);
      longer := run + [e];
      assert base + longer == (base + run) + [e];
    }

    /** After an RPC error in state `now`: reloads an unloaded thread, once, or
        ends the delivery. */
    method Reload(ghost t: Task, ghost start: nat, ghost base: seq<Event>, ghost run: seq<Event>, now: Task, e: string,
                  afterStart: bool)
      returns (end: Option<Delivered>, ghost longer: seq<Event>)
      requires Runs(t, start, base, run, AfterError(now, e, afterStart))
      modifies this
      ensures clock >= old(clock) && (now.resumed ==> end.Some?)
      ensures end.None? ==> Runs(t, start, base, longer, now.(resumed := true, pc := Read))
      ensures end.Some? ==> exists reached :: Runs(t, start, base, longer, reached) && reached.pc == Done(end.value)
    {
      longer := run;
      if ThreadGone(e) || now.resumed || !UnloadHint(e) {
        return Some(Failed), longer;
      }
      var reply;
      reply, longer := Advance(t, start, base, run, now.(resumed := true, pc := Resume(afterStart)),
                               ThreadResume(now.thread));
      match reply {
        case Answer(_) => end := None;
        case Lost(_) => end := Some(if afterStart then Failed else Unreachable);
        case Rpc(_) => end := Some(Failed);
      }
    }

    /** Delivers one rendered message into the thread. What it does on the wire is
        a finished run of the delivery protocol that ends with its outcome. */
    method Deliver(thread: string, text: string) returns (outcome: Delivered, ghost run: seq<Event>)
      modifies this
      ensures log == old(log) + run
      ensures var t := Fresh(thread, text, old(clock));
              IsRun(t, old(clock), run) && Reached(t, run).pc == Done(outcome)
    {
      var committed;
      committed, run := Commit(thread, text);
      match committed {
        case Err(failed) => return failed, run;
        case Ok(turn) =>
          outcome, run := AwaitTurn(thread, text, turn, old(clock), old(log), run);
      }
    }

    /** Up to the commit point: the id of the turn the message went into, or the
        outcome that ends the delivery without one. */
    method Commit(thread: string, text: string) returns (turn: Result<string, Delivered>, ghost run: seq<Event>)
      modifies this
      ensures exists reached :: Runs(Fresh(thread, text, old(clock)), old(clock), old(log), run, reached)
                && (turn.Ok? ==>
                    reached.thread == thread && reached.text == text && reached.pc == Settle(turn.value)
                    && reached.deadline == clock + TURN_TIMEOUT)
                && (turn.Err? ==> reached.pc == Done(turn.error))
    {
      ghost var t, start, base := Fresh(thread, text, clock), clock, log;
      run := [];
      var resumed, refused := false, false;
      var deadline := clock + TURN_TIMEOUT;
      assert base + run == base;
      while true
        invariant Runs(t, start, base, run, Task(thread, text, resumed, refused, deadline, Read))
        decreases One(!resumed) + One(!refused), deadline + POLL_INTERVAL - clock
      {
        ghost var now := Task(thread, text, resumed, refused, deadline, Read);
        var reply;
        reply, run := Advance(t, start, base, run, now, ThreadRead(thread));
        now := AfterRead(now, reply);
        if SaysIdle(reply) {
          reply, run := Advance(t, start, base, run, now, TurnStart(thread, text));
          now := AfterStart(now, reply, clock);
          match reply {
            case Answer(v) =>
              return if v.started.Some? then Ok(v.started.value) else Err(Failed), run;
            case Lost(_) => return Err(Failed), run;
            case Rpc(e) =>
              var end;
              end, run := Reload(t, start, base, run, Task(thread, text, resumed, refused, deadline, Start), e, true);
              if end.Some? {
                return Err(end.value), run;
              }
              resumed := true;
          }
        } else if reply.Lost? {
          return Err(Unreachable), run;
        } else if reply.Rpc? {
          var end;
          end, run := Reload(t, start, base, run, Task(thread, text, resumed, refused, deadline, Read), reply.error,
                             false);
          if end.Some? {
            return Err(end.value), run;
          }
          resumed := true;
        } else {
          var active := ActiveTurn(reply.v.turns);
          if active.Some? && !refused {
            reply, run := Advance(t, start, base, run, now, TurnSteer(thread, active.value, text));
            match reply {
              case Answer(w) =>
                return if w.steered.Some? then Ok(w.steered.value) else Err(Failed), run;
              case Lost(_) => return Err(Failed), run;
              case Rpc(_) =>
            }
            refused := true;
          } else {
            if clock > deadline {
              RunGrows(t, start, run, GiveUp(clock));
              log, run := log + [GiveUp(clock)], run + [GiveUp(clock)];
              return Err(Failed), run;
            }
            run := Rest(t, start, base, run, now);
          }
        }
      }
    }

    /** After the commit point: polls until the turn ends. */
    method AwaitTurn(thread: string, text: string, turn: string, ghost start: nat, ghost base: seq<Event>,
                     ghost before: seq<Event>)
      returns (outcome: Delivered, ghost run: seq<Event>)
      requires exists reached :: Runs(Fresh(thread, text, start), start, base, before, reached)
                 && reached.thread == thread && reached.text == text && reached.pc == Settle(turn)
                    && reached.deadline == clock + TURN_TIMEOUT
      modifies this
      ensures exists reached ::
                Runs(Fresh(thread, text, start), start, base, run, reached) && reached.pc == Done(outcome)
    {
      ghost var t := Fresh(thread, text, start);
      ghost var now := Reached(t, before);
      run := before;
      var deadline := clock + TURN_TIMEOUT;
      while true
        invariant Runs(t, start, base, run, now) && now.thread == thread && now.pc == Settle(turn)
                  && now.deadline == deadline
        decreases deadline + POLL_INTERVAL - clock
      {
        run := Rest(t, start, base, run, now);
        now := now.(pc := Poll(turn));
        var reply;
        reply, run := Advance(t, start, base, run, now, ThreadRead(thread));
        now := AfterPoll(now, reply, turn, clock);
        match reply {
          case Answer(v) =>
            var status := TurnStatus(v.turns, turn);
            if status == Some("completed") {
              return Processed, run;
            }
            if EndsTurn(status) {
              return Failed, run;
            }
          case Lost(_) => return Failed, run;
          case Rpc(e) =>
            if !Contains(e, "not materialized") {
              return Failed, run;
            }
        }
        if clock > deadline {
          return Failed, run;
        }
      }
    }
  }
}
