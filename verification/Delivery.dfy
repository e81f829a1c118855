/** One Codex delivery, seen from the wire: which request follows which reply,
    and what a run of it can have done to the human-owned thread.

    The app-server is an adversary. A reply may be lost whether or not the
    request took effect; an RPC error means it did not; a reply that names a
    turn means it did. */
module Delivery {
  import opened Wrappers

  const TURN_TIMEOUT: nat := 300_000
  const POLL_INTERVAL: nat := 1_500

  datatype Turn = Turn(id: Option<string>, status: Option<string>)

  datatype Request =
    | ThreadRead(thread: string)
    | TurnSteer(thread: string, expected: string, text: string)
    | TurnStart(thread: string, text: string)
    | ThreadResume(thread: string)

  /** The parts of a reply that are looked at. */
  datatype Value = Value(status: Option<string>, turns: seq<Turn>, steered: Option<string>, started: Option<string>)

  datatype Reply = Answer(v: Value) | Rpc(error: string) | Lost(error: string)

  datatype Delivered = Processed | Failed | Unreachable

  /** Progress of one delivery. `Read` is about to read the thread, `Busy` found
      it busy, `Steer` and `Start` are about to commit, `Resume` reloads it,
      `Settle` sleeps before the next `Poll`. */
  datatype Pc =
    | Read | Busy | Steer(turn: string) | Start | Resume(afterStart: bool)
    | Settle(turn: string) | Poll(turn: string) | Done(outcome: Delivered)

  datatype Task = Task(thread: string, text: string, resumed: bool, refused: bool, deadline: nat, pc: Pc)

  datatype Event =
    | Call(request: Request, reply: Reply, executed: bool, at: nat)
    | Nap(from: nat, until: nat)
    | GiveUp(at: nat)

  // -- reading replies -----------------------------------------------------------

  function LowerChar(c: char): char {
    if 'A' <= c <= 'Z' then ((c as int) + 32) as char else c
  }

  function Lower(s: string): string {
    if s == [] then [] else [LowerChar(s[0])] + Lower(s[1..])
  }

  predicate Contains(s: string, part: string) {
    part <= s || (s != [] && Contains(s[1..], part))
  }

  predicate UnloadHint(e: string) {
    var l := Lower(e);
    Contains(l, "not loaded") || Contains(l, "unloaded") || Contains(l, "unknown thread")
  }

  predicate ThreadGone(e: string) {
    Contains(Lower(e), "no rollout")
  }

  /** The latest in-progress turn that has an id. */
  function ActiveTurn(turns: seq<Turn>): Option<string> {
    if turns == [] then None
    else
      var last := turns[|turns| - 1];
      if last.status == Some("inProgress") && last.id.Some? then last.id else ActiveTurn(turns[..|turns| - 1])
  }

  /** Status of the first turn with this id. */
  function TurnStatus(turns: seq<Turn>, id: string): Option<string> {
    if turns == [] then None
    else if turns[0].id == Some(id) then turns[0].status
    else TurnStatus(turns[1..], id)
  }

  predicate SaysIdle(r: Reply) {
    || (r.Answer? && (r.v.status == None || r.v.status == Some("idle")))
    || (r.Rpc? && Contains(r.error, "not materialized"))
  }

  /** The reply proves that the request put the message into the thread. */
  predicate NamesTurn(q: Request, r: Reply) {
    r.Answer? && ((q.TurnSteer? && r.v.steered.Some?) || (q.TurnStart? && r.v.started.Some?))
  }

  predicate Commits(q: Request) {
    q.TurnSteer? || q.TurnStart?
  }

  predicate Honest(e: Event) {
    e.Call? ==> (e.reply.Rpc? ==> !e.executed) && (NamesTurn(e.request, e.reply) ==> e.executed)
  }

  predicate Injects(e: Event) {
    e.Call? && Commits(e.request) && e.executed
  }

  function Injections(events: seq<Event>): nat {
    if events == [] then 0
    else Injections(events[..|events| - 1]) + if Injects(events[|events| - 1]) then 1 else 0
  }

  // -- one step of a delivery ------------------------------------------------------

  function Fresh(thread: string, text: string, now: nat): Task {
    Task(thread, text, false, false, now + TURN_TIMEOUT, Read)
  }

  /** The request a delivery sends next, if its next step is a request. */
  function Asks(t: Task): Option<Request> {
    match t.pc
    case Read => Some(ThreadRead(t.thread))
    case Steer(turn) => Some(TurnSteer(t.thread, turn, t.text))
    case Start => Some(TurnStart(t.thread, t.text))
    case Resume(_) => Some(ThreadResume(t.thread))
    case Poll(_) => Some(ThreadRead(t.thread))
    case _ => None
  }

  function End(t: Task, outcome: Delivered): Task {
    t.(pc := Done(outcome))
  }

  /** An error resumes the thread once, and only if it hints that the thread was
      unloaded and does not say it is gone. */
  function AfterError(t: Task, e: string, afterStart: bool): Task {
    if ThreadGone(e) || t.resumed || !UnloadHint(e) then End(t, Failed)
    else t.(resumed := true, pc := Resume(afterStart))
  }

  function AfterRead(t: Task, r: Reply): Task {
    if SaysIdle(r) then t.(pc := Start)
    else
      match r
      case Answer(v) =>
        if ActiveTurn(v.turns).Some? && !t.refused then t.(pc := Steer(ActiveTurn(v.turns).value)) else t.(pc := Busy)
      case Lost(_) => End(t, Unreachable)
      case Rpc(e) => AfterError(t, e, false)
  }

  function AfterSteer(t: Task, r: Reply, now: nat): Task {
    match r
    case Answer(v) =>
      if v.steered.Some? then t.(pc := Settle(v.steered.value), deadline := now + TURN_TIMEOUT)
      else End(t, Failed)
    case Lost(_) => End(t, Failed)
    case Rpc(_) => t.(refused := true, pc := Read)
  }

  function AfterStart(t: Task, r: Reply, now: nat): Task {
    match r
    case Answer(v) =>
      if v.started.Some? then t.(pc := Settle(v.started.value), deadline := now + TURN_TIMEOUT)
      else End(t, Failed)
    case Lost(_) => End(t, Failed)
    case Rpc(e) => AfterError(t, e, true)
  }

  function AfterResume(t: Task, r: Reply, afterStart: bool): Task {
    match r
    case Answer(_) => t.(pc := Read)
    case Lost(_) => End(t, if afterStart then Failed else Unreachable)
    case Rpc(_) => End(t, Failed)
  }

  predicate EndsTurn(status: Option<string>) {
    status == Some("failed") || status == Some("error") || status == Some("interrupted")
  }

  function AfterPoll(t: Task, r: Reply, turn: string, now: nat): Task {
    var again := if now > t.deadline then End(t, Failed) else t.(pc := Settle(turn));
    match r
    case Answer(v) =>
      var status := TurnStatus(v.turns, turn);
      if status == Some("completed") then End(t, Processed) else if EndsTurn(status) then End(t, Failed) else again
    case Lost(_) => End(t, Failed)
    case Rpc(e) => if Contains(e, "not materialized") then again else End(t, Failed)
  }

  function Got(t: Task, r: Reply, now: nat): (u: Task)
    ensures u.thread == t.thread && u.text == t.text
  {
    match t.pc
    case Read => AfterRead(t, r)
    case Steer(_) => AfterSteer(t, r, now)
    case Start => AfterStart(t, r, now)
    case Resume(afterStart) => AfterResume(t, r, afterStart)
    case Poll(turn) => AfterPoll(t, r, turn, now)
    case _ => t
  }

  /** `e` is a step this delivery can take. */
  predicate Can(t: Task, e: Event) {
    match e
    case Call(q, _, _, _) => Asks(t) == Some(q) && Honest(e)
    case Nap(from, until) => until >= from + POLL_INTERVAL && ((t.pc.Busy? && from <= t.deadline) || t.pc.Settle?)
    case GiveUp(at) => t.pc.Busy? && at > t.deadline
  }

  function Take(t: Task, e: Event): (u: Task)
    ensures u.thread == t.thread && u.text == t.text
  {
    match e
    case Call(_, r, _, at) => Got(t, r, at)
    case Nap(_, _) => if t.pc.Settle? then t.(pc := Poll(t.pc.turn)) else t.(pc := Read)
    case GiveUp(_) => End(t, Failed)
  }

  // -- runs --------------------------------------------------------------------------

  function StartOf(e: Event): nat {
    if e.Nap? then e.from else e.at
  }

  function EndOf(e: Event): nat {
    if e.Nap? then e.until else e.at
  }

  /** Time after the events. */
  function Now(events: seq<Event>, start: nat): nat {
    if events == [] then start else EndOf(events[|events| - 1])
  }

  function Reached(t: Task, events: seq<Event>): Task {
    if events == [] then t else Take(Reached(t, events[..|events| - 1]), events[|events| - 1])
  }

  /** The events are a run of the delivery, in time order. */
  predicate IsRun(t: Task, start: nat, events: seq<Event>) {
    events == [] ||
    (var n := |events| - 1;
     && IsRun(t, start, events[..n])
     && Can(Reached(t, events[..n]), events[n])
     && Now(events[..n], start) <= StartOf(events[n]))
  }

  lemma RunGrows(t: Task, start: nat, events: seq<Event>, e: Event)
    requires IsRun(t, start, events) && Can(Reached(t, events), e) && Now(events, start) <= StartOf(e)
    ensures IsRun(t, start, events + [e]) && Reached(t, events + [e]) == Take(Reached(t, events), e)
    ensures Now(events + [e], start) == EndOf(e)
  {
    assert (events + [e])[..|events|] == events;
  }

  /** How many injections a delivery in this state may and must have made. */
  predicate Accounts(t: Task, injections: nat) {
    match t.pc
    case Settle(_) => injections == 1
    case Poll(_) => injections == 1
    case Done(outcome) =>
      match outcome {
        case Processed => injections == 1
        case Failed => injections <= 1
        case Unreachable => injections == 0
      }
    case _ => injections == 0
  }

  /** At most once: whatever the app-server executes or hides, one delivery puts
      the text into the thread at most once, never before it reports
      `Unreachable`, and exactly once when it reports `Processed`. */
  lemma {:induction false} AtMostOnce(thread: string, text: string, start: nat, events: seq<Event>)
    requires IsRun(Fresh(thread, text, start), start, events)
    ensures Accounts(Reached(Fresh(thread, text, start), events), Injections(events))
  {
    if events != [] {
      AtMostOnce(thread, text, start, events[..|events| - 1]);
    }
  }

  /** Every request of a delivery is about its own thread and carries its own text. */
  lemma {:induction false} TaskKeepsTarget(thread: string, text: string, start: nat, events: seq<Event>)
    requires IsRun(Fresh(thread, text, start), start, events)
    ensures var t := Reached(Fresh(thread, text, start), events);
            t.thread == thread && t.text == text
  {
    if events != [] {
      TaskKeepsTarget(thread, text, start, events[..|events| - 1]);
    }
  }

  // -- what comes directly before what ----------------------------------------------

  predicate IsIdleRead(e: Event, thread: string) {
    e.Call? && e.request == ThreadRead(thread) && SaysIdle(e.reply)
  }

  predicate IsBusyRead(e: Event, thread: string, turn: string) {
    e.Call? && e.request == ThreadRead(thread) && !SaysIdle(e.reply) && e.reply.Answer?
      && ActiveTurn(e.reply.v.turns) == Some(turn)
  }

  /** An RPC error that says the thread was unloaded and not that it is gone. */
  predicate IsUnloadError(e: Event, thread: string) {
    && e.Call? && (e.request == ThreadRead(thread) || (e.request.TurnStart? && e.request.thread == thread))
    && e.reply.Rpc? && UnloadHint(e.reply.error) && !ThreadGone(e.reply.error)
  }

  /** The state right after `before` licenses the request of `e`. */
  predicate Licensed(before: Event, e: Event) {
    e.Call? ==>
      && (e.request.TurnStart? ==> IsIdleRead(before, e.request.thread))
      && (e.request.TurnSteer? ==> IsBusyRead(before, e.request.thread, e.request.expected))
      && (e.request.ThreadResume? ==> IsUnloadError(before, e.request.thread))
  }

  /** What the last event must have been for the delivery to be in this state. */
  predicate Explains(t: Task, last: Event) {
    match t.pc
    case Start => IsIdleRead(last, t.thread)
    case Steer(turn) => IsBusyRead(last, t.thread, turn)
    case Resume(_) => IsUnloadError(last, t.thread)
    case _ => true
  }

  lemma StepExplains(t: Task, e: Event)
    requires Can(t, e)
    ensures Explains(Take(t, e), e)
  {
  }

  lemma {:induction false} ReachedExplains(thread: string, text: string, start: nat, events: seq<Event>)
    requires IsRun(Fresh(thread, text, start), start, events) && events != []
    ensures var t := Reached(Fresh(thread, text, start), events);
            t.thread == thread && Explains(t, events[|events| - 1])
  {
    TaskKeepsTarget(thread, text, start, events);
    StepExplains(Reached(Fresh(thread, text, start), events[..|events| - 1]), events[|events| - 1]);
  }

  lemma ExplainedIsLicensed(t: Task, last: Event, e: Event)
    requires Explains(t, last) && Can(t, e)
    ensures Licensed(last, e)
  {
  }

  /** Every start directly follows an idle read of its thread, every steer a read
      that showed the turn it names, every resume an error that hints unload. */
  lemma {:induction false} CommitsAreLicensed(thread: string, text: string, start: nat, events: seq<Event>, i: nat)
    requires IsRun(Fresh(thread, text, start), start, events) && i < |events|
    ensures events[i].Call? && !events[i].request.ThreadRead? ==> i > 0 && Licensed(events[i - 1], events[i])
  {
    var n := |events| - 1;
    if i < n {
      CommitsAreLicensed(thread, text, start, events[..n], i);
    } else {
      LastIsLicensed(thread, text, start, events, n);
    }
  }

  lemma LastIsLicensed(thread: string, text: string, start: nat, events: seq<Event>, n: nat)
    requires n == |events| - 1 && IsRun(Fresh(thread, text, start), start, events)
    ensures events[n].Call? && !events[n].request.ThreadRead? ==> n > 0 && Licensed(events[n - 1], events[n])
  {
    var t := Reached(Fresh(thread, text, start), events[..n]);
    if n > 0 {
      ReachedExplains(thread, text, start, events[..n]);
      ExplainedIsLicensed(t, events[n - 1], events[n]);
    } else {
      assert t == Fresh(thread, text, start);
    }
  }

  /** The turn a processed delivery was read as completed in. */
  predicate Completes(e: Event, thread: string, turn: string) {
    e.Call? && e.request == ThreadRead(thread) && e.reply.Answer?
      && TurnStatus(e.reply.v.turns, turn) == Some("completed")
  }

  /** Entry `i` is the accepted commit that returned `turn`. */
  predicate Started(events: seq<Event>, i: int, turn: string) {
    && 0 <= i < |events| && events[i].Call? && Injects(events[i]) && events[i].reply.Answer?
    && (events[i].request.TurnSteer? ==> events[i].reply.v.steered == Some(turn))
    && (events[i].request.TurnStart? ==> events[i].reply.v.started == Some(turn))
  }

  lemma {:induction false} PolledTurnWasStarted(thread: string, text: string, start: nat, events: seq<Event>,
                                                turn: string)
    requires IsRun(Fresh(thread, text, start), start, events)
    requires var pc := Reached(Fresh(thread, text, start), events).pc; pc == Settle(turn) || pc == Poll(turn)
    ensures exists i :: Started(events, i, turn)
  {
    if events != [] {
      var n := |events| - 1;
      var before := Reached(Fresh(thread, text, start), events[..n]);
      if before.pc.Settle? || before.pc.Poll? {
        KeepsTurn(before, events[n], turn);
        PolledTurnWasStarted(thread, text, start, events[..n], turn);
        StartedExtends(events, events[..n], turn);
      } else {
        BeginsTurn(before, events[n], turn);
        assert Started(events, n, turn);
      }
    }
  }

  lemma KeepsTurn(t: Task, e: Event, turn: string)
    requires Can(t, e) && (t.pc.Settle? || t.pc.Poll?)
    requires Take(t, e).pc == Settle(turn) || Take(t, e).pc == Poll(turn)
    ensures t.pc.turn == turn
  {
  }

  lemma BeginsTurn(t: Task, e: Event, turn: string)
    requires Can(t, e) && !t.pc.Settle? && !t.pc.Poll?
    requires Take(t, e).pc == Settle(turn) || Take(t, e).pc == Poll(turn)
    ensures Started([e], 0, turn)
  {
  }

  /** `Processed` means: the one accepted commit returned a turn, and the last
      thing read was that turn, completed. */
  lemma {:induction false} ProcessedMeansCompleted(thread: string, text: string, start: nat, events: seq<Event>)
    requires IsRun(Fresh(thread, text, start), start, events)
    requires Reached(Fresh(thread, text, start), events).pc == Done(Processed)
    ensures Injections(events) == 1
    ensures exists i: int, turn: string :: Started(events, i, turn) && Completes(events[|events| - 1], thread, turn)
  {
    AtMostOnce(thread, text, start, events);
    var n := |events| - 1;
    var before := Reached(Fresh(thread, text, start), events[..n]);
    TaskKeepsTarget(thread, text, start, events[..n]);
    LastPollCompletes(before, events[n]);
    PolledTurnWasStarted(thread, text, start, events[..n], before.pc.turn);
    StartedExtends(events, events[..n], before.pc.turn);
  }

  lemma LastPollCompletes(t: Task, e: Event)
    requires Can(t, e) && Take(t, e).pc == Done(Processed)
    ensures t.pc.Poll? && Completes(e, t.thread, t.pc.turn)
  {
  }

  lemma StartedExtends(events: seq<Event>, shorter: seq<Event>, turn: string)
    requires shorter <= events && exists i :: Started(shorter, i, turn)
    ensures exists i :: Started(events, i, turn)
  {
    var i :| Started(shorter, i, turn);
    assert Started(events, i, turn);
  }

  // -- how long a delivery can take -----------------------------------------------------

  const WAITS: nat := 201

  /** The steps of a run by kind. */
  datatype Tally = Tally(looks: nat, busyNaps: nat, steers: nat, starts: nat, resumes: nat, settleNaps: nat, polls: nat,
                         gaveUp: nat)
  {
    function Total(): nat {
      looks + busyNaps + steers + starts + resumes + settleNaps + polls + gaveUp
    }
  }

  function Counted(c: Tally, t: Task, e: Event): Tally {
    match e
    case Nap(_, _) => if t.pc.Settle? then c.(settleNaps := c.settleNaps + 1) else c.(busyNaps := c.busyNaps + 1)
    case GiveUp(_) => c.(gaveUp := c.gaveUp + 1)
    case Call(q, _, _, _) =>
      match q
      case ThreadRead(_) => if t.pc.Poll? then c.(polls := c.polls + 1) else c.(looks := c.looks + 1)
      case TurnSteer(_, _, _) => c.(steers := c.steers + 1)
      case TurnStart(_, _) => c.(starts := c.starts + 1)
      case ThreadResume(_) => c.(resumes := c.resumes + 1)
  }

  function TallyOf(t: Task, events: seq<Event>): Tally {
    if events == [] then Tally(0, 0, 0, 0, 0, 0, 0, 0)
    else
      var n := |events| - 1;
      Counted(TallyOf(t, events[..n]), Reached(t, events[..n]), events[n])
  }

  predicate Committed(pc: Pc) {
    pc.Settle? || pc.Poll? || pc.Done?
  }

  function One(b: bool): nat {
    if b then 1 else 0
  }

  /** What each kind of step may have cost by now. Waiting is paid for in time:
      every nap moved the clock by a full interval. */
  predicate Budget(c: Tally, t: Task, start: nat, now: nat) {
    && c.steers <= One(t.refused || Committed(t.pc))
    && c.resumes <= One(t.resumed && !t.pc.Resume?)
    && (t.pc.Steer? ==> !t.refused) && (t.pc.Resume? ==> t.resumed)
    && c.starts <= One(t.resumed) + One(Committed(t.pc))
    && c.looks <= c.busyNaps + One(t.refused) + c.resumes + One(!t.pc.Read?)
    && c.gaveUp <= One(t.pc.Done?) && (c.gaveUp == 1 ==> c.settleNaps == 0)
    && c.busyNaps <= WAITS && c.polls <= WAITS && c.settleNaps == c.polls + One(t.pc.Poll?)
    && start <= now
    && (!Committed(t.pc) ==>
        t.deadline == start + TURN_TIMEOUT && c.polls == 0 && POLL_INTERVAL * c.busyNaps <= now - start)
    && ((t.pc.Settle? || t.pc.Poll?) ==>
        t.deadline <= now + TURN_TIMEOUT && POLL_INTERVAL * c.settleNaps <= now + TURN_TIMEOUT - t.deadline)
    && ((t.pc.Settle? || t.pc.Poll?) ==> POLL_INTERVAL * c.polls <= TURN_TIMEOUT)
  }

  lemma CallInBudget(c: Tally, t: Task, e: Event, start: nat, now: nat)
    requires Budget(c, t, start, now) && Can(t, e) && now <= StartOf(e) && e.Call?
    ensures Budget(Counted(c, t, e), Take(t, e), start, EndOf(e))
  {
    match t.pc
    case Read =>
    case Steer(_) =>
    case Start =>
    case Resume(_) =>
    case Poll(_) =>
  }

  lemma StepInBudget(c: Tally, t: Task, e: Event, start: nat, now: nat)
    requires Budget(c, t, start, now) && Can(t, e) && now <= StartOf(e)
    ensures Budget(Counted(c, t, e), Take(t, e), start, EndOf(e))
  {
    if e.Call? {
      CallInBudget(c, t, e, start, now);
    }
  }

  lemma {:induction false} RunInBudget(thread: string, text: string, start: nat, events: seq<Event>)
    requires var t := Fresh(thread, text, start); IsRun(t, start, events)
    ensures var t := Fresh(thread, text, start);
            Budget(TallyOf(t, events), Reached(t, events), start, Now(events, start))
  {
    if events != [] {
      var t := Fresh(thread, text, start);
      var n := |events| - 1;
      RunInBudget(thread, text, start, events[..n]);
      StepInBudget(TallyOf(t, events[..n]), Reached(t, events[..n]), events[n], start, Now(events[..n], start));
    }
  }

  lemma CountedOnce(c: Tally, t: Task, e: Event)
    ensures Counted(c, t, e).Total() == c.Total() + 1
  {
  }

  lemma TallyLast(t: Task, events: seq<Event>, n: nat)
    requires |events| == n + 1
    ensures TallyOf(t, events) == Counted(TallyOf(t, events[..n]), Reached(t, events[..n]), events[n])
  {
  }

  lemma {:induction false} TallyTotals(t: Task, events: seq<Event>, n: nat)
    requires n == |events|
    ensures TallyOf(t, events).Total() == n
  {
    if n > 0 {
      var shorter := events[..n - 1];
      TallyTotals(t, shorter, n - 1);
      CountedOnce(TallyOf(t, shorter), Reached(t, shorter), events[n - 1]);
      TallyLast(t, events, n - 1);
    }
  }

  /** At most 201 busy waits and 201 completion polls, one steer, one resume, two
      starts, 812 steps in all. */
  predicate Bounded(c: Tally) {
    c.busyNaps <= 201 && c.polls <= 201 && c.steers <= 1 && c.resumes <= 1 && c.starts <= 2 && c.Total() <= 812
  }

  lemma BudgetBounds(c: Tally, t: Task, start: nat, now: nat)
    requires Budget(c, t, start, now)
    ensures Bounded(c)
  {
    BudgetOfRest(c, t, start, now);
  }

  lemma BudgetOfRest(c: Tally, t: Task, start: nat, now: nat)
    requires Budget(c, t, start, now)
    ensures c.looks <= c.busyNaps + 3 && c.settleNaps <= c.polls + 1 && c.gaveUp <= 1
    ensures c.gaveUp + c.settleNaps + c.polls <= 403
  {
  }

  lemma {:induction false} StepsAreBounded(thread: string, text: string, start: nat, events: seq<Event>)
    requires Bounded(TallyOf(Fresh(thread, text, start), events))
    ensures |events| <= 812
  {
    TallyTotals(Fresh(thread, text, start), events, |events|);
  }

  /** Against every app-server a delivery ends, within these bounds. */
  lemma {:induction false} DeliveryEnds(thread: string, text: string, start: nat, events: seq<Event>)
    requires IsRun(Fresh(thread, text, start), start, events)
    ensures Bounded(TallyOf(Fresh(thread, text, start), events)) && |events| <= 812
  {
    var t := Fresh(thread, text, start);
    RunInBudget(thread, text, start, events);
    BudgetBounds(TallyOf(t, events), Reached(t, events), start, Now(events, start));
    StepsAreBounded(thread, text, start, events);
  }
}
