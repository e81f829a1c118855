/** Many deliveries, over any number of clients of one app-server. They interleave
    freely, except that each client lets only one of its own deliveries at a time act
    on a thread. A client that is dropped from the broker's cache is replaced while
    its deliveries still run, and the new one has locks of its own. */
module ThreadLocks {
  import opened Wrappers
  import opened Delivery

  /** A delivery and the client it runs on. */
  datatype Job = Job(client: nat, task: Task)

  datatype Entry = Entry(id: nat, thread: string, event: Event)

  datatype Server = Server(jobs: map<nat, Job>, locks: map<(nat, string), nat>, log: seq<Entry>)

  const IDLE: Server := Server(map[], map[], [])

  /** A delivery takes its thread's lock in its client, or acts; a finished delivery
      gives the lock back. */
  datatype Step = Enter(id: nat, client: nat, thread: string, text: string, now: nat) | Act(id: nat, event: Event)

  predicate Enabled(c: Server, s: Step) {
    match s
    case Enter(id, client, thread, _, _) => id !in c.jobs && (client, thread) !in c.locks
    case Act(id, e) => id in c.jobs && Can(c.jobs[id].task, e)
  }

  function Next(c: Server, s: Step): Server
    requires Enabled(c, s)
  {
    match s
    case Enter(id, client, thread, text, now) =>
      c.(jobs := c.jobs[id := Job(client, Fresh(thread, text, now))], locks := c.locks[(client, thread) := id])
    case Act(id, e) =>
      var job := c.jobs[id].(task := Take(c.jobs[id].task, e));
      c.(jobs := c.jobs[id := job],
         locks := if job.task.pc.Done? then c.locks - {(job.client, job.task.thread)} else c.locks,
         log := c.log + [Entry(id, job.task.thread, e)])
  }

  /** The server after a sequence of steps, if each was enabled in its turn. */
  function After(steps: seq<Step>): Option<Server> {
    if steps == [] then Some(IDLE)
    else
      var n := |steps| - 1;
      match After(steps[..n])
      case None => None
      case Some(c) => if Enabled(c, steps[n]) then Some(Next(c, steps[n])) else None
  }

  lemma AfterLast(steps: seq<Step>)
    requires steps != [] && After(steps).Some?
    ensures var n := |steps| - 1;
            After(steps[..n]).Some? && Enabled(After(steps[..n]).value, steps[n])
              && After(steps) == Some(Next(After(steps[..n]).value, steps[n]))
  {
  }

  lemma AfterMore(steps: seq<Step>, e: Step)
    requires After(steps).Some? && Enabled(After(steps).value, e)
    ensures After(steps + [e]) == Some(Next(After(steps).value, e))
  {
    assert (steps + [e])[..|steps|] == steps;
  }

  /** Latest request about a thread. */
  function Latest(log: seq<Entry>, thread: string): Option<Entry> {
    if log == [] then None
    else
      var last := log[|log| - 1];
      if last.thread == thread && last.event.Call? then Some(last) else Latest(log[..|log| - 1], thread)
  }

  predicate Acting(t: Task) {
    t.pc.Start? || t.pc.Steer? || t.pc.Resume?
  }

  predicate Unfinished(c: Server, id: nat, thread: string) {
    id in c.jobs && !c.jobs[id].task.pc.Done? && c.jobs[id].task.thread == thread
  }

  /** An unfinished delivery holds its thread's lock in its client. */
  predicate LocksHeld(c: Server) {
    forall id :: id in c.jobs && !c.jobs[id].task.pc.Done? ==>
      var place := (c.jobs[id].client, c.jobs[id].task.thread);
      place in c.locks && c.locks[place] == id
  }

  /** At most one delivery in all is unfinished on a thread. */
  ghost predicate OneEach(c: Server) {
    forall a, b, thread :: Unfinished(c, a, thread) && Unfinished(c, b, thread) ==> a == b
  }

  /** The delivery about to act on a thread made the last request about it, and that
      request is why it acts. */
  predicate Explained(c: Server, id: nat)
    requires id in c.jobs
  {
    var t := c.jobs[id].task;
    Acting(t) ==>
      var last := Latest(c.log, t.thread);
      last.Some? && last.value.id == id && Explains(t, last.value.event)
  }

  predicate AllExplained(c: Server) {
    forall id :: id in c.jobs ==> Explained(c, id)
  }

  /** Entry `i` is no commit, or directly follows what licenses it: no other request
      about its thread lies between, and both come from the same delivery. */
  predicate LicensedAt(log: seq<Entry>, i: int)
    requires 0 <= i < |log|
  {
    var e := log[i];
    e.event.Call? && !e.event.request.ThreadRead? ==>
      var last := Latest(log[..i], e.thread);
      last.Some? && last.value.id == e.id && Licensed(last.value.event, e.event)
  }

  predicate LogLicensed(log: seq<Entry>) {
    forall i :: 0 <= i < |log| ==> LicensedAt(log, i)
  }

  /** A delivery enters a thread on which a delivery of another client is unfinished. */
  predicate Crosses(c: Server, s: Step) {
    s.Enter? && exists id :: id in c.jobs && Unfinished(c, id, s.thread) && c.jobs[id].client != s.client
  }

  ghost predicate NoCrossing(steps: seq<Step>) {
    forall n :: 0 <= n < |steps| ==> NoCrossingAt(steps, n)
  }

  ghost predicate NoCrossingAt(steps: seq<Step>, n: nat)
    requires n < |steps|
  {
    After(steps[..n]).Some? ==> !Crosses(After(steps[..n]).value, steps[n])
  }

  lemma StepKeepsLocks(c: Server, s: Step)
    requires LocksHeld(c) && Enabled(c, s)
    ensures LocksHeld(Next(c, s))
  {
    if s.Act? {
      assert !c.jobs[s.id].task.pc.Done?;
    }
  }

  lemma StepKeepsOneEach(c: Server, s: Step)
    requires LocksHeld(c) && OneEach(c) && Enabled(c, s) && !Crosses(c, s)
    ensures OneEach(Next(c, s))
  {
    var after := Next(c, s);
    forall a, b, thread | Unfinished(after, a, thread) && Unfinished(after, b, thread)
      ensures a == b
    {
      if s.Act? {
        assert Unfinished(c, a, thread) && Unfinished(c, b, thread);
      } else {
        assert a != s.id ==> Unfinished(c, a, thread);
        assert b != s.id ==> Unfinished(c, b, thread);
      }
    }
  }

  lemma StepKeepsExplained(c: Server, s: Step)
    requires OneEach(c) && AllExplained(c) && Enabled(c, s)
    ensures AllExplained(Next(c, s))
  {
    var after := Next(c, s);
    forall id | id in after.jobs
      ensures Explained(after, id)
    {
      if s.Act? {
        assert after.log[..|after.log| - 1] == c.log;
        StepExplains(c.jobs[s.id].task, s.event);
        assert Unfinished(c, s.id, c.jobs[s.id].task.thread);
        if id != s.id && Acting(c.jobs[id].task) {
          assert Explained(c, id) && Unfinished(c, id, c.jobs[id].task.thread);
        }
      } else {
        assert id != s.id ==> Explained(c, id);
      }
    }
  }

  lemma ActKeepsLog(c: Server, id: nat, e: Event)
    requires AllExplained(c) && LogLicensed(c.log) && Enabled(c, Act(id, e))
    ensures LogLicensed(Next(c, Act(id, e)).log)
  {
    var after := Next(c, Act(id, e));
    assert Explained(c, id);
    forall i | 0 <= i < |after.log|
      ensures LicensedAt(after.log, i)
    {
      if i < |c.log| {
        assert after.log[..i] == c.log[..i];
        assert LicensedAt(c.log, i);
      } else {
        assert after.log[..i] == c.log;
      }
    }
  }

  lemma {:induction false} RunKeepsLocks(steps: seq<Step>)
    requires After(steps).Some?
    ensures LocksHeld(After(steps).value)
  {
    if steps != [] {
      AfterLast(steps);
      RunKeepsLocks(steps[..|steps| - 1]);
      StepKeepsLocks(After(steps[..|steps| - 1]).value, steps[|steps| - 1]);
    }
  }

  lemma {:induction false} RunIsLicensed(steps: seq<Step>)
    requires After(steps).Some? && NoCrossing(steps)
    ensures var c := After(steps).value;
            OneEach(c) && AllExplained(c) && LogLicensed(c.log)
  {
    if steps != [] {
      var n := |steps| - 1;
      AfterLast(steps);
      assert NoCrossingAt(steps, n);
      forall m | 0 <= m < n
        ensures NoCrossingAt(steps[..n], m)
      {
        assert NoCrossingAt(steps, m) && steps[..n][..m] == steps[..m];
      }
      var c := After(steps[..n]).value;
      RunIsLicensed(steps[..n]);
      RunKeepsLocks(steps[..n]);
      StepKeepsOneEach(c, steps[n]);
      StepKeepsExplained(c, steps[n]);
      if steps[n].Act? {
        ActKeepsLog(c, steps[n].id, steps[n].event);
      }
    }
  }

  /** However deliveries interleave, as long as none enters a thread on which another
      client has an unfinished one, every start of a turn directly follows an idle read
      of that thread by the same delivery: nothing else was asked of the thread in
      between. */
  lemma {:induction false} StartFollowsIdleRead(steps: seq<Step>, i: nat)
    requires After(steps).Some? && NoCrossing(steps) && i < |After(steps).value.log|
    ensures var log := After(steps).value.log;
            log[i].event.Call? && log[i].event.request.TurnStart? ==>
              var last := Latest(log[..i], log[i].thread);
              last.Some? && last.value.id == log[i].id && IsIdleRead(last.value.event, log[i].event.request.thread)
  {
    RunIsLicensed(steps);
    assert LicensedAt(After(steps).value.log, i);
  }

  /** With one client there is nothing to cross. */
  lemma {:induction false} OneClientNeverCrosses(steps: seq<Step>, client: nat)
    requires After(steps).Some? && forall s :: s in steps && s.Enter? ==> s.client == client
    ensures NoCrossing(steps) && forall id :: id in After(steps).value.jobs ==>
            After(steps).value.jobs[id].client == client
  {
    if steps != [] {
      var n := |steps| - 1;
      AfterLast(steps);
      OneClientNeverCrosses(steps[..n], client);
      forall m | 0 <= m < |steps|
        ensures NoCrossingAt(steps, m)
      {
        if m < n {
          assert NoCrossingAt(steps[..n], m) && steps[..n][..m] == steps[..m];
        }
      }
    }
  }

  // -- crossing clients break it ------------------------------------------------------------

  const NOTHING: Value := Value(None, [], None, None)

  /** Some request an unfinished delivery can make now. */
  function SomeCall(t: Task): (e: Event)
    requires Asks(t).Some?
    ensures e.Call? && Can(t, e)
  {
    Call(Asks(t).value, Answer(NOTHING), false, 0)
  }

  /** An unfinished delivery can make a request, after a nap if need be. */
  lemma CanAsk(steps: seq<Step>, id: nat, thread: string) returns (longer: seq<Step>)
    requires After(steps).Some? && Unfinished(After(steps).value, id, thread)
    ensures steps <= longer && After(longer).Some?
    ensures var c, d := After(steps).value, After(longer).value;
            && id in d.jobs && d.jobs == c.jobs[id := d.jobs[id]]
            && |d.log| > |c.log| && d.log[|d.log| - 1].id == id && d.log[|d.log| - 1].thread == thread
               && d.log[|d.log| - 1].event.Call?
  {
    var c := After(steps).value;
    var t := c.jobs[id].task;
    longer := steps;
    if t.pc.Busy? || t.pc.Settle? {
      var nap := Act(id, Nap(0, POLL_INTERVAL));
      AfterMore(steps, nap);
      longer := steps + [nap];
    }
    var now := After(longer).value.jobs[id].task;
    AfterMore(longer, Act(id, SomeCall(now)));
    longer := longer + [Act(id, SomeCall(now))];
  }

  /** The start at the end of the log does not directly follow its own delivery's idle
      read: another delivery came in between. */
  predicate Intruded(c: Server) {
    c.log != [] &&
    var n := |c.log| - 1;
    && c.log[n].event.Call? && c.log[n].event.request.TurnStart?
    && Latest(c.log[..n], c.log[n].thread).Some? && Latest(c.log[..n], c.log[n].thread).value.id != c.log[n].id
  }

  /** A delivery enters and reads its thread as idle: it is about to start a turn. */
  lemma EntersIdle(steps: seq<Step>, s: Step) returns (longer: seq<Step>)
    requires After(steps).Some? && s.Enter? && Enabled(After(steps).value, s)
    ensures steps + [s] <= longer && After(longer).Some?
    ensures var c, d := After(steps).value, After(longer).value;
            s.id in d.jobs && d.jobs[s.id].task.pc.Start? && d.jobs[s.id].task.thread == s.thread
            && d.jobs == c.jobs[s.id := d.jobs[s.id]]
  {
    AfterMore(steps, s);
    var read := Act(s.id, Call(ThreadRead(s.thread), Answer(NOTHING), false, 0));
    AfterMore(steps + [s], read);
    longer := steps + [s] + [read];
  }

  lemma StartIntrudes(steps: seq<Step>, id: nat) returns (longer: seq<Step>)
    requires After(steps).Some? && id in After(steps).value.jobs && After(steps).value.jobs[id].task.pc.Start?
    requires var c, n := After(steps).value, |After(steps).value.log| - 1;
             n >= 0 && c.log[n].id != id && c.log[n].thread == c.jobs[id].task.thread && c.log[n].event.Call?
    ensures steps <= longer && After(longer).Some? && Intruded(After(longer).value)
  {
    var c := After(steps).value;
    var start := Act(id, SomeCall(c.jobs[id].task));
    AfterMore(steps, start);
    longer := steps + [start];
    var end := After(longer).value;
    assert end.log[..|end.log| - 1] == c.log;
  }

  /** The condition is exact: whenever a delivery enters a thread on which another
      client has an unfinished one, the two can go on so that the start of one follows
      a request of the other. */
  lemma CrossingCanIntrude(steps: seq<Step>, s: Step) returns (longer: seq<Step>)
    requires After(steps).Some? && Enabled(After(steps).value, s) && Crosses(After(steps).value, s)
    ensures steps + [s] <= longer && After(longer).Some? && Intruded(After(longer).value)
  {
    var c := After(steps).value;
    var other :| other in c.jobs && Unfinished(c, other, s.thread) && c.jobs[other].client != s.client;
    var first := EntersIdle(steps, s);
    var second := CanAsk(first, other, s.thread);
    longer := StartIntrudes(second, s.id);
  }

  /** Such a run exists: a second client starts a turn on what it read before the first
      client's delivery asked again. */
  lemma TwoClientsIntrude(thread: string)
    ensures exists steps :: After(steps).Some? && Intruded(After(steps).value)
  {
    var one := Enter(0, 0, thread, "", 0);
    AfterMore([], one);
    assert [] + [one] == [one];
    assert Unfinished(After([one]).value, 0, thread);
    var steps := CrossingCanIntrude([one], Enter(1, 1, thread, "", 0));
  }
}
