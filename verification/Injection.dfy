/** How often one message can reach one recipient, over whole runs of the broker: a
    task gives it at most once, and a second task exists only where a drain lists a
    row that some earlier task can still serve. */
module Injection {
  import opened Wrappers
  import opened Ownership
  import Acks

  // -- one gift per task ------------------------------------------------------------

  /** Tasks that gave the row's message. */
  function Givers(tasks: seq<Job>, k: Key): nat {
    if tasks == [] then 0
    else
      var last := tasks[|tasks| - 1];
      Givers(tasks[..|tasks| - 1], k) + if last.key == k && last.given then 1 else 0
  }

  lemma {:induction false} GiversJoin(a: seq<Job>, b: seq<Job>, k: Key)
    requires forall i :: 0 <= i < |b| ==> !b[i].given
    ensures Givers(a + b, k) == Givers(a, k)
  {
    if b == [] {
      assert a + b == a;
    } else {
      GiversJoin(a, b[..|b| - 1], k);
      assert (a + b)[..|a + b| - 1] == a + b[..|b| - 1];
    }
  }

  lemma {:induction false} GiversUpdate(tasks: seq<Job>, i: nat, t: Job, k: Key)
    requires i < |tasks| && t.key == tasks[i].key
    ensures Givers(tasks[i := t], k) == Givers(tasks, k) + (if t.key == k && t.given then 1 else 0)
              - (if t.key == k && tasks[i].given then 1 else 0)
  {
    var n := |tasks| - 1;
    if i < n {
      GiversUpdate(tasks[..n], i, t, k);
      assert tasks[i := t][..n] == tasks[..n][i := t];
    } else {
      assert tasks[i := t][..n] == tasks[..n];
    }
  }

  lemma {:induction false} GiversOfOne(tasks: seq<Job>, k: Key)
    requires forall i, j :: 0 <= i < j < |tasks| ==>
             !(tasks[i].key == k && tasks[i].given && tasks[j].key == k && tasks[j].given)
    ensures Givers(tasks, k) <= 1
    ensures Givers(tasks, k) == 1 ==> exists i :: 0 <= i < |tasks| && tasks[i].key == k && tasks[i].given
  {
    if tasks != [] {
      var n := |tasks| - 1;
      GiversOfOne(tasks[..n], k);
      if Givers(tasks[..n], k) == 1 {
        var i :| 0 <= i < n && tasks[..n][i].key == k && tasks[..n][i].given;
        assert tasks[i].given;
      }
    }
  }

  lemma {:induction false} GiversOfTwo(tasks: seq<Job>, k: Key, i: nat, j: nat)
    requires i < j < |tasks| && tasks[i].key == tasks[j].key == k && tasks[i].given && tasks[j].given
    ensures Givers(tasks, k) >= 2
  {
    var n := |tasks| - 1;
    if j < n {
      GiversOfTwo(tasks[..n], k, i, j);
    } else {
      GiversOfSome(tasks[..n], k, i);
    }
  }

  lemma {:induction false} GiversOfSome(tasks: seq<Job>, k: Key, i: nat)
    requires i < |tasks| && tasks[i].key == k && tasks[i].given
    ensures Givers(tasks, k) >= 1
  {
    if i < |tasks| - 1 {
      GiversOfSome(tasks[..|tasks| - 1], k, i);
    }
  }

  predicate Counted(w: World, k: Key) {
    w.injected[k] == Givers(w.tasks, k)
  }

  lemma StepKeepsCount(w: World, e: Step, k: Key)
    requires Can(w, e) && Counted(w, k)
    ensures Counted(Next(w, e), k)
  {
    var after := Next(w, e);
    match e
    case Deliver(i, a) => GiversUpdate(w.tasks, i, after.tasks[i], k);
    case Registry(s, a) =>
      if a.Spawn? {
        GiversJoin(w.tasks, after.tasks[|w.tasks|..], k);
        assert after.tasks == w.tasks + after.tasks[|w.tasks|..];
      }
    case Message(m) =>
      if m.Send? {
        GiversJoin(w.tasks, SpawnedFor(m.held, w.nextRecord), k);
      }
    case Window(_) =>
  }

  /** A message was given to a recipient as often as there are tasks that gave it,
      each of them once. */
  lemma {:induction false} GivenOncePerTask(rows: map<Key, Acks.AckState>, nextRecord: nat, steps: seq<Step>, k: Key)
    requires Run(Boot(rows, nextRecord), steps).Some?
    ensures Counted(Run(Boot(rows, nextRecord), steps).value, k)
  {
    if steps != [] {
      RunLast(Boot(rows, nextRecord), steps);
      GivenOncePerTask(rows, nextRecord, steps[..|steps| - 1], k);
      StepKeepsCount(Run(Boot(rows, nextRecord), steps[..|steps| - 1]).value, steps[|steps| - 1], k);
    }
  }

  // -- tasks that can still give -----------------------------------------------------

  /** The session holds the name, or is there and could take it. */
  predicate MayHold(w: World, x: nat, name: string) {
    x in w.sessions && (w.sessions[x].attached || w.sessions[x].principal == Some(name))
  }

  /** The task is not done, and some session it may still come to serve is there. */
  predicate Viable(w: World, t: Job) {
    match t.pc
    case New => true
    case InCall => true
    case Attempt(_) => true
    case Looking(unseen, _) => exists x :: x in unseen && MayHold(w, x, t.key.to)
    case Loop(s) => s in w.sessions && w.sessions[s].attached
    case Checking(s, unseen, _) => s in unseen && MayHold(w, s, t.key.to)
    case Finishing => false
    case Exited => false
  }

  predicate Active(w: World, t: Job) {
    t.given || Viable(w, t)
  }

  /** The step is a drain that lists a row some task can still serve. */
  predicate Overlaps(w: World, e: Step)
    requires Can(w, e)
  {
    e.Registry? && e.r.List? && w.sessions[e.s].phase.Listing? &&
    exists i :: 0 <= i < |w.tasks| && w.tasks[i].key.rec in e.r.recs
      && Some(w.tasks[i].key.to) == w.sessions[e.s].principal
      && Viable(w, w.tasks[i])
  }

  /** Scans and tasks only know sessions that exist. */
  predicate KnownTask(w: World, t: Job) {
    && (t.pc.Looking? || t.pc.Checking? ==> forall x :: x in t.pc.unseen ==> x in w.sessions)
    && (t.pc.Loop? || t.pc.Checking? || t.pc.Attempt? ==> t.pc.session in w.sessions)
  }

  predicate Known(w: World) {
    forall i :: 0 <= i < |w.tasks| ==> KnownTask(w, w.tasks[i])
  }

  lemma SessionsStay(w: World, e: Step, x: nat)
    requires Can(w, e) && x in w.sessions
    ensures x in Next(w, e).sessions
  {
  }

  lemma StepKeepsKnown(w: World, e: Step)
    requires Can(w, e) && Known(w)
    ensures Known(Next(w, e))
  {
    var after := Next(w, e);
    forall x | x in w.sessions
      ensures x in after.sessions
    {
      SessionsStay(w, e, x);
    }
    forall i | 0 <= i < |after.tasks|
      ensures KnownTask(after, after.tasks[i])
    {
      assert i < |w.tasks| ==> KnownTask(w, w.tasks[i]);
    }
  }

  lemma MayHoldShrinks(w: World, s: nat, a: RegistryAct, x: nat, name: string)
    requires CanRegistry(w, s, a) && PhasesOk(w) && x in w.sessions && MayHold(AfterRegistry(w, s, a), x, name)
    ensures MayHold(w, x, name)
  {
    assert PhaseOk(w, x);
  }

  lemma QuietKeepsViable(w: World, after: World, t: Job)
    requires after.sessions == w.sessions && Viable(after, t)
    ensures Viable(w, t)
  {
    if t.pc.Looking? {
      var x :| x in t.pc.unseen && MayHold(after, x, t.key.to);
      assert MayHold(w, x, t.key.to);
    }
  }

  lemma RegistryShrinksViable(w: World, s: nat, a: RegistryAct, t: Job)
    requires CanRegistry(w, s, a) && PhasesOk(w) && KnownTask(w, t) && Viable(AfterRegistry(w, s, a), t)
    ensures Viable(w, t)
  {
    var after := AfterRegistry(w, s, a);
    if t.pc.Looking? {
      var x :| x in t.pc.unseen && MayHold(after, x, t.key.to);
      MayHoldShrinks(w, s, a, x, t.key.to);
    } else if t.pc.Checking? {
      MayHoldShrinks(w, s, a, t.pc.session, t.key.to);
    }
  }

  /** What cannot give any more never can again. */
  lemma ViableShrinks(w: World, e: Step, t: Job)
    requires Can(w, e) && PhasesOk(w) && KnownTask(w, t) && Viable(Next(w, e), t)
    ensures Viable(w, t)
  {
    if e.Registry? {
      RegistryShrinksViable(w, e.s, e.r, t);
    } else {
      QuietKeepsViable(w, Next(w, e), t);
    }
  }

  lemma MovedWasViable(w: World, i: nat, a: TaskAct)
    requires CanDeliver(w, i, a) && KnownTask(w, w.tasks[i])
             && Active(AfterDeliver(w, i, a), AfterDeliver(w, i, a).tasks[i])
    ensures Active(w, w.tasks[i])
  {
  }

  lemma StepKeepsInactive(w: World, e: Step, i: nat)
    requires Can(w, e) && PhasesOk(w) && i < |w.tasks| && KnownTask(w, w.tasks[i])
    ensures var after := Next(w, e);
            i < |after.tasks| && after.tasks[i].key == w.tasks[i].key
            && (Active(after, after.tasks[i]) ==> Active(w, w.tasks[i]))
  {
    if e.Deliver? && e.i == i && Active(Next(w, e), Next(w, e).tasks[i]) {
      MovedWasViable(w, i, e.t);
    } else if Viable(Next(w, e), w.tasks[i]) {
      ViableShrinks(w, e, w.tasks[i]);
    }
  }

  /** A task that is not active never gives the message, however the run goes on. */
  lemma {:induction false} InactiveStays(w: World, more: seq<Step>, i: nat)
    requires Safe(w) && Known(w) && i < |w.tasks| && !Active(w, w.tasks[i]) && Run(w, more).Some?
    ensures var end := Run(w, more).value;
            Safe(end) && Known(end) && i < |end.tasks| && !end.tasks[i].given && !Active(end, end.tasks[i])
  {
    if more != [] {
      var n := |more| - 1;
      RunLast(w, more);
      InactiveStays(w, more[..n], i);
      var v := Run(w, more[..n]).value;
      StepKeepsSafe(v, more[n]);
      StepKeepsKnown(v, more[n]);
      assert KnownTask(v, v.tasks[i]);
      StepKeepsInactive(v, more[n], i);
    }
  }

  // -- at most once, without overlapping drains ---------------------------------------------

  /** No row has two tasks that gave its message or still can. */
  predicate OneActive(w: World) {
    forall i, j :: 0 <= i < j < |w.tasks| && w.tasks[i].key == w.tasks[j].key ==>
      !(Active(w, w.tasks[i]) && Active(w, w.tasks[j]))
  }

  predicate Quiet(w: World, k: Key) {
    forall i :: 0 <= i < |w.tasks| && w.tasks[i].key == k ==> !Active(w, w.tasks[i])
  }

  /** The rows a drain still has to spawn for have no active task. */
  predicate TodoQuiet(w: World, s: nat) {
    InDrain(w, s) ==> forall r :: r in w.sessions[s].phase.todo ==> Quiet(w, Key(r, w.sessions[s].principal.value))
  }

  predicate TodosQuiet(w: World) {
    forall s :: s in w.sessions ==> TodoQuiet(w, s)
  }

  lemma QuietStays(w: World, e: Step, k: Key)
    requires Can(w, e) && PhasesOk(w) && Known(w) && Quiet(w, k)
    requires forall i :: |w.tasks| <= i < |Next(w, e).tasks| ==> Next(w, e).tasks[i].key != k
    ensures Quiet(Next(w, e), k)
  {
    var after := Next(w, e);
    forall i | 0 <= i < |after.tasks| && after.tasks[i].key == k
      ensures !Active(after, after.tasks[i])
    {
      assert KnownTask(w, w.tasks[i]);
      StepKeepsInactive(w, e, i);
    }
  }

  /** New tasks of the step are for rows without an active task, and for one each. */
  predicate SpawnsQuietly(w: World, after: World) {
    && |w.tasks| <= |after.tasks|
    && (forall i :: |w.tasks| <= i < |after.tasks| ==> Quiet(w, after.tasks[i].key))
    && (forall i, j :: |w.tasks| <= i < j < |after.tasks| ==> after.tasks[i].key != after.tasks[j].key)
  }

  lemma StepSpawnsQuietly(w: World, e: Step)
    requires Can(w, e) && Numbered(w) && TodosQuiet(w)
    ensures SpawnsQuietly(w, Next(w, e))
  {
    if e.Registry? && e.r.Spawn? {
      assert TodoQuiet(w, e.s);
    } else if e.Message? && e.m.Send? {
      forall i, j | |w.tasks| <= i < j < |Next(w, e).tasks|
        ensures Next(w, e).tasks[i].key != Next(w, e).tasks[j].key
      {
        assert (e.m.held + e.m.absent)[i - |w.tasks|] != (e.m.held + e.m.absent)[j - |w.tasks|];
      }
    }
  }

  lemma StepKeepsOneActive(w: World, e: Step)
    requires Can(w, e) && PhasesOk(w) && Known(w) && Numbered(w) && TodosQuiet(w) && OneActive(w)
    ensures OneActive(Next(w, e))
  {
    var after := Next(w, e);
    StepSpawnsQuietly(w, e);
    forall i, j | 0 <= i < j < |after.tasks| && after.tasks[i].key == after.tasks[j].key
      ensures !(Active(after, after.tasks[i]) && Active(after, after.tasks[j]))
    {
      if i < |w.tasks| {
        assert KnownTask(w, w.tasks[i]);
        StepKeepsInactive(w, e, i);
        if j < |w.tasks| {
          assert KnownTask(w, w.tasks[j]);
          StepKeepsInactive(w, e, j);
        } else {
          assert Quiet(w, after.tasks[j].key);
        }
      }
    }
  }

  lemma ListedIsQuiet(w: World, s: nat, recs: seq<nat>, r: nat)
    requires CanRegistry(w, s, List(recs)) && Tidy(w) && w.sessions[s].phase.Listing?
             && !Overlaps(w, Registry(s, List(recs))) && r in recs
    ensures Quiet(w, Key(r, w.sessions[s].principal.value))
  {
    var k := Key(r, w.sessions[s].principal.value);
    forall i | 0 <= i < |w.tasks| && w.tasks[i].key == k
      ensures !Active(w, w.tasks[i])
    {
      assert TidyTask(w, w.tasks[i]) && IsHeld(w.rows, k);
    }
  }

  /** A drain's remaining rows are not spawned for by anyone else. */
  lemma NobodyElseSpawns(w: World, e: Step, s: nat, r: nat, i: nat)
    requires Can(w, e) && PhasesOk(w) && OneHolder(w) && Numbered(w) && InDrain(w, s) && InDrain(Next(w, e), s)
    requires r in w.sessions[s].phase.todo && r in Next(w, e).sessions[s].phase.todo
             && |w.tasks| <= i < |Next(w, e).tasks|
    ensures Next(w, e).tasks[i].key != Key(r, w.sessions[s].principal.value)
  {
    assert PhaseOk(w, s) && TodoOk(w, s);
    if e.Registry? {
      assert PhaseOk(w, e.s);
      if e.s != s {
        assert HoldsAttached(w, s, w.sessions[s].principal.value);
        assert HoldsAttached(w, e.s, w.sessions[e.s].principal.value);
      }
    }
  }

  lemma RowStaysQuiet(w: World, e: Step, s: nat, r: nat)
    requires Can(w, e) && PhasesOk(w) && OneHolder(w) && Known(w) && Numbered(w) && TodoQuiet(w, s)
    requires InDrain(w, s) && InDrain(Next(w, e), s) && r in w.sessions[s].phase.todo
             && r in Next(w, e).sessions[s].phase.todo
    ensures Quiet(Next(w, e), Key(r, w.sessions[s].principal.value))
  {
    var k := Key(r, w.sessions[s].principal.value);
    forall i | |w.tasks| <= i < |Next(w, e).tasks|
      ensures Next(w, e).tasks[i].key != k
    {
      NobodyElseSpawns(w, e, s, r, i);
    }
    QuietStays(w, e, k);
  }

  lemma ListStartsQuiet(w: World, s: nat, recs: seq<nat>)
    requires CanRegistry(w, s, List(recs)) && PhasesOk(w) && Known(w) && Tidy(w)
             && !Overlaps(w, Registry(s, List(recs)))
    ensures TodoQuiet(AfterRegistry(w, s, List(recs)), s)
  {
    var e := Registry(s, List(recs));
    if InDrain(Next(w, e), s) {
      forall r | r in recs
        ensures Quiet(Next(w, e), Key(r, w.sessions[s].principal.value))
      {
        ListedIsQuiet(w, s, recs, r);
        QuietStays(w, e, Key(r, w.sessions[s].principal.value));
      }
    }
  }

  /** A session that drains after the step drained before it, the same rows or fewer,
      unless the step was its listing. */
  lemma DrainGoesOn(w: World, e: Step, s: nat)
    requires Can(w, e) && InDrain(Next(w, e), s) && !(e.Registry? && e.s == s && e.r.List?)
    ensures InDrain(w, s) && Next(w, e).sessions[s].principal == w.sessions[s].principal
    ensures forall r :: r in Next(w, e).sessions[s].phase.todo ==> r in w.sessions[s].phase.todo
  {
    if e.Registry? {
      var todo := Next(w, e).sessions[s].phase.todo;
      assert e.s == s ==> e.r.Spawn? && todo == w.sessions[s].phase.todo[1..];
    }
  }

  lemma TodoStaysQuiet(w: World, e: Step, s: nat)
    requires Can(w, e) && PhasesOk(w) && OneHolder(w) && Known(w) && Numbered(w) && Tidy(w) && TodosQuiet(w)
             && !Overlaps(w, e)
    requires s in Next(w, e).sessions
    ensures TodoQuiet(Next(w, e), s)
  {
    if e.Registry? && e.s == s && e.r.List? {
      ListStartsQuiet(w, s, e.r.recs);
    } else if InDrain(Next(w, e), s) {
      DrainGoesOn(w, e, s);
      assert TodoQuiet(w, s);
      forall r | r in Next(w, e).sessions[s].phase.todo
        ensures Quiet(Next(w, e), Key(r, w.sessions[s].principal.value))
      {
        RowStaysQuiet(w, e, s, r);
      }
    }
  }

  /** None of the run's drains lists a row that some task can still serve. */
  ghost predicate NoOverlap(start: World, steps: seq<Step>) {
    forall n :: 0 <= n < |steps| ==> NoOverlapAt(start, steps, n)
  }

  ghost predicate NoOverlapAt(start: World, steps: seq<Step>, n: nat)
    requires n < |steps|
  {
    var w := Run(start, steps[..n]);
    w.Some? && Can(w.value, steps[n]) ==> !Overlaps(w.value, steps[n])
  }

  ghost predicate Single(w: World) {
    Known(w) && TodosQuiet(w) && OneActive(w)
  }

  lemma {:induction false} RunIsSingle(rows: map<Key, Acks.AckState>, nextRecord: nat, steps: seq<Step>)
    requires BootsFrom(rows, nextRecord) && Run(Boot(rows, nextRecord), steps).Some?
             && NoOverlap(Boot(rows, nextRecord), steps)
    ensures Single(Run(Boot(rows, nextRecord), steps).value)
  {
    if steps != [] {
      var start, n := Boot(rows, nextRecord), |steps| - 1;
      RunLast(start, steps);
      assert NoOverlapAt(start, steps, n);
      forall m | 0 <= m < n
        ensures NoOverlapAt(start, steps[..n], m)
      {
        assert NoOverlapAt(start, steps, m) && steps[..n][..m] == steps[..m];
      }
      RunIsSingle(rows, nextRecord, steps[..n]);
      var w := Run(start, steps[..n]).value;
      RunIsSafe(rows, nextRecord, steps[..n]);
      RunIsNumbered(rows, nextRecord, steps[..n]);
      RunIsTidy(rows, nextRecord, steps[..n]);
      StepKeepsKnown(w, steps[n]);
      StepKeepsOneActive(w, steps[n]);
      forall s | s in Next(w, steps[n]).sessions
        ensures TodoQuiet(Next(w, steps[n]), s)
      {
        TodoStaysQuiet(w, steps[n], s);
      }
    }
  }

  /** At most once per record: over every run whose drains list no row that some task
      can still serve, no recipient is given a message twice, through any number of
      sessions, tasks, retries and handovers. */
  lemma {:induction false} InjectedOnce(rows: map<Key, Acks.AckState>, nextRecord: nat, steps: seq<Step>, k: Key)
    requires BootsFrom(rows, nextRecord) && Run(Boot(rows, nextRecord), steps).Some?
             && NoOverlap(Boot(rows, nextRecord), steps)
    ensures Run(Boot(rows, nextRecord), steps).value.injected[k] <= 1
  {
    RunIsSingle(rows, nextRecord, steps);
    GivenOncePerTask(rows, nextRecord, steps, k);
    GiversOfOne(Run(Boot(rows, nextRecord), steps).value.tasks, k);
  }
}
