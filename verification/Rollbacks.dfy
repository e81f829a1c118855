/** Registrations that bind a name and then fail to persist: they take the name and
    the pending drain back, and with them the owner of some held rows. */
module Rollbacks {
  import opened Wrappers
  import opened Ownership
  import Acks

  /** A session that left while it held the name. */
  predicate Departed(w: World, x: nat, name: string) {
    Holds(w, x, name) && !w.sessions[x].attached
  }

  /** The task will report its row if nobody takes the name again: it is about to
      look its recipient up, is looking, waits for an answer, or keeps trying and is
      not about to come across another session that left with the name. */
  predicate Stays(w: World, t: Job) {
    match t.pc
    case Checking(s, unseen, _) => forall x :: x in unseen && Departed(w, x, t.key.to) ==> x == s
    case Finishing => false
    case Exited => false
    case _ => true
  }

  predicate HasStaying(w: World, k: Key) {
    exists i :: 0 <= i < |w.tasks| && w.tasks[i].key == k && Stays(w, w.tasks[i])
  }

  /** Every held row of the session's name has a task that stays. */
  predicate RowsStay(w: World, s: nat)
    requires s in w.sessions
  {
    forall k :: k in w.rows && IsHeld(w.rows, k) && Some(k.to) == w.sessions[s].principal ==> HasStaying(w, k)
  }

  lemma NobodyHoldsAfter(w: World, s: nat, x: nat)
    requires PhasesOk(w) && OneHolder(w) && CanRegistry(w, s, Persist(false))
    ensures var after, name := AfterRegistry(w, s, Persist(false)), w.sessions[s].principal.value;
            !HoldsAttached(after, x, name) && (Holds(after, x, name) <==> Departed(w, x, name))
  {
    var name := w.sessions[s].principal.value;
    assert PhaseOk(w, s);
    assert HoldsAttached(w, s, name);
    assert HoldsAttached(w, x, name) ==> x == s;
  }

  lemma SteadyAfterIff(w: World, s: nat, t: Job)
    requires PhasesOk(w) && OneHolder(w) && CanRegistry(w, s, Persist(false))
             && Some(t.key.to) == w.sessions[s].principal
    ensures Steady(AfterRegistry(w, s, Persist(false)), t) <==> Stays(w, t)
  {
    forall x
      ensures !HoldsAttached(AfterRegistry(w, s, Persist(false)), x, t.key.to)
      ensures Holds(AfterRegistry(w, s, Persist(false)), x, t.key.to) <==> Departed(w, x, t.key.to)
    {
      NobodyHoldsAfter(w, s, x);
    }
  }

  lemma NothingElseOwns(w: World, s: nat, k: Key)
    requires PhasesOk(w) && OneHolder(w) && CanRegistry(w, s, Persist(false)) && Some(k.to) == w.sessions[s].principal
    ensures var after := AfterRegistry(w, s, Persist(false));
            !HasArrival(after, k) && !Swept(after, k)
  {
    var after := AfterRegistry(w, s, Persist(false));
    assert PhaseOk(w, s);
    forall x | x in after.sessions
      ensures !Arriving(after, x, k)
    {
      NobodyHoldsAfter(w, s, x);
      assert PhaseOk(w, x);
    }
  }

  lemma OwnedAfterIff(w: World, s: nat, k: Key)
    requires PhasesOk(w) && OneHolder(w) && CanRegistry(w, s, Persist(false)) && Some(k.to) == w.sessions[s].principal
    ensures Owned(AfterRegistry(w, s, Persist(false)), k) <==> HasStaying(w, k)
  {
    var after := AfterRegistry(w, s, Persist(false));
    NothingElseOwns(w, s, k);
    forall i | 0 <= i < |w.tasks|
      ensures Answers(after, after.tasks[i], k) <==> w.tasks[i].key == k && Stays(w, w.tasks[i])
    {
      if w.tasks[i].key == k {
        SteadyAfterIff(w, s, w.tasks[i]);
      }
    }
  }

  lemma OthersStayOwned(w: World, s: nat, k: Key)
    requires CanRegistry(w, s, Persist(false)) && Some(k.to) != w.sessions[s].principal && Owned(w, k)
    ensures Owned(AfterRegistry(w, s, Persist(false)), k)
  {
    var after := AfterRegistry(w, s, Persist(false));
    RegistryShrinks(w, s, Persist(false), k.to);
    if HasTask(w, k) {
      TaskStays(w, after, k);
    } else if HasArrival(w, k) {
      var x :| x in w.sessions && Arriving(w, x, k);
      assert Arriving(after, x, k);
    }
  }

  /** A failed registration keeps every held row owned if and only if each held row of
      its name has a task that stays. */
  lemma RollbackKeepsOwnedIff(w: World, s: nat)
    requires Safe(w) && AllOwned(w) && CanRegistry(w, s, Persist(false))
    ensures AllOwned(AfterRegistry(w, s, Persist(false))) <==> RowsStay(w, s)
  {
    forall k | k in w.rows && IsHeld(w.rows, k)
      ensures Owned(AfterRegistry(w, s, Persist(false)), k) <==>
              (Some(k.to) == w.sessions[s].principal ==> HasStaying(w, k))
    {
      if Some(k.to) == w.sessions[s].principal {
        OwnedAfterIff(w, s, k);
      } else {
        OthersStayOwned(w, s, k);
      }
    }
  }

  // -- over whole runs -----------------------------------------------------------------

  ghost predicate OwnedAt(start: World, steps: seq<Step>, n: nat)
    requires n <= |steps|
  {
    Run(start, steps[..n]).Some? && AllOwned(Run(start, steps[..n]).value)
  }

  /** After every step of the run, every held row is owned. */
  ghost predicate OwnedThroughout(start: World, steps: seq<Step>) {
    forall n :: 0 <= n <= |steps| ==> OwnedAt(start, steps, n)
  }

  /** If step `n` is a failed registration, it met no held row without a task that
      stays. */
  ghost predicate GentleAt(start: World, steps: seq<Step>, n: nat)
    requires n < |steps|
  {
    Rollback(steps[n]) ==>
      var w := Run(start, steps[..n]);
      w.Some? && steps[n].s in w.value.sessions && RowsStay(w.value, steps[n].s)
  }

  ghost predicate GentleThroughout(start: World, steps: seq<Step>) {
    forall n :: 0 <= n < |steps| ==> GentleAt(start, steps, n)
  }

  lemma StepOwnedIff(rows: map<Key, Acks.AckState>, nextRecord: nat, steps: seq<Step>, n: nat)
    requires BootsFrom(rows, nextRecord) && Run(Boot(rows, nextRecord), steps).Some? && n < |steps|
    requires OwnedAt(Boot(rows, nextRecord), steps, n)
    ensures OwnedAt(Boot(rows, nextRecord), steps, n + 1) <==> GentleAt(Boot(rows, nextRecord), steps, n)
  {
    var start := Boot(rows, nextRecord);
    RunPrefix(start, steps, n);
    RunPrefix(start, steps, n + 1);
    assert steps[..n + 1][..n] == steps[..n] && steps[..n + 1][n] == steps[n];
    RunLast(start, steps[..n + 1]);
    var w := Run(start, steps[..n]).value;
    RunIsSafe(rows, nextRecord, steps[..n]);
    RunIsNumbered(rows, nextRecord, steps[..n]);
    if Rollback(steps[n]) {
      RollbackKeepsOwnedIff(w, steps[n].s);
    } else {
      StepKeepsOwned(w, steps[n]);
    }
  }

  lemma {:induction false} GentleIsOwned(rows: map<Key, Acks.AckState>, nextRecord: nat, steps: seq<Step>, n: nat)
    requires BootsFrom(rows, nextRecord) && Run(Boot(rows, nextRecord), steps).Some? && n <= |steps|
    requires GentleThroughout(Boot(rows, nextRecord), steps)
    ensures OwnedAt(Boot(rows, nextRecord), steps, n)
  {
    if n > 0 {
      GentleIsOwned(rows, nextRecord, steps, n - 1);
      assert GentleAt(Boot(rows, nextRecord), steps, n - 1);
      StepOwnedIff(rows, nextRecord, steps, n - 1);
    } else {
      assert steps[..0] == [];
    }
  }

  /** A run keeps every held row owned throughout if and only if none of its failed
      registrations met a held row of its name without a task that stays. */
  lemma {:induction false} OwnedThroughoutIff(rows: map<Key, Acks.AckState>, nextRecord: nat, steps: seq<Step>)
    requires BootsFrom(rows, nextRecord) && Run(Boot(rows, nextRecord), steps).Some?
    ensures OwnedThroughout(Boot(rows, nextRecord), steps) <==> GentleThroughout(Boot(rows, nextRecord), steps)
  {
    var start := Boot(rows, nextRecord);
    if OwnedThroughout(start, steps) {
      forall n | 0 <= n < |steps|
        ensures GentleAt(start, steps, n)
      {
        assert OwnedAt(start, steps, n) && OwnedAt(start, steps, n + 1);
        StepOwnedIff(rows, nextRecord, steps, n);
      }
    }
    if GentleThroughout(start, steps) {
      forall n | 0 <= n <= |steps|
        ensures OwnedAt(start, steps, n)
      {
        GentleIsOwned(rows, nextRecord, steps, n);
      }
    }
  }

  // -- a row without an owner can be left behind for good --------------------------------

  /** The row is held and nothing that exists will ever report it. */
  predicate Abandoned(w: World, k: Key) {
    && IsHeld(w.rows, k) && !HasArrival(w, k) && !Swept(w, k)
    && forall i :: 0 <= i < |w.tasks| && w.tasks[i].key == k ==> w.tasks[i].pc.Exited?
  }

  /** The task has exited, or meets a session that makes it exit. */
  predicate Doomed(w: World, t: Job) {
    t.pc.Exited? || (t.pc.Checking? && exists x :: x in t.pc.unseen && Holds(w, x, t.key.to) && x != t.pc.session)
  }

  ghost predicate DoomedFrom(w: World, k: Key, n: nat) {
    forall i :: 0 <= i < |w.tasks| && w.tasks[i].key == k ==>
      if i < n then w.tasks[i].pc.Exited? else Doomed(w, w.tasks[i])
  }

  lemma {:induction false} AllExit(w: World, k: Key, n: nat) returns (more: seq<Step>, end: World)
    requires DoomedFrom(w, k, n) && n <= |w.tasks|
    ensures Run(w, more) == Some(end) && forall e :: e in more ==> e.Deliver?
    ensures end == w.(tasks := end.tasks) && |end.tasks| == |w.tasks|
    ensures forall i :: 0 <= i < |end.tasks| && end.tasks[i].key == k ==> end.tasks[i].pc.Exited?
    decreases |w.tasks| - n
  {
    if n == |w.tasks| {
      more, end := [], w;
    } else if w.tasks[n].key != k || w.tasks[n].pc.Exited? {
      more, end := AllExit(w, k, n + 1);
    } else {
      assert Doomed(w, w.tasks[n]);
      var x :| x in w.tasks[n].pc.unseen && Holds(w, x, w.tasks[n].key.to) && x != w.tasks[n].pc.session;
      var hit := Deliver(n, Hit(x, false));
      var next := Next(w, hit);
      forall i | 0 <= i < |next.tasks| && next.tasks[i].key == k
        ensures if i < n + 1 then next.tasks[i].pc.Exited? else Doomed(next, next.tasks[i])
      {
        assert i > n ==> Doomed(w, w.tasks[i]);
      }
      more, end := AllExit(next, k, n + 1);
      FirstStep(w, hit, more);
      more := [hit] + more;
    }
  }

  lemma {:induction false} FirstStep(w: World, e: Step, more: seq<Step>)
    requires Can(w, e) && Run(Next(w, e), more).Some?
    ensures Run(w, [e] + more) == Run(Next(w, e), more)
  {
    var all := [e] + more;
    if more == [] {
      assert all[..0] == [] && Run(w, []) == Some(w);
    } else {
      var n := |more| - 1;
      RunLast(Next(w, e), more);
      FirstStep(w, e, more[..n]);
      assert all[..n + 1] == [e] + more[..n] && all[n + 1] == more[n];
    }
  }

  /** If a failed registration meets a held row of its name without a task that
      stays, the row can end up with nothing that will ever report it. */
  lemma RollbackAbandons(w: World, s: nat, k: Key) returns (more: seq<Step>, end: World)
    requires Safe(w) && Tidy(w) && CanRegistry(w, s, Persist(false))
    requires k in w.rows && IsHeld(w.rows, k) && Some(k.to) == w.sessions[s].principal && !HasStaying(w, k)
    ensures Run(AfterRegistry(w, s, Persist(false)), more) == Some(end) && forall e :: e in more ==> e.Deliver?
    ensures Abandoned(end, k)
  {
    var after := AfterRegistry(w, s, Persist(false));
    forall i | 0 <= i < |after.tasks| && after.tasks[i].key == k
      ensures Doomed(after, after.tasks[i])
    {
      assert TidyTask(w, w.tasks[i]) && !Stays(w, w.tasks[i]);
      if w.tasks[i].pc.Checking? {
        var x :| x in w.tasks[i].pc.unseen && Departed(w, x, k.to) && x != w.tasks[i].pc.session;
        NobodyHoldsAfter(w, s, x);
      }
    }
    more, end := AllExit(after, k, 0);
    NothingElseOwns(w, s, k);
    assert forall x :: x in end.sessions ==> !Arriving(after, x, k);
  }
}
