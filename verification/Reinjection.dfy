/** Where drains overlap, a message can be given twice: from every reachable world in
    which a drain lists a row that an earlier task can still serve, the broker can go
    on so that both tasks give the message, without any failure of the store. */
module Reinjection {
  import opened Wrappers
  import opened Ownership
  import opened Injection
  import Acks

  /** The steps lead there, none of them a failed registration. */
  ghost predicate Leads(w: World, more: seq<Step>, end: World) {
    Run(w, more) == Some(end) && forall e :: e in more ==> !Rollback(e)
  }

  lemma {:induction false} LeadsOn(w: World, a: seq<Step>, v: World, b: seq<Step>, u: World)
    requires Leads(w, a, v) && Leads(v, b, u)
    ensures Leads(w, a + b, u)
  {
    if b == [] {
      assert a + b == a;
    } else {
      var n := |b| - 1;
      RunLast(v, b);
      LeadsOn(w, a, v, b[..n], Run(v, b[..n]).value);
      assert (a + b)[..|a + b| - 1] == a + b[..n];
    }
  }

  lemma One(w: World, e: Step)
    requires Can(w, e) && !Rollback(e)
    ensures Leads(w, [e], Next(w, e))
  {
    assert [e][..0] == [] && Run(w, []) == Some(w);
  }

  lemma OneThen(w: World, e: Step, b: seq<Step>, u: World)
    requires Can(w, e) && !Rollback(e) && Leads(Next(w, e), b, u)
    ensures Leads(w, [e] + b, u)
  {
    One(w, e);
    LeadsOn(w, [e], Next(w, e), b, u);
  }

  lemma {:induction false} RunKeepsSafe(w: World, more: seq<Step>)
    requires Safe(w) && Run(w, more).Some?
    ensures Safe(Run(w, more).value)
  {
    if more != [] {
      RunLast(w, more);
      RunKeepsSafe(w, more[..|more| - 1]);
      StepKeepsSafe(Run(w, more[..|more| - 1]).value, more[|more| - 1]);
    }
  }

  lemma {:induction false} RunKeepsCount(w: World, more: seq<Step>, k: Key)
    requires Counted(w, k) && Run(w, more).Some?
    ensures Counted(Run(w, more).value, k)
  {
    if more != [] {
      RunLast(w, more);
      RunKeepsCount(w, more[..|more| - 1], k);
      StepKeepsCount(Run(w, more[..|more| - 1]).value, more[|more| - 1], k);
    }
  }

  /** The tasks so far are as they were, and the same sessions are attached. */
  predicate Kept(w: World, end: World) {
    && w.tasks <= end.tasks
    && end.sessions.Keys == w.sessions.Keys
    && forall x :: x in w.sessions ==> end.sessions[x].attached == w.sessions[x].attached
  }

  /** Only this session has changed. */
  predicate OnlySession(w: World, end: World, s: nat) {
    end.sessions.Keys == w.sessions.Keys && forall x :: x in w.sessions && x != s ==> end.sessions[x] == w.sessions[x]
  }

  // -- bringing a session to hold a name ---------------------------------------------------

  lemma KeptOn(w: World, v: World, u: World)
    requires Kept(w, v) && Kept(v, u)
    ensures Kept(w, u)
  {
    assert forall x :: x in w.sessions ==> x in v.sessions.Keys;
  }

  /** How much of a claim is left. */
  function Unseen(w: World): nat {
    if w.lock.Some? && InClaim(w, w.lock.value) then |w.sessions[w.lock.value].phase.unseen| + 1 else 0
  }

  lemma UnlockStep(w: World) returns (e: Step)
    requires PhasesOk(w) && w.lock.Some?
    ensures Can(w, e) && !Rollback(e) && Kept(w, Next(w, e)) && Unseen(Next(w, e)) < Unseen(w)
  {
    var s := w.lock.value;
    assert InClaim(w, s);
    var unseen := w.sessions[s].phase.unseen;
    if unseen == {} {
      e := Registry(s, Bind);
    } else {
      var x :| x in unseen;
      e := Registry(s, if Holds(w, x, w.sessions[s].phase.name) then Deny(x) else Pass(x));
    }
  }

  /** A claim in progress can come to its end. */
  lemma {:induction false} Unlocks(w: World) returns (more: seq<Step>, end: World)
    requires Safe(w)
    ensures Leads(w, more, end) && Kept(w, end) && end.lock.None?
    decreases Unseen(w)
  {
    if w.lock.None? {
      more, end := [], w;
    } else {
      var e := UnlockStep(w);
      StepKeepsSafe(w, e);
      more, end := Unlocks(Next(w, e));
      OneThen(w, e, more, end);
      KeptOn(w, Next(w, e), end);
      more := [e] + more;
    }
  }

  lemma {:induction false} AsSeq(s: set<nat>) returns (r: seq<nat>)
    ensures NoRepeats(r) && forall x :: x in r <==> x in s
  {
    if s == {} {
      r := [];
    } else {
      var x :| x in s;
      var rest := AsSeq(s - {x});
      r := [x] + rest;
    }
  }

  lemma ListExists(rows: map<Key, Acks.AckState>, name: string) returns (recs: seq<nat>)
    ensures ListsHeld(rows, name, recs)
  {
    recs := AsSeq(set k | k in rows && rows[k] == Acks.Held && k.to == name :: k.rec);
  }

  function Distance(x: Session): nat {
    match x.phase
    case Persisting => 4
    case Listing => 3
    case Draining(_) => 2
    case _ => if x.principal.Some? then 1 else 0
  }

  function Todo(x: Session): nat {
    if x.phase.Draining? then |x.phase.todo| else 0
  }

  predicate Free(w: World, s: nat) {
    AtRest(w, s) && w.sessions[s].principal.None?
  }

  lemma RestStep(w: World, s: nat) returns (e: Step)
    requires PhasesOk(w) && w.lock.None? && s in w.sessions && w.sessions[s].attached && !Free(w, s)
    ensures Can(w, e) && !Rollback(e) && Kept(w, Next(w, e)) && OnlySession(w, Next(w, e), s) && Next(w, e).lock.None?
    ensures var x, y := w.sessions[s], Next(w, e).sessions[s];
            Distance(y) < Distance(x) || (Distance(y) == Distance(x) && Todo(y) < Todo(x))
  {
    assert PhaseOk(w, s);
    match w.sessions[s].phase {
      case Idle => e := Registry(s, Deregister);
      case Persisting => e := Registry(s, Persist(true));
      case Listing =>
        var recs := ListExists(w.rows, w.sessions[s].principal.value);
        e := Registry(s, List(recs));
      case Draining(todo) => e := Registry(s, if todo == [] then Settle else Spawn);
      case _ =>
    }
  }

  /** An attached session that is not claiming can finish and give its name up. */
  lemma {:induction false} Rests(w: World, s: nat) returns (more: seq<Step>, end: World)
    requires Safe(w) && w.lock.None? && s in w.sessions && w.sessions[s].attached
    ensures Leads(w, more, end) && Kept(w, end) && OnlySession(w, end, s) && end.lock.None? && Free(end, s)
    decreases Distance(w.sessions[s]), Todo(w.sessions[s])
  {
    if Free(w, s) {
      more, end := [], w;
    } else {
      var e := RestStep(w, s);
      StepKeepsSafe(w, e);
      var v := Next(w, e);
      more, end := Rests(v, s);
      OneThen(w, e, more, end);
      KeptOn(w, v, end);
      OnlyOn(w, v, end, s);
      more := [e] + more;
    }
  }

  lemma OnlyOn(w: World, v: World, u: World, s: nat)
    requires OnlySession(w, v, s) && OnlySession(v, u, s)
    ensures OnlySession(w, u, s)
  {
    assert forall x :: x in w.sessions ==> x in v.sessions.Keys;
  }

  /** A session at rest without a name holds nothing that was not held before. */
  lemma RestFrees(w: World, end: World, s: nat, name: string)
    requires OnlySession(w, end, s) && Free(end, s) && OneHolder(w)
    ensures HoldsAttached(w, s, name) || !HeldName(w, name) ==> !HeldName(end, name)
  {
    forall x | x in end.sessions && HoldsAttached(end, x, name)
      ensures x in w.sessions && HoldsAttached(w, x, name) && x != s
    {
      assert x in w.sessions.Keys;
    }
  }

  /** A name can be given up by whoever holds it. */
  lemma Frees(w: World, name: string) returns (more: seq<Step>, end: World)
    requires Safe(w) && w.lock.None?
    ensures Leads(w, more, end) && Kept(w, end) && end.lock.None? && !HeldName(end, name)
  {
    if HeldName(w, name) {
      var y :| y in w.sessions && HoldsAttached(w, y, name);
      more, end := Rests(w, y);
      RestFrees(w, end, y, name);
    } else {
      more, end := [], w;
    }
  }

  /** A claim that will find nobody. */
  predicate Winning(w: World, s: nat, name: string) {
    && InClaim(w, s) && w.sessions[s].phase.name == name && !HeldName(w, name)
    && w.sessions[s].attached && w.sessions[s].phase.unseen <= Attached(w)
  }

  lemma PassStep(w: World, s: nat, name: string, x: nat)
    requires Winning(w, s, name) && x in w.sessions[s].phase.unseen
    ensures CanRegistry(w, s, Pass(x))
    ensures var v := Next(w, Registry(s, Pass(x)));
            Kept(w, v) && Winning(v, s, name) && v.sessions[s].phase.unseen == w.sessions[s].phase.unseen - {x}
  {
    assert x in Attached(w) && !HoldsAttached(w, x, name);
    var v := Next(w, Registry(s, Pass(x)));
    forall y | y in v.sessions
      ensures HoldsAttached(v, y, name) <==> HoldsAttached(w, y, name)
    {
    }
    assert Attached(v) == Attached(w);
  }

  lemma {:induction false} Passes(w: World, s: nat, name: string) returns (more: seq<Step>, end: World)
    requires Winning(w, s, name)
    ensures Leads(w, more, end) && Kept(w, end) && HoldsAttached(end, s, name)
    decreases w.sessions[s].phase.unseen
  {
    if w.sessions[s].phase.unseen == {} {
      One(w, Registry(s, Bind));
      more, end := [Registry(s, Bind)], Next(w, Registry(s, Bind));
    } else {
      var x :| x in w.sessions[s].phase.unseen;
      var e := Registry(s, Pass(x));
      PassStep(w, s, name, x);
      more, end := Passes(Next(w, e), s, name);
      OneThen(w, e, more, end);
      KeptOn(w, Next(w, e), end);
      more := [e] + more;
    }
  }

  lemma Claims(w: World, s: nat, name: string) returns (more: seq<Step>, end: World)
    requires w.lock.None? && Free(w, s) && !HeldName(w, name)
    ensures Leads(w, more, end) && Kept(w, end) && HoldsAttached(end, s, name)
  {
    var e := Registry(s, Claim(name));
    var v := Next(w, e);
    assert Attached(v) == Attached(w);
    assert forall y :: y in v.sessions && HoldsAttached(v, y, name) ==> y in w.sessions && HoldsAttached(w, y, name);
    more, end := Passes(v, s, name);
    OneThen(w, e, more, end);
    KeptOn(w, v, end);
    more := [e] + more;
  }

  /** Every attached session can come to hold every name. */
  lemma Takes(w: World, s: nat, name: string) returns (more: seq<Step>, end: World)
    requires Safe(w) && s in w.sessions && w.sessions[s].attached
    ensures Leads(w, more, end) && Kept(w, end) && HoldsAttached(end, s, name)
  {
    var v;
    more, v := Unlocks(w);
    RunKeepsSafe(w, more);
    assert s in v.sessions.Keys;
    var b, u := Frees(v, name);
    RunKeepsSafe(v, b);
    LeadsOn(w, more, v, b, u);
    KeptOn(w, v, u);
    more := more + b;
    assert s in u.sessions.Keys;
    var c, t := Rests(u, s);
    RestFrees(u, t, s, name);
    LeadsOn(w, more, u, c, t);
    KeptOn(w, u, t);
    more := more + c;
    var d;
    d, end := Claims(t, s, name);
    LeadsOn(w, more, t, d, end);
    KeptOn(w, t, end);
    more := more + d;
  }

  lemma CanHold(w: World, s: nat, name: string) returns (more: seq<Step>, end: World)
    requires Safe(w) && MayHold(w, s, name)
    ensures Leads(w, more, end) && Kept(w, end) && Holds(end, s, name)
  {
    if Holds(w, s, name) {
      more, end := [], w;
    } else {
      more, end := Takes(w, s, name);
    }
  }

  // -- bringing a task to give --------------------------------------------------------------

  /** Task `i` has given its message; the other tasks so far are as they were. */
  predicate GaveAt(w: World, end: World, i: nat) {
    && i < |w.tasks| <= |end.tasks| && end.tasks[i].key == w.tasks[i].key && end.tasks[i].given
    && forall j :: 0 <= j < |w.tasks| && j != i ==> end.tasks[j] == w.tasks[j]
  }

  lemma Gives(w: World, i: nat) returns (more: seq<Step>, end: World)
    requires i < |w.tasks| && (w.tasks[i].given || w.tasks[i].pc.InCall? || w.tasks[i].pc.Attempt?)
    ensures Leads(w, more, end) && GaveAt(w, end, i) && end.sessions == w.sessions
  {
    if w.tasks[i].given {
      more, end := [], w;
    } else {
      One(w, Deliver(i, Give));
      more, end := [Deliver(i, Give)], Next(w, Deliver(i, Give));
    }
  }

  /** A scan that still has a holder ahead can find it; for a check, its own session. */
  lemma Hits(w: World, i: nat, x: nat) returns (more: seq<Step>, end: World)
    requires i < |w.tasks| && (w.tasks[i].pc.Looking? || w.tasks[i].pc.Checking?) && x in w.tasks[i].pc.unseen
    requires Holds(w, x, w.tasks[i].key.to) && (w.tasks[i].pc.Checking? ==> w.tasks[i].pc.session == x)
    ensures Leads(w, more, end) && GaveAt(w, end, i) && end.sessions == w.sessions
  {
    var e := Deliver(i, Hit(x, false));
    more, end := Gives(Next(w, e), i);
    OneThen(w, e, more, end);
    more := [e] + more;
  }

  /** A task about to scan can find an attached holder; a retry, its own session. */
  lemma Begins(w: World, i: nat, x: nat) returns (more: seq<Step>, end: World)
    requires i < |w.tasks| && (w.tasks[i].pc.New? || w.tasks[i].pc == Loop(x)) && HoldsAttached(w, x, w.tasks[i].key.to)
    ensures Leads(w, more, end) && GaveAt(w, end, i) && end.sessions == w.sessions
  {
    var e := Deliver(i, Begin);
    more, end := Hits(Next(w, e), i, x);
    OneThen(w, e, more, end);
    more := [e] + more;
  }

  /** A viable task can give its message. */
  lemma ViableGives(w: World, i: nat) returns (more: seq<Step>, end: World)
    requires Safe(w) && i < |w.tasks| && Active(w, w.tasks[i]) && !w.tasks[i].pc.New?
    ensures Leads(w, more, end) && GaveAt(w, end, i)
  {
    var t := w.tasks[i];
    if t.given || t.pc.InCall? || t.pc.Attempt? {
      more, end := Gives(w, i);
    } else {
      var x := ScanTarget(w, t);
      var a, v, b;
      if t.pc.Loop? {
        a, v := Takes(w, x, t.key.to);
        b, end := Begins(v, i, x);
      } else {
        a, v := CanHold(w, x, t.key.to);
        b, end := Hits(v, i, x);
      }
      LeadsOn(w, a, v, b, end);
      more := a + b;
      assert forall j :: 0 <= j < |w.tasks| ==> v.tasks[j] == w.tasks[j];
    }
  }

  /** The session through which a viable task can still give. */
  ghost function ScanTarget(w: World, t: Job): (x: nat)
    requires Viable(w, t) && (t.pc.Looking? || t.pc.Loop? || t.pc.Checking?)
    ensures MayHold(w, x, t.key.to) && (!t.pc.Loop? ==> x in t.pc.unseen)
    ensures !t.pc.Looking? ==> x == t.pc.session
    ensures t.pc.Loop? ==> w.sessions[x].attached
  {
    if t.pc.Looking? then
      var x :| x in t.pc.unseen && MayHold(w, x, t.key.to);
      x
    else t.pc.session
  }

  // -- two tasks, two gifts ---------------------------------------------------------------------

  /** Sessions are as they were, but for the progress of one. */
  predicate SameStanding(w: World, v: World) {
    && v.sessions.Keys == w.sessions.Keys
    && forall x :: x in w.sessions ==>
       v.sessions[x].attached == w.sessions[x].attached && v.sessions[x].principal == w.sessions[x].principal
  }

  /** A drain can go on until it has spawned the task for one of its rows. */
  lemma {:induction false} SpawnsFor(w: World, s: nat, rec: nat) returns (more: seq<Step>, end: World, j: nat)
    requires InDrain(w, s) && rec in w.sessions[s].phase.todo && rec !in w.gone
    ensures Leads(w, more, end) && w.tasks <= end.tasks && SameStanding(w, end)
    ensures |w.tasks| <= j < |end.tasks| && end.tasks[j] == Job(Key(rec, w.sessions[s].principal.value), New, false)
    decreases |w.sessions[s].phase.todo|
  {
    var e := Registry(s, Spawn);
    var next := Next(w, e);
    if w.sessions[s].phase.todo[0] == rec {
      One(w, e);
      more, end, j := [e], next, |w.tasks|;
    } else {
      more, end, j := SpawnsFor(next, s, rec);
      OneThen(w, e, more, end);
      assert forall x :: x in w.sessions ==> x in next.sessions.Keys;
      more := [e] + more;
    }
  }

  lemma TwoGivers(w: World, k: Key, i: nat, j: nat)
    requires Counted(w, k) && i < j < |w.tasks| && w.tasks[i].key == w.tasks[j].key == k && w.tasks[i].given
             && w.tasks[j].given
    ensures w.injected[k] >= 2
  {
    GiversOfTwo(w.tasks, k, i, j);
  }

  /** The new task gives first, then the one that was there before. */
  lemma BothGive(w: World, s: nat, i: nat, j: nat) returns (more: seq<Step>, end: World)
    requires Safe(w) && i < j < |w.tasks| && w.tasks[i].key == w.tasks[j].key && w.tasks[j].pc.New?
    requires HoldsAttached(w, s, w.tasks[j].key.to) && Active(w, w.tasks[i])
    ensures Leads(w, more, end) && GaveTwice(w, end, i, j)
  {
    var a, v := Begins(w, j, s);
    RunKeepsSafe(w, a);
    var b;
    if w.tasks[i].pc.New? && !w.tasks[i].given {
      b, end := Begins(v, i, s);
    } else {
      assert Active(v, v.tasks[i]);
      if v.tasks[i].pc.New? {
        b, end := Gives(v, i);
      } else {
        b, end := ViableGives(v, i);
      }
    }
    LeadsOn(w, a, v, b, end);
    more := a + b;
  }

  predicate GaveTwice(w: World, end: World, i: nat, j: nat) {
    && i < j < |w.tasks| <= |end.tasks| && end.tasks[i].given && end.tasks[j].given
    && end.tasks[i].key == w.tasks[i].key && end.tasks[j].key == w.tasks[j].key
  }

  lemma StaysViable(w: World, v: World, t: Job)
    requires Viable(w, t) && SameStanding(w, v)
    ensures Viable(v, t)
  {
    assert forall x :: x in w.sessions ==> x in v.sessions.Keys;
    if t.pc.Looking? {
      var x :| x in t.pc.unseen && MayHold(w, x, t.key.to);
      assert MayHold(v, x, t.key.to);
    }
  }

  /** From every world in which a drain overlaps, the broker can go on so that some
      message is given twice. */
  lemma OverlapGivesTwice(w: World, e: Step) returns (k: Key, more: seq<Step>, end: World)
    requires Safe(w) && Numbered(w) && Can(w, e) && Overlaps(w, e) && forall x :: Counted(w, x)
    ensures Leads(Next(w, e), more, end) && end.injected[k] >= 2
  {
    var i :| 0 <= i < |w.tasks| && w.tasks[i].key.rec in e.r.recs
      && Some(w.tasks[i].key.to) == w.sessions[e.s].principal
      && Viable(w, w.tasks[i]);
    k := w.tasks[i].key;
    StepKeepsCount(w, e, k);
    var j, v;
    more, v, j := SecondTask(w, e, i);
    RunKeepsSafe(Next(w, e), more);
    var b;
    b, end := BothGive(v, e.s, i, j);
    LeadsOn(Next(w, e), more, v, b, end);
    more := more + b;
    RunKeepsCount(Next(w, e), more, k);
    TwoGivers(end, k, i, j);
  }

  /** The overlapping drain goes on to spawn a second task, with the first as it was. */
  lemma SecondTask(w: World, e: Step, i: nat) returns (more: seq<Step>, v: World, j: nat)
    requires Safe(w) && Numbered(w) && Can(w, e) && e.Registry? && e.r.List? && w.sessions[e.s].phase.Listing?
    requires i < |w.tasks| && w.tasks[i].key.rec in e.r.recs && Some(w.tasks[i].key.to) == w.sessions[e.s].principal
    requires Viable(w, w.tasks[i])
    ensures Safe(Next(w, e)) && Leads(Next(w, e), more, v)
    ensures i < j < |v.tasks| && v.tasks[i] == w.tasks[i] && v.tasks[j] == Job(w.tasks[i].key, New, false)
    ensures Viable(v, v.tasks[i]) && HoldsAttached(v, e.s, w.tasks[i].key.to)
  {
    var next, k := Next(w, e), w.tasks[i].key;
    StepKeepsSafe(w, e);
    assert IsHeld(w.rows, Key(k.rec, k.to)) && PhaseOk(w, e.s);
    more, v, j := SpawnsFor(next, e.s, k.rec);
    StaysViable(w, v, w.tasks[i]);
    assert e.s in v.sessions.Keys;
  }

  /** The condition of `InjectedOnce` is exact: every run whose next step is a drain
      that lists a row some task can still serve can go on, without any failure, to a
      world in which a message was given twice. */
  lemma OverlapInjectsTwice(rows: map<Key, Acks.AckState>, nextRecord: nat, steps: seq<Step>, e: Step)
    returns (more: seq<Step>, k: Key)
    requires BootsFrom(rows, nextRecord) && Run(Boot(rows, nextRecord), steps).Some?
    requires Can(Run(Boot(rows, nextRecord), steps).value, e) && Overlaps(Run(Boot(rows, nextRecord), steps).value, e)
    ensures (forall x :: x in more ==> !Rollback(x))
    ensures Run(Boot(rows, nextRecord), steps + ([e] + more)).Some?
    ensures Run(Boot(rows, nextRecord), steps + ([e] + more)).value.injected[k] >= 2
  {
    var start := Boot(rows, nextRecord);
    var w := Run(start, steps).value;
    RunIsSafe(rows, nextRecord, steps);
    RunIsNumbered(rows, nextRecord, steps);
    forall x
      ensures Counted(w, x)
    {
      GivenOncePerTask(rows, nextRecord, steps, x);
    }
    var end;
    k, more, end := OverlapGivesTwice(w, e);
    OneThen(w, e, more, end);
    RunJoins(start, steps, [e] + more);
  }

  lemma {:induction false} RunJoins(start: World, a: seq<Step>, b: seq<Step>)
    requires Run(start, a).Some? && Run(Run(start, a).value, b).Some?
    ensures Run(start, a + b) == Run(Run(start, a).value, b)
  {
    if b == [] {
      assert a + b == a;
    } else {
      var n := |b| - 1;
      RunLast(Run(start, a).value, b);
      RunJoins(start, a, b[..n]);
      assert (a + b)[..|a + b| - 1] == a + b[..n];
    }
  }
}
