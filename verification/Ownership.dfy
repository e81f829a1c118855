/** Who is responsible for a held message. Sessions come, claim names, leave;
    delivery tasks look their recipient up and retry; a grace window sweeps what
    a restart left behind. All of it interleaves, one small step at a time. */
module Ownership {
  import opened Wrappers
  import Acks
  import Delivery

  datatype Key = Key(rec: nat, to: string)

  /** What a session's connection loop is doing. A scan of the sessions visits a
      snapshot one by one; `unseen` is what it still has to visit. `Draining` and
      `Clearing` work through the held records they listed. */
  datatype Phase =
    | Idle
    | Claiming(name: string, unseen: set<nat>) | Persisting | Listing | Draining(todo: seq<nat>)
    | Leaving | Clearing(todo: seq<nat>)

  /** A session keeps its principal when it detaches; `left` is how often the name
      had been bound by then. */
  datatype Session = Session(attached: bool, principal: Option<string>, phase: Phase, left: nat)

  /** Progress of a delivery task; `from` is how often its recipient's name had
      been bound when the scan began. */
  datatype Pc =
    | New
    | Looking(unseen: set<nat>, from: nat)
    | InCall
    | Loop(session: nat)
    | Checking(session: nat, unseen: set<nat>, from: nat)
    | Attempt(session: nat)
    | Finishing
    | Exited

  /** `given`: this task has put the message before the recipient. */
  datatype Job = Job(key: Key, pc: Pc, given: bool)

  datatype Grace = Waiting | Sweeping(todo: set<Key>) | Asking(todo: set<Key>, asked: Key, unseen: set<nat>, from: nat)

  /** `binds` and `releases` count, per name, how often a session bound it and gave
      it up; `injected` counts, per row, how often the message was given. */
  datatype World = World(
    sessions: map<nat, Session>,
    lock: Option<nat>,
    rows: map<Key, Acks.AckState>,
    tasks: seq<Job>,
    grace: Grace,
    binds: multiset<string>,
    releases: multiset<string>,
    injected: multiset<Key>,
    gone: set<nat>,
    nextRecord: nat)

  datatype RegistryAct =
    | Attach | Claim(name: string) | Pass(x: nat) | Deny(x: nat) | Bind | Persist(ok: bool)
    | List(recs: seq<nat>) | Spawn | Fail | Settle | Deregister | Detach

  datatype TaskAct =
    | Begin | Visit(x: nat) | Hit(x: nat, codex: bool) | Miss
    | Give | Return(ok: bool) | Report(outcome: Delivery.Delivered) | Finish

  datatype GraceAct = Open | Pick(k: Key) | Skip(x: nat) | Found(x: nat) | Gone

  datatype MessageAct = Send(held: seq<string>, absent: seq<string>) | Delete(rec: nat) | Notified(k: Key)

  datatype Step =
    | Registry(s: nat, r: RegistryAct)
    | Deliver(i: nat, t: TaskAct)
    | Window(g: GraceAct)
    | Message(m: MessageAct)

  predicate Holds(w: World, x: nat, name: string) {
    x in w.sessions && w.sessions[x].principal == Some(name)
  }

  predicate HoldsAttached(w: World, x: nat, name: string) {
    Holds(w, x, name) && w.sessions[x].attached
  }

  function Attached(w: World): (r: set<nat>)
    ensures forall x, name :: HoldsAttached(w, x, name) <==> Holds(w, x, name) && x in r
  {
    set x | x in w.sessions && w.sessions[x].attached
  }

  predicate IsHeld(rows: map<Key, Acks.AckState>, k: Key) {
    k in rows && rows[k] == Acks.Held
  }

  /** One acknowledgment update. */
  function Acked(rows: map<Key, Acks.AckState>, k: Key, s: Acks.AckState): map<Key, Acks.AckState> {
    if k in rows then rows[k := Acks.Later(rows[k], s)] else rows
  }

  // -- registry --------------------------------------------------------------------

  predicate AtRest(w: World, s: nat) {
    s in w.sessions && w.sessions[s].attached && w.sessions[s].phase.Idle?
  }

  predicate InClaim(w: World, s: nat) {
    s in w.sessions && w.sessions[s].phase.Claiming?
  }

  predicate InDrain(w: World, s: nat) {
    s in w.sessions && w.sessions[s].phase.Draining? && w.sessions[s].principal.Some?
  }

  predicate InClear(w: World, s: nat) {
    s in w.sessions && w.sessions[s].phase.Clearing? && w.sessions[s].principal.Some?
  }

  predicate CanRegistry(w: World, s: nat, a: RegistryAct) {
    match a
    case Attach => s !in w.sessions
    case Claim(_) => AtRest(w, s) && w.sessions[s].principal.None? && w.lock.None?
    case Pass(x) => InClaim(w, s) && x in w.sessions[s].phase.unseen && !Holds(w, x, w.sessions[s].phase.name)
    case Deny(x) => InClaim(w, s) && x in w.sessions[s].phase.unseen && Holds(w, x, w.sessions[s].phase.name)
    case Bind => InClaim(w, s) && w.sessions[s].phase.unseen == {}
    case Persist(_) => s in w.sessions && w.sessions[s].phase.Persisting? && w.sessions[s].principal.Some?
    case List(recs) =>
      && s in w.sessions && (w.sessions[s].phase.Listing? || w.sessions[s].phase.Leaving?)
      && w.sessions[s].principal.Some? && ListsHeld(w.rows, w.sessions[s].principal.value, recs)
    case Spawn => InDrain(w, s) && w.sessions[s].phase.todo != []
    case Fail => InClear(w, s) && w.sessions[s].phase.todo != []
    case Settle => (InDrain(w, s) || InClear(w, s)) && w.sessions[s].phase.todo == []
    case Deregister => AtRest(w, s) && w.sessions[s].principal.Some?
    case Detach => AtRest(w, s)
  }

  predicate NoRepeats<T(==)>(s: seq<T>) {
    forall i, j :: 0 <= i < j < |s| ==> s[i] != s[j]
  }

  /** The records held for a name, as listed by the store. */
  predicate ListsHeld(rows: map<Key, Acks.AckState>, name: string, recs: seq<nat>) {
    && NoRepeats(recs)
    && (forall r :: r in recs ==> IsHeld(rows, Key(r, name)))
    && (forall k :: k in rows && IsHeld(rows, k) && k.to == name ==> k.rec in recs)
  }

  function SetSession(w: World, s: nat, to: Session): World {
    w.(sessions := w.sessions[s := to])
  }

  function AfterRegistry(w: World, s: nat, a: RegistryAct): World
    requires CanRegistry(w, s, a)
  {
    var x := if s in w.sessions then w.sessions[s] else Session(true, None, Idle, 0);
    match a
    case Attach => SetSession(w, s, x)
    case Claim(name) => SetSession(w, s, x.(phase := Claiming(name, Attached(w)))).(lock := Some(s))
    case Pass(y) => SetSession(w, s, x.(phase := x.phase.(unseen := x.phase.unseen - {y})))
    case Deny(_) => SetSession(w, s, x.(phase := Idle)).(lock := None)
    case Bind =>
      SetSession(w, s, x.(principal := Some(x.phase.name), phase := Persisting)).(
        lock := None, binds := w.binds + multiset{x.phase.name})
    case Persist(ok) =>
      if ok then SetSession(w, s, x.(phase := Listing))
      else SetSession(w, s, x.(principal := None, phase := Idle)).(releases := w.releases + multiset{x.principal.value})
    case List(recs) => SetSession(w, s, x.(phase := if x.phase.Listing? then Draining(recs) else Clearing(recs)))
    case Spawn =>
      var rec := x.phase.todo[0];
      SetSession(w, s, x.(phase := Draining(x.phase.todo[1..]))).(
        tasks := if rec in w.gone then w.tasks else w.tasks + [Job(Key(rec, x.principal.value), New, false)])
    case Fail =>
      SetSession(w, s, x.(phase := Clearing(x.phase.todo[1..]))).(
        rows := Acked(w.rows, Key(x.phase.todo[0], x.principal.value), Acks.Failed))
    case Settle => SetSession(w, s, x.(phase := Idle))
    case Deregister =>
      SetSession(w, s, x.(principal := None)).(releases := w.releases + multiset{x.principal.value})
    case Detach =>
      if x.principal.None? then SetSession(w, s, x.(attached := false))
      else
        SetSession(w, s, x.(attached := false, phase := Leaving, left := w.binds[x.principal.value])).(
          releases := w.releases + multiset{x.principal.value})
  }

  // -- delivery tasks -----------------------------------------------------------------

  predicate CanDeliver(w: World, i: nat, a: TaskAct) {
    i < |w.tasks| &&
    var t := w.tasks[i];
    var scanning := t.pc.Looking? || t.pc.Checking?;
    match a
    case Begin => t.pc.New? || t.pc.Loop?
    case Visit(x) => scanning && x in t.pc.unseen && !Holds(w, x, t.key.to)
    case Hit(x, _) => scanning && x in t.pc.unseen && Holds(w, x, t.key.to)
    case Miss => scanning && t.pc.unseen == {}
    case Give => (t.pc.InCall? || t.pc.Attempt?) && !t.given
    case Return(ok) => t.pc.InCall? && (ok ==> t.given)
    case Report(outcome) => t.pc.Attempt? && (outcome.Processed? ==> t.given) && (outcome.Unreachable? ==> !t.given)
    case Finish => t.pc.Finishing?
  }

  /** Where the step leaves the task, and the acknowledgment it reports, if any. */
  function Moved(w: World, i: nat, a: TaskAct): (Pc, Option<Acks.AckState>)
    requires CanDeliver(w, i, a)
  {
    var t := w.tasks[i];
    match a
    case Begin =>
      var from := w.binds[t.key.to];
      (if t.pc.New? then Looking(Attached(w), from) else Checking(t.pc.session, Attached(w), from), None)
    case Visit(x) => (t.pc.(unseen := t.pc.unseen - {x}), None)
    case Hit(x, codex) =>
      (if t.pc.Looking? then (if codex then Loop(x) else InCall)
       else if x == t.pc.session then Attempt(x)
       else Exited, None)
    case Miss => (Exited, Some(Acks.Failed))
    case Give => (t.pc, None)
    case Return(ok) => (Exited, Some(if ok then Acks.Relayed else Acks.Failed))
    case Report(outcome) =>
      (match outcome
       case Processed => (Finishing, Some(Acks.Relayed))
       case Failed => (Exited, Some(Acks.Failed))
       case Unreachable => (Loop(t.pc.session), None))
    case Finish => (Exited, Some(Acks.Processed))
  }

  function AfterDeliver(w: World, i: nat, a: TaskAct): World
    requires CanDeliver(w, i, a)
  {
    var t := w.tasks[i];
    var (pc, ack) := Moved(w, i, a);
    w.(tasks := w.tasks[i := Job(t.key, pc, t.given || a.Give?)],
       rows := if ack.Some? then Acked(w.rows, t.key, ack.value) else w.rows,
       injected := if a.Give? then w.injected + multiset{t.key} else w.injected)
  }

  // -- the grace window, and messages ----------------------------------------------------

  predicate CanWindow(w: World, a: GraceAct) {
    match a
    case Open => w.grace.Waiting?
    case Pick(k) => w.grace.Sweeping? && k in w.grace.todo
    case Skip(x) => w.grace.Asking? && x in w.grace.unseen && !Holds(w, x, w.grace.asked.to)
    case Found(x) => w.grace.Asking? && x in w.grace.unseen && Holds(w, x, w.grace.asked.to)
    case Gone => w.grace.Asking? && w.grace.unseen == {}
  }

  function HeldKeys(rows: map<Key, Acks.AckState>): set<Key> {
    set k | k in rows && rows[k] == Acks.Held
  }

  function AfterWindow(w: World, a: GraceAct): World
    requires CanWindow(w, a)
  {
    match a
    case Open => w.(grace := Sweeping(HeldKeys(w.rows)))
    case Pick(k) => w.(grace := Asking(w.grace.todo - {k}, k, Attached(w), w.binds[k.to]))
    case Skip(x) => w.(grace := w.grace.(unseen := w.grace.unseen - {x}))
    case Found(_) => w.(grace := Sweeping(w.grace.todo))
    case Gone => w.(grace := Sweeping(w.grace.todo), rows := Acked(w.rows, w.grace.asked, Acks.Failed))
  }

  function Addressees(held: seq<string>, absent: seq<string>, rec: nat): map<Key, Acks.AckState> {
    map k: Key | k in (set n | n in held + absent :: Key(rec, n)) :: if k.to in held then Acks.Held else Acks.Failed
  }

  /** The tasks of a send; a task that is yet to be spawned counts as new. */
  function SpawnedFor(held: seq<string>, rec: nat): seq<Job> {
    seq(|held|, i requires 0 <= i < |held| => Job(Key(rec, held[i]), New, false))
  }

  predicate CanMessage(w: World, a: MessageAct) {
    match a
    case Send(held, absent) => NoRepeats(held + absent)
    case Delete(rec) => rec < w.nextRecord
    case Notified(_) => true
  }

  function AfterMessage(w: World, a: MessageAct): World {
    match a
    case Send(held, absent) =>
      w.(rows := w.rows + Addressees(held, absent, w.nextRecord), tasks := w.tasks + SpawnedFor(held, w.nextRecord),
         nextRecord := w.nextRecord + 1)
    case Delete(rec) => w.(rows := (map k | k in w.rows && k.rec != rec :: w.rows[k]), gone := w.gone + {rec})
    case Notified(k) => w.(rows := Acked(w.rows, k, Acks.Processed))
  }

  // -- runs ------------------------------------------------------------------------------

  predicate Can(w: World, e: Step) {
    match e
    case Registry(s, r) => CanRegistry(w, s, r)
    case Deliver(i, t) => CanDeliver(w, i, t)
    case Window(g) => CanWindow(w, g)
    case Message(m) => CanMessage(w, m)
  }

  function Next(w: World, e: Step): World
    requires Can(w, e)
  {
    match e
    case Registry(s, r) => AfterRegistry(w, s, r)
    case Deliver(i, t) => AfterDeliver(w, i, t)
    case Window(g) => AfterWindow(w, g)
    case Message(m) => AfterMessage(w, m)
  }

  predicate BootsFrom(rows: map<Key, Acks.AckState>, nextRecord: nat) {
    forall k :: k in rows ==> k.rec < nextRecord
  }

  /** A broker that has just started over whatever rows the store holds. */
  function Boot(rows: map<Key, Acks.AckState>, nextRecord: nat): World {
    World(map[], None, rows, [], Waiting, multiset{}, multiset{}, multiset{}, {}, nextRecord)
  }

  /** The world after a sequence of steps, if each was possible in its turn. */
  function Run(start: World, steps: seq<Step>): Option<World> {
    if steps == [] then Some(start)
    else
      var n := |steps| - 1;
      match Run(start, steps[..n])
      case None => None
      case Some(w) => if Can(w, steps[n]) then Some(Next(w, steps[n])) else None
  }

  lemma RunLast(start: World, steps: seq<Step>)
    requires steps != [] && Run(start, steps).Some?
    ensures var n := |steps| - 1;
            && Run(start, steps[..n]).Some? && Can(Run(start, steps[..n]).value, steps[n])
            && Run(start, steps) == Some(Next(Run(start, steps[..n]).value, steps[n]))
  {
  }

  /** Every prefix of a run is a run that can take the next step. */
  lemma {:induction false} RunPrefix(start: World, steps: seq<Step>, n: nat)
    requires Run(start, steps).Some? && n <= |steps|
    ensures Run(start, steps[..n]).Some?
    ensures n < |steps| ==> Can(Run(start, steps[..n]).value, steps[n])
  {
    if n == |steps| {
      assert steps[..n] == steps;
    } else {
      RunLast(start, steps);
      var shorter := steps[..|steps| - 1];
      if n < |shorter| {
        RunPrefix(start, shorter, n);
        assert shorter[..n] == steps[..n] && shorter[n] == steps[n];
      }
    }
  }

  /** A registration the store did not commit: it is rolled back. */
  predicate Rollback(e: Step) {
    e.Registry? && e.r == Persist(false)
  }

  // -- one holder per name, and what a scan may believe about it --------------------------

  /** A claim in progress owns the lock; a registering session is attached and a
      leaving one is not. */
  predicate PhaseOk(w: World, s: nat)
    requires s in w.sessions
  {
    var x := w.sessions[s];
    && (x.phase.Claiming? ==> w.lock == Some(s) && x.principal.None?)
    && (x.phase.Persisting? || x.phase.Listing? || x.phase.Draining? ==> x.principal.Some?)
    && (x.phase.Leaving? || x.phase.Clearing? ==> x.principal.Some? && !x.attached)
    && (!x.attached ==> x.phase.Idle? || x.phase.Leaving? || x.phase.Clearing?)
    && (x.principal.Some? ==> w.binds[x.principal.value] > 0 && x.left <= w.binds[x.principal.value])
    && (x.attached ==> x.left == 0)
  }

  predicate PhasesOk(w: World) {
    && (forall s :: s in w.sessions ==> PhaseOk(w, s))
    && (w.lock.Some? ==> InClaim(w, w.lock.value))
  }

  /** No two attached sessions hold the same name. */
  ghost predicate OneHolder(w: World) {
    forall x, y, name :: HoldsAttached(w, x, name) && HoldsAttached(w, y, name) ==> x == y
  }

  predicate HeldName(w: World, name: string) {
    exists x :: x in w.sessions && HoldsAttached(w, x, name)
  }

  /** A name is held exactly while it was bound once more than it was given up. */
  ghost predicate Balanced(w: World) {
    forall name :: w.binds[name] == w.releases[name] + if HeldName(w, name) then 1 else 0
  }

  /** A scan that began when the name had been bound `from` times still has every
      attached holder ahead of it, unless the name was bound since. */
  ghost predicate ScanSound(w: World, unseen: set<nat>, name: string, from: nat) {
    from <= w.binds[name] && (from == w.binds[name] ==> forall x :: HoldsAttached(w, x, name) ==> x in unseen)
  }

  /** A claim has yet to visit every holder of the name there is. */
  ghost predicate ClaimSound(w: World, s: nat) {
    InClaim(w, s) ==> forall x :: HoldsAttached(w, x, w.sessions[s].phase.name) ==> x in w.sessions[s].phase.unseen
  }

  ghost predicate ClaimsSound(w: World) {
    forall s :: InClaim(w, s) ==> ClaimSound(w, s)
  }

  ghost predicate JobSound(w: World, t: Job) {
    t.pc.Looking? || t.pc.Checking? ==> ScanSound(w, t.pc.unseen, t.key.to, t.pc.from)
  }

  ghost predicate JobsSound(w: World) {
    forall i :: 0 <= i < |w.tasks| ==> JobSound(w, w.tasks[i])
  }

  ghost predicate GraceSound(w: World) {
    w.grace.Asking? ==> ScanSound(w, w.grace.unseen, w.grace.asked.to, w.grace.from)
  }

  /** Nobody holds the name of a session that left unless it was bound since. */
  ghost predicate LeftSound(w: World, s: nat) {
    s in w.sessions && !w.sessions[s].attached && w.sessions[s].principal.Some? ==>
      var name := w.sessions[s].principal.value;
      w.sessions[s].left == w.binds[name] ==> forall x :: !HoldsAttached(w, x, name)
  }

  ghost predicate AllLeftSound(w: World) {
    forall s :: s in w.sessions ==> LeftSound(w, s)
  }

  ghost predicate Safe(w: World) {
    && PhasesOk(w) && OneHolder(w) && ClaimsSound(w) && Balanced(w)
    && JobsSound(w) && GraceSound(w) && AllLeftSound(w)
  }

  /** `after` has no holder of the name that `w` had not. */
  ghost predicate Shrinks(w: World, after: World, name: string) {
    && after.binds[name] == w.binds[name]
    && (forall x :: Holds(after, x, name) ==> Holds(w, x, name))
    && (forall x :: HoldsAttached(after, x, name) ==> HoldsAttached(w, x, name))
  }

  /** Every registry step but a bind only ever takes names away; a bind bumps the
      count of its name. */
  lemma RegistryShrinks(w: World, s: nat, a: RegistryAct, name: string)
    requires CanRegistry(w, s, a)
    ensures var after := AfterRegistry(w, s, a);
            Shrinks(w, after, name) || (a.Bind? && name == w.sessions[s].phase.name
                                        && after.binds[name] > w.binds[name])
  {
  }

  lemma ShrinkKeepsScan(w: World, after: World, unseen: set<nat>, name: string, from: nat)
    requires ScanSound(w, unseen, name, from) && (Shrinks(w, after, name) || after.binds[name] > w.binds[name])
    ensures ScanSound(after, unseen, name, from)
  {
  }

  lemma OthersKeepPhase(w: World, s: nat, a: RegistryAct, x: nat)
    requires CanRegistry(w, s, a) && x in w.sessions && x != s && PhaseOk(w, x) && (s in w.sessions ==> PhaseOk(w, s))
    ensures PhaseOk(AfterRegistry(w, s, a), x)
  {
    assert AfterRegistry(w, s, a).sessions[x] == w.sessions[x];
  }

  lemma OwnPhaseKept(w: World, s: nat, a: RegistryAct)
    requires CanRegistry(w, s, a) && (s in w.sessions ==> PhaseOk(w, s))
    ensures PhaseOk(AfterRegistry(w, s, a), s)
  {
  }

  lemma RegistryKeepsPhases(w: World, s: nat, a: RegistryAct)
    requires CanRegistry(w, s, a) && PhasesOk(w)
    ensures PhasesOk(AfterRegistry(w, s, a))
  {
    var after := AfterRegistry(w, s, a);
    forall x | x in after.sessions
      ensures PhaseOk(after, x)
    {
      if x == s {
        OwnPhaseKept(w, s, a);
      } else {
        OthersKeepPhase(w, s, a, x);
      }
    }
    LockKept(w, s, a);
  }

  lemma LockKept(w: World, s: nat, a: RegistryAct)
    requires CanRegistry(w, s, a) && PhasesOk(w)
    ensures var after := AfterRegistry(w, s, a);
            after.lock.Some? ==> InClaim(after, after.lock.value)
  {
    assert s in w.sessions ==> PhaseOk(w, s);
  }

  lemma RegistryKeepsHolders(w: World, s: nat, a: RegistryAct)
    requires CanRegistry(w, s, a) && OneHolder(w) && ClaimsSound(w)
    ensures OneHolder(AfterRegistry(w, s, a))
  {
    var after := AfterRegistry(w, s, a);
    forall x, y, name | HoldsAttached(after, x, name) && HoldsAttached(after, y, name)
      ensures x == y
    {
      RegistryShrinks(w, s, a, name);
      if !Shrinks(w, after, name) {
        assert ClaimSound(w, s);
        assert x != s ==> HoldsAttached(w, x, name);
        assert y != s ==> HoldsAttached(w, y, name);
      }
    }
  }

  lemma RegistryKeepsBalance(w: World, s: nat, a: RegistryAct)
    requires CanRegistry(w, s, a) && PhasesOk(w) && OneHolder(w) && ClaimsSound(w) && Balanced(w)
    ensures Balanced(AfterRegistry(w, s, a))
  {
    var after := AfterRegistry(w, s, a);
    assert a.Attach? || PhaseOk(w, s);
    assert a.Bind? ==> ClaimSound(w, s);
    forall name
      ensures after.binds[name] == after.releases[name] + if HeldName(after, name) then 1 else 0
    {
      BalanceOf(w, s, a, name);
    }
  }

  /** The name a step binds or releases. */
  function Touched(w: World, s: nat, a: RegistryAct): Option<string>
    requires CanRegistry(w, s, a)
  {
    match a
    case Bind => Some(w.sessions[s].phase.name)
    case Persist(ok) => if ok then None else w.sessions[s].principal
    case Deregister => w.sessions[s].principal
    case Detach => w.sessions[s].principal
    case _ => None
  }

  lemma BalanceOf(w: World, s: nat, a: RegistryAct, name: string)
    requires CanRegistry(w, s, a) && (a.Attach? || PhaseOk(w, s)) && OneHolder(w) && (a.Bind? ==> ClaimSound(w, s))
    requires w.binds[name] == w.releases[name] + if HeldName(w, name) then 1 else 0
    ensures var after := AfterRegistry(w, s, a);
            after.binds[name] == after.releases[name] + if HeldName(after, name) then 1 else 0
  {
    var after := AfterRegistry(w, s, a);
    if Touched(w, s, a) == Some(name) {
      assert a.Bind? ==> HoldsAttached(after, s, name) && !HeldName(w, name);
      if !a.Bind? {
        assert HoldsAttached(w, s, name);
        assert forall x :: HoldsAttached(after, x, name) ==> HoldsAttached(w, x, name) && x != s;
      }
    } else {
      assert forall x :: x != s ==> (HoldsAttached(after, x, name) <==> HoldsAttached(w, x, name));
      assert HoldsAttached(after, s, name) <==> HoldsAttached(w, s, name);
    }
  }

  lemma RegistryKeepsClaims(w: World, s: nat, a: RegistryAct)
    requires CanRegistry(w, s, a) && PhasesOk(w) && ClaimsSound(w)
    ensures ClaimsSound(AfterRegistry(w, s, a))
  {
    var after := AfterRegistry(w, s, a);
    assert a.Bind? ==> PhaseOk(w, s);
    forall c | InClaim(after, c)
      ensures ClaimSound(after, c)
    {
      RegistryShrinks(w, s, a, after.sessions[c].phase.name);
      if c != s {
        assert ClaimSound(w, c) && PhaseOk(w, c);
      }
    }
  }

  lemma RegistryKeepsScans(w: World, s: nat, a: RegistryAct)
    requires CanRegistry(w, s, a) && JobsSound(w) && GraceSound(w)
    ensures JobsSound(AfterRegistry(w, s, a)) && GraceSound(AfterRegistry(w, s, a))
  {
    var after := AfterRegistry(w, s, a);
    forall i | 0 <= i < |after.tasks|
      ensures JobSound(after, after.tasks[i])
    {
      if i < |w.tasks| && (w.tasks[i].pc.Looking? || w.tasks[i].pc.Checking?) {
        assert JobSound(w, w.tasks[i]);
        RegistryShrinks(w, s, a, w.tasks[i].key.to);
        ShrinkKeepsScan(w, after, w.tasks[i].pc.unseen, w.tasks[i].key.to, w.tasks[i].pc.from);
      }
    }
    if w.grace.Asking? {
      RegistryShrinks(w, s, a, w.grace.asked.to);
    }
  }

  lemma RegistryKeepsLeft(w: World, s: nat, a: RegistryAct)
    requires CanRegistry(w, s, a) && PhasesOk(w) && OneHolder(w) && AllLeftSound(w)
    ensures AllLeftSound(AfterRegistry(w, s, a))
  {
    var after := AfterRegistry(w, s, a);
    forall x | x in after.sessions
      ensures LeftSound(after, x)
    {
      if x in w.sessions && after.sessions[x].principal.Some? {
        var name := after.sessions[x].principal.value;
        RegistryShrinks(w, s, a, name);
        assert LeftSound(w, x) && PhaseOk(w, x);
        if a.Detach? && x == s {
          assert forall y :: HoldsAttached(after, y, name) ==> HoldsAttached(w, y, name) && HoldsAttached(w, s, name);
        }
      }
    }
  }

  lemma DeliverKeepsJobs(w: World, i: nat, a: TaskAct)
    requires CanDeliver(w, i, a) && JobsSound(w)
    ensures JobsSound(AfterDeliver(w, i, a))
  {
    var after := AfterDeliver(w, i, a);
    forall j | 0 <= j < |after.tasks|
      ensures JobSound(after, after.tasks[j])
    {
      assert JobSound(w, w.tasks[j]);
      if j != i && (w.tasks[j].pc.Looking? || w.tasks[j].pc.Checking?) {
        ShrinkKeepsScan(w, after, w.tasks[j].pc.unseen, w.tasks[j].key.to, w.tasks[j].pc.from);
      } else if j == i && (after.tasks[i].pc.Looking? || after.tasks[i].pc.Checking?) {
        assert ScanSound(w, after.tasks[i].pc.unseen, w.tasks[i].key.to, after.tasks[i].pc.from);
      }
    }
  }

  predicate SameRegistry(w: World, after: World) {
    after.sessions == w.sessions && after.lock == w.lock && after.binds == w.binds && after.releases == w.releases
  }

  /** A step that leaves the registry alone. */
  lemma QuietKeepsRegistry(w: World, after: World)
    requires PhasesOk(w) && OneHolder(w) && ClaimsSound(w) && Balanced(w) && AllLeftSound(w)
    requires SameRegistry(w, after)
    ensures PhasesOk(after) && OneHolder(after) && ClaimsSound(after) && Balanced(after) && AllLeftSound(after)
  {
    assert forall s :: s in w.sessions ==> PhaseOk(w, s) && LeftSound(w, s);
    assert forall x, name :: HoldsAttached(after, x, name) <==> HoldsAttached(w, x, name);
    forall s | InClaim(after, s)
      ensures ClaimSound(after, s)
    {
      assert InClaim(w, s) && ClaimSound(w, s);
    }
    forall s | s in after.sessions
      ensures PhaseOk(after, s) && LeftSound(after, s)
    {
    }
    forall name
      ensures HeldName(after, name) <==> HeldName(w, name)
    {
    }
  }

  /** A step that leaves the registry alone and at most spawns new tasks. */
  lemma SpawnKeepsJobs(w: World, after: World)
    requires JobsSound(w) && SameRegistry(w, after)
    requires w.tasks <= after.tasks && forall i :: |w.tasks| <= i < |after.tasks| ==> after.tasks[i].pc.New?
    ensures JobsSound(after)
  {
    forall i | 0 <= i < |after.tasks|
      ensures JobSound(after, after.tasks[i])
    {
      if i < |w.tasks| && (w.tasks[i].pc.Looking? || w.tasks[i].pc.Checking?) {
        assert JobSound(w, w.tasks[i]);
        ShrinkKeepsScan(w, after, w.tasks[i].pc.unseen, w.tasks[i].key.to, w.tasks[i].pc.from);
      }
    }
  }

  lemma WindowKeepsGrace(w: World, a: GraceAct)
    requires CanWindow(w, a) && GraceSound(w)
    ensures GraceSound(AfterWindow(w, a))
  {
  }

  lemma RegistryKeepsSafe(w: World, s: nat, a: RegistryAct)
    requires Safe(w) && CanRegistry(w, s, a)
    ensures Safe(AfterRegistry(w, s, a))
  {
    RegistryKeepsPhases(w, s, a);
    RegistryKeepsHolders(w, s, a);
    RegistryKeepsBalance(w, s, a);
    RegistryKeepsClaims(w, s, a);
    RegistryKeepsScans(w, s, a);
    RegistryKeepsLeft(w, s, a);
  }

  lemma StepKeepsSafe(w: World, e: Step)
    requires Safe(w) && Can(w, e)
    ensures Safe(Next(w, e))
  {
    match e
    case Registry(s, a) => RegistryKeepsSafe(w, s, a);
    case Deliver(i, a) =>
      DeliverKeepsJobs(w, i, a);
      QuietKeepsRegistry(w, AfterDeliver(w, i, a));
    case Window(g) =>
      SpawnKeepsJobs(w, AfterWindow(w, g));
      WindowKeepsGrace(w, g);
      QuietKeepsRegistry(w, AfterWindow(w, g));
    case Message(m) =>
      SpawnKeepsJobs(w, AfterMessage(w, m));
      QuietKeepsRegistry(w, AfterMessage(w, m));
  }

  lemma {:induction false} RunIsSafe(rows: map<Key, Acks.AckState>, nextRecord: nat, steps: seq<Step>)
    requires Run(Boot(rows, nextRecord), steps).Some?
    ensures Safe(Run(Boot(rows, nextRecord), steps).value)
  {
    if steps != [] {
      var n := |steps| - 1;
      RunIsSafe(rows, nextRecord, steps[..n]);
      StepKeepsSafe(Run(Boot(rows, nextRecord), steps[..n]).value, steps[n]);
    }
  }

  /** No two attached sessions ever hold one name, whatever interleaves with the
      claim's scan, failed registrations included. */
  lemma {:induction false} UniqueHolder(rows: map<Key, Acks.AckState>, nextRecord: nat, steps: seq<Step>, x: nat,
                                        y: nat, name: string)
    requires Run(Boot(rows, nextRecord), steps).Some?
    requires HoldsAttached(Run(Boot(rows, nextRecord), steps).value, x, name)
    requires HoldsAttached(Run(Boot(rows, nextRecord), steps).value, y, name)
    ensures x == y
  {
    RunIsSafe(rows, nextRecord, steps);
  }

  // -- who answers for a held row ------------------------------------------------------------

  ghost predicate OnlyHolder(w: World, s: nat, name: string) {
    forall x :: HoldsAttached(w, x, name) ==> x == s
  }

  /** Nothing but another bind of the name can make the task give way to another
      session: it will end by reporting the row. */
  ghost predicate Steady(w: World, t: Job) {
    var name := t.key.to;
    match t.pc
    case New => true
    case InCall => true
    case Looking(unseen, _) => forall x :: x in unseen && Holds(w, x, name) ==> OnlyHolder(w, x, name)
    case Loop(s) => OnlyHolder(w, s, name)
    case Checking(s, unseen, _) => OnlyHolder(w, s, name) && forall x :: x in unseen && Holds(w, x, name) ==> x == s
    case Attempt(s) => t.given || OnlyHolder(w, s, name)
    case Finishing => false
    case Exited => false
  }

  ghost predicate Answers(w: World, t: Job, k: Key) {
    t.key == k && Steady(w, t)
  }

  /** A session has bound the name and has yet to give the row a task. */
  predicate Arriving(w: World, s: nat, k: Key) {
    && Holds(w, s, k.to)
    && var p := w.sessions[s].phase;
       p.Persisting? || p.Listing? || (p.Draining? && k.rec in p.todo)
  }

  /** The grace window has yet to look at the row, and nobody bound the name since
      the start. */
  predicate Swept(w: World, k: Key) {
    w.binds[k.to] == 0 &&
    match w.grace
    case Waiting => true
    case Sweeping(todo) => k in todo
    case Asking(todo, asked, _, _) => k in todo || k == asked
  }

  ghost predicate HasTask(w: World, k: Key) {
    exists i :: 0 <= i < |w.tasks| && Answers(w, w.tasks[i], k)
  }

  predicate HasArrival(w: World, k: Key) {
    exists s :: s in w.sessions && Arriving(w, s, k)
  }

  ghost predicate Owned(w: World, k: Key) {
    HasTask(w, k) || HasArrival(w, k) || Swept(w, k)
  }

  ghost predicate AllOwned(w: World) {
    forall k :: k in w.rows && IsHeld(w.rows, k) ==> Owned(w, k)
  }

  /** What a drain still has to spawn are different existing records. */
  predicate TodoOk(w: World, s: nat)
    requires s in w.sessions
  {
    var p := w.sessions[s].phase;
    p.Draining? || p.Clearing? ==> NoRepeats(p.todo) && forall r :: r in p.todo ==> r < w.nextRecord
  }

  /** No row belongs to a deleted record, and nothing refers to a record yet to come. */
  predicate Numbered(w: World) {
    && (forall k :: k in w.rows ==> k.rec < w.nextRecord && k.rec !in w.gone)
    && (forall i :: 0 <= i < |w.tasks| ==> w.tasks[i].key.rec < w.nextRecord)
    && (forall r :: r in w.gone ==> r < w.nextRecord)
    && (forall s :: s in w.sessions ==> TodoOk(w, s))
  }

  lemma OwnTodoKept(w: World, s: nat, a: RegistryAct)
    requires CanRegistry(w, s, a) && (s in w.sessions ==> TodoOk(w, s))
    requires forall k :: k in w.rows ==> k.rec < w.nextRecord
    ensures TodoOk(AfterRegistry(w, s, a), s)
  {
    if a.List? {
      assert forall r :: r in a.recs ==> Key(r, w.sessions[s].principal.value) in w.rows;
    } else if a.Spawn? || a.Fail? {
      var todo := w.sessions[s].phase.todo;
      assert forall r :: r in todo[1..] ==> r in todo;
    }
  }

  lemma RegistryKeepsNumbers(w: World, s: nat, a: RegistryAct)
    requires CanRegistry(w, s, a) && Numbered(w)
    ensures Numbered(AfterRegistry(w, s, a))
  {
    var after := AfterRegistry(w, s, a);
    assert s in w.sessions ==> TodoOk(w, s);
    OwnTodoKept(w, s, a);
    assert a.Spawn? ==> w.sessions[s].phase.todo[0] in w.sessions[s].phase.todo;
    forall x | x in after.sessions
      ensures TodoOk(after, x)
    {
      assert x != s ==> after.sessions[x] == w.sessions[x] && TodoOk(w, x);
    }
  }

  lemma MessageKeepsNumbers(w: World, a: MessageAct)
    requires CanMessage(w, a) && Numbered(w)
    ensures Numbered(AfterMessage(w, a))
  {
    assert forall x :: x in w.sessions ==> TodoOk(w, x);
  }

  lemma StepKeepsNumbers(w: World, e: Step)
    requires Can(w, e) && Numbered(w)
    ensures Numbered(Next(w, e))
  {
    match e
    case Registry(s, a) => RegistryKeepsNumbers(w, s, a);
    case Deliver(i, a) => QuietKeepsNumbers(w, AfterDeliver(w, i, a));
    case Window(a) => QuietKeepsNumbers(w, AfterWindow(w, a));
    case Message(a) => MessageKeepsNumbers(w, a);
  }

  lemma QuietKeepsNumbers(w: World, after: World)
    requires Numbered(w) && after.sessions == w.sessions && after.gone == w.gone && after.nextRecord == w.nextRecord
    requires after.rows.Keys == w.rows.Keys && |after.tasks| == |w.tasks|
    requires forall i :: 0 <= i < |w.tasks| ==> after.tasks[i].key == w.tasks[i].key
    ensures Numbered(after)
  {
    assert forall x :: x in w.sessions ==> TodoOk(w, x);
    assert forall k :: k in after.rows ==> k in w.rows.Keys;
  }

  // -- every step hands the answer on -----------------------------------------------------------

  lemma ShrinkKeepsSteady(w: World, after: World, t: Job)
    requires Steady(w, t) && Shrinks(w, after, t.key.to)
    ensures Steady(after, t)
  {
  }

  lemma TaskStays(w: World, after: World, k: Key)
    requires HasTask(w, k) && w.tasks <= after.tasks && Shrinks(w, after, k.to)
    ensures HasTask(after, k)
  {
    var i :| 0 <= i < |w.tasks| && Answers(w, w.tasks[i], k);
    ShrinkKeepsSteady(w, after, w.tasks[i]);
    assert Answers(after, after.tasks[i], k);
  }

  /** The step has not lost the session that is about to give the row a task, or the
      row has got it. */
  lemma ArrivalStays(w: World, s: nat, a: RegistryAct, k: Key)
    requires CanRegistry(w, s, a) && PhasesOk(w) && Numbered(w) && !Rollback(Registry(s, a))
    requires k in w.rows && IsHeld(w.rows, k) && HasArrival(w, k)
    ensures var after := AfterRegistry(w, s, a);
            HasArrival(after, k) || HasTask(after, k)
  {
    var after := AfterRegistry(w, s, a);
    var x :| x in w.sessions && Arriving(w, x, k);
    assert PhaseOk(w, x);
    if x != s || !a.Spawn? || w.sessions[x].phase.todo[0] != k.rec {
      assert Arriving(after, x, k);
    } else {
      assert Answers(after, after.tasks[|w.tasks|], k);
    }
  }

  lemma RegistryKeepsOwned(w: World, s: nat, a: RegistryAct, k: Key)
    requires CanRegistry(w, s, a) && PhasesOk(w) && Numbered(w) && !Rollback(Registry(s, a))
    requires k in w.rows && IsHeld(w.rows, k) && Owned(w, k)
    ensures Owned(AfterRegistry(w, s, a), k)
  {
    var after := AfterRegistry(w, s, a);
    RegistryShrinks(w, s, a, k.to);
    if !Shrinks(w, after, k.to) {
      assert Arriving(after, s, k);
    } else if HasTask(w, k) {
      TaskStays(w, after, k);
    } else if HasArrival(w, k) {
      ArrivalStays(w, s, a, k);
    }
  }

  lemma MovedStaysSteady(w: World, i: nat, a: TaskAct)
    requires CanDeliver(w, i, a) && OneHolder(w) && Steady(w, w.tasks[i])
    ensures Moved(w, i, a).1.None? ==> Steady(w, AfterDeliver(w, i, a).tasks[i])
  {
  }

  lemma DeliverKeepsOwned(w: World, i: nat, a: TaskAct, k: Key)
    requires CanDeliver(w, i, a) && OneHolder(w)
    requires Owned(w, k) && k in w.rows && IsHeld(AfterDeliver(w, i, a).rows, k)
    ensures Owned(AfterDeliver(w, i, a), k)
  {
    var after := AfterDeliver(w, i, a);
    if HasTask(w, k) {
      var j :| 0 <= j < |w.tasks| && Answers(w, w.tasks[j], k);
      if j == i {
        MovedStaysSteady(w, i, a);
      }
      ShrinkKeepsSteady(w, after, after.tasks[j]);
      assert Answers(after, after.tasks[j], k);
    } else if HasArrival(w, k) {
      var x :| x in w.sessions && Arriving(w, x, k);
      assert Arriving(after, x, k);
    }
  }

  lemma WindowKeepsOwned(w: World, a: GraceAct, k: Key)
    requires CanWindow(w, a) && PhasesOk(w)
    requires k in w.rows && IsHeld(w.rows, k) && Owned(w, k) && IsHeld(AfterWindow(w, a).rows, k)
    ensures Owned(AfterWindow(w, a), k)
  {
    var after := AfterWindow(w, a);
    if HasTask(w, k) {
      TaskStays(w, after, k);
    } else if HasArrival(w, k) {
      var x :| x in w.sessions && Arriving(w, x, k);
      assert Arriving(after, x, k);
    } else {
      assert a.Found? ==> PhaseOk(w, a.x);
    }
  }

  lemma MessageKeepsOwned(w: World, a: MessageAct, k: Key)
    requires AllOwned(w) && IsHeld(AfterMessage(w, a).rows, k)
    ensures Owned(AfterMessage(w, a), k)
  {
    var after := AfterMessage(w, a);
    if a.Send? && k in Addressees(a.held, a.absent, w.nextRecord) {
      var i :| 0 <= i < |a.held| && a.held[i] == k.to;
      assert Answers(after, after.tasks[|w.tasks| + i], k);
    } else {
      assert IsHeld(w.rows, k) && Owned(w, k);
      if HasTask(w, k) {
        TaskStays(w, after, k);
      } else if HasArrival(w, k) {
        var x :| x in w.sessions && Arriving(w, x, k);
        assert Arriving(after, x, k);
      }
    }
  }

  lemma StepKeepsOwned(w: World, e: Step)
    requires Safe(w) && Numbered(w) && AllOwned(w) && Can(w, e) && !Rollback(e)
    ensures AllOwned(Next(w, e))
  {
    forall k | k in Next(w, e).rows && IsHeld(Next(w, e).rows, k)
      ensures Owned(Next(w, e), k)
    {
      match e
      case Registry(s, a) => RegistryKeepsOwned(w, s, a, k);
      case Deliver(i, a) => DeliverKeepsOwned(w, i, a, k);
      case Window(a) => WindowKeepsOwned(w, a, k);
      case Message(a) => MessageKeepsOwned(w, a, k);
    }
  }

  // -- theorems over whole runs -----------------------------------------------------------------

  lemma {:induction false} RunIsNumbered(rows: map<Key, Acks.AckState>, nextRecord: nat, steps: seq<Step>)
    requires BootsFrom(rows, nextRecord) && Run(Boot(rows, nextRecord), steps).Some?
    ensures Numbered(Run(Boot(rows, nextRecord), steps).value)
  {
    if steps != [] {
      RunIsNumbered(rows, nextRecord, steps[..|steps| - 1]);
      RunLast(Boot(rows, nextRecord), steps);
      StepKeepsNumbers(Run(Boot(rows, nextRecord), steps[..|steps| - 1]).value, steps[|steps| - 1]);
    }
  }

  /** As long as no registration is rolled back, no held row is ever orphaned. */
  lemma {:induction false} NoOrphan(rows: map<Key, Acks.AckState>, nextRecord: nat, steps: seq<Step>)
    requires BootsFrom(rows, nextRecord) && Run(Boot(rows, nextRecord), steps).Some?
    requires forall e :: e in steps ==> !Rollback(e)
    ensures AllOwned(Run(Boot(rows, nextRecord), steps).value)
  {
    if steps != [] {
      var n := |steps| - 1;
      RunLast(Boot(rows, nextRecord), steps);
      NoOrphan(rows, nextRecord, steps[..n]);
      RunIsSafe(rows, nextRecord, steps[..n]);
      RunIsNumbered(rows, nextRecord, steps[..n]);
      StepKeepsOwned(Run(Boot(rows, nextRecord), steps[..n]).value, steps[n]);
    }
  }

  /** Nothing is left to do: no task runs, no session is busy, and the grace window
      is over. */
  predicate Quiescent(w: World) {
    && (forall i :: 0 <= i < |w.tasks| ==> w.tasks[i].pc.Exited?)
    && (forall s :: s in w.sessions ==> w.sessions[s].phase.Idle?)
    && w.grace == Sweeping({})
  }

  /** Once everything has run down, no row is still held. */
  lemma {:induction false} QuiescentHoldsNothing(rows: map<Key, Acks.AckState>, nextRecord: nat, steps: seq<Step>,
                                                 k: Key)
    requires BootsFrom(rows, nextRecord) && Run(Boot(rows, nextRecord), steps).Some?
    requires forall e :: e in steps ==> !Rollback(e)
    requires Quiescent(Run(Boot(rows, nextRecord), steps).value)
    ensures !IsHeld(Run(Boot(rows, nextRecord), steps).value.rows, k)
  {
    NoOrphan(rows, nextRecord, steps);
  }

  /** A row that was reported is never held again. */
  lemma StepNeverHoldsAgain(w: World, e: Step, k: Key)
    requires Can(w, e) && Numbered(w) && k in w.rows && k in Next(w, e).rows
    ensures Acks.Rank(w.rows[k]) <= Acks.Rank(Next(w, e).rows[k])
  {
    match e
    case Registry(s, a) =>
      if a.Fail? {
        AckRanksRise(w.rows, Key(w.sessions[s].phase.todo[0], w.sessions[s].principal.value), Acks.Failed, k);
      }
    case Deliver(i, a) =>
      var ack := Moved(w, i, a).1;
      if ack.Some? {
        AckRanksRise(w.rows, w.tasks[i].key, ack.value, k);
      }
    case Window(g) =>
    case Message(m) =>
  }

  lemma AckRanksRise(rows: map<Key, Acks.AckState>, at: Key, s: Acks.AckState, k: Key)
    requires k in rows
    ensures k in Acked(rows, at, s) && Acks.Rank(rows[k]) <= Acks.Rank(Acked(rows, at, s)[k])
  {
  }

  /** Only a task that talks to its recipient can have given the message, and the row
      of a message that was given and is done with is no longer held. */
  predicate TidyTask(w: World, t: Job) {
    && (t.given ==> t.pc.InCall? || t.pc.Attempt? || t.pc.Finishing? || t.pc.Exited?)
    && (t.pc.Finishing? ==> t.given)
    && (IsHeld(w.rows, t.key) && t.given ==> t.pc.InCall? || t.pc.Attempt?)
  }

  predicate Tidy(w: World) {
    forall i :: 0 <= i < |w.tasks| ==> TidyTask(w, w.tasks[i])
  }

  lemma DeliverKeepsTidy(w: World, i: nat, a: TaskAct)
    requires CanDeliver(w, i, a) && Tidy(w)
    ensures Tidy(AfterDeliver(w, i, a))
  {
    var after := AfterDeliver(w, i, a);
    assert TidyTask(w, w.tasks[i]);
    forall j | 0 <= j < |after.tasks|
      ensures TidyTask(after, after.tasks[j])
    {
      assert j != i ==> TidyTask(w, w.tasks[j]);
    }
  }

  lemma StepKeepsTidy(w: World, e: Step)
    requires Can(w, e) && Numbered(w) && Tidy(w)
    ensures Tidy(Next(w, e))
  {
    if e.Deliver? {
      DeliverKeepsTidy(w, e.i, e.t);
    } else {
      var after := Next(w, e);
      forall j | 0 <= j < |after.tasks|
        ensures TidyTask(after, after.tasks[j])
      {
        assert j < |w.tasks| ==> after.tasks[j] == w.tasks[j] && TidyTask(w, w.tasks[j]);
        assert j < |w.tasks| && IsHeld(after.rows, w.tasks[j].key) ==> IsHeld(w.rows, w.tasks[j].key);
      }
    }
  }

  lemma {:induction false} RunIsTidy(rows: map<Key, Acks.AckState>, nextRecord: nat, steps: seq<Step>)
    requires BootsFrom(rows, nextRecord) && Run(Boot(rows, nextRecord), steps).Some?
    ensures Tidy(Run(Boot(rows, nextRecord), steps).value)
  {
    if steps != [] {
      var n := |steps| - 1;
      RunLast(Boot(rows, nextRecord), steps);
      RunIsTidy(rows, nextRecord, steps[..n]);
      RunIsNumbered(rows, nextRecord, steps[..n]);
      StepKeepsTidy(Run(Boot(rows, nextRecord), steps[..n]).value, steps[n]);
    }
  }

  // -- failing a row while its recipient is there -------------------------------------------------

  lemma StillHeldIff(w: World, name: string)
    requires Balanced(w)
    ensures HeldName(w, name) <==> w.binds[name] > w.releases[name]
  {
  }

  lemma NobodyLeftToSee(w: World, name: string, from: nat)
    requires ScanSound(w, {}, name, from) && HeldName(w, name)
    ensures w.binds[name] > from
  {
    var x :| x in w.sessions && HoldsAttached(w, x, name);
  }

  /** A lookup that fails a row as disconnected does so while an attached session
      holds the name if and only if the name was bound since the lookup began and
      has not been given up since. */
  lemma MissHeldIff(w: World, i: nat)
    requires Safe(w) && CanDeliver(w, i, Miss)
    ensures var name := w.tasks[i].key.to;
            HeldName(w, name) <==> w.binds[name] > w.tasks[i].pc.from && w.binds[name] > w.releases[name]
  {
    var t := w.tasks[i];
    assert JobSound(w, t);
    StillHeldIff(w, t.key.to);
    if HeldName(w, t.key.to) {
      NobodyLeftToSee(w, t.key.to, t.pc.from);
    }
  }

  /** The same for the sweep of a session that left, counted from its leaving. */
  lemma SweepHeldIff(w: World, s: nat)
    requires Safe(w) && CanRegistry(w, s, Fail)
    ensures var name := w.sessions[s].principal.value;
            HeldName(w, name) <==> w.binds[name] > w.sessions[s].left && w.binds[name] > w.releases[name]
  {
    var name := w.sessions[s].principal.value;
    assert PhaseOk(w, s) && LeftSound(w, s);
    StillHeldIff(w, name);
  }

  /** The same for the sweep that ends the grace window, counted from its look at
      the row. */
  lemma GraceHeldIff(w: World)
    requires Safe(w) && CanWindow(w, Gone)
    ensures var name := w.grace.asked.to;
            HeldName(w, name) <==> w.binds[name] > w.grace.from && w.binds[name] > w.releases[name]
  {
    StillHeldIff(w, w.grace.asked.to);
    if HeldName(w, w.grace.asked.to) {
      NobodyLeftToSee(w, w.grace.asked.to, w.grace.from);
    }
  }
}
