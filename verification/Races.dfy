/** Runs the broker allows that end worse than its comments suggest. */
module Races {
  import opened Wrappers
  import opened Ownership
  import Acks
  import Rollbacks

  const NAME: string := "@b"
  const ROW: Key := Key(1, NAME)
  const START: World := Boot(map[], 1)

  const FREE: Session := Session(true, None, Idle, 0)
  const BOUND: Session := Session(true, Some(NAME), Persisting, 0)
  const LISTING: Session := Session(true, Some(NAME), Listing, 0)
  const HOLDER: Session := Session(true, Some(NAME), Idle, 0)

  /** How often the name was bound and given up, and the message given. */
  datatype Tally = Tally(binds: nat, releases: nat, given: nat)

  /** Two sessions, after the grace window, with at most one message in the store. */
  function Scene(first: Session, second: Session, rows: map<Key, Acks.AckState>, tasks: seq<Job>, t: Tally,
                 next: nat): World {
    World(map[1 := first, 2 := second], None, rows, tasks, Sweeping({}),
          multiset{}[NAME := t.binds], multiset{}[NAME := t.releases], multiset{}[ROW := t.given], {}, next)
  }

  ghost predicate Leads(steps: seq<Step>, w: World) {
    Run(START, steps) == Some(w) && forall e :: e in steps ==> !Rollback(e)
  }

  lemma Add(steps: seq<Step>, w: World, e: Step) returns (longer: seq<Step>, after: World)
    requires Leads(steps, w) && Can(w, e) && !Rollback(e)
    ensures after == Next(w, e) && Leads(longer, after)
  {
    longer, after := steps + [e], Next(w, e);
    assert longer[..|steps|] == steps;
  }

  function Pair(s: nat, x: Session, other: Session): (Session, Session) {
    if s == 1 then (x, other) else (other, x)
  }

  /** Session `s` claims the free name and scans both sessions. */
  lemma Scans(steps: seq<Step>, w: World, s: nat) returns (longer: seq<Step>, after: World)
    requires Leads(steps, w) && s in w.sessions && w.sessions[s] == FREE && w.lock == None
    requires Attached(w) <= {1, 2} && (forall x :: x in w.sessions ==> !HoldsAttached(w, x, NAME)) && s in {1, 2}
    ensures Leads(longer, after)
    ensures after == w.(sessions := w.sessions[s := Session(true, None, Claiming(NAME, {}), 0)], lock := Some(s))
  {
    longer, after := Add(steps, w, Registry(s, Claim(NAME)));
    if 1 in Attached(w) {
      longer, after := Add(longer, after, Registry(s, Pass(1)));
    }
    if 2 in Attached(w) {
      longer, after := Add(longer, after, Registry(s, Pass(2)));
    }
    assert after.sessions[s].phase.unseen == {};
  }

  /** It finds no holder and binds. */
  lemma Binds(steps: seq<Step>, w: World, s: nat) returns (longer: seq<Step>, after: World)
    requires Leads(steps, w) && s in w.sessions && w.sessions[s] == FREE && w.lock == None
    requires Attached(w) <= {1, 2} && (forall x :: x in w.sessions ==> !HoldsAttached(w, x, NAME)) && s in {1, 2}
    ensures Leads(longer, after)
    ensures after == w.(sessions := w.sessions[s := BOUND], binds := w.binds + multiset{NAME})
  {
    longer, after := Scans(steps, w, s);
    longer, after := Add(longer, after, Registry(s, Bind));
  }

  /** It persists its registration, and lists and spawns what is held for it. */
  lemma Drains(steps: seq<Step>, w: World, s: nat, listed: bool) returns (longer: seq<Step>, after: World)
    requires Leads(steps, w) && s in w.sessions && w.sessions[s] == LISTING && w.gone == {}
    requires ListsHeld(w.rows, NAME, if listed then [1] else [])
    ensures Leads(longer, after)
    ensures after == w.(sessions := w.sessions[s := HOLDER],
                        tasks := w.tasks + if listed then [Job(ROW, New, false)] else [])
  {
    longer, after := Add(steps, w, Registry(s, List(if listed then [1] else [])));
    if listed {
      longer, after := Add(longer, after, Registry(s, Spawn));
      assert [1][1..] == [];
    }
    longer, after := Add(longer, after, Registry(s, Settle));
    assert w.tasks + [] == w.tasks;
  }

  lemma Registers(steps: seq<Step>, w: World, s: nat, listed: bool) returns (longer: seq<Step>, after: World)
    requires Leads(steps, w) && s in w.sessions && w.sessions[s] == FREE && w.lock == None && w.gone == {}
    requires Attached(w) <= {1, 2} && (forall x :: x in w.sessions ==> !HoldsAttached(w, x, NAME)) && s in {1, 2}
    requires ListsHeld(w.rows, NAME, if listed then [1] else [])
    ensures Leads(longer, after)
    ensures after == w.(sessions := w.sessions[s := HOLDER], binds := w.binds + multiset{NAME},
                        tasks := w.tasks + if listed then [Job(ROW, New, false)] else [])
  {
    longer, after := Binds(steps, w, s);
    longer, after := Add(longer, after, Registry(s, Persist(true)));
    longer, after := Drains(longer, after, s, listed);
  }

  /** Task `i` looks its recipient up, finds the first session, and gives it the
      message. */
  lemma GivesTo(steps: seq<Step>, w: World, i: nat) returns (longer: seq<Step>, after: World)
    requires Leads(steps, w) && HoldsAttached(w, 1, NAME) && i < |w.tasks| && w.tasks[i] == Job(ROW, New, false)
    ensures Leads(longer, after)
    ensures after == w.(tasks := w.tasks[i := Job(ROW, InCall, true)], injected := w.injected + multiset{ROW})
  {
    longer, after := Add(steps, w, Deliver(i, Begin));
    longer, after := Add(longer, after, Deliver(i, Hit(1, false)));
    longer, after := Add(longer, after, Deliver(i, Give));
    assert after.tasks == w.tasks[i := Job(ROW, InCall, true)];
  }

  /** Two sessions are attached and the grace window has found nothing. */
  lemma Opens() returns (steps: seq<Step>, w: World)
    ensures Leads(steps, w)
    ensures w == Scene(FREE, FREE, map[], [], Tally(0, 0, 0), 1)
  {
    steps, w := Add([], START, Window(Open));
    steps, w := Add(steps, w, Registry(1, Attach));
    steps, w := Add(steps, w, Registry(2, Attach));
    assert HeldKeys(map[]) == {} && multiset{} == multiset{}[NAME := 0] && multiset{} == multiset{}[ROW := 0];
  }

  /** One message to whoever holds the name. */
  lemma Sends(steps: seq<Step>, w: World) returns (longer: seq<Step>, after: World)
    requires Leads(steps, w) && w.rows == map[] && w.tasks == [] && w.nextRecord == 1
    ensures Leads(longer, after)
    ensures after == w.(rows := map[ROW := Acks.Held], tasks := [Job(ROW, New, false)], nextRecord := 2)
  {
    assert [NAME] + [] == [NAME];
    longer, after := Add(steps, w, Message(Send([NAME], [])));
    assert Addressees([NAME], [], 1) == map[ROW := Acks.Held] && SpawnedFor([NAME], 1) == [Job(ROW, New, false)];
  }

  /** The first session is registered and one message is sent to it. */
  lemma SentOnce() returns (steps: seq<Step>, w: World)
    ensures Leads(steps, w)
    ensures w == Scene(HOLDER, FREE, map[ROW := Acks.Held], [Job(ROW, New, false)], Tally(1, 0, 0), 2)
  {
    steps, w := Opens();
    steps, w := Registers(steps, w, 1, false);
    steps, w := Sends(steps, w);
    assert multiset{}[NAME := 0] + multiset{NAME} == multiset{}[NAME := 1];
  }

  /** Deregistering and registering again drains a row whose first task has given the
      message and waits for its answer: the message is given twice. */
  lemma RegisteredAgain()
    ensures exists steps, w :: Leads(steps, w) && w.injected[ROW] == 2
  {
    var steps, w := SentOnce();
    steps, w := GivesTo(steps, w, 0);
    steps, w := Add(steps, w, Registry(1, Deregister));
    assert w.sessions == map[1 := FREE, 2 := FREE];
    steps, w := Registers(steps, w, 1, true);
    steps, w := GivesTo(steps, w, 1);
    assert w.injected == multiset{}[ROW := 0] + multiset{ROW} + multiset{ROW};
  }

  /** A send that lands between the bind and the drain leaves its row to both: the
      message is given twice. */
  lemma SentWhileRegistering()
    ensures exists steps, w :: Leads(steps, w) && w.injected[ROW] == 2
  {
    var steps, w := Opens();
    steps, w := Binds(steps, w, 1);
    steps, w := Sends(steps, w);
    steps, w := Add(steps, w, Registry(1, Persist(true)));
    steps, w := Drains(steps, w, 1, true);
    steps, w := GivesTo(steps, w, 0);
    steps, w := GivesTo(steps, w, 1);
    assert w.injected == multiset{}[ROW := 0] + multiset{ROW} + multiset{ROW};
  }

  /** A row fails while an attached session holds its name. */
  ghost predicate FailsHeld(w: World, e: Step) {
    && Can(w, e) && HeldName(w, NAME) && IsHeld(w.rows, ROW)
    && ROW in Next(w, e).rows && Next(w, e).rows[ROW] == Acks.Failed
  }

  /** The sweep of a session that left fails a row that the next session of the same
      name is delivering. */
  lemma SweptFromUnderANewSession()
    ensures exists steps, w ::
              Leads(steps, w) && FailsHeld(w, Registry(1, Fail)) && |w.tasks| == 2 && w.tasks[1] == Job(ROW, New, false)
  {
    var steps, w := SentOnce();
    steps, w := Leaves(steps, w);
    steps, w := Registers(steps, w, 2, true);
    steps, w := Add(steps, w, Registry(1, List([1])));
    assert HoldsAttached(w, 2, NAME);
  }

  /** The holder detaches, with its sweep yet to come. */
  lemma Leaves(steps: seq<Step>, w: World) returns (longer: seq<Step>, after: World)
    requires Leads(steps, w)
    requires w == Scene(HOLDER, FREE, map[ROW := Acks.Held], [Job(ROW, New, false)], Tally(1, 0, 0), 2)
    ensures Leads(longer, after) && Attached(after) == {2} && after.lock == None && after.gone == {}
    ensures after.sessions == map[1 := Session(false, Some(NAME), Leaving, 1), 2 := FREE]
    ensures after.rows == w.rows && after.tasks == w.tasks
  {
    longer, after := Add(steps, w, Registry(1, Detach));
    assert after.sessions == map[1 := Session(false, Some(NAME), Leaving, 1), 2 := FREE];
  }

  /** A lookup misses the session that took the name behind its back, and fails the
      row. */
  lemma MissedTheNewHolder()
    ensures exists steps, w :: Leads(steps, w) && FailsHeld(w, Deliver(0, Miss))
  {
    var steps, w := SentOnce();
    steps, w := VisitsBoth(steps, w);
    steps, w := Binds(steps, w, 2);
    assert HoldsAttached(w, 2, NAME);
  }

  /** The task visits the second session before, and the first after the name is given
      up. */
  lemma VisitsBoth(steps: seq<Step>, w: World) returns (longer: seq<Step>, after: World)
    requires Leads(steps, w)
    requires w == Scene(HOLDER, FREE, map[ROW := Acks.Held], [Job(ROW, New, false)], Tally(1, 0, 0), 2)
    ensures Leads(longer, after) && after.sessions == map[1 := FREE, 2 := FREE] && after.lock == None
            && after.rows == w.rows
    ensures after.tasks == [Job(ROW, Looking({}, 1), false)]
  {
    longer, after := Add(steps, w, Deliver(0, Begin));
    assert Attached(w) == {1, 2};
    longer, after := Add(longer, after, Deliver(0, Visit(2)));
    assert after.tasks == [Job(ROW, Looking({1}, 1), false)] by { assert {1, 2} - {2} == {1}; }
    longer, after := Add(longer, after, Registry(1, Deregister));
    assert after.sessions == map[1 := FREE, 2 := FREE];
    longer, after := Add(longer, after, Deliver(0, Visit(1)));
    assert {1} - {1} == {};
  }

  /** A task gives way to a newer session whose registration then fails: nobody is
      left to deliver the row or to fail it. */
  lemma OrphanedByRollback()
    ensures exists steps, w :: Leads(steps, w) && Can(w, Registry(2, Persist(false))) && AllOwned(w)
              && Rollbacks.Abandoned(Next(w, Registry(2, Persist(false))), ROW)
  {
    var steps, w := SentOnce();
    steps, w := Retries(steps, w);
    steps, w := Add(steps, w, Registry(1, Deregister));
    assert w.sessions == map[1 := FREE, 2 := FREE] && Attached(w) == {1, 2};
    steps, w := Binds(steps, w, 2);
    steps, w := Overtaken(steps, w);
    Orphans(w);
  }

  lemma Orphans(w: World)
    requires w.sessions == map[1 := FREE, 2 := BOUND] && w.rows == map[ROW := Acks.Held]
             && w.tasks == [Job(ROW, Exited, false)]
    requires w.binds[NAME] > 0
    ensures Can(w, Registry(2, Persist(false))) && AllOwned(w)
            && Rollbacks.Abandoned(Next(w, Registry(2, Persist(false))), ROW)
  {
    assert Arriving(w, 2, ROW);
    var after := Next(w, Registry(2, Persist(false)));
    assert after.sessions == map[1 := FREE, 2 := FREE];
  }

  /** The task is about to retry with the first session. */
  lemma Retries(steps: seq<Step>, w: World) returns (longer: seq<Step>, after: World)
    requires Leads(steps, w) && HoldsAttached(w, 1, NAME) && w.tasks == [Job(ROW, New, false)]
    ensures Leads(longer, after) && after == w.(tasks := [Job(ROW, Loop(1), false)])
  {
    longer, after := Add(steps, w, Deliver(0, Begin));
    longer, after := Add(longer, after, Deliver(0, Hit(1, true)));
  }

  /** The first session's task finds the name with the second, and exits. */
  lemma Overtaken(steps: seq<Step>, w: World) returns (longer: seq<Step>, after: World)
    requires Leads(steps, w) && HoldsAttached(w, 2, NAME) && w.tasks == [Job(ROW, Loop(1), false)]
    ensures Leads(longer, after) && after == w.(tasks := [Job(ROW, Exited, false)])
  {
    longer, after := Add(steps, w, Deliver(0, Begin));
    longer, after := Add(longer, after, Deliver(0, Hit(2, true)));
  }
}
