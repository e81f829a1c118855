/** The supervisor of the shared app-server: it probes the endpoint, adopts a
    server that answers, starts one when there is none, and backs off. What it
    did is kept as a history, and every rule is stated over histories. */
module Supervisor {
  import opened Backoff
  import opened Wrappers

  datatype Timings = Timings(
    poll: nat, first: nat, max: nat, verifyFirst: nat, verifyMax: nat, stableUptime: nat, debounce: nat)

  datatype Probe = Ready | Absent | Occupied

  datatype Mark =
    | Probed(probe: Probe, at: nat)
    | Verified(ok: bool, at: nat)
    | Reset(at: nat)
    | Spawned(ok: bool, at: nat)
    | Exited(at: nat)
    | Paused(ms: nat, from: nat, until: nat)
    | Rested(from: nat, until: nat)

  /** What one turn of the loop meets: the probe and how long it took, whether a
      verification or a start would succeed, how long into the rest a running
      child exits, if it does, and by how much sleeps overrun. */
  datatype Round = Round(probe: Probe, probing: nat, verifies: bool, verifying: nat, spawns: bool, exit: Option<nat>,
                         overrun: nat)

  function Began(m: Mark): nat {
    match m
    case Paused(_, from, _) => from
    case Rested(from, _) => from
    case _ => m.at
  }

  function Ended(m: Mark): nat {
    match m
    case Paused(_, _, until) => until
    case Rested(_, until) => until
    case _ => m.at
  }

  // -- the state, read off the history ------------------------------------------------

  function Now(h: seq<Mark>, start: nat): nat {
    if h == [] then start else Ended(h[|h| - 1])
  }

  function HasChild(h: seq<Mark>): bool {
    h != [] &&
    match h[|h| - 1]
    case Spawned(ok, _) => ok || HasChild(h[..|h| - 1])
    case Exited(_) => false
    case _ => HasChild(h[..|h| - 1])
  }

  /** Absent probes in a row, not counting those before the last start. */
  function AbsentReads(h: seq<Mark>): nat {
    if h == [] then 0
    else
      match h[|h| - 1]
      case Probed(probe, _) => if probe.Absent? then AbsentReads(h[..|h| - 1]) + 1 else 0
      case Spawned(_, _) => 0
      case _ => AbsentReads(h[..|h| - 1])
  }

  /** Since when the server has been verified and not seen to be gone. */
  function HealthySince(h: seq<Mark>): Option<nat> {
    if h == [] then None
    else
      match h[|h| - 1]
      case Verified(ok, at) => if ok then Some(at) else None
      case Probed(probe, _) => if probe.Ready? then HealthySince(h[..|h| - 1]) else None
      case Exited(_) => None
      case _ => HealthySince(h[..|h| - 1])
  }

  function BackoffOf(t: Timings, h: seq<Mark>): nat {
    if h == [] then t.first
    else
      match h[|h| - 1]
      case Reset(_) => t.first
      case Paused(_, _, _) => Doubled(BackoffOf(t, h[..|h| - 1]), t.max)
      case _ => BackoffOf(t, h[..|h| - 1])
  }

  /** Failed verifications since a success or a probe that was not ready. */
  function Failures(h: seq<Mark>): nat {
    if h == [] then 0
    else
      match h[|h| - 1]
      case Verified(ok, _) => if ok then 0 else Failures(h[..|h| - 1]) + 1
      case Probed(probe, _) => if probe.Ready? then Failures(h[..|h| - 1]) else 0
      case _ => Failures(h[..|h| - 1])
  }

  /** Not to verify again before this time. */
  function NextVerify(t: Timings, h: seq<Mark>): Option<nat> {
    if h == [] then None
    else
      match h[|h| - 1]
      case Verified(ok, at) => if ok then None else Some(at + Wait(t.verifyFirst, t.verifyMax, Failures(h[..|h| - 1])))
      case Probed(probe, _) => if probe.Ready? then NextVerify(t, h[..|h| - 1]) else None
      case _ => NextVerify(t, h[..|h| - 1])
  }

  predicate Due(t: Timings, h: seq<Mark>, at: nat) {
    NextVerify(t, h).None? || at >= NextVerify(t, h).value
  }

  // -- what may come next ----------------------------------------------------------------

  predicate Rests(t: Timings, h: seq<Mark>, m: Mark) {
    (m.Rested? && m.until >= m.from + t.poll) || (m.Exited? && HasChild(h))
  }

  /** `m` is what the supervisor does after history `h`. */
  predicate Follows(t: Timings, h: seq<Mark>, m: Mark) {
    if h == [] then m.Probed?
    else
      match h[|h| - 1]
      case Rested(_, _) => m.Probed?
      case Paused(_, _, _) => m.Probed?
      case Probed(Ready, at) =>
        if HealthySince(h).None? && Due(t, h, at) then m.Verified?
        else if HealthySince(h).Some? && at >= HealthySince(h).value + t.stableUptime then m.Reset?
        else Rests(t, h, m)
      case Probed(Occupied, _) => Rests(t, h, m)
      case Probed(Absent, _) => if AbsentReads(h) >= t.debounce && !HasChild(h) then m.Spawned? else Rests(t, h, m)
      case Verified(_, _) => Rests(t, h, m)
      case Reset(_) => Rests(t, h, m)
      case Spawned(ok, _) => if ok then Rests(t, h, m) else Pauses(t, h, m)
      case Exited(_) => Pauses(t, h, m)
  }

  predicate Pauses(t: Timings, h: seq<Mark>, m: Mark) {
    m.Paused? && m.ms == BackoffOf(t, h) && m.until >= m.from + m.ms
  }

  predicate Lawful(t: Timings, start: nat, h: seq<Mark>) {
    h == [] ||
    (var n := |h| - 1;
     Lawful(t, start, h[..n]) && Follows(t, h[..n], h[n]) && Now(h[..n], start) <= Began(h[n]) <= Ended(h[n]))
  }

  function Probes(h: seq<Mark>): seq<Probe> {
    if h == [] then []
    else if h[|h| - 1].Probed? then Probes(h[..|h| - 1]) + [h[|h| - 1].probe]
    else Probes(h[..|h| - 1])
  }

  lemma Extends(t: Timings, start: nat, h: seq<Mark>, m: Mark)
    requires Lawful(t, start, h) && Follows(t, h, m) && Now(h, start) <= Began(m) <= Ended(m)
    ensures Lawful(t, start, h + [m]) && Probes(h + [m]) == Probes(h) + if m.Probed? then [m.probe] else []
  {
    assert (h + [m])[..|h|] == h;
  }

  /** The variables of the loop. */
  datatype Vars = Vars(
    child: bool, verified: bool, absentReads: nat, healthySince: Option<nat>, backoff: nat, verifyBackoff: nat,
    nextVerify: Option<nat>)

  /** What the variables must be after this history. */
  function VarsOf(t: Timings, h: seq<Mark>): Vars {
    Vars(HasChild(h), HealthySince(h).Some?, AbsentReads(h), HealthySince(h), BackoffOf(t, h),
         Wait(t.verifyFirst, t.verifyMax, Failures(h)), NextVerify(t, h))
  }

  /** The variables after a probe. */
  function Seen(t: Timings, v: Vars, probe: Probe): Vars {
    match probe
    case Ready => v.(absentReads := 0)
    case Occupied => v.(absentReads := 0, verified := false, healthySince := None, verifyBackoff := t.verifyFirst,
                        nextVerify := None)
    case Absent => v.(absentReads := v.absentReads + 1, verified := false, healthySince := None,
                      verifyBackoff := t.verifyFirst, nextVerify := None)
  }

  lemma ProbeSeen(t: Timings, h: seq<Mark>, probe: Probe, at: nat)
    ensures VarsOf(t, h + [Probed(probe, at)]) == Seen(t, VarsOf(t, h), probe)
  {
    assert (h + [Probed(probe, at)])[..|h|] == h;
  }

  lemma ProbeExtends(t: Timings, start: nat, h: seq<Mark>, probe: Probe, at: nat)
    requires Lawful(t, start, h) && TurnOver(h) && Now(h, start) <= at
    ensures Lawful(t, start, h + [Probed(probe, at)]) && Probes(h + [Probed(probe, at)]) == Probes(h) + [probe]
    ensures Now(h + [Probed(probe, at)], start) == at
  {
    Extends(t, start, h, Probed(probe, at));
  }

  function ProbesOf(rounds: seq<Round>): seq<Probe> {
    seq(|rounds|, i requires 0 <= i < |rounds| => rounds[i].probe)
  }

  function Last(h: seq<Mark>): Mark
    requires h != []
  {
    h[|h| - 1]
  }

  /** The turn's probe has been dealt with: the supervisor may rest. */
  predicate MayRest(t: Timings, h: seq<Mark>) {
    h != [] &&
    match Last(h)
    case Verified(_, _) => true
    case Reset(_) => true
    case Spawned(ok, _) => ok
    case Probed(Ready, at) =>
      !(HealthySince(h).None? && Due(t, h, at))
        && !(HealthySince(h).Some? && at >= HealthySince(h).value + t.stableUptime)
    case Probed(Occupied, _) => true
    case Probed(Absent, _) => AbsentReads(h) < t.debounce || HasChild(h)
    case _ => false
  }

  predicate MustPause(h: seq<Mark>) {
    h != [] && (Last(h).Exited? || (Last(h).Spawned? && !Last(h).ok))
  }

  predicate TurnOver(h: seq<Mark>) {
    h == [] || Last(h).Rested? || Last(h).Paused?
  }

  /** The loop and its variables. */
  class Loop {
    const t: Timings
    const start: nat
    var child: bool
    var verified: bool
    var absentReads: nat
    var healthySince: Option<nat>
    var backoff: nat
    var verifyBackoff: nat
    var nextVerify: Option<nat>
    var clock: nat
    var history: seq<Mark>

    constructor (t: Timings, start: nat)
      ensures this.t == t && this.start == start && history == [] && Valid()
    {
      this.t, this.start, clock, history := t, start, start, [];
      child, verified, absentReads, healthySince, nextVerify := false, false, 0, None, None;
      backoff, verifyBackoff := t.first, t.verifyFirst;
    }

    ghost function State(): Vars
      reads this
    {
      Vars(child, verified, absentReads, healthySince, backoff, verifyBackoff, nextVerify)
    }

    ghost predicate Valid()
      reads this
    {
      Lawful(t, start, history) && Now(history, start) == clock && State() == VarsOf(t, history)
    }

    method Note(m: Mark)
      requires Lawful(t, start, history) && Follows(t, history, m) && Now(history, start) <= Began(m) <= Ended(m)
      modifies this`history, this`clock
      ensures history == old(history) + [m] && history[..|old(history)|] == old(history) && Lawful(t, start, history)
      ensures clock == Ended(m) && Probes(history) == old(Probes(history)) + if m.Probed? then [m.probe] else []
    {
      Extends(t, start, history, m);
      history, clock := history + [m], Ended(m);
    }

    method Look(r: Round)
      requires Valid() && TurnOver(history)
      modifies this
      ensures Valid() && history == old(history) + [Probed(r.probe, clock)]
              && Probes(history) == old(Probes(history)) + [r.probe]
    {
      clock := clock + r.probing;
      ghost var v, h := State(), history + [Probed(r.probe, clock)];
      ProbeSeen(t, history, r.probe, clock);
      ProbeExtends(t, start, history, r.probe, clock);
      match r.probe {
        case Ready =>
          absentReads := 0;
        case Occupied =>
          absentReads, verified, healthySince := 0, false, None;
          verifyBackoff, nextVerify := t.verifyFirst, None;
        case Absent =>
          absentReads, verified, healthySince := absentReads + 1, false, None;
          verifyBackoff, nextVerify := t.verifyFirst, None;
      }
      assert State() == Seen(t, v, r.probe) == VarsOf(t, h);
      history := history + [Probed(r.probe, clock)];
    }

    /** A ready endpoint is verified when that is due, and clears the backoff once
        it has been healthy for long enough. */
    method Adopt(r: Round)
      requires Valid() && history != [] && Last(history) == Probed(Ready, clock)
      modifies this
      ensures Valid() && MayRest(t, history) && Probes(history) == old(Probes(history))
    {
      var due := nextVerify.None? || clock >= nextVerify.value;
      if !verified && due {
        Note(Verified(r.verifies, clock + r.verifying));
        if r.verifies {
          verified, healthySince := true, Some(clock);
          verifyBackoff, nextVerify := t.verifyFirst, None;
        } else {
          healthySince, nextVerify := None, Some(clock + verifyBackoff);
          verifyBackoff := Doubled(verifyBackoff, t.verifyMax);
        }
      } else if healthySince.Some? && clock >= healthySince.value + t.stableUptime {
        Note(Reset(clock));
        backoff := t.first;
      }
    }

    /** An endpoint that stays absent is started, unless a child still runs. */
    method Start(r: Round)
      requires Valid() && history != [] && Last(history) == Probed(Absent, clock)
      modifies this
      ensures Valid() && Probes(history) == old(Probes(history)) && (MayRest(t, history) || MustPause(history))
    {
      if absentReads >= t.debounce && !child {
        Note(Spawned(r.spawns, clock));
        child, absentReads := r.spawns, 0;
      }
    }

    /** Rests for the poll interval, or until the child exits. */
    method Rest(r: Round)
      requires Valid() && MayRest(t, history)
      modifies this
      ensures Valid() && Probes(history) == old(Probes(history)) && (TurnOver(history) || MustPause(history))
    {
      if child && r.exit.Some? {
        Note(Exited(clock + r.exit.value));
        child, verified, healthySince := false, false, None;
      } else {
        Note(Rested(clock, clock + t.poll + r.overrun));
      }
    }

    method Pause(r: Round)
      requires Valid() && MustPause(history)
      modifies this
      ensures Valid() && Probes(history) == old(Probes(history)) && TurnOver(history)
    {
      Note(Paused(backoff, clock, clock + backoff + r.overrun));
      backoff := Doubled(backoff, t.max);
    }

    /** Any finite stretch of the supervisor against any environment. */
    method Supervise(rounds: seq<Round>)
      requires Valid() && history == []
      modifies this
      ensures Valid() && Probes(history) == ProbesOf(rounds) && TurnOver(history)
    {
      for i := 0 to |rounds|
        invariant Valid() && TurnOver(history) && Probes(history) == ProbesOf(rounds[..i])
      {
        assert ProbesOf(rounds[..i + 1]) == ProbesOf(rounds[..i]) + [rounds[i].probe];
        Look(rounds[i]);
        match rounds[i].probe {
          case Ready => Adopt(rounds[i]);
          case Occupied =>
          case Absent => Start(rounds[i]);
        }
        if !MustPause(history) {
          Rest(rounds[i]);
        }
        if MustPause(history) {
          Pause(rounds[i]);
        }
      }
      assert rounds[..|rounds|] == rounds;
    }
  }

  // -- theorems over lawful histories ---------------------------------------------------

  /** The backoff is never below both its bounds, and above the maximum only if it
      starts there. */
  lemma {:induction false} BackoffInRange(t: Timings, h: seq<Mark>)
    ensures BackoffOf(t, h) >= Min(t.first, t.max)
    ensures BackoffOf(t, h) == t.first || BackoffOf(t, h) <= t.max
  {
    if h != [] {
      BackoffInRange(t, h[..|h| - 1]);
    }
  }

  /** Starts that succeeded, less exits. */
  function Children(h: seq<Mark>): int {
    if h == [] then 0
    else
      Children(h[..|h| - 1])
      + if Last(h) == Spawned(true, Began(Last(h))) then 1 else if Last(h).Exited? then -1 else 0
  }

  /** There is never more than one managed child. */
  lemma {:induction false} AtMostOneChild(t: Timings, start: nat, h: seq<Mark>)
    requires Lawful(t, start, h)
    ensures Children(h) == if HasChild(h) then 1 else 0
  {
    if h != [] {
      AtMostOneChild(t, start, h[..|h| - 1]);
      ExitNeedsChild(t, start, h);
    }
  }

  lemma ExitNeedsChild(t: Timings, start: nat, h: seq<Mark>)
    requires Lawful(t, start, h) && h != []
    ensures Last(h).Exited? ==> HasChild(h[..|h| - 1])
    ensures Last(h).Spawned? ==> !HasChild(h[..|h| - 1]) && AbsentReads(h[..|h| - 1]) >= t.debounce
  {
  }

  lemma PauseIsChildless(t: Timings, start: nat, h: seq<Mark>)
    requires Lawful(t, start, h) && MustPause(h)
    ensures !HasChild(h)
  {
    ExitNeedsChild(t, start, h);
  }

  lemma {:induction false} AbsentRun(h: seq<Mark>)
    ensures AbsentReads(h) <= |Probes(h)|
    ensures forall k :: |Probes(h)| - AbsentReads(h) <= k < |Probes(h)| ==> Probes(h)[k].Absent?
  {
    if h != [] {
      AbsentRun(h[..|h| - 1]);
    }
  }

  lemma {:induction false} LawfulPrefix(t: Timings, start: nat, h: seq<Mark>, i: nat)
    requires Lawful(t, start, h) && i <= |h|
    ensures Lawful(t, start, h[..i]) && Now(h[..i], start) <= Now(h, start)
  {
    if i == |h| {
      assert h[..i] == h;
    } else {
      LawfulPrefix(t, start, h[..|h| - 1], i);
      assert h[..|h| - 1][..i] == h[..i];
    }
  }

  /** Every start has no child to replace and comes after at least `debounce`
      probes in a row that found nothing. */
  lemma {:induction false} StartFollowsAbsence(t: Timings, start: nat, h: seq<Mark>, i: nat)
    requires Lawful(t, start, h) && i < |h| && h[i].Spawned?
    ensures !HasChild(h[..i]) && |Probes(h[..i])| >= t.debounce
    ensures forall k :: |Probes(h[..i])| - t.debounce <= k < |Probes(h[..i])| ==> Probes(h[..i])[k].Absent?
  {
    LawfulPrefix(t, start, h, i + 1);
    assert h[..i + 1][..i] == h[..i];
    ExitNeedsChild(t, start, h[..i + 1]);
    AbsentRun(h[..i]);
  }

  /** From entry `v` on, the server was verified and nothing spoke against it. */
  predicate HealthyFrom(h: seq<Mark>, v: int, since: nat) {
    && 0 <= v < |h| && h[v] == Verified(true, since)
    && forall k :: v < k < |h| ==> !h[k].Exited? && (h[k].Probed? ==> h[k].probe.Ready?) && (h[k].Verified? ==> h[k].ok)
  }

  lemma {:induction false} HealthyHasReason(h: seq<Mark>)
    ensures HealthySince(h).Some? ==> exists v :: HealthyFrom(h, v, HealthySince(h).value)
  {
    if HealthySince(h).Some? {
      var n := |h| - 1;
      if h[n].Verified? {
        assert HealthyFrom(h, n, HealthySince(h).value);
      } else {
        HealthyHasReason(h[..n]);
        var v :| HealthyFrom(h[..n], v, HealthySince(h).value);
        assert HealthyFrom(h, v, HealthySince(h).value);
      }
    }
  }

  /** The backoff is only cleared after a verified healthy period of at least
      `stableUptime`. */
  lemma {:induction false} ResetMeansStable(t: Timings, start: nat, h: seq<Mark>, i: nat)
    requires Lawful(t, start, h) && i < |h| && h[i].Reset?
    ensures exists v: int, since: nat :: HealthyFrom(h[..i], v, since) && h[i].at >= since + t.stableUptime
  {
    LawfulPrefix(t, start, h, i + 1);
    assert h[..i + 1][..i] == h[..i];
    HealthyHasReason(h[..i]);
    var since := HealthySince(h[..i]).value;
    var v :| HealthyFrom(h[..i], v, since);
  }

  /** A verification that is put off implies that the server is not verified. */
  lemma {:induction false} PutOffMeansUnverified(t: Timings, start: nat, h: seq<Mark>)
    requires Lawful(t, start, h)
    ensures VarsOf(t, h).nextVerify.Some? ==> !VarsOf(t, h).verified
  {
    if h != [] {
      PutOffMeansUnverified(t, start, h[..|h| - 1]);
    }
  }

  // -- how fast it can start servers --------------------------------------------------------

  predicate NoReset(h: seq<Mark>, i: nat) {
    forall k :: i <= k < |h| ==> !h[k].Reset?
  }

  /** Starts tried from entry `i` on. */
  function Starts(h: seq<Mark>, i: nat): nat
    requires i <= |h|
  {
    if i == |h| then 0 else Starts(h[..|h| - 1], i) + if Last(h).Spawned? then 1 else 0
  }

  /** A start whose pause is still to come: its child runs, or has just gone. */
  predicate Owes(h: seq<Mark>) {
    HasChild(h) || MustPause(h)
  }

  /** `paid` starts were followed by a pause, and the pauses doubled. */
  ghost predicate Paid(t: Timings, start: nat, h: seq<Mark>, since: nat, paid: int) {
    && paid >= 0 && BackoffOf(t, h) >= Min(t.first * Pow2(paid), t.max)
    && Now(h, start) >= since + CappedSum(t.first, t.max, paid)
  }

  lemma PausePays(t: Timings, start: nat, h: seq<Mark>, since: nat, paid: int)
    requires Lawful(t, start, h) && h != [] && Last(h).Paused? && Paid(t, start, h[..|h| - 1], since, paid)
    ensures Paid(t, start, h, since, paid + 1)
  {
    DoubledAtLeast(t.first, t.max, paid, BackoffOf(t, h[..|h| - 1]));
  }

  lemma OtherKeepsPaid(t: Timings, start: nat, h: seq<Mark>, since: nat, paid: int)
    requires Lawful(t, start, h) && h != [] && !Last(h).Paused? && !Last(h).Reset?
             && Paid(t, start, h[..|h| - 1], since, paid)
    ensures Paid(t, start, h, since, paid)
  {
  }

  /** Whether the last entry changes what is owed. */
  lemma OwingChanges(t: Timings, start: nat, h: seq<Mark>)
    requires Lawful(t, start, h) && h != []
    ensures Last(h).Paused? ==> Owes(h[..|h| - 1]) && !Owes(h)
    ensures Last(h).Spawned? ==> !Owes(h[..|h| - 1]) && Owes(h)
    ensures !Last(h).Paused? && !Last(h).Spawned? ==> Owes(h) == Owes(h[..|h| - 1])
  {
    var n := |h| - 1;
    ExitNeedsChild(t, start, h);
    if Last(h).Paused? {
      PauseIsChildless(t, start, h[..n]);
    } else if Last(h).Spawned? {
      assert Last(h[..n]).Probed?;
    } else {
      assert !MustPause(h[..n]);
    }
  }

  function Owed(h: seq<Mark>): nat {
    if Owes(h) then 1 else 0
  }

  /** Each start but the last was paid for by a pause, and the pauses doubled. */
  lemma {:induction false} StartsArePaid(t: Timings, start: nat, h: seq<Mark>, i: nat)
    requires Lawful(t, start, h) && i < |h| && h[i].Spawned? && NoReset(h, i)
    ensures Paid(t, start, h, h[i].at, Starts(h, i) - Owed(h))
  {
    var n := |h| - 1;
    OwingChanges(t, start, h);
    if i == n {
      BackoffInRange(t, h);
      assert Starts(h, i) == 1;
    } else {
      StartsArePaid(t, start, h[..n], i);
      var paid := Starts(h[..n], i) - Owed(h[..n]);
      if h[n].Paused? {
        PausePays(t, start, h, h[i].at, paid);
      } else {
        OtherKeepsPaid(t, start, h, h[i].at, paid);
      }
    }
  }

  /** No faster than the backoff allows: `n` starts from entry `i` up to the start
      at entry `j`, with no reset in between, take at least the sum of the first
      `n` doubled and capped waits, whether they failed or their child exited. */
  lemma {:induction false} StartsAreSpaced(t: Timings, start: nat, h: seq<Mark>, i: nat, j: nat)
    requires Lawful(t, start, h) && i < j < |h| && h[i].Spawned? && h[j].Spawned? && NoReset(h[..j], i)
    ensures h[j].at >= h[i].at + CappedSum(t.first, t.max, Starts(h[..j], i))
  {
    LawfulPrefix(t, start, h, j + 1);
    assert h[..j + 1][..j] == h[..j];
    OwingChanges(t, start, h[..j + 1]);
    StartsArePaid(t, start, h[..j], i);
  }

  // -- how fast it verifies ---------------------------------------------------------------------

  /** When the current streak of failed verifications began. */
  function FirstFailure(h: seq<Mark>): nat
    requires Failures(h) > 0
  {
    if Last(h).Verified? && Failures(h) == 1 then Last(h).at else FirstFailure(h[..|h| - 1])
  }

  lemma {:induction false} FailuresArePaid(t: Timings, start: nat, h: seq<Mark>)
    requires Lawful(t, start, h) && Failures(h) > 0
    ensures NextVerify(t, h).Some?
            && NextVerify(t, h).value >= FirstFailure(h) + Waits(t.verifyFirst, t.verifyMax, Failures(h))
  {
    var n := |h| - 1;
    if Failures(h[..n]) > 0 {
      FailuresArePaid(t, start, h[..n]);
    }
    if Last(h).Verified? {
      assert Failures(h[..n]) == Failures(h) - 1;
      if Failures(h) > 1 {
        assert Last(h).at >= NextVerify(t, h[..n]).value;
      }
    }
  }

  /** The next verification after `n` failures in a row comes no earlier than the
      sum of the first `n` waits after the first of them. */
  lemma {:induction false} VerificationsAreSpaced(t: Timings, start: nat, h: seq<Mark>, j: nat)
    requires Lawful(t, start, h) && j < |h| && h[j].Verified? && Failures(h[..j]) > 0
    ensures h[j].at >= FirstFailure(h[..j]) + CappedSum(t.verifyFirst, t.verifyMax, Failures(h[..j]))
  {
    LawfulPrefix(t, start, h, j + 1);
    assert h[..j + 1][..j] == h[..j];
    FailuresArePaid(t, start, h[..j]);
    WaitsAtLeast(t.verifyFirst, t.verifyMax, Failures(h[..j]));
  }
}
