/** The acknowledgment lifecycle of one (record, recipient) row: held, relayed,
    then processed or failed. Delivery tasks, sweeps and notifications race on
    a row, so updates arrive in any order and any number of times. */
module Acks {
  import opened Wrappers

  datatype AckState = Held | Relayed | Processed | Failed

  datatype AckRow = AckRow(
    state: AckState,
    reason: Option<string>,
    heldAt: Option<nat>,
    relayedAt: Option<nat>,
    processedAt: Option<nat>,
    failedAt: Option<nat>)
  {
    function At(s: AckState): Option<nat> {
      match s
      case Held => heldAt
      case Relayed => relayedAt
      case Processed => processedAt
      case Failed => failedAt
    }
  }

  datatype Update = Update(state: AckState, reason: Option<string>, ts: nat)

  function Rank(s: AckState): nat {
    match s
    case Held => 0
    case Relayed => 1
    case Processed => 2
    case Failed => 2
  }

  /** State of a row after an update to `t`. */
  function Later(s: AckState, t: AckState): AckState {
    if Rank(t) > Rank(s) then t else s
  }

  predicate Terminal(s: AckState) {
    s == Processed || s == Failed
  }

  function Stamp(row: AckRow, s: AckState, ts: nat): AckRow {
    match s
    case Held => row.(heldAt := Some(ts))
    case Relayed => row.(relayedAt := Some(ts))
    case Processed => row.(processedAt := Some(ts))
    case Failed => row.(failedAt := Some(ts))
  }

  predicate Advances(row: AckRow, u: Update) {
    Rank(u.state) > Rank(row.state)
  }

  /** One `ack_set` on an existing row: a straggler only leaves its timestamp. */
  function Apply(row: AckRow, u: Update): AckRow {
    var stamped := Stamp(row, u.state, u.ts);
    stamped.(state := Later(row.state, u.state), reason := if Advances(row, u) then u.reason else row.reason)
  }

  function ApplyAll(row: AckRow, us: seq<Update>): AckRow
    decreases |us|
  {
    if us == [] then row else ApplyAll(Apply(row, us[0]), us[1..])
  }

  /** The transitions streamed to watchers while the updates are applied. */
  function Emitted(row: AckRow, us: seq<Update>): seq<AckState>
    decreases |us|
  {
    if us == [] then []
    else (if Advances(row, us[0]) then [us[0].state] else []) + Emitted(Apply(row, us[0]), us[1..])
  }

  /** First update in a sequence that satisfies the given rank. */
  function FirstOfRank(us: seq<Update>, rank: nat): (r: Option<Update>)
    ensures r.Some? ==> r.value in us && Rank(r.value.state) == rank
    ensures r.None? ==> forall u :: u in us ==> Rank(u.state) != rank
  {
    if us == [] then None
    else if Rank(us[0].state) == rank then Some(us[0])
    else FirstOfRank(us[1..], rank)
  }

  /** What the row must end as, read off the updates without running them: a
      terminal row stays, else the first terminal update decides, else the
      first relayed one, else nothing happened. */
  function Verdict(row: AckRow, us: seq<Update>): (AckState, Option<string>) {
    var terminal := FirstOfRank(us, 2);
    var relayed := FirstOfRank(us, 1);
    if Terminal(row.state) then (row.state, row.reason)
    else if terminal.Some? then (terminal.value.state, terminal.value.reason)
    else if row.state == Held && relayed.Some? then (Relayed, relayed.value.reason)
    else (row.state, row.reason)
  }

  /** Convergence: state and reason are those of the verdict. */
  lemma {:induction false} ResultMeetsVerdict(row: AckRow, us: seq<Update>)
    ensures (ApplyAll(row, us).state, ApplyAll(row, us).reason) == Verdict(row, us)
    decreases |us|
  {
    if us != [] {
      ResultMeetsVerdict(Apply(row, us[0]), us[1..]);
    }
  }

  /** Watchers see strictly rising ranks, at most two transitions, and the last
      one they see is the state the row ends in. */
  lemma {:induction false} EmittedRises(row: AckRow, us: seq<Update>)
    ensures var e := Emitted(row, us);
            && |e| <= 2 - Rank(row.state)
            && (forall i :: 0 <= i < |e| ==> Rank(e[i]) > Rank(row.state))
            && (forall i, j :: 0 <= i < j < |e| ==> Rank(e[i]) < Rank(e[j]))
            && ApplyAll(row, us).state == (if e == [] then row.state else e[|e| - 1])
    decreases |us|
  {
    if us != [] {
      EmittedRises(Apply(row, us[0]), us[1..]);
    }
  }

  /** A prefix of the updates never leaves the row at a higher rank than the
      whole, and a terminal state once reached is kept with its reason. */
  lemma {:induction false} RankNeverFalls(row: AckRow, us: seq<Update>, vs: seq<Update>)
    ensures Rank(ApplyAll(row, us).state) <= Rank(ApplyAll(row, us + vs).state)
    ensures Terminal(ApplyAll(row, us).state) ==>
              ApplyAll(row, us + vs).state == ApplyAll(row, us).state
                && ApplyAll(row, us + vs).reason == ApplyAll(row, us).reason
    decreases |us|
  {
    if us == [] {
      assert us + vs == vs;
      ResultMeetsVerdict(row, vs);
    } else {
      assert (us + vs)[1..] == us[1..] + vs;
      RankNeverFalls(Apply(row, us[0]), us[1..], vs);
    }
  }

  function LastOf(us: seq<Update>, s: AckState): Option<Update> {
    if us == [] then None
    else
      var later := LastOf(us[1..], s);
      if later.Some? then later else if us[0].state == s then Some(us[0]) else None
  }

  /** Every column holds the time of the latest update of its kind, stale or not. */
  lemma {:induction false} StampsAreLatest(row: AckRow, us: seq<Update>, s: AckState)
    ensures ApplyAll(row, us).At(s) ==
            if LastOf(us, s).Some? then Some(LastOf(us, s).value.ts) else row.At(s)
    decreases |us|
  {
    if us != [] {
      StampsAreLatest(Apply(row, us[0]), us[1..], s);
    }
  }

  predicate Mentions(us: seq<Update>, s: AckState) {
    exists u :: u in us && u.state == s
  }

  /** At most one kind of terminal update can decide the row. */
  predicate OneTerminalKind(row: AckRow, us: seq<Update>) {
    Terminal(row.state) || !Mentions(us, Processed) || !Mentions(us, Failed)
  }

  lemma ReorderSameState(row: AckRow, us: seq<Update>, vs: seq<Update>)
    requires multiset(us) == multiset(vs) && OneTerminalKind(row, us)
    ensures ApplyAll(row, us).state == ApplyAll(row, vs).state
  {
    ResultMeetsVerdict(row, us);
    ResultMeetsVerdict(row, vs);
    forall u
      ensures u in us <==> u in vs
    {
      assert u in us <==> u in multiset(us);
      assert u in vs <==> u in multiset(vs);
    }
  }

  lemma BringToFront(us: seq<Update>, i: nat) returns (vs: seq<Update>)
    requires i < |us|
    ensures vs != [] && vs[0] == us[i] && multiset(vs) == multiset(us)
  {
    vs := [us[i]] + us[..i] + us[i + 1..];
    assert us == us[..i] + [us[i]] + us[i + 1..];
  }

  /** The final state does not depend on the order of the updates exactly when
      they offer one kind of terminal state (or the row is already terminal). */
  lemma {:induction false} OrderIndependentIff(row: AckRow, us: seq<Update>)
    ensures OneTerminalKind(row, us) <==>
            forall vs: seq<Update> :: multiset(vs) == multiset(us) ==>
              ApplyAll(row, vs).state == ApplyAll(row, us).state
  {
    if OneTerminalKind(row, us) {
      forall vs: seq<Update> | multiset(vs) == multiset(us)
        ensures ApplyAll(row, vs).state == ApplyAll(row, us).state
      {
        ReorderSameState(row, us, vs);
      }
    } else {
      var p :| p in us && p.state == Processed;
      var f :| f in us && f.state == Failed;
      var i :| 0 <= i < |us| && us[i] == p;
      var j :| 0 <= j < |us| && us[j] == f;
      var ps := BringToFront(us, i);
      var fs := BringToFront(us, j);
      ResultMeetsVerdict(row, ps);
      ResultMeetsVerdict(row, fs);
      assert ApplyAll(row, ps).state != ApplyAll(row, fs).state;
    }
  }
}
