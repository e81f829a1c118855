/** Guarded permanent deletion: a first request issues a single-use ticket bound
    to the session and to the immutable channel id, a second one presents it. */
module Deletion {
  import opened Wrappers
  import opened Names
  import opened Store
  import opened Handlers

  type SessionId = nat

  const TICKET_TTL: nat := 30_000

  /** The confirmation token: session, serial number and time of issue. */
  datatype Token = Token(session: SessionId, serial: nat, stamp: nat)

  datatype Ticket = Ticket(channelId: ChannelId, channelName: Name, session: SessionId, expires: nat)

  /** What happened at the two endpoints, in order. */
  datatype Event =
    | Requested(token: Token, session: SessionId, channelId: ChannelId, at: nat)
    | Presented(token: Token, session: SessionId, at: nat, removed: Option<ChannelId>)

  datatype World = World(db: Db, tickets: map<Token, Ticket>, serial: nat, trail: seq<Event>)

  const START: World := World(EMPTY, map[], 1, [])

  /** `actor` is the admin principal of the calling session, if it has one. */
  datatype Action =
    | Ask(session: SessionId, actor: Option<Name>, channel: Name, now: nat)
    | Confirm(session: SessionId, actor: Option<Name>, channel: Name, token: Token, now: nat)
    | Other(op: Op)

  ghost function Asked(w: World, session: SessionId, channel: Name, now: nat): World {
    var c := Lookup(w.db, channel);
    if c.None? then w
    else
      var token := Token(session, w.serial, now);
      w.(tickets := w.tickets[token := Ticket(c.value, channel, session, now + TICKET_TTL)],
         serial := w.serial + 1,
         trail := w.trail + [Requested(token, session, c.value, now)])
  }

  ghost predicate Honoured(w: World, session: SessionId, channel: Name, token: Token, now: nat) {
    && token in w.tickets
    && var t := w.tickets[token];
       t.session == session && now <= t.expires && Lookup(w.db, t.channelName) == Some(t.channelId)
         && channel == t.channelName
  }

  ghost function Confirmed(w: World, session: SessionId, actor: Name, channel: Name, token: Token, now: nat): World {
    var used := w.(tickets := w.tickets - {token});
    if Honoured(w, session, channel, token, now) then
      var t := w.tickets[token];
      used.(db := Deleted(w.db, t.channelId, t.channelName, actor, now),
            trail := w.trail + [Presented(token, session, now, Some(t.channelId))])
    else used.(trail := w.trail + [Presented(token, session, now, None)])
  }

  ghost function Next(w: World, a: Action): World {
    match a
    case Ask(session, actor, channel, now) => if actor.None? then w else Asked(w, session, channel, now)
    case Confirm(session, actor, channel, token, now) =>
      if actor.None? then w else Confirmed(w, session, actor.value, channel, token, now)
    case Other(op) => if op.Delete? then w else w.(db := Handlers.Step(w.db, op))
  }

  ghost function After(actions: seq<Action>): World {
    if actions == [] then START else Next(After(actions[..|actions| - 1]), actions[|actions| - 1])
  }

  /** Entry `i` issued `token` to `session` for the channel. */
  ghost predicate Issued(trail: seq<Event>, i: int, token: Token, session: SessionId, c: ChannelId, at: nat) {
    0 <= i < |trail| && trail[i] == Requested(token, session, c, at)
  }

  /** `token` is presented somewhere after entry `i` and before entry `j`. */
  ghost predicate PresentedBetween(trail: seq<Event>, token: Token, i: int, j: int) {
    exists k :: i < k < j && 0 <= k < |trail| && trail[k].Presented? && trail[k].token == token
  }

  ghost predicate FreshSerials(w: World) {
    && (forall t :: t in w.tickets ==> t.serial < w.serial)
    && (forall i :: 0 <= i < |w.trail| && w.trail[i].Requested? ==> w.trail[i].token.serial < w.serial)
  }

  /** Live tickets were issued and have not been presented since. */
  ghost predicate LiveTickets(w: World) {
    forall t :: t in w.tickets ==>
      exists i: int, at: nat :: Issued(w.trail, i, t, w.tickets[t].session, w.tickets[t].channelId, at)
                      && w.tickets[t].expires == at + TICKET_TTL
                      && !PresentedBetween(w.trail, t, i, |w.trail|)
  }

  /** Entry `j` removed a channel, and a request justifies it: same token, same
      session, same channel id, not expired, not presented in between. */
  ghost predicate Justified(trail: seq<Event>, j: int)
    requires 0 <= j < |trail| && trail[j].Presented? && trail[j].removed.Some?
  {
    exists i: int, at: nat :: Issued(trail, i, trail[j].token, trail[j].session, trail[j].removed.value, at)
                    && i < j && trail[j].at <= at + TICKET_TTL
                    && !PresentedBetween(trail, trail[j].token, i, j)
  }

  ghost predicate TrailOk(w: World) {
    && FreshSerials(w)
    && LiveTickets(w)
    && (forall j :: 0 <= j < |w.trail| && w.trail[j].Presented? && w.trail[j].removed.Some? ==> Justified(w.trail, j))
    && (forall i, j :: 0 <= i < j < |w.trail| && w.trail[i].Requested? && w.trail[j].Requested? ==>
        w.trail[i].token != w.trail[j].token)
  }

  lemma JustifiedExtends(trail: seq<Event>, e: Event, j: int)
    requires 0 <= j < |trail| && trail[j].Presented? && trail[j].removed.Some? && Justified(trail, j)
    ensures Justified(trail + [e], j)
  {
    var i: int, at: nat :| Issued(trail, i, trail[j].token, trail[j].session, trail[j].removed.value, at)
                 && i < j && trail[j].at <= at + TICKET_TTL && !PresentedBetween(trail, trail[j].token, i, j);
    var longer := trail + [e];
    assert longer[j] == trail[j];
    assert Issued(longer, i, longer[j].token, longer[j].session, longer[j].removed.value, at);
    assert !PresentedBetween(longer, longer[j].token, i, j);
  }

  lemma TicketExtends(w: World, e: Event, t: Token)
    requires LiveTickets(w) && t in w.tickets && !(e.Presented? && e.token == t)
    ensures exists i: int, at: nat :: Issued(w.trail + [e], i, t, w.tickets[t].session, w.tickets[t].channelId, at)
                            && w.tickets[t].expires == at + TICKET_TTL
                            && !PresentedBetween(w.trail + [e], t, i, |w.trail + [e]|)
  {
    var i: int, at: nat :| Issued(w.trail, i, t, w.tickets[t].session, w.tickets[t].channelId, at)
                 && w.tickets[t].expires == at + TICKET_TTL && !PresentedBetween(w.trail, t, i, |w.trail|);
    var longer := w.trail + [e];
    assert Issued(longer, i, t, w.tickets[t].session, w.tickets[t].channelId, at);
    forall k | i < k < |longer|
      ensures !(longer[k].Presented? && longer[k].token == t)
    {
      if k < |w.trail| {
        assert longer[k] == w.trail[k];
      }
    }
    assert !PresentedBetween(longer, t, i, |longer|);
  }

  lemma AskKeepsTrail(w: World, session: SessionId, channel: Name, now: nat)
    requires TrailOk(w)
    ensures TrailOk(Asked(w, session, channel, now))
  {
    var r := Asked(w, session, channel, now);
    if r != w {
      var e := r.trail[|w.trail|];
      assert r.trail == w.trail + [e];
      forall t | t in r.tickets
        ensures exists i: int, at: nat :: Issued(r.trail, i, t, r.tickets[t].session, r.tickets[t].channelId, at)
                  && r.tickets[t].expires == at + TICKET_TTL && !PresentedBetween(r.trail, t, i, |r.trail|)
      {
        if t == e.token {
          assert Issued(r.trail, |w.trail|, t, session, e.channelId, now);
        } else {
          TicketExtends(w, e, t);
        }
      }
      forall j | 0 <= j < |r.trail| && r.trail[j].Presented? && r.trail[j].removed.Some?
        ensures Justified(r.trail, j)
      {
        JustifiedExtends(w.trail, e, j);
      }
    }
  }

  lemma ConfirmKeepsTrail(w: World, session: SessionId, actor: Name, channel: Name, token: Token, now: nat)
    requires TrailOk(w)
    ensures TrailOk(Confirmed(w, session, actor, channel, token, now))
  {
    var r := Confirmed(w, session, actor, channel, token, now);
    var n := |w.trail|;
    var e := r.trail[n];
    assert r.trail == w.trail + [e];
    forall t | t in r.tickets
      ensures exists i: int, at: nat :: Issued(r.trail, i, t, r.tickets[t].session, r.tickets[t].channelId, at)
                && r.tickets[t].expires == at + TICKET_TTL && !PresentedBetween(r.trail, t, i, |r.trail|)
    {
      TicketExtends(w, e, t);
    }
    forall j | 0 <= j < |r.trail| && r.trail[j].Presented? && r.trail[j].removed.Some?
      ensures Justified(r.trail, j)
    {
      if j < n {
        JustifiedExtends(w.trail, e, j);
      } else {
        var i: int, at: nat :| Issued(w.trail, i, token, w.tickets[token].session, w.tickets[token].channelId, at)
                     && w.tickets[token].expires == at + TICKET_TTL && !PresentedBetween(w.trail, token, i, n);
        assert Issued(r.trail, i, token, session, e.removed.value, at);
        assert !PresentedBetween(r.trail, token, i, n);
      }
    }
  }

  lemma {:induction false} RunKeepsTrail(actions: seq<Action>)
    ensures TrailOk(After(actions))
    decreases |actions|
  {
    if actions != [] {
      var n := |actions| - 1;
      RunKeepsTrail(actions[..n]);
      match actions[n]
      case Ask(session, actor, channel, now) =>
        if actor.Some? { AskKeepsTrail(After(actions[..n]), session, channel, now); }
      case Confirm(session, actor, channel, token, now) =>
        if actor.Some? { ConfirmKeepsTrail(After(actions[..n]), session, actor.value, channel, token, now); }
      case Other(_) =>
    }
  }

  /** A ticket is spent by the first presentation after its issue, whether that
      one succeeded or not. */
  lemma {:induction false} FirstPresentationSpends(actions: seq<Action>, i: int, j: int, k: int)
    requires var trail := After(actions).trail;
             && 0 <= i < j < k < |trail|
             && trail[i].Requested? && trail[j].Presented? && trail[k].Presented?
             && trail[i].token == trail[j].token == trail[k].token
    ensures After(actions).trail[k].removed == None
  {
    RunKeepsTrail(actions);
    assert PresentedBetween(After(actions).trail, After(actions).trail[k].token, i, k);
  }

  /** The request that justifies the removal at entry `j`. */
  ghost function Warrant(actions: seq<Action>, j: int): (i: int)
    requires var trail := After(actions).trail;
             0 <= j < |trail| && trail[j].Presented? && trail[j].removed.Some?
    ensures var trail := After(actions).trail;
            && 0 <= i < j && trail[i].Requested?
            && trail[i].token == trail[j].token && trail[i].session == trail[j].session
            && trail[i].channelId == trail[j].removed.value
            && trail[j].at <= trail[i].at + TICKET_TTL
  {
    RunKeepsTrail(actions);
    var trail := After(actions).trail;
    var i: int, at: nat :| Issued(trail, i, trail[j].token, trail[j].session, trail[j].removed.value, at)
                 && i < j && trail[j].at <= at + TICKET_TTL && !PresentedBetween(trail, trail[j].token, i, j);
    i
  }

  /** Different removals rest on different requests. */
  lemma {:induction false} WarrantsDiffer(actions: seq<Action>, j: int, k: int)
    requires var trail := After(actions).trail;
             && 0 <= j < k < |trail|
             && trail[j].Presented? && trail[j].removed.Some? && trail[k].Presented? && trail[k].removed.Some?
    ensures Warrant(actions, j) != Warrant(actions, k)
  {
    if Warrant(actions, j) == Warrant(actions, k) {
      FirstPresentationSpends(actions, Warrant(actions, j), j, k);
    }
  }

  lemma StepRemovesWarily(w: World, a: Action)
    requires UniqueNames(w.db)
    ensures var r := Next(w, a);
            && (w.db.channels.Keys <= r.db.channels.Keys
                || (|r.trail| == |w.trail| + 1 && r.trail[|w.trail|].Presented? && r.trail[|w.trail|].removed.Some?
                    && r.trail[|w.trail|].removed.value in w.db.channels
                    && r.db.channels.Keys == w.db.channels.Keys - {r.trail[|w.trail|].removed.value}))
  {
    if a.Other? && a.op.Archive? && Lookup(w.db, a.op.channel).Some? {
      var c := Lookup(w.db, a.op.channel).value;
      AppendEventsFrame(WithoutMembers(WithFlag(w.db, c, true), c),
                        UnsubscribeEvents(Ordered(Subscribers(w.db, c)), a.op.channel), Some(c), a.op.now);
    }
  }

  /** Confirming is the deletion request of the handlers, on the same channel. */
  lemma ConfirmIsDelete(w: World, session: SessionId, actor: Name, channel: Name, token: Token, now: nat)
    requires Honoured(w, session, channel, token, now)
    ensures Confirmed(w, session, actor, channel, token, now).db == Handlers.Step(w.db, Delete(channel, actor, now))
  {
  }

  // -- runs with tickets are runs of requests ------------------------------------------------

  /** The request an action amounts to, if any: an honoured confirmation deletes the
      channel that bears the presented name. */
  ghost function OpOf(w: World, a: Action): seq<Op> {
    match a
    case Ask(_, _, _, _) => []
    case Confirm(session, actor, channel, token, now) =>
      if actor.Some? && Honoured(w, session, channel, token, now) then [Delete(channel, actor.value, now)] else []
    case Other(op) => if op.Delete? then [] else [op]
  }

  ghost function OpsOf(actions: seq<Action>): seq<Op> {
    if actions == [] then []
    else
      var n := |actions| - 1;
      OpsOf(actions[..n]) + OpOf(After(actions[..n]), actions[n])
  }

  lemma ActionIsOp(w: World, a: Action)
    ensures OpOf(w, a) == [] ==> Next(w, a).db == w.db
    ensures OpOf(w, a) != [] ==> |OpOf(w, a)| == 1 && Next(w, a).db == Handlers.Step(w.db, OpOf(w, a)[0])
  {
    if a.Confirm? && a.actor.Some? && Honoured(w, a.session, a.channel, a.token, a.now) {
      ConfirmIsDelete(w, a.session, a.actor.value, a.channel, a.token, a.now);
    }
  }

  /** Whatever tickets are asked for and presented, the store goes through a run of
      requests, so what holds of every such run holds here. */
  lemma {:induction false} TicketedRunIsRun(actions: seq<Action>)
    ensures After(actions).db == Run(EMPTY, OpsOf(actions)) && Inv(After(actions).db)
    decreases |actions|
  {
    RunKeepsInv(OpsOf(actions));
    if actions != [] {
      var n := |actions| - 1;
      TicketedRunIsRun(actions[..n]);
      var ops, more := OpsOf(actions[..n]), OpOf(After(actions[..n]), actions[n]);
      ActionIsOp(After(actions[..n]), actions[n]);
      if more == [] {
        assert ops + more == ops;
      } else {
        assert (ops + more)[..|ops + more| - 1] == ops;
      }
    }
  }

  /** After any actions, a channel leaves the tables only by an entry of the trail that
      names its id, and that entry removes no other. */
  lemma {:induction false} OnlyConfirmationRemoves(actions: seq<Action>, a: Action)
    ensures var w, r := After(actions), Next(After(actions), a);
            && (w.db.channels.Keys <= r.db.channels.Keys
                || (|r.trail| == |w.trail| + 1 && r.trail[|w.trail|].Presented? && r.trail[|w.trail|].removed.Some?
                    && r.trail[|w.trail|].removed.value in w.db.channels
                    && r.db.channels.Keys == w.db.channels.Keys - {r.trail[|w.trail|].removed.value}))
  {
    TicketedRunIsRun(actions);
    StepRemovesWarily(After(actions), a);
  }
}
