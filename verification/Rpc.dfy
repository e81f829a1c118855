/** The broker's request handlers as methods of the broker object: each leaves
    the store and the deletion tickets exactly as the atomic step of the model
    says, and answers what that step found. */
module Rpc {
  import opened Wrappers
  import opened Names
  import opened Utf8
  import opened Store
  import opened Handlers
  import opened Deletion
  import Audience
  import Paging

  datatype RpcError =
    | NotRegistered | AlreadyRegistered | Unauthorized | NameActive | NotAdmin
    | InvalidParams | UnknownName | TakenName | ScopeDenied
    | OverrideDenied(mode: Mode) | BadConfirmation | Internal

  /** The session a request arrives on. */
  datatype Caller = Caller(session: SessionId, principal: Option<Name>, admin: bool)

  datatype SendReport = SendReport(message: RecordId, delivered: seq<Name>, failed: seq<Name>,
                                   empty: Option<Audience.EmptyAudience>)

  function Actor(caller: Caller): Option<Name> {
    if caller.admin then caller.principal else None
  }

  method RequireAdmin(caller: Caller) returns (r: Result<Name, RpcError>)
    ensures r.Ok? <==> Actor(caller).Some?
    ensures r.Ok? ==> r.value == Actor(caller).value
  {
    match (caller.admin, caller.principal)
    case (true, Some(p)) => r := Ok(p);
    case (true, None) => r := Err(Internal);
    case (false, _) => r := Err(NotAdmin);
  }

  lemma LookupIs(db: Db, c: ChannelId)
    requires UniqueNames(db) && c in db.channels
    ensures Lookup(db, db.channels[c].name) == Some(c)
  {
  }

  class Broker {
    const store: Store
    const messageSizeLimit: nat
    var tickets: map<Token, Ticket>
    var serial: nat
    ghost var trail: seq<Event>

    ghost function World(): World
      reads this, store
    {
      Deletion.World(store.db, tickets, serial, trail)
    }

    ghost predicate Valid()
      reads this, store
    {
      Inv(store.db)
    }

    constructor (messageSizeLimit: nat)
      ensures Valid() && World() == START && fresh(store)
    {
      store := new Store();
      this.messageSizeLimit := messageSizeLimit;
      tickets, serial, trail := map[], 1, [];
      new;
      assert store.db == Run(EMPTY, []);
      RunKeepsInv([]);
    }

    method FindChannel(name: Name) returns (row: Option<ChannelId>)
      requires Valid()
      ensures row == Lookup(store.db, name)
    {
      row := store.ChannelByName(name);
      if row.Some? {
        LookupIs(store.db, row.value);
      }
    }

    /** The row of a channel that is not archived. */
    method LiveChannel(name: Name) returns (row: Option<ChannelId>)
      requires Valid()
      ensures row == if Live(store.db, name) then Lookup(store.db, name) else None
    {
      row := FindChannel(name);
      if row.Some? && store.db.channels[row.value].archived {
        row := None;
      }
    }

    method CreateChannel(caller: Caller, name: Name, now: nat) returns (r: Result<(), RpcError>)
      requires Valid()
      modifies store
      ensures Valid()
      ensures caller.principal.None? ==> r == Err(NotRegistered) && store.db == old(store.db)
      ensures caller.principal.Some? ==>
                && World() == Next(old(World()), Other(Create(name, caller.principal.value, now)))
                && r == if NameFree(old(store.db), name) then Ok(()) else Err(TakenName)
    {
      if caller.principal.None? {
        return Err(NotRegistered);
      }
      StepKeepsInv(store.db, Create(name, caller.principal.value, now));
      var created := store.CreateChannelLogged(name, caller.principal.value, now);
      if created.Err? {
        return Err(TakenName);
      }
      return Ok(());
    }

    method RenameChannel(caller: Caller, channel: Name, newName: Name, now: nat) returns (r: Result<(), RpcError>)
      requires Valid()
      modifies store
      ensures Valid()
      ensures Actor(caller).None? ==> r.Err? && store.db == old(store.db)
      ensures Actor(caller).Some? ==>
                && World() == Next(old(World()), Other(Rename(channel, newName, Actor(caller).value, now)))
                && r == if Lookup(old(store.db), channel).None? then Err(UnknownName)
                        else if RenameClash(old(store.db), Lookup(old(store.db), channel).value, newName)
                        then Err(TakenName)
                        else Ok(())
    {
      var actor := RequireAdmin(caller);
      if actor.Err? {
        return Err(actor.error);
      }
      var row := FindChannel(channel);
      if row.None? {
        return Err(UnknownName);
      }
      StepKeepsInv(store.db, Rename(channel, newName, actor.value, now));
      var renamed := store.RenameChannelLogged(row.value, channel, newName, actor.value, now);
      if renamed.Err? {
        return Err(TakenName);
      }
      return Ok(());
    }

    method ArchiveChannel(caller: Caller, channel: Name, archive: bool, now: nat) returns (r: Result<(), RpcError>)
      requires Valid()
      modifies store
      ensures Valid()
      ensures Actor(caller).None? ==> r.Err? && store.db == old(store.db)
      ensures Actor(caller).Some? ==>
                && World() == Next(old(World()), Other(Archive(channel, archive, Actor(caller).value, now)))
                && r == if Lookup(old(store.db), channel).None? then Err(UnknownName) else Ok(())
    {
      var actor := RequireAdmin(caller);
      if actor.Err? {
        return Err(actor.error);
      }
      var row := FindChannel(channel);
      if row.None? {
        return Err(UnknownName);
      }
      if store.db.channels[row.value].archived == archive {
        return Ok(());
      }
      StepKeepsInv(store.db, Archive(channel, archive, actor.value, now));
      store.ArchiveChannel(row.value, channel, actor.value, archive, now);
      return Ok(());
    }

    method SelfSubscription(caller: Caller, channel: Name, subscribe: bool, now: nat) returns (r: Result<(), RpcError>)
      requires Valid()
      modifies store
      ensures Valid()
      ensures caller.principal.None? ==> r == Err(NotRegistered) && store.db == old(store.db)
      ensures caller.principal.Some? ==>
              World() == Next(old(World()), Other(SelfSub(caller.principal.value, channel, subscribe, now)))
      ensures caller.principal.Some? && !Live(old(store.db), channel) ==> r == Err(UnknownName)
      ensures (caller.principal.Some? && Live(old(store.db), channel)
               && caller.principal.value !in old(store.db).principals) ==> r == Err(Internal)
      ensures caller.principal.Some? && Live(old(store.db), channel)
              && caller.principal.value in old(store.db).principals ==>
                var key := (caller.principal.value, Lookup(old(store.db), channel).value);
                if key in old(store.db).overrides && old(store.db).overrides[key] != ModeFor(subscribe)
                then r == Err(OverrideDenied(old(store.db).overrides[key]))
                else r == Ok(()) && (key in store.db.subs <==> subscribe)
    {
      if caller.principal.None? {
        return Err(NotRegistered);
      }
      var row := LiveChannel(channel);
      if row.None? {
        return Err(UnknownName);
      }
      if caller.principal.value !in store.db.principals {
        return Err(Internal);
      }
      StepKeepsInv(store.db, SelfSub(caller.principal.value, channel, subscribe, now));
      var outcome := store.SelfSubscription(caller.principal.value, row.value, subscribe, channel, now);
      match outcome {
        case Ok(Denied(mode)) => return Err(OverrideDenied(mode));
        case Ok(_) => return Ok(());
        case Err(_) => return Err(Internal);
      }
    }

    method AdminSubscription(caller: Caller, principal: Name, channel: Name, subscribe: bool, now: nat)
      returns (r: Result<(), RpcError>)
      requires Valid()
      modifies store
      ensures Valid()
      ensures Actor(caller).None? ==> r.Err? && store.db == old(store.db)
      ensures Actor(caller).Some? ==>
                && World() == Next(old(World()), Other(AdminSub(principal, channel, subscribe, now)))
                && (r == Ok(()) <==> principal in old(store.db).principals && Live(old(store.db), channel))
      ensures r == Ok(()) ==>
                var key := (principal, Lookup(old(store.db), channel).value);
                && key in store.db.overrides && store.db.overrides[key] == ModeFor(subscribe)
                && (key in store.db.subs <==> subscribe)
    {
      var actor := RequireAdmin(caller);
      if actor.Err? {
        return Err(actor.error);
      }
      if principal !in store.db.principals {
        return Err(UnknownName);
      }
      var row := LiveChannel(channel);
      if row.None? {
        return Err(UnknownName);
      }
      StepKeepsInv(store.db, AdminSub(principal, channel, subscribe, now));
      var changed := store.AdminSubscription(principal, row.value, subscribe, channel, now);
      return Ok(());
    }

    method DeleteRequest(caller: Caller, channel: Name, now: nat) returns (r: Result<Token, RpcError>)
      requires Valid()
      modifies this
      ensures Valid()
      ensures World() == Next(old(World()), Ask(caller.session, Actor(caller), channel, now))
      ensures r.Ok? <==> Actor(caller).Some? && Lookup(store.db, channel).Some?
      ensures r.Ok? && FreshSerials(old(World())) ==> r.value !in old(tickets)
      ensures r.Ok? ==> r.value in tickets && tickets[r.value].channelId == Lookup(store.db, channel).value
    {
      var actor := RequireAdmin(caller);
      if actor.Err? {
        return Err(actor.error);
      }
      var row := FindChannel(channel);
      if row.None? {
        return Err(UnknownName);
      }
      var token := Token(caller.session, serial, now);
      trail := trail + [Requested(token, caller.session, row.value, now)];
      serial := serial + 1;
      tickets := tickets[token := Ticket(row.value, channel, caller.session, now + TICKET_TTL)];
      return Ok(token);
    }

    method DeleteConfirm(caller: Caller, channel: Name, token: Token, now: nat) returns (r: Result<(), RpcError>)
      requires Valid()
      modifies this, store
      ensures Valid()
      ensures World() == Next(old(World()), Confirm(caller.session, Actor(caller), channel, token, now))
      ensures r == Ok(()) <==> Actor(caller).Some? && Honoured(old(World()), caller.session, channel, token, now)
      ensures Actor(caller).Some? ==> token !in tickets
    {
      var actor := RequireAdmin(caller);
      if actor.Err? {
        return Err(actor.error);
      }
      ghost var before := World();
      if token !in tickets {
        trail := trail + [Presented(token, caller.session, now, None)];
        assert tickets - {token} == tickets;
        return Err(BadConfirmation);
      }
      var ticket := tickets[token];
      tickets := tickets - {token};
      var current := FindChannel(ticket.channelName);
      assert Honoured(before, caller.session, channel, token, now) <==>
        ticket.session == caller.session && now <= ticket.expires && current == Some(ticket.channelId)
          && channel == ticket.channelName;
      if ticket.session != caller.session || ticket.expires < now || current != Some(ticket.channelId)
        || channel != ticket.channelName {
        trail := trail + [Presented(token, caller.session, now, None)];
        return Err(BadConfirmation);
      }
      trail := trail + [Presented(token, caller.session, now, Some(ticket.channelId))];
      RemoveChannel(ticket.channelId, ticket.channelName, actor.value, now);
      return Ok(());
    }

    method RemoveChannel(c: ChannelId, name: Name, actor: Name, now: nat)
      requires Valid() && Lookup(store.db, name) == Some(c)
      modifies store
      ensures Valid() && store.db == Deleted(old(store.db), c, name, actor, now)
    {
      DeleteKeepsInv(store.db, c, name, actor, now);
      var _ := store.DeleteChannelLogged(c, name, actor, now);
    }

    // -- message/send ----------------------------------------------------------

    method ResolveChannels(names: seq<Name>) returns (r: Option<seq<ChannelId>>)
      requires Valid()
      ensures r.Some? <==> forall n :: n in names ==> Live(store.db, n)
      ensures r.Some? ==> r.value == Ids(store.db, names)
    {
      var ids: seq<ChannelId> := [];
      for i := 0 to |names|
        invariant |ids| == i
        invariant forall k :: 0 <= k < i ==> Live(store.db, names[k]) && ids[k] == Lookup(store.db, names[k]).value
      {
        var row := LiveChannel(names[i]);
        if row.None? {
          return None;
        }
        ids := ids + [row.value];
      }
      r := Some(ids);
    }

    /** Publishes one message. Anything unknown stores nothing; otherwise the
        message is stored with one acknowledgment row for every recipient, held
        for those with an active session and failed for the others. */
    method SendMessage(caller: Caller, channels: seq<Name>, principals: seq<Name>, body: seq<Byte>,
                       thread: Option<RecordId>, active: set<Name>, now: nat)
      returns (r: Result<SendReport, RpcError>)
      requires Valid() && Utf8.Valid(body)
      modifies store
      ensures Valid()
      ensures r.Ok? <==> && caller.principal.Some? && NoRepeat(channels)
                         && SendResolves(old(store.db), Recipients(channels, principals), thread)
      ensures r.Err? ==> store.db == old(store.db)
      ensures r.Ok? ==> Published(old(store.db), store.db, caller.principal.value, channels, principals, body, thread,
                                  active, r.value, messageSizeLimit, now)
    {
      if caller.principal.None? {
        return Err(NotRegistered);
      }
      var sender := caller.principal.value;
      if channels == [] && principals == [] {
        return Err(InvalidParams);
      }
      var ids := ResolveChannels(channels);
      if ids.None? {
        return Err(UnknownName);
      }
      if exists p :: p in principals && p !in store.db.principals {
        return Err(UnknownName);
      }
      if thread.Some? && !IsMessage(store.db, thread.value) {
        return Err(UnknownName);
      }
      r := Publish(sender, channels, principals, ids.value, body, thread, active, now);
    }

    method Publish(sender: Name, channels: seq<Name>, principals: seq<Name>, ids: seq<ChannelId>, body: seq<Byte>,
                   thread: Option<RecordId>, active: set<Name>, now: nat)
      returns (r: Result<SendReport, RpcError>)
      requires Valid() && Utf8.Valid(body) && SendResolves(store.db, Recipients(channels, principals), thread)
      requires ids == Ids(store.db, channels)
      modifies store
      ensures Valid()
      ensures r.Ok? <==> NoRepeat(channels)
      ensures r.Err? ==> store.db == old(store.db)
      ensures r.Ok? ==> Published(old(store.db), store.db, sender, channels, principals, body, thread, active, r.value,
                                  messageSizeLimit, now)
    {
      var audience, empty := Audience.ResolveAudience(store.db, sender, ids, principals);
      var kept, truncated, _ := Truncate(body, messageSizeLimit);
      var held, absent := Partition(audience, active);
      KeysBelow(store.db);
      ghost var before := store.db;
      r := StoreMessage(sender, channels, principals, ids, kept, truncated, thread, held, absent, now);
      if r.Ok? {
        r := Ok(r.value.(empty := empty));
        AppendPublishes(before, sender, channels, principals, body, kept, truncated, thread, held, absent, active,
                        messageSizeLimit, now);
      }
    }

    method StoreMessage(sender: Name, channels: seq<Name>, principals: seq<Name>, ids: seq<ChannelId>, kept: seq<Byte>,
                        truncated: bool, thread: Option<RecordId>, held: seq<Name>, absent: seq<Name>, now: nat)
      returns (r: Result<SendReport, RpcError>)
      requires Valid() && SendResolves(store.db, Recipients(channels, principals), thread)
      requires ids == Ids(store.db, channels) && NoRepeat(held + absent)
      modifies store
      ensures Valid()
      ensures r.Ok? <==> NoRepeat(channels)
      ensures r.Err? ==> store.db == old(store.db)
      ensures r.Ok? ==>
                && r.value == SendReport(old(store.db).nextRecord, held, absent, None)
                && SendStores(old(store.db),
                              Send(sender, Recipients(channels, principals), kept, truncated, thread, held, absent,
                                   now))
                && store.db == Handlers.Step(old(store.db),
                                             Send(sender, Recipients(channels, principals), kept, truncated, thread,
                                                  held, absent, now))
    {
      AllowedIff(store.db, Send(sender, Recipients(channels, principals), kept, truncated, thread, held, absent, now));
      var stored := store.AppendMessageWithAcks(sender, Recipients(channels, principals), kept, truncated, thread, ids,
                                                held, absent, now);
      if stored.Err? {
        return Err(Internal);
      }
      return Ok(SendReport(stored.value, held, absent, None));
    }

    // -- history/get -----------------------------------------------------------

    method History(caller: Caller, request: HistoryRequest, before: Option<RecordId>, limit: nat)
      returns (r: Result<(seq<RecordId>, Option<RecordId>), RpcError>)
      requires Valid()
      ensures r.Ok? <==> Readable(store.db, caller, request).Some?
      ensures r.Ok? ==>
                var scope := Paging.ScopeIds(store.db, Readable(store.db, caller, request).value);
                var top := if before.Some? then before.value else store.db.nextRecord;
                && r.value.0 == Paging.Page(scope, top, Clamp(limit))
                && r.value.1 == Paging.NextCursor(r.value.0, Clamp(limit))
    {
      var scope: Paging.Scope;
      match request {
        case ByChannel(name) =>
          var row := FindChannel(name);
          if row.None? {
            return Err(UnknownName);
          }
          if store.db.channels[row.value].archived && !caller.admin {
            return Err(ScopeDenied);
          }
          scope := Paging.OfChannel(row.value);
        case DmWith(peer) =>
          if caller.principal.None? {
            return Err(NotRegistered);
          }
          if peer !in store.db.principals {
            return Err(UnknownName);
          }
          scope := Paging.Between(caller.principal.value, peer);
        case DmBetween(a, b) =>
          if !caller.admin {
            return Err(ScopeDenied);
          }
          if a !in store.db.principals || b !in store.db.principals {
            return Err(UnknownName);
          }
          scope := Paging.Between(a, b);
      }
      var top := if before.Some? then before.value else store.db.nextRecord;
      var page := Paging.FetchPage(Paging.ScopeIds(store.db, scope), top, Clamp(limit));
      return Ok((page, if |page| == Clamp(limit) && page != [] then Some(page[0]) else None));
    }
  }

  datatype HistoryRequest = ByChannel(channel: Name) | DmWith(peer: Name) | DmBetween(a: Name, b: Name)

  function Clamp(limit: nat): nat {
    if limit < 1 then 1 else if limit > 1000 then 1000 else limit
  }

  /** The scope a caller may read, if any. */
  ghost function Readable(db: Db, caller: Caller, request: HistoryRequest): Option<Paging.Scope> {
    match request
    case ByChannel(name) =>
      if Live(db, name) || (caller.admin && Lookup(db, name).Some?) then Some(Paging.OfChannel(Lookup(db, name).value))
      else None
    case DmWith(peer) =>
      if caller.principal.Some? && peer in db.principals then Some(Paging.Between(caller.principal.value, peer))
      else None
    case DmBetween(a, b) =>
      if caller.admin && a in db.principals && b in db.principals then Some(Paging.Between(a, b)) else None
  }

  lemma RepeatsAgree(db: Db, channels: seq<Name>)
    requires forall n :: n in channels ==> Lookup(db, n).Some?
    ensures NoRepeat(Ids(db, channels)) <==> NoRepeat(channels)
  {
    var ids := Ids(db, channels);
    forall i, j | 0 <= i < j < |channels|
      ensures ids[i] == ids[j] <==> channels[i] == channels[j]
    {
      assert db.channels[ids[i]].name == channels[i] && db.channels[ids[j]].name == channels[j];
    }
  }

  /** A resolved send fails only on a repeated channel, which violates the key of
      the link table. */
  lemma AllowedIff(db: Db, op: Op)
    requires Inv(db) && op.Send? && SendResolves(db, op.to, op.thread) && NoRepeat(op.held + op.failed)
    ensures AppendAllowed(db, Ids(db, op.to.channels), op.held, op.failed) <==> NoRepeat(op.to.channels)
    ensures Inv(Handlers.Step(db, op))
    ensures forall k :: k in db.acks ==> k.0 < db.nextRecord
    ensures forall l :: l in db.links ==> l.0 < db.nextRecord
  {
    RepeatsAgree(db, op.to.channels);
    StepKeepsInv(db, op);
    KeysBelow(db);
  }

  lemma KeysBelow(db: Db)
    requires UniqueNames(db) && MailKnown(db)
    ensures forall k :: k in db.acks ==> k.0 < db.nextRecord
    ensures forall l :: l in db.links ==> l.0 < db.nextRecord
  {
    assert forall k :: k in db.acks ==> IsMessage(db, k.0);
    assert forall l :: l in db.links ==> IsMessage(db, l.0);
  }

  /** The acknowledgment rows of one append are exactly its recipients, split by
      presence. */
  lemma AckRowsPartition(before: Db, after: Db, sender: Name, to: Recipients, kept: seq<Byte>, truncated: bool,
                         thread: Option<RecordId>, ids: seq<ChannelId>, held: seq<Name>, absent: seq<Name>,
                           audience: set<Name>, active: set<Name>, now: nat)
    requires forall k :: k in before.acks ==> k.0 < before.nextRecord
    requires after == Appended(before, sender, to, kept, truncated, thread, ids, held, absent, now)
    requires Elements(held) == audience * active && Elements(absent) == audience - active
    ensures forall p :: (before.nextRecord, p) in after.acks <==> p in audience
    ensures forall p :: p in audience ==>
            after.acks[(before.nextRecord, p)] == if p in active then HeldRow(now) else DisconnectedRow(now)
  {
    forall p
      ensures (before.nextRecord, p) in after.acks <==> p in audience
      ensures p in audience ==>
              after.acks[(before.nextRecord, p)] == if p in active then HeldRow(now) else DisconnectedRow(now)
    {
      assert p in Elements(held) <==> p in audience && p in active;
      assert p in Elements(absent) <==> p in audience && p !in active;
    }
  }

  /** What a successful send leaves behind and reports. */
  ghost predicate Published(before: Db, after: Db, sender: Name, channels: seq<Name>, principals: seq<Name>,
                            body: seq<Byte>, thread: Option<RecordId>, active: set<Name>, report: SendReport,
                              limit: nat, now: nat)
    requires forall n :: n in channels ==> Lookup(before, n).Some?
  {
    var m := before.nextRecord;
    var to := Audience.Recipients(before, sender, Ids(before, channels), principals);
    && report.message == m && IsMessage(after, m)
    && var stored := after.records[m];
    && stored.sender == sender && stored.recipients == Recipients(channels, principals)
    && stored.threadId == (if thread.Some? then thread.value else m)
    && IsLongestFit(stored.body, body, limit) && (stored.truncated <==> |stored.body| < |body|)
    && after == Handlers.Step(before,
                              Send(sender, Recipients(channels, principals), stored.body, stored.truncated, thread,
                                   report.delivered, report.failed, now))
    && (forall p :: (m, p) in after.acks <==> p in to)
    && (forall p :: p in to ==> after.acks[(m, p)] == if p in active then HeldRow(now) else DisconnectedRow(now))
    && Elements(report.delivered) == to * active && Elements(report.failed) == to - active
    && report.empty == Audience.Reported(before, Ids(before, channels), principals)
  }

  lemma PublishedKeepsPrincipals(before: Db, after: Db, sender: Name, channels: seq<Name>, principals: seq<Name>,
                                 body: seq<Byte>, thread: Option<RecordId>, active: set<Name>, report: SendReport,
                                   limit: nat, now: nat)
    requires forall n :: n in channels ==> Lookup(before, n).Some?
    requires Published(before, after, sender, channels, principals, body, thread, active, report, limit, now)
    ensures after.principals == before.principals
  {
  }

  lemma AppendPublishes(before: Db, sender: Name, channels: seq<Name>, principals: seq<Name>, body: seq<Byte>,
                        kept: seq<Byte>, truncated: bool, thread: Option<RecordId>, held: seq<Name>, absent: seq<Name>,
                          active: set<Name>, limit: nat, now: nat)
    requires forall n :: n in channels ==> Lookup(before, n).Some?
    requires forall k :: k in before.acks ==> k.0 < before.nextRecord
    requires IsLongestFit(kept, body, limit) && (truncated <==> |kept| < |body|)
    requires var to := Audience.Recipients(before, sender, Ids(before, channels), principals);
             Elements(held) == to * active && Elements(absent) == to - active
    requires SendStores(before,
                        Send(sender, Recipients(channels, principals), kept, truncated, thread, held, absent, now))
    ensures var after := Handlers.Step(before,
                                       Send(sender, Recipients(channels, principals), kept, truncated, thread, held,
                                            absent, now));
            var empty := Audience.Reported(before, Ids(before, channels), principals);
            Published(before, after, sender, channels, principals, body, thread, active,
                      SendReport(before.nextRecord, held, absent, empty), limit, now)
  {
    var op := Send(sender, Recipients(channels, principals), kept, truncated, thread, held, absent, now);
    AckRowsPartition(before, Handlers.Step(before, op), sender, op.to, kept, truncated, thread, Ids(before, channels),
                     held, absent, Audience.Recipients(before, sender, Ids(before, channels), principals), active, now);
  }

  /** Splits the audience by presence, keeping its order. */
  method Partition(audience: seq<Name>, active: set<Name>) returns (held: seq<Name>, absent: seq<Name>)
    requires StrictlySorted(audience)
    ensures Elements(held) == Elements(audience) * active && Elements(absent) == Elements(audience) - active
    ensures NoRepeat(held + absent)
  {
    held, absent := [], [];
    for i := 0 to |audience|
      invariant forall x :: x in held <==> x in audience[..i] && x in active
      invariant forall x :: x in absent <==> x in audience[..i] && x !in active
      invariant NoRepeat(held) && NoRepeat(absent)
    {
      assert audience[i] !in audience[..i] by {
        LessTotal(audience[i], audience[i]);
      }
      assert audience[..i + 1] == audience[..i] + [audience[i]];
      if audience[i] in active {
        held := held + [audience[i]];
      } else {
        absent := absent + [audience[i]];
      }
    }
    assert audience[..|audience|] == audience;
    forall i, j | 0 <= i < |held| && 0 <= j < |absent|
      ensures held[i] != absent[j]
    {
      assert held[i] in held && absent[j] in absent;
    }
  }
}
