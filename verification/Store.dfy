/** The broker's store: channels, principals, memberships with human overrides,
    the append-only log and per-recipient acknowledgment rows.

    A transaction is a local copy of the tables that is written back only on
    commit, so an early return rolls every change back. */
module Store {
  import opened Wrappers
  import opened Names
  import opened Acks
  import opened Utf8

  type ChannelId = nat
  type RecordId = nat

  datatype Mode = Forced | Cancelled

  datatype ChannelRow = ChannelRow(name: Name, archived: bool)

  datatype Recipients = Recipients(channels: seq<Name>, principals: seq<Name>)

  datatype SystemEvent =
    | Registered(principal: Name, admin: bool)
    | RegistrationDenied(name: Name, reason: string)
    | Deregistered(principal: Name)
    | Disconnected(principal: Name)
    | Subscribed(principal: Name, channel: Name, byAdmin: bool)
    | Unsubscribed(principal: Name, channel: Name, byAdmin: bool)
    | ChannelCreated(channel: Name, actor: Name)
    | ChannelRenamed(oldName: Name, newName: Name, actor: Name)
    | ChannelArchived(channel: Name, actor: Name)
    | ChannelUnarchived(channel: Name, actor: Name)
    | ChannelDeleted(channelId: ChannelId, name: Name, recordCount: nat, actor: Name)

  datatype Record =
    | Message(timestamp: nat, threadId: RecordId, sender: Name, body: seq<Byte>, truncated: bool,
              recipients: Recipients)
    | System(timestamp: nat, event: SystemEvent, channelRef: Option<ChannelId>)

  datatype StoreError = NameTaken | Constraint

  datatype SubOutcome = Applied | NoChange | Denied(mode: Mode)

  /** The tables. Row ids of principals never change and a principal is never
      removed, so rows that refer to one carry its name. */
  datatype Db = Db(
    channels: map<ChannelId, ChannelRow>,
    nextChannel: ChannelId,
    principals: set<Name>,
    subs: set<(Name, ChannelId)>,
    overrides: map<(Name, ChannelId), Mode>,
    records: map<RecordId, Record>,
    nextRecord: RecordId,
    links: set<(RecordId, ChannelId)>,
    participants: set<(RecordId, Name)>,
    acks: map<(RecordId, Name), AckRow>)

  const EMPTY: Db := Db(map[], 1, {}, {}, map[], map[], 1, {}, {}, map[])

  // -- what each operation does to the tables ------------------------------

  predicate NameFree(db: Db, name: Name) {
    forall c :: c in db.channels ==> db.channels[c].name != name
  }

  function AppendSystem(db: Db, event: SystemEvent, ref: Option<ChannelId>, now: nat): Db {
    db.(records := db.records[db.nextRecord := System(now, event, ref)], nextRecord := db.nextRecord + 1)
  }

  function AppendEvents(db: Db, events: seq<SystemEvent>, ref: Option<ChannelId>, now: nat): Db {
    if events == [] then db
    else AppendSystem(AppendEvents(db, events[..|events| - 1], ref, now), events[|events| - 1], ref, now)
  }

  function Created(db: Db, name: Name, actor: Name, now: nat): Db {
    var tx := db.(channels := db.channels[db.nextChannel := ChannelRow(name, false)],
                  nextChannel := db.nextChannel + 1);
    AppendSystem(tx, ChannelCreated(name, actor), Some(db.nextChannel), now)
  }

  predicate RenameClash(db: Db, id: ChannelId, newName: Name) {
    id in db.channels && exists c :: c in db.channels && c != id && db.channels[c].name == newName
  }

  function Renamed(db: Db, id: ChannelId, oldName: Name, newName: Name, actor: Name, now: nat): Db {
    var tx := if id in db.channels then db.(channels := db.channels[id := db.channels[id].(name := newName)]) else db;
    AppendSystem(tx, ChannelRenamed(oldName, newName, actor), Some(id), now)
  }

  function Subscribers(db: Db, id: ChannelId): (r: set<Name>)
    ensures forall p :: p in r <==> (p, id) in db.subs
  {
    set s | s in db.subs && s.1 == id :: s.0
  }

  function WithoutMembers(db: Db, id: ChannelId): Db {
    db.(subs := (set s | s in db.subs && s.1 != id),
        overrides := (map k | k in db.overrides && k.1 != id :: db.overrides[k]))
  }

  function WithFlag(db: Db, id: ChannelId, archived: bool): Db {
    if id in db.channels then db.(channels := db.channels[id := db.channels[id].(archived := archived)]) else db
  }

  function UnsubscribeEvents(names: seq<Name>, channel: Name): (r: seq<SystemEvent>)
    ensures |r| == |names|
    ensures forall i :: 0 <= i < |r| ==> r[i] == Unsubscribed(names[i], channel, true)
  {
    seq(|names|, i requires 0 <= i < |names| => Unsubscribed(names[i], channel, true))
  }

  ghost function Archived(db: Db, id: ChannelId, name: Name, actor: Name, archive: bool, now: nat): Db {
    if archive then
      var cleared := WithoutMembers(WithFlag(db, id, true), id);
      var logged := AppendEvents(cleared, UnsubscribeEvents(Ordered(Subscribers(db, id)), name), Some(id), now);
      AppendSystem(logged, ChannelArchived(name, actor), Some(id), now)
    else
      AppendSystem(WithFlag(db, id, false), ChannelUnarchived(name, actor), Some(id), now)
  }

  /** Records linked to this channel and to no other. */
  function Sole(db: Db, id: ChannelId): (r: set<RecordId>)
    ensures forall m :: m in r <==> (m, id) in db.links && forall l :: l in db.links && l.0 == m ==> l.1 == id
  {
    set l | l in db.links && l.1 == id && (forall o :: o in db.links && o.0 == l.0 ==> o.1 == id) :: l.0
  }

  function DetachRef(r: Record, id: ChannelId): Record {
    if r.System? && r.channelRef == Some(id) then r.(channelRef := None) else r
  }

  function WithoutRecords(db: Db, gone: set<RecordId>): Db {
    db.(records := (map r | r in db.records && r !in gone :: db.records[r]),
        participants := (set p | p in db.participants && p.0 !in gone),
        acks := (map k | k in db.acks && k.0 !in gone :: db.acks[k]))
  }

  function WithoutChannel(db: Db, id: ChannelId): Db {
    WithoutMembers(db, id).(
      channels := (map c | c in db.channels && c != id :: db.channels[c]),
      links := (set l | l in db.links && l.1 != id),
      records := (map r | r in db.records :: DetachRef(db.records[r], id)))
  }

  function Deleted(db: Db, id: ChannelId, name: Name, actor: Name, now: nat): Db {
    var sole := Sole(db, id);
    AppendSystem(WithoutChannel(WithoutRecords(db, sole), id), ChannelDeleted(id, name, |sole|, actor), None, now)
  }

  function RegisteredPrincipal(db: Db, name: Name, admin: bool, now: nat): Db {
    AppendSystem(db.(principals := db.principals + {name}), Registered(name, admin), None, now)
  }

  function OverrideIn(db: Db, p: Name, c: ChannelId): Option<Mode> {
    if (p, c) in db.overrides then Some(db.overrides[(p, c)]) else None
  }

  function WithMembership(db: Db, p: Name, c: ChannelId, subscribe: bool): Db {
    db.(subs := if subscribe then db.subs + {(p, c)} else db.subs - {(p, c)})
  }

  function SubscriptionEvent(p: Name, channel: Name, subscribe: bool, byAdmin: bool): SystemEvent {
    if subscribe then Subscribed(p, channel, byAdmin) else Unsubscribed(p, channel, byAdmin)
  }

  /** `None` stands for a foreign-key violation, which rolls back. */
  function SelfOutcome(db: Db, p: Name, c: ChannelId, subscribe: bool): Option<SubOutcome> {
    var mode := OverrideIn(db, p, c);
    if subscribe && mode == Some(Cancelled) then Some(Denied(Cancelled))
    else if !subscribe && mode == Some(Forced) then Some(Denied(Forced))
    else if subscribe && (p !in db.principals || c !in db.channels) && (p, c) !in db.subs then None
    else if ((p, c) in db.subs) == subscribe then Some(NoChange)
    else Some(Applied)
  }

  function SelfSubscribed(db: Db, p: Name, c: ChannelId, subscribe: bool, channel: Name, now: nat): Db {
    if SelfOutcome(db, p, c, subscribe) == Some(Applied) then
      AppendSystem(WithMembership(db, p, c, subscribe), SubscriptionEvent(p, channel, subscribe, false), Some(c), now)
    else db
  }

  function ModeFor(subscribe: bool): Mode {
    if subscribe then Forced else Cancelled
  }

  predicate AdminChanges(db: Db, p: Name, c: ChannelId, subscribe: bool) {
    OverrideIn(db, p, c) != Some(ModeFor(subscribe)) || ((p, c) in db.subs) != subscribe
  }

  function AdminSubscribed(db: Db, p: Name, c: ChannelId, subscribe: bool, channel: Name, now: nat): Db {
    if AdminChanges(db, p, c, subscribe) then
      var tx := WithMembership(db.(overrides := db.overrides[(p, c) := ModeFor(subscribe)]), p, c, subscribe);
      AppendSystem(tx, SubscriptionEvent(p, channel, subscribe, true), Some(c), now)
    else db
  }

  predicate NoRepeat<T(==)>(s: seq<T>) {
    forall i, j :: 0 <= i < j < |s| ==> s[i] != s[j]
  }

  /** Neither a primary key nor a foreign key stands in the way of the append. */
  predicate AppendAllowed(db: Db, channelIds: seq<ChannelId>, held: seq<Name>, failed: seq<Name>) {
    && NoRepeat(channelIds) && (forall c :: c in channelIds ==> c in db.channels)
    && NoRepeat(held + failed)
  }

  function Envelope(db: Db, sender: Name, to: Recipients, body: seq<Byte>, truncated: bool, thread: Option<RecordId>,
                    now: nat): Record {
    Message(now, if thread.Some? then thread.value else db.nextRecord, sender, body, truncated, to)
  }

  function HeldRow(now: nat): AckRow {
    AckRow(Held, None, Some(now), None, None, None)
  }

  function DisconnectedRow(now: nat): AckRow {
    AckRow(Failed, Some("disconnected"), None, None, None, Some(now))
  }

  function Appended(db: Db, sender: Name, to: Recipients, body: seq<Byte>, truncated: bool, thread: Option<RecordId>,
                    channelIds: seq<ChannelId>, held: seq<Name>, failed: seq<Name>, now: nat): Db
  {
    var id := db.nextRecord;
    db.(records := db.records[id := Envelope(db, sender, to, body, truncated, thread, now)],
        nextRecord := id + 1,
        links := db.links + (set c | c in channelIds :: (id, c)),
        participants := if channelIds == [] then db.participants + {(id, sender)} + Keys(id, to.principals)
                        else db.participants,
        acks := WithRows(db.acks, id, held, failed, now))
  }

  function Keys(id: RecordId, names: seq<Name>): (r: set<(RecordId, Name)>)
    ensures forall k :: k in r <==> k.0 == id && k.1 in names
  {
    set n | n in names :: (id, n)
  }

  function WithRows(acks: map<(RecordId, Name), AckRow>, id: RecordId, held: seq<Name>, failed: seq<Name>,
                    now: nat): map<(RecordId, Name), AckRow> {
    map k | k in acks.Keys + Keys(id, held) + Keys(id, failed) ::
      if k in Keys(id, failed) then DisconnectedRow(now) else if k in Keys(id, held) then HeldRow(now) else acks[k]
  }

  function AckSet(db: Db, m: RecordId, recipient: Name, u: Update): Db {
    if (m, recipient) in db.acks then db.(acks := db.acks[(m, recipient) := Apply(db.acks[(m, recipient)], u)]) else db
  }

  // -- the loops of a deletion ---------------------------------------------

  /** The rows about some records go first, because they refer to them. */
  method DeleteMail(db: Db, gone: seq<RecordId>, ghost all: set<RecordId>) returns (tx: Db)
    requires forall r :: r in gone <==> r in all
    ensures tx == db.(participants := WithoutRecords(db, all).participants, acks := WithoutRecords(db, all).acks)
  {
    tx := db;
    ghost var done: set<RecordId> := {};
    for i := 0 to |gone|
      invariant forall r :: r in done <==> r in gone[..i]
      invariant tx == db.(participants := tx.participants, acks := tx.acks)
      invariant tx.participants == set p | p in db.participants && p.0 !in done
      invariant tx.acks == map k | k in db.acks && k.0 !in done :: db.acks[k]
    {
      var rid := gone[i];
      assert gone[..i + 1] == gone[..i] + [rid];
      tx := tx.(acks := map k | k in tx.acks && k.0 != rid :: tx.acks[k]);
      tx := tx.(participants := set p | p in tx.participants && p.0 != rid);
      done := done + {rid};
    }
    assert gone[..|gone|] == gone && done == all;
  }

  /** Then the records themselves: the foreign keys let them go because no row refers
      to them any more. */
  method DeleteRecords(db: Db, gone: seq<RecordId>, ghost all: set<RecordId>) returns (tx: Db)
    requires forall r :: r in gone <==> r in all
    requires forall l :: l in db.links ==> l.0 !in all
    requires forall k :: k in db.acks ==> k.0 !in all
    requires forall p :: p in db.participants ==> p.0 !in all
    ensures tx == db.(records := WithoutRecords(db, all).records)
  {
    tx := db;
    ghost var done: set<RecordId> := {};
    for i := 0 to |gone|
      invariant forall r :: r in done <==> r in gone[..i]
      invariant tx == db.(records := tx.records) && tx.records == map r | r in db.records && r !in done :: db.records[r]
    {
      var rid := gone[i];
      assert gone[..i + 1] == gone[..i] + [rid];
      tx := tx.(records := map r | r in tx.records && r != rid :: tx.records[r]);
      done := done + {rid};
    }
    assert gone[..|gone|] == gone && done == all;
  }

  /** And the channel, with what is about it. */
  method DeleteRow(db: Db, id: ChannelId) returns (tx: Db)
    ensures tx == WithoutChannel(db, id).(links := db.links)
  {
    tx := db.(records := map r | r in db.records :: DetachRef(db.records[r], id));
    tx := tx.(subs := set s | s in tx.subs && s.1 != id);
    tx := tx.(overrides := map k | k in tx.overrides && k.1 != id :: tx.overrides[k]);
    tx := tx.(channels := map c | c in tx.channels && c != id :: tx.channels[c]);
  }

  // -- the store object ----------------------------------------------------

  method Rows<T>(s: set<T>) returns (rows: seq<T>)
    ensures |rows| == |s| && forall x :: x in rows <==> x in s
  {
    var left := s;
    rows := [];
    while left != {}
      invariant left <= s && |rows| + |left| == |s|
      invariant forall x :: x in rows <==> x in s && x !in left
      decreases left
    {
      var x :| x in left;
      left, rows := left - {x}, rows + [x];
    }
  }

  predicate Rising(s: seq<RecordId>) {
    forall i, j :: 0 <= i < j < |s| ==> s[i] < s[j]
  }

  /** The records held for a recipient, oldest first. */
  predicate IsHeldList(db: Db, recipient: Name, rows: seq<RecordId>) {
    && Rising(rows)
    && (forall m :: m in rows ==> (m, recipient) in db.acks && db.acks[(m, recipient)].state == Held)
    && (forall k :: k in db.acks && k.1 == recipient && db.acks[k].state == Held ==> k.0 in rows)
  }

  lemma {:induction false} LeastExists(s: set<RecordId>) returns (x: RecordId)
    requires s != {}
    ensures x in s && forall y :: y in s ==> x <= y
  {
    var one :| one in s;
    x := one;
    if s != {one} {
      var least := LeastExists(s - {one});
      x := if least < one then least else one;
      assert s == (s - {one}) + {one};
    }
  }

  method Ascending(s: set<RecordId>) returns (rows: seq<RecordId>)
    ensures Rising(rows) && forall x :: x in rows <==> x in s
  {
    var left := s;
    rows := [];
    while left != {}
      invariant left <= s && Rising(rows) && forall x :: x in rows <==> x in s && x !in left
      invariant forall x, y :: x in rows && y in left ==> x < y
      decreases left
    {
      ghost var least := LeastExists(left);
      var x :| x in left && forall y :: y in left ==> x <= y;
      assert forall i :: 0 <= i < |rows| ==> rows[i] in rows;
      left, rows := left - {x}, rows + [x];
    }
  }

  method LogUnsubscribed(tx: Db, names: seq<Name>, id: ChannelId, channel: Name, now: nat) returns (r: Db)
    ensures r == AppendEvents(tx, UnsubscribeEvents(names, channel), Some(id), now)
  {
    ghost var events := UnsubscribeEvents(names, channel);
    r := tx;
    for i := 0 to |names|
      invariant r == AppendEvents(tx, events[..i], Some(id), now)
    {
      assert events[..i + 1][..i] == events[..i];
      r := AppendSystem(r, Unsubscribed(names[i], channel, true), Some(id), now);
    }
    assert events[..|names|] == events;
  }

  /** One link row per listed channel; a repeated or unknown channel violates a key. */
  method InsertLinks(tx: Db, id: RecordId, channelIds: seq<ChannelId>)
    returns (links: Option<set<(RecordId, ChannelId)>>)
    requires forall l :: l in tx.links ==> l.0 < id
    ensures links == if NoRepeat(channelIds) && (forall c :: c in channelIds ==> c in tx.channels)
                     then Some(tx.links + (set c | c in channelIds :: (id, c))) else None
  {
    var rows := tx.links;
    for i := 0 to |channelIds|
      invariant rows == tx.links + set c | c in channelIds[..i] :: (id, c)
      invariant NoRepeat(channelIds[..i]) && forall c :: c in channelIds[..i] ==> c in tx.channels
    {
      assert channelIds[..i + 1] == channelIds[..i] + [channelIds[i]];
      if (id, channelIds[i]) in rows || channelIds[i] !in tx.channels {
        assert channelIds[i] in channelIds;
        return None;
      }
      rows := rows + {(id, channelIds[i])};
    }
    assert channelIds[..|channelIds|] == channelIds;
    links := Some(rows);
  }

  method InsertParticipants(rows: set<(RecordId, Name)>, id: RecordId, names: seq<Name>)
    returns (r: set<(RecordId, Name)>)
    ensures r == rows + Keys(id, names)
  {
    r := rows;
    for i := 0 to |names|
      invariant r == rows + Keys(id, names[..i])
    {
      assert names[..i + 1] == names[..i] + [names[i]];
      r := r + {(id, names[i])};
    }
    assert names[..|names|] == names;
  }

  /** One row per recipient; a repeated recipient violates the primary key. */
  method InsertAcks(acks: map<(RecordId, Name), AckRow>, id: RecordId, held: seq<Name>, failed: seq<Name>, now: nat)
    returns (r: Option<map<(RecordId, Name), AckRow>>)
    requires forall k :: k in acks ==> k.0 < id
    ensures r == if NoRepeat(held + failed) then Some(WithRows(acks, id, held, failed, now)) else None
  {
    var all := held + failed;
    var rows := acks;
    for i := 0 to |all|
      invariant rows == AckRows(acks, id, all[..i], |held|, now)
      invariant NoRepeat(all[..i])
    {
      AckRowsStep(acks, id, all, i, |held|, now);
      if (id, all[i]) in rows {
        return None;
      }
      rows := rows[(id, all[i]) := if i < |held| then HeldRow(now) else DisconnectedRow(now)];
    }
    assert all[..|all|] == all;
    AckRowsSplit(acks, id, held, failed, now);
    r := Some(rows);
  }

  class Store {
    var db: Db

    constructor ()
      ensures db == EMPTY
    {
      db := EMPTY;
    }

    method CreateChannelLogged(name: Name, actor: Name, now: nat) returns (r: Result<ChannelId, StoreError>)
      modifies this
      ensures NameFree(old(db), name) ==> r == Ok(old(db).nextChannel) && db == Created(old(db), name, actor, now)
      ensures !NameFree(old(db), name) ==> r == Err(NameTaken) && db == old(db)
    {
      var tx := db;
      if exists c :: c in tx.channels && tx.channels[c].name == name {
        return Err(NameTaken);
      }
      var id := tx.nextChannel;
      tx := tx.(channels := tx.channels[id := ChannelRow(name, false)], nextChannel := id + 1);
      tx := AppendSystem(tx, ChannelCreated(name, actor), Some(id), now);
      db := tx;
      return Ok(id);
    }

    method ChannelByName(name: Name) returns (row: Option<ChannelId>)
      ensures row.Some? ==> row.value in db.channels && db.channels[row.value].name == name
      ensures row.None? <==> NameFree(db, name)
    {
      if c :| c in db.channels && db.channels[c].name == name {
        row := Some(c);
      } else {
        row := None;
      }
    }

    method RenameChannelLogged(id: ChannelId, oldName: Name, newName: Name, actor: Name, now: nat)
      returns (r: Result<(), StoreError>)
      modifies this
      ensures RenameClash(old(db), id, newName) ==> r == Err(NameTaken) && db == old(db)
      ensures !RenameClash(old(db), id, newName) ==>
              r == Ok(()) && db == Renamed(old(db), id, oldName, newName, actor, now)
    {
      var tx := db;
      if id in tx.channels {
        if exists c :: c in tx.channels && c != id && tx.channels[c].name == newName {
          return Err(NameTaken);
        }
        tx := tx.(channels := tx.channels[id := tx.channels[id].(name := newName)]);
      }
      tx := AppendSystem(tx, ChannelRenamed(oldName, newName, actor), Some(id), now);
      db := tx;
      return Ok(());
    }

    method ArchiveChannel(id: ChannelId, name: Name, actor: Name, archive: bool, now: nat)
      modifies this
      ensures db == Archived(old(db), id, name, actor, archive, now)
    {
      var tx := WithFlag(db, id, archive);
      if archive {
        var names := OrderNames(Subscribers(tx, id));
        tx := tx.(subs := set s | s in tx.subs && s.1 != id);
        tx := tx.(overrides := map k | k in tx.overrides && k.1 != id :: tx.overrides[k]);
        tx := LogUnsubscribed(tx, names, id, name, now);
        tx := AppendSystem(tx, ChannelArchived(name, actor), Some(id), now);
      } else {
        tx := AppendSystem(tx, ChannelUnarchived(name, actor), Some(id), now);
      }
      db := tx;
    }

    method DeleteChannelLogged(id: ChannelId, name: Name, actor: Name, now: nat) returns (count: nat)
      modifies this
      ensures count == |Sole(old(db), id)|
      ensures db == Deleted(old(db), id, name, actor, now)
    {
      var tx := db;
      var sole := Rows(Sole(tx, id));
      ghost var all := Sole(db, id);
      tx := DeleteMail(tx, sole, all);
      tx := tx.(links := set l | l in tx.links && l.1 != id);
      tx := DeleteRecords(tx, sole, all);
      tx := DeleteRow(tx, id);
      assert tx == WithoutChannel(WithoutRecords(db, all), id);
      tx := AppendSystem(tx, ChannelDeleted(id, name, |sole|, actor), None, now);
      db := tx;
      count := |sole|;
    }

    method RegisterPrincipal(name: Name, admin: bool, now: nat)
      modifies this
      ensures db == RegisteredPrincipal(old(db), name, admin, now)
    {
      var tx := db.(principals := db.principals + {name});
      tx := AppendSystem(tx, Registered(name, admin), None, now);
      db := tx;
    }

    method SelfSubscription(p: Name, c: ChannelId, subscribe: bool, channel: Name, now: nat)
      returns (r: Result<SubOutcome, StoreError>)
      modifies this
      ensures db == SelfSubscribed(old(db), p, c, subscribe, channel, now)
      ensures r == if SelfOutcome(old(db), p, c, subscribe).Some? then Ok(SelfOutcome(old(db), p, c, subscribe).value)
              else Err(Constraint)
    {
      var tx := db;
      var mode := OverrideIn(tx, p, c);
      match (subscribe, mode) {
        case (true, Some(Cancelled)) => return Ok(Denied(Cancelled));
        case (false, Some(Forced)) => return Ok(Denied(Forced));
        case _ =>
      }
      if subscribe && (p, c) !in tx.subs && (p !in tx.principals || c !in tx.channels) {
        return Err(Constraint);
      }
      var changed := ((p, c) in tx.subs) != subscribe;
      tx := WithMembership(tx, p, c, subscribe);
      if !changed {
        assert tx.subs == db.subs;
        db := tx;
        return Ok(NoChange);
      }
      tx := AppendSystem(tx, SubscriptionEvent(p, channel, subscribe, false), Some(c), now);
      db := tx;
      return Ok(Applied);
    }

    method AdminSubscription(p: Name, c: ChannelId, subscribe: bool, channel: Name, now: nat)
      returns (r: Result<bool, StoreError>)
      modifies this
      ensures p !in old(db).principals || c !in old(db).channels ==> r == Err(Constraint) && db == old(db)
      ensures p in old(db).principals && c in old(db).channels ==>
                r == Ok(AdminChanges(old(db), p, c, subscribe))
                  && db == AdminSubscribed(old(db), p, c, subscribe, channel, now)
    {
      var mode := ModeFor(subscribe);
      var tx := db;
      var policyChanged := OverrideIn(tx, p, c) != Some(mode);
      if p !in tx.principals || c !in tx.channels {
        return Err(Constraint);
      }
      tx := tx.(overrides := tx.overrides[(p, c) := mode]);
      var membershipChanged := ((p, c) in tx.subs) != subscribe;
      tx := WithMembership(tx, p, c, subscribe);
      if !policyChanged && !membershipChanged {
        assert tx.subs == db.subs && tx.overrides == db.overrides;
        db := tx;
        return Ok(false);
      }
      tx := AppendSystem(tx, SubscriptionEvent(p, channel, subscribe, true), Some(c), now);
      db := tx;
      return Ok(true);
    }

    method AppendMessageWithAcks(sender: Name, to: Recipients, body: seq<Byte>, truncated: bool,
                                 thread: Option<RecordId>, channelIds: seq<ChannelId>, held: seq<Name>,
                                   failed: seq<Name>, now: nat)
      returns (r: Result<RecordId, StoreError>)
      requires forall k :: k in db.acks ==> k.0 < db.nextRecord
      requires forall l :: l in db.links ==> l.0 < db.nextRecord
      modifies this
      ensures AppendAllowed(old(db), channelIds, held, failed) ==>
                && r == Ok(old(db).nextRecord)
                && db == Appended(old(db), sender, to, body, truncated, thread, channelIds, held, failed, now)
      ensures !AppendAllowed(old(db), channelIds, held, failed) ==> r == Err(Constraint) && db == old(db)
    {
      var tx := db;
      var id := tx.nextRecord;
      tx := tx.(records := tx.records[id := Envelope(tx, sender, to, body, truncated, thread, now)],
                nextRecord := id + 1);
      var links := InsertLinks(tx, id, channelIds);
      if links.None? {
        return Err(Constraint);
      }
      tx := tx.(links := links.value);
      if channelIds == [] {
        tx := tx.(participants := tx.participants + {(id, sender)});
        var participants := InsertParticipants(tx.participants, id, to.principals);
        tx := tx.(participants := participants);
      }
      var acks := InsertAcks(tx.acks, id, held, failed, now);
      if acks.None? {
        return Err(Constraint);
      }
      tx := tx.(acks := acks.value);
      db := tx;
      return Ok(id);
    }

    method AppendSystemRecord(event: SystemEvent, now: nat)
      modifies this
      ensures db == AppendSystem(old(db), event, None, now)
    {
      db := AppendSystem(db, event, None, now);
    }

    /** Answers the time when the state advanced, nothing for a straggler. */
    method SetAck(m: RecordId, recipient: Name, u: Update) returns (r: Option<nat>)
      modifies this
      ensures db == AckSet(old(db), m, recipient, u)
      ensures r == if (m, recipient) in old(db).acks && Advances(old(db).acks[(m, recipient)], u)
                   then Some(u.ts) else None
    {
      if (m, recipient) !in db.acks {
        return None;
      }
      var row := db.acks[(m, recipient)];
      if Rank(u.state) > Rank(row.state) {
        db := db.(acks := db.acks[(m, recipient) := Stamp(row, u.state, u.ts).(state := u.state, reason := u.reason)]);
        return Some(u.ts);
      }
      db := db.(acks := db.acks[(m, recipient) := Stamp(row, u.state, u.ts)]);
      return None;
    }

    /** In the order of the records. */
    method HeldFor(recipient: Name) returns (rows: seq<RecordId>)
      ensures IsHeldList(db, recipient, rows)
    {
      rows := Ascending(set k | k in db.acks && k.1 == recipient && db.acks[k].state == Held :: k.0);
    }
  }

  // -- acknowledgment rows of one append ------------------------------------

  /** The rows written for the first recipients, of whom `heldCount` are held. */
  ghost function AckRows(acks: map<(RecordId, Name), AckRow>, id: RecordId, to: seq<Name>, heldCount: nat,
                         now: nat): map<(RecordId, Name), AckRow> {
    if to == [] then acks
    else
      var n := |to| - 1;
      AckRows(acks, id, to[..n], heldCount, now)
        [(id, to[n]) := if n < heldCount then HeldRow(now) else DisconnectedRow(now)]
  }

  lemma {:induction false} AckRowsKeys(acks: map<(RecordId, Name), AckRow>, id: RecordId, to: seq<Name>, heldCount: nat,
                                       now: nat)
    ensures forall k :: k in AckRows(acks, id, to, heldCount, now) <==> k in acks || (k.0 == id && k.1 in to)
    ensures forall k :: k in acks && !(k.0 == id && k.1 in to) ==> AckRows(acks, id, to, heldCount, now)[k] == acks[k]
  {
    if to != [] {
      var n := |to| - 1;
      assert to == to[..n] + [to[n]];
      AckRowsKeys(acks, id, to[..n], heldCount, now);
    }
  }

  lemma AckRowsStep(acks: map<(RecordId, Name), AckRow>, id: RecordId, all: seq<Name>, i: nat, heldCount: nat, now: nat)
    requires i < |all| && forall k :: k in acks ==> k.0 < id
    ensures (id, all[i]) in AckRows(acks, id, all[..i], heldCount, now) <==> all[i] in all[..i]
    ensures AckRows(acks, id, all[..i + 1], heldCount, now) ==
            AckRows(acks, id, all[..i], heldCount, now)
              [(id, all[i]) := if i < heldCount then HeldRow(now) else DisconnectedRow(now)]
  {
    assert all[..i + 1][..i] == all[..i];
    AckRowsKeys(acks, id, all[..i], heldCount, now);
  }

  lemma {:induction false} AckRowsAt(acks: map<(RecordId, Name), AckRow>, id: RecordId, to: seq<Name>, heldCount: nat,
                                     now: nat, j: nat)
    requires NoRepeat(to) && j < |to|
    ensures (id, to[j]) in AckRows(acks, id, to, heldCount, now)
    ensures AckRows(acks, id, to, heldCount, now)[(id, to[j])]
            == if j < heldCount then HeldRow(now) else DisconnectedRow(now)
  {
    var n := |to| - 1;
    if j < n {
      AckRowsAt(acks, id, to[..n], heldCount, now, j);
    }
  }

  lemma InFailedIff(held: seq<Name>, failed: seq<Name>, j: nat)
    requires NoRepeat(held + failed) && j < |held + failed|
    ensures (held + failed)[j] in failed <==> j >= |held|
  {
    var all := held + failed;
    if all[j] in failed {
      var i :| 0 <= i < |failed| && failed[i] == all[j];
      assert all[|held| + i] == all[j];
    }
  }

  lemma AckRowsLookup(acks: map<(RecordId, Name), AckRow>, id: RecordId, held: seq<Name>, failed: seq<Name>, now: nat,
                      k: (RecordId, Name))
    requires NoRepeat(held + failed) && k in AckRows(acks, id, held + failed, |held|, now)
    ensures k in WithRows(acks, id, held, failed, now)
    ensures AckRows(acks, id, held + failed, |held|, now)[k] == WithRows(acks, id, held, failed, now)[k]
  {
    var all := held + failed;
    AckRowsKeys(acks, id, all, |held|, now);
    if k.0 == id && k.1 in all {
      var j :| 0 <= j < |all| && all[j] == k.1;
      AckRowsAt(acks, id, all, |held|, now, j);
      InFailedIff(held, failed, j);
      assert k == (id, all[j]);
    }
  }

  lemma AckRowsSplit(acks: map<(RecordId, Name), AckRow>, id: RecordId, held: seq<Name>, failed: seq<Name>, now: nat)
    requires NoRepeat(held + failed)
    ensures AckRows(acks, id, held + failed, |held|, now) == WithRows(acks, id, held, failed, now)
  {
    var rows := AckRows(acks, id, held + failed, |held|, now);
    var wanted := WithRows(acks, id, held, failed, now);
    AckRowsKeys(acks, id, held + failed, |held|, now);
    assert rows.Keys == wanted.Keys;
    forall k | k in rows
      ensures rows[k] == wanted[k]
    {
      AckRowsLookup(acks, id, held, failed, now, k);
    }
  }
}
