/** The request handlers that change the store, each taken as one atomic step,
    and what every step keeps. */
module Handlers {
  import opened Wrappers
  import opened Names
  import opened Acks
  import opened Utf8
  import opened Store

  datatype Op =
    | Register(name: Name, admin: bool, now: nat)
    | Note(event: SystemEvent, now: nat)
    | Create(channel: Name, actor: Name, now: nat)
    | Rename(channel: Name, newName: Name, actor: Name, now: nat)
    | Archive(channel: Name, archive: bool, actor: Name, now: nat)
    | Delete(channel: Name, actor: Name, now: nat)
    | SelfSub(principal: Name, channel: Name, subscribe: bool, now: nat)
    | AdminSub(principal: Name, channel: Name, subscribe: bool, now: nat)
    | Send(sender: Name, to: Recipients, body: seq<Byte>, truncated: bool, thread: Option<RecordId>,
           held: seq<Name>, failed: seq<Name>, now: nat)
    | Ack(message: RecordId, recipient: Name, update: Update)

  /** Records that only report presence: they describe no table row. */
  predicate Presence(e: SystemEvent) {
    e.RegistrationDenied? || e.Deregistered? || e.Disconnected?
  }

  ghost function Lookup(db: Db, name: Name): (r: Option<ChannelId>)
    ensures r.Some? ==> r.value in db.channels && db.channels[r.value].name == name
    ensures r.None? <==> NameFree(db, name)
  {
    if c :| c in db.channels && db.channels[c].name == name then Some(c) else None
  }

  ghost predicate Live(db: Db, name: Name) {
    Lookup(db, name).Some? && !db.channels[Lookup(db, name).value].archived
  }

  /** The ids of listed channels, in the order they were listed. */
  ghost function Ids(db: Db, names: seq<Name>): (r: seq<ChannelId>)
    requires forall n :: n in names ==> Lookup(db, n).Some?
    ensures |r| == |names| && forall i :: 0 <= i < |r| ==> r[i] == Lookup(db, names[i]).value
  {
    seq(|names|, i requires 0 <= i < |names| => Lookup(db, names[i]).value)
  }

  ghost predicate SendResolves(db: Db, to: Recipients, thread: Option<RecordId>) {
    && (to.channels != [] || to.principals != [])
    && (forall n :: n in to.channels ==> Live(db, n))
    && (forall p :: p in to.principals ==> p in db.principals)
    && (thread.Some? ==> thread.value in db.records && db.records[thread.value].Message?)
  }

  ghost predicate SendStores(db: Db, op: Op)
    requires op.Send?
  {
    SendResolves(db, op.to, op.thread) && AppendAllowed(db, Ids(db, op.to.channels), op.held, op.failed)
  }

  ghost function Step(db: Db, op: Op): Db {
    match op
    case Register(name, admin, now) => RegisteredPrincipal(db, name, admin, now)
    case Note(event, now) => if Presence(event) then AppendSystem(db, event, None, now) else db
    case Create(name, actor, now) => if NameFree(db, name) then Created(db, name, actor, now) else db
    case Rename(name, newName, actor, now) =>
      var c := Lookup(db, name);
      if c.None? || RenameClash(db, c.value, newName) then db else Renamed(db, c.value, name, newName, actor, now)
    case Archive(name, archive, actor, now) =>
      var c := Lookup(db, name);
      if c.None? || db.channels[c.value].archived == archive then db
      else Archived(db, c.value, name, actor, archive, now)
    case Delete(name, actor, now) =>
      var c := Lookup(db, name);
      if c.None? then db else Deleted(db, c.value, name, actor, now)
    case SelfSub(p, name, subscribe, now) =>
      if p in db.principals && Live(db, name)
      then SelfSubscribed(db, p, Lookup(db, name).value, subscribe, name, now)
      else db
    case AdminSub(p, name, subscribe, now) =>
      if p in db.principals && Live(db, name)
      then AdminSubscribed(db, p, Lookup(db, name).value, subscribe, name, now)
      else db
    case Send(sender, to, body, truncated, thread, held, failed, now) =>
      if SendStores(db, op)
      then Appended(db, sender, to, body, truncated, thread, Ids(db, to.channels), held, failed, now)
      else db
    case Ack(m, recipient, u) => AckSet(db, m, recipient, u)
  }

  ghost function Run(db: Db, ops: seq<Op>): Db
    decreases |ops|
  {
    if ops == [] then db else Step(Run(db, ops[..|ops| - 1]), ops[|ops| - 1])
  }

  // -- what every step keeps -----------------------------------------------

  predicate IsMessage(db: Db, m: RecordId) {
    m in db.records && db.records[m].Message?
  }

  /** Channel names are unique, live and archived alike, and ids are never reused. */
  ghost predicate UniqueNames(db: Db) {
    && (forall c, d :: c in db.channels && d in db.channels && db.channels[c].name == db.channels[d].name ==> c == d)
    && (forall c :: c in db.channels ==> c < db.nextChannel)
    && (forall m :: m in db.records ==> m < db.nextRecord)
  }

  /** No membership or decision refers to a principal or channel that is not there. */
  ghost predicate RowsKnown(db: Db) {
    && (forall s :: s in db.subs ==> s.0 in db.principals && s.1 in db.channels)
    && (forall k :: k in db.overrides ==> k.0 in db.principals && k.1 in db.channels)
  }

  /** No link, participant or acknowledgment refers to a missing message or channel. */
  ghost predicate MailKnown(db: Db) {
    && (forall l :: l in db.links ==> IsMessage(db, l.0) && l.1 in db.channels)
    && (forall p :: p in db.participants ==> IsMessage(db, p.0))
    && (forall k :: k in db.acks ==> IsMessage(db, k.0))
  }

  /** A message is linked to a channel exactly when it was sent to channels, and
      only direct messages have participants. */
  ghost predicate Linked(db: Db) {
    && (forall m :: IsMessage(db, m) ==>
          (db.records[m].recipients.channels != [] <==> exists l :: l in db.links && l.0 == m))
    && (forall p :: p in db.participants && IsMessage(db, p.0) ==> db.records[p.0].recipients.channels == [])
  }

  /** Human decisions hold: forced members are members, cancelled ones are not,
      and an archived channel has neither members nor decisions. */
  ghost predicate Precedence(db: Db) {
    && (forall k :: k in db.overrides ==> (k in db.subs <==> db.overrides[k] == Forced))
    && (forall s :: s in db.subs && s.1 in db.channels ==> !db.channels[s.1].archived)
    && (forall k :: k in db.overrides && k.1 in db.channels ==> !db.channels[k.1].archived)
  }

  ghost predicate Inv(db: Db) {
    UniqueNames(db) && RowsKnown(db) && Precedence(db) && MailKnown(db) && Linked(db)
  }

  /** The mail tables are the same and hold the same messages. */
  ghost predicate SameMail(db: Db, tx: Db) {
    && tx.links == db.links && tx.participants == db.participants && tx.acks == db.acks
    && (forall m :: IsMessage(tx, m) <==> IsMessage(db, m))
    && (forall m :: IsMessage(db, m) ==> tx.records[m].recipients == db.records[m].recipients)
  }

  lemma MailFrame(db: Db, tx: Db)
    requires SameMail(db, tx) && MailKnown(db) && Linked(db) && db.channels.Keys <= tx.channels.Keys
    ensures MailKnown(tx) && Linked(tx)
  {
    forall l | l in tx.links
      ensures l.1 in tx.channels
    {
      assert l.1 in db.channels.Keys;
    }
  }

  /** Appending system records touches no other table and no earlier record. */
  lemma {:induction false} AppendEventsFrame(db: Db, events: seq<SystemEvent>, ref: Option<ChannelId>, now: nat)
    requires forall m :: m in db.records ==> m < db.nextRecord
    ensures var r := AppendEvents(db, events, ref, now);
            && r == db.(records := r.records, nextRecord := db.nextRecord + |events|)
            && (forall m :: m in db.records ==> m in r.records && r.records[m] == db.records[m])
            && (forall m :: m in r.records && m !in db.records ==>
                db.nextRecord <= m < r.nextRecord && r.records[m].System?)
  {
    if events != [] {
      AppendEventsFrame(db, events[..|events| - 1], ref, now);
    }
  }

  /** Every invariant looks at the log only through its messages. */
  lemma {:induction false} AppendKeepsInv(db: Db, events: seq<SystemEvent>, ref: Option<ChannelId>, now: nat)
    requires Inv(db)
    ensures Inv(AppendEvents(db, events, ref, now))
  {
    AppendEventsFrame(db, events, ref, now);
    MailFrame(db, AppendEvents(db, events, ref, now));
  }

  lemma AppendOneKeepsInv(db: Db, event: SystemEvent, ref: Option<ChannelId>, now: nat)
    requires Inv(db)
    ensures Inv(AppendSystem(db, event, ref, now))
  {
    MailFrame(db, AppendSystem(db, event, ref, now));
  }

  lemma NewChannelKeepsRows(db: Db, name: Name)
    requires UniqueNames(db) && RowsKnown(db) && Precedence(db) && NameFree(db, name)
    ensures var tx := db.(channels := db.channels[db.nextChannel := ChannelRow(name, false)],
                          nextChannel := db.nextChannel + 1);
            UniqueNames(tx) && RowsKnown(tx) && Precedence(tx)
  {
  }

  lemma CreateKeepsInv(db: Db, name: Name, actor: Name, now: nat)
    requires Inv(db) && NameFree(db, name)
    ensures Inv(Created(db, name, actor, now))
  {
    var tx := db.(channels := db.channels[db.nextChannel := ChannelRow(name, false)],
                  nextChannel := db.nextChannel + 1);
    NewChannelKeepsRows(db, name);
    MailFrame(db, tx);
    AppendOneKeepsInv(tx, ChannelCreated(name, actor), Some(db.nextChannel), now);
  }

  lemma RenameKeepsInv(db: Db, c: ChannelId, oldName: Name, newName: Name, actor: Name, now: nat)
    requires Inv(db) && c in db.channels && !RenameClash(db, c, newName)
    ensures Inv(Renamed(db, c, oldName, newName, actor, now))
  {
    var tx := db.(channels := db.channels[c := db.channels[c].(name := newName)]);
    MailFrame(db, tx);
    AppendOneKeepsInv(tx, ChannelRenamed(oldName, newName, actor), Some(c), now);
  }

  lemma ClearedKeepsInv(db: Db, c: ChannelId)
    requires Inv(db) && c in db.channels
    ensures Inv(WithoutMembers(WithFlag(db, c, true), c))
  {
    MailFrame(db, WithoutMembers(WithFlag(db, c, true), c));
  }

  lemma ArchiveKeepsInv(db: Db, c: ChannelId, name: Name, actor: Name, archive: bool, now: nat)
    requires Inv(db) && c in db.channels && db.channels[c].archived != archive
    ensures Inv(Archived(db, c, name, actor, archive, now))
  {
    if archive {
      var cleared := WithoutMembers(WithFlag(db, c, true), c);
      var events := UnsubscribeEvents(Ordered(Subscribers(db, c)), name);
      ClearedKeepsInv(db, c);
      AppendKeepsInv(cleared, events, Some(c), now);
      AppendOneKeepsInv(AppendEvents(cleared, events, Some(c), now), ChannelArchived(name, actor), Some(c), now);
    } else {
      MailFrame(db, WithFlag(db, c, false));
      AppendOneKeepsInv(WithFlag(db, c, false), ChannelUnarchived(name, actor), Some(c), now);
    }
  }

  lemma DeleteKeepsMail(db: Db, c: ChannelId)
    requires MailKnown(db) && Linked(db)
    ensures var tx := WithoutChannel(WithoutRecords(db, Sole(db, c)), c);
            MailKnown(tx) && Linked(tx)
  {
    var sole := Sole(db, c);
    var tx := WithoutChannel(WithoutRecords(db, sole), c);
    assert forall m :: IsMessage(tx, m) <==> IsMessage(db, m) && m !in sole;
    forall m | IsMessage(tx, m)
      ensures tx.records[m].recipients.channels != [] <==> exists l :: l in tx.links && l.0 == m
    {
      assert tx.records[m] == db.records[m];
      if l :| l in db.links && l.0 == m {
        if l.1 == c {
          assert (m, c) in db.links;
          var o :| o in db.links && o.0 == m && o.1 != c;
          assert o in tx.links;
        } else {
          assert l in tx.links;
        }
      }
    }
  }

  lemma {:induction false} DeleteKeepsInv(db: Db, c: ChannelId, name: Name, actor: Name, now: nat)
    requires Inv(db) && c in db.channels
    ensures Inv(Deleted(db, c, name, actor, now))
  {
    DeleteKeepsMail(db, c);
    AppendOneKeepsInv(WithoutChannel(WithoutRecords(db, Sole(db, c)), c), ChannelDeleted(c, name, |Sole(db, c)|, actor),
                      None, now);
  }

  lemma MembershipKeepsInv(db: Db, p: Name, c: ChannelId, subscribe: bool, decided: bool, event: SystemEvent, now: nat)
    requires Inv(db) && p in db.principals && c in db.channels && !db.channels[c].archived
    requires !decided ==> OverrideIn(db, p, c) != Some(ModeFor(!subscribe))
    ensures var tx := if decided then db.(overrides := db.overrides[(p, c) := ModeFor(subscribe)]) else db;
            Inv(AppendSystem(WithMembership(tx, p, c, subscribe), event, Some(c), now))
  {
    var tx := if decided then db.(overrides := db.overrides[(p, c) := ModeFor(subscribe)]) else db;
    var after := WithMembership(tx, p, c, subscribe);
    MailFrame(db, after);
    AppendOneKeepsInv(after, event, Some(c), now);
  }

  lemma SendKeepsMail(db: Db, op: Op)
    requires MailKnown(db) && Linked(db) && op.Send? && SendStores(db, op)
    requires forall m :: m in db.records ==> m < db.nextRecord
    ensures MailKnown(Step(db, op)) && Linked(Step(db, op))
  {
    var r := Step(db, op);
    var ids := Ids(db, op.to.channels);
    assert forall m :: IsMessage(r, m) <==> IsMessage(db, m) || m == db.nextRecord;
    assert forall l :: l in r.links <==> l in db.links || (l.0 == db.nextRecord && l.1 in ids);
    forall m | IsMessage(r, m)
      ensures r.records[m].recipients.channels != [] <==> exists l :: l in r.links && l.0 == m
    {
      if m == db.nextRecord {
        if ids != [] {
          assert (m, ids[0]) in r.links;
        }
      } else {
        assert forall l :: l in r.links && l.0 == m <==> l in db.links && l.0 == m;
      }
    }
  }

  lemma SendKeepsInv(db: Db, op: Op)
    requires Inv(db) && op.Send? && SendStores(db, op)
    ensures Inv(Step(db, op))
  {
    SendKeepsMail(db, op);
  }

  /** Every handler keeps referential integrity, the channel links of messages
      and human precedence. */
  lemma {:induction false} StepKeepsInv(db: Db, op: Op)
    requires Inv(db)
    ensures Inv(Step(db, op))
  {
    if Step(db, op) != db {
      match op
      case Register(name, admin, now) =>
        MailFrame(db, db.(principals := db.principals + {name}));
        AppendOneKeepsInv(db.(principals := db.principals + {name}), Registered(name, admin), None, now);
      case Note(event, now) => AppendOneKeepsInv(db, event, None, now);
      case Create(name, actor, now) => CreateKeepsInv(db, name, actor, now);
      case Rename(name, newName, actor, now) => RenameKeepsInv(db, Lookup(db, name).value, name, newName, actor, now);
      case Archive(name, archive, actor, now) => ArchiveKeepsInv(db, Lookup(db, name).value, name, actor, archive, now);
      case Delete(name, actor, now) => DeleteKeepsInv(db, Lookup(db, name).value, name, actor, now);
      case SelfSub(p, name, subscribe, now) =>
        MembershipKeepsInv(db, p, Lookup(db, name).value, subscribe, false,
                           SubscriptionEvent(p, name, subscribe, false), now);
      case AdminSub(p, name, subscribe, now) =>
        MembershipKeepsInv(db, p, Lookup(db, name).value, subscribe, true, SubscriptionEvent(p, name, subscribe, true),
                           now);
      case Send(_, _, _, _, _, _, _, _) => SendKeepsInv(db, op);
      case Ack(m, recipient, u) => AckKeepsMail(db, m, recipient, u);
    }
  }

  lemma AckKeepsMail(db: Db, m: RecordId, recipient: Name, u: Update)
    requires MailKnown(db) && Linked(db)
    ensures MailKnown(AckSet(db, m, recipient, u)) && Linked(AckSet(db, m, recipient, u))
  {
    var r := AckSet(db, m, recipient, u);
    assert r.acks.Keys == db.acks.Keys;
    assert forall i :: IsMessage(r, i) <==> IsMessage(db, i);
    forall k | k in r.acks
      ensures IsMessage(r, k.0)
    {
      assert k in db.acks.Keys;
    }
  }

  lemma {:induction false} RunKeepsInv(ops: seq<Op>)
    ensures Inv(Run(EMPTY, ops))
    decreases |ops|
  {
    if ops != [] {
      RunKeepsInv(ops[..|ops| - 1]);
      StepKeepsInv(Run(EMPTY, ops[..|ops| - 1]), ops[|ops| - 1]);
    }
  }
}
