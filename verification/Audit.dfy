/** What the log and the tables promise over whole runs: nothing is lost
    without a tombstone, system records stay, human decisions stand. */
module Audit {
  import opened Wrappers
  import opened Names
  import opened Store
  import opened Handlers
  import opened Replay

  // -- conservation ----------------------------------------------------------

  function MessageIds(db: Db): (r: set<RecordId>)
    ensures forall m :: m in r <==> IsMessage(db, m)
  {
    set m | m in db.records && db.records[m].Message?
  }

  function Redacted(e: SystemEvent): nat {
    if e.ChannelDeleted? then e.recordCount else 0
  }

  /** Messages that tombstones in the log say were removed. */
  function TombstoneTotal(events: seq<SystemEvent>): nat {
    if events == [] then 0 else TombstoneTotal(events[..|events| - 1]) + Redacted(events[|events| - 1])
  }

  /** Sends that stored a message. */
  ghost function Stored(ops: seq<Op>): nat {
    if ops == [] then 0
    else
      var n := |ops| - 1;
      Stored(ops[..n]) + if ops[n].Send? && SendStores(Run(EMPTY, ops[..n]), ops[n]) then 1 else 0
  }

  lemma TombstoneGrows(events: seq<SystemEvent>, e: SystemEvent)
    ensures TombstoneTotal(events + [e]) == TombstoneTotal(events) + Redacted(e)
  {
    assert (events + [e])[..|events|] == events;
  }

  lemma {:induction false} TombstoneJoin(events: seq<SystemEvent>, more: seq<SystemEvent>)
    requires forall e :: e in more ==> Redacted(e) == 0
    ensures TombstoneTotal(events + more) == TombstoneTotal(events)
  {
    if more == [] {
      assert events + more == events;
    } else {
      var n := |more| - 1;
      TombstoneJoin(events, more[..n]);
      assert events + more == (events + more[..n]) + [more[n]];
      TombstoneGrows(events + more[..n], more[n]);
    }
  }

  /** A change that keeps the messages and logs one record. */
  lemma LoggedBalance(before: Db, tx: Db, event: SystemEvent, ref: Option<ChannelId>, now: nat)
    requires SystemLog(tx) == SystemLog(before) && tx.nextRecord !in tx.records
    ensures MessageIds(AppendSystem(tx, event, ref, now)) == MessageIds(tx)
    ensures TombstoneTotal(SystemLog(AppendSystem(tx, event, ref, now)))
            == TombstoneTotal(SystemLog(before)) + Redacted(event)
  {
    AppendGrowsLog(tx, event, ref, now);
    TombstoneGrows(SystemLog(tx), event);
  }

  lemma ArchiveBalance(db: Db, c: ChannelId, name: Name, actor: Name, archive: bool, now: nat)
    requires UniqueNames(db)
    ensures var r := Archived(db, c, name, actor, archive, now);
            MessageIds(r) == MessageIds(db) && TombstoneTotal(SystemLog(r)) == TombstoneTotal(SystemLog(db))
  {
    if archive {
      var cleared := WithoutMembers(WithFlag(db, c, true), c);
      var events := UnsubscribeEvents(Ordered(Subscribers(db, c)), name);
      var logged := AppendEvents(cleared, events, Some(c), now);
      AppendEventsFrame(cleared, events, Some(c), now);
      AppendEventsGrowsLog(cleared, events, Some(c), now);
      assert SystemLog(cleared) == SystemLog(db);
      TombstoneJoin(SystemLog(db), events);
      assert MessageIds(logged) == MessageIds(db);
      LoggedBalance(logged, logged, ChannelArchived(name, actor), Some(c), now);
    } else {
      LoggedBalance(db, WithFlag(db, c, false), ChannelUnarchived(name, actor), Some(c), now);
    }
  }

  lemma DeleteBalance(db: Db, c: ChannelId, name: Name, actor: Name, now: nat)
    requires UniqueNames(db) && forall m :: m in Sole(db, c) ==> IsMessage(db, m)
    ensures var r := Deleted(db, c, name, actor, now);
            && MessageIds(r) == MessageIds(db) - Sole(db, c)
            && TombstoneTotal(SystemLog(r)) == TombstoneTotal(SystemLog(db)) + |Sole(db, c)|
  {
    var tx := WithoutChannel(WithoutRecords(db, Sole(db, c)), c);
    DeleteKeepsEvents(db, c);
    LoggedBalance(db, tx, ChannelDeleted(c, name, |Sole(db, c)|, actor), None, now);
    assert MessageIds(tx) == MessageIds(db) - Sole(db, c);
  }

  lemma SendBalance(db: Db, op: Op)
    requires UniqueNames(db) && op.Send? && SendStores(db, op)
    ensures MessageIds(Step(db, op)) == MessageIds(db) + {db.nextRecord}
    ensures SystemLog(Step(db, op)) == SystemLog(db)
  {
    var r := Step(db, op);
    EventsFrame(db.records, r.records, db.nextRecord);
    assert EventAt(r.records, db.nextRecord) == [];
  }

  ghost predicate Balanced(db: Db, stored: nat) {
    |MessageIds(db)| + TombstoneTotal(SystemLog(db)) == stored
  }

  ghost predicate SameBalance(db: Db, after: Db) {
    MessageIds(after) == MessageIds(db) && TombstoneTotal(SystemLog(after)) == TombstoneTotal(SystemLog(db))
  }

  lemma CreateBalance(db: Db, name: Name, actor: Name, now: nat)
    requires UniqueNames(db)
    ensures SameBalance(db, Created(db, name, actor, now))
  {
    var tx := db.(channels := db.channels[db.nextChannel := ChannelRow(name, false)],
                  nextChannel := db.nextChannel + 1);
    LoggedBalance(db, tx, ChannelCreated(name, actor), Some(db.nextChannel), now);
  }

  lemma RenameBalance(db: Db, c: ChannelId, name: Name, newName: Name, actor: Name, now: nat)
    requires UniqueNames(db) && c in db.channels
    ensures SameBalance(db, Renamed(db, c, name, newName, actor, now))
  {
    var tx := db.(channels := db.channels[c := db.channels[c].(name := newName)]);
    LoggedBalance(db, tx, ChannelRenamed(name, newName, actor), Some(c), now);
  }

  lemma SelfBalance(db: Db, p: Name, c: ChannelId, subscribe: bool, name: Name, now: nat)
    requires UniqueNames(db)
    ensures SameBalance(db, SelfSubscribed(db, p, c, subscribe, name, now))
  {
    LoggedBalance(db, WithMembership(db, p, c, subscribe), SubscriptionEvent(p, name, subscribe, false), Some(c), now);
  }

  lemma AdminBalance(db: Db, p: Name, c: ChannelId, subscribe: bool, name: Name, now: nat)
    requires UniqueNames(db)
    ensures SameBalance(db, AdminSubscribed(db, p, c, subscribe, name, now))
  {
    var tx := WithMembership(db.(overrides := db.overrides[(p, c) := ModeFor(subscribe)]), p, c, subscribe);
    LoggedBalance(db, tx, SubscriptionEvent(p, name, subscribe, true), Some(c), now);
  }

  /** Handlers that log at most one record and keep the messages. */
  lemma QuietBalance(db: Db, op: Op)
    requires UniqueNames(db) && !op.Delete? && !op.Archive? && !op.Send?
    ensures SameBalance(db, Step(db, op))
  {
    if op.Create? {
      CreateBalance(db, op.channel, op.actor, op.now);
    } else if op.Rename? && Step(db, op) != db {
      RenameBalance(db, Lookup(db, op.channel).value, op.channel, op.newName, op.actor, op.now);
    } else if op.SelfSub? && Step(db, op) != db {
      SelfBalance(db, op.principal, Lookup(db, op.channel).value, op.subscribe, op.channel, op.now);
    } else if op.AdminSub? && Step(db, op) != db {
      AdminBalance(db, op.principal, Lookup(db, op.channel).value, op.subscribe, op.channel, op.now);
    } else if op.Register? {
      LoggedBalance(db, db.(principals := db.principals + {op.name}), Registered(op.name, op.admin), None, op.now);
    } else if op.Note? && Step(db, op) != db {
      LoggedBalance(db, db, op.event, None, op.now);
    }
  }

  lemma StepBalance(db: Db, op: Op, stored: nat)
    requires Inv(db) && Balanced(db, stored)
    ensures Balanced(Step(db, op), stored + if op.Send? && SendStores(db, op) then 1 else 0)
  {
    if op.Send? {
      if SendStores(db, op) {
        SendBalance(db, op);
      }
    } else if !op.Archive? && !op.Delete? {
      QuietBalance(db, op);
    } else if Step(db, op) != db {
      var c := Lookup(db, op.channel).value;
      if op.Archive? {
        ArchiveBalance(db, c, op.channel, op.actor, op.archive, op.now);
      } else {
        DeletionBalances(db, c, op.channel, op.actor, op.now, stored);
      }
    }
  }

  lemma DeletionBalances(db: Db, c: ChannelId, name: Name, actor: Name, now: nat, stored: nat)
    requires Inv(db) && c in db.channels && Balanced(db, stored)
    ensures Balanced(Deleted(db, c, name, actor, now), stored)
  {
    InvApart(db, c);
    DeleteBalance(db, c, name, actor, now);
    assert Sole(db, c) <= MessageIds(db);
  }

  /** On every run: messages stored by sends = messages still in the log + the
      messages that tombstones account for. */
  lemma {:induction false} Conservation(ops: seq<Op>)
    ensures var db := Run(EMPTY, ops);
            |MessageIds(db)| + TombstoneTotal(SystemLog(db)) == Stored(ops)
    decreases |ops|
  {
    if ops == [] {
      EmptyRebuilds();
      assert EventsBelow(EMPTY.records, 0) == [];
      assert SystemLog(EMPTY) == [];
      assert MessageIds(EMPTY) == {};
    } else {
      var n := |ops| - 1;
      Conservation(ops[..n]);
      RunKeepsInv(ops[..n]);
      StepBalance(Run(EMPTY, ops[..n]), ops[n], Stored(ops[..n]));
    }
  }

  // -- the log only grows, except where a tombstone says otherwise ------------

  /** Every system record stays with its event; a message stays unchanged or was
      removed by deleting the one channel it was linked to. */
  ghost predicate LogKept(db: Db, op: Op, after: Db) {
    && db.nextRecord <= after.nextRecord
    && (forall m :: m in after.records && m !in db.records ==> db.nextRecord <= m)
    && (forall m :: m in db.records && db.records[m].System? ==>
          m in after.records && after.records[m].System? && after.records[m].event == db.records[m].event)
    && (forall m :: IsMessage(db, m) ==>
          if m in after.records then after.records[m] == db.records[m]
          else op.Delete? && Lookup(db, op.channel).Some? && m in Sole(db, Lookup(db, op.channel).value))
  }

  lemma DeleteKeepsLog(db: Db, op: Op)
    requires op.Delete? && Lookup(db, op.channel).Some? && forall m :: m in db.records ==> m < db.nextRecord
    requires forall m :: m in Sole(db, Lookup(db, op.channel).value) ==> IsMessage(db, m)
    ensures LogKept(db, op, Step(db, op))
  {
    var c := Lookup(db, op.channel).value;
    DeletedRecords(db, c, op.channel, op.actor, op.now);
  }

  /** The records after a deletion. */
  lemma DeletedRecords(db: Db, c: ChannelId, name: Name, actor: Name, now: nat)
    requires forall m :: m in db.records ==> m < db.nextRecord
    requires forall m :: m in Sole(db, c) ==> IsMessage(db, m)
    ensures var r := Deleted(db, c, name, actor, now);
            && r.nextRecord == db.nextRecord + 1
            && (forall m :: m in r.records <==> m == db.nextRecord || (m in db.records && m !in Sole(db, c)))
            && (forall m :: m in db.records && m in r.records ==> r.records[m] == DetachRef(db.records[m], c))
  {
  }

  lemma ArchiveKeepsLog(db: Db, op: Op)
    requires UniqueNames(db) && op.Archive? && Lookup(db, op.channel).Some?
    ensures LogKept(db, op, Step(db, op))
  {
    ArchivedRecords(db, Lookup(db, op.channel).value, op.channel, op.actor, op.archive, op.now);
  }

  /** Archiving only adds records. */
  lemma ArchivedRecords(db: Db, c: ChannelId, name: Name, actor: Name, archive: bool, now: nat)
    requires UniqueNames(db)
    ensures var r := Archived(db, c, name, actor, archive, now);
            && db.nextRecord <= r.nextRecord
            && (forall m :: m in db.records ==> m in r.records && r.records[m] == db.records[m])
            && (forall m :: m in r.records && m !in db.records ==> db.nextRecord <= m)
  {
    if archive {
      var cleared := WithoutMembers(WithFlag(db, c, true), c);
      var logged := AppendEvents(cleared, UnsubscribeEvents(Ordered(Subscribers(db, c)), name), Some(c), now);
      AppendEventsFrame(cleared, UnsubscribeEvents(Ordered(Subscribers(db, c)), name), Some(c), now);
      LoggedRecords(logged, ChannelArchived(name, actor), Some(c), now);
    } else {
      LoggedRecords(WithFlag(db, c, false), ChannelUnarchived(name, actor), Some(c), now);
    }
  }

  lemma LoggedRecords(db: Db, event: SystemEvent, ref: Option<ChannelId>, now: nat)
    requires forall m :: m in db.records ==> m < db.nextRecord
    ensures var r := AppendSystem(db, event, ref, now);
            && r.nextRecord == db.nextRecord + 1
            && (forall m :: m in db.records ==> m in r.records && r.records[m] == db.records[m])
            && (forall m :: m in r.records && m !in db.records ==> m == db.nextRecord)
  {
  }

  lemma OneRecordKeepsLog(db: Db, op: Op)
    requires UniqueNames(db) && !op.Delete? && !op.Archive?
    ensures LogKept(db, op, Step(db, op))
  {
    var r := Step(db, op);
    assert r.records == db.records
      || (db.nextRecord in r.records && r.records == db.records[db.nextRecord := r.records[db.nextRecord]]);
  }

  lemma StepKeepsLog(db: Db, op: Op)
    requires Inv(db)
    ensures LogKept(db, op, Step(db, op))
  {
    if op.Delete? {
      if Lookup(db, op.channel).Some? {
        InvApart(db, Lookup(db, op.channel).value);
        DeleteKeepsLog(db, op);
      }
    } else if op.Archive? {
      if Lookup(db, op.channel).Some? {
        ArchiveKeepsLog(db, op);
      }
    } else {
      OneRecordKeepsLog(db, op);
    }
  }

  /** Deleting a channel leaves a message that was also sent elsewhere, with its
      other links, participants and acknowledgment rows. */
  lemma SharedMessageSurvives(db: Db, op: Op, m: RecordId, other: ChannelId)
    requires Inv(db) && op.Delete? && Lookup(db, op.channel).Some?
    requires (m, other) in db.links && other != Lookup(db, op.channel).value
    ensures var after := Step(db, op);
            && m in after.records && after.records[m] == db.records[m]
            && (m, other) in after.links && other in after.channels
            && (forall r :: (m, r) in after.acks <==> (m, r) in db.acks)
            && (forall r :: (m, r) in db.acks ==> after.acks[(m, r)] == db.acks[(m, r)])
            && (forall p :: (m, p) in after.participants <==> (m, p) in db.participants)
  {
    var c := Lookup(db, op.channel).value;
    assert m !in Sole(db, c);
    assert IsMessage(db, (m, other).0);
  }

  // -- human decisions ---------------------------------------------------------

  /** The request is itself a human decision about this principal and channel. */
  ghost predicate Decides(db: Db, op: Op, p: Name, c: ChannelId) {
    || (op.AdminSub? && op.principal == p && Lookup(db, op.channel) == Some(c))
    || (op.Archive? && Lookup(db, op.channel) == Some(c))
    || (op.Delete? && Lookup(db, op.channel) == Some(c))
  }

  ghost predicate NoDecision(db: Db, ops: seq<Op>, p: Name, c: ChannelId) {
    forall i :: 0 <= i < |ops| ==> !Decides(Run(db, ops[..i]), ops[i], p, c)
  }

  lemma DecisionSurvivesArchive(db: Db, op: Op, p: Name, c: ChannelId)
    requires UniqueNames(db) && op.Archive? && Lookup(db, op.channel).Some? && Lookup(db, op.channel).value != c
    requires (p, c) in db.overrides
    ensures (p, c) in Step(db, op).overrides && Step(db, op).overrides[(p, c)] == db.overrides[(p, c)]
    ensures (p, c) in Step(db, op).subs <==> (p, c) in db.subs
  {
    var d := Lookup(db, op.channel).value;
    AppendEventsFrame(WithoutMembers(WithFlag(db, d, true), d),
                      UnsubscribeEvents(Ordered(Subscribers(db, d)), op.channel), Some(d), op.now);
  }

  lemma DecisionSurvivesStep(db: Db, op: Op, p: Name, c: ChannelId)
    requires UniqueNames(db) && (p, c) in db.overrides && !Decides(db, op, p, c)
    requires (p, c) in db.subs <==> db.overrides[(p, c)] == Forced
    ensures (p, c) in Step(db, op).overrides && Step(db, op).overrides[(p, c)] == db.overrides[(p, c)]
    ensures (p, c) in Step(db, op).subs <==> (p, c) in db.subs
  {
    if op.Archive? {
      if Lookup(db, op.channel).Some? {
        DecisionSurvivesArchive(db, op, p, c);
      }
    }
  }

  /** Once the human forced or cancelled a membership, no sequence of requests
      changes it short of another human decision about that very membership. */
  lemma {:induction false} DecisionStands(db: Db, ops: seq<Op>, p: Name, c: ChannelId)
    requires Inv(db) && (p, c) in db.overrides && NoDecision(db, ops, p, c)
    ensures Inv(Run(db, ops)) && (p, c) in Run(db, ops).overrides
    ensures Run(db, ops).overrides[(p, c)] == db.overrides[(p, c)]
    ensures (p, c) in Run(db, ops).subs <==> db.overrides[(p, c)] == Forced
    decreases |ops|
  {
    if ops != [] {
      var n := |ops| - 1;
      assert forall i :: 0 <= i <= n ==> ops[..n][..i] == ops[..i];
      DecisionStands(db, ops[..n], p, c);
      StepKeepsInv(Run(db, ops[..n]), ops[n]);
      assert !Decides(Run(db, ops[..n]), ops[n], p, c);
      DecisionSurvivesStep(Run(db, ops[..n]), ops[n], p, c);
    }
  }
}
