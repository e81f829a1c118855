/** Handlers that look a channel up and open their transaction later: what the
    transaction does to a store in which the row has changed in between. */
module StaleRows {
  import opened Wrappers
  import opened Names
  import opened Store
  import opened Handlers
  import opened Replay

  /** The tables keep their invariants and the log still rebuilds them. */
  ghost predicate Sound(db: Db) {
    Inv(db) && Rebuilds(db)
  }

  predicate Bears(db: Db, c: ChannelId, name: Name) {
    c in db.channels && db.channels[c].name == name
  }

  /** The row that was looked up is still the channel's row. */
  predicate Current(db: Db, c: ChannelId, name: Name) {
    Bears(db, c, name) && !db.channels[c].archived
  }

  /** A logged event is folded into the view of the log before it. */
  lemma LogThenView(db: Db, tx: Db, event: SystemEvent, ref: Option<ChannelId>, now: nat)
    requires SystemLog(tx) == SystemLog(db) && tx.nextRecord !in tx.records
    ensures Replayed(SystemLog(AppendSystem(tx, event, ref, now))) == Fold(Replayed(SystemLog(db)), event)
  {
    AppendGrowsLog(tx, event, ref, now);
    ReplayedGrows(SystemLog(db), event);
  }

  // -- self-service ------------------------------------------------------------------

  /** The transaction stops of itself: membership is as asked, the human decided the
      opposite, or there is no channel to join. */
  predicate SelfStops(db: Db, p: Name, c: ChannelId, subscribe: bool) {
    || ((p, c) in db.subs) == subscribe
    || ((p, c) in db.overrides && db.overrides[(p, c)] == ModeFor(!subscribe))
    || (subscribe && c !in db.channels)
  }

  lemma SelfStopsIff(db: Db, p: Name, c: ChannelId, subscribe: bool)
    requires p in db.principals
    ensures SelfStops(db, p, c, subscribe) <==> SelfOutcome(db, p, c, subscribe) != Some(Applied)
  {
  }

  /** With an outdated row a self-service change keeps the invariants and the log if and
      only if the transaction stops of itself or the row was still current. */
  lemma SelfStaleIff(db: Db, p: Name, c: ChannelId, subscribe: bool, name: Name, now: nat)
    requires Sound(db) && p in db.principals
    ensures Sound(SelfSubscribed(db, p, c, subscribe, name, now)) <==>
            SelfStops(db, p, c, subscribe) || Current(db, c, name)
  {
    var r := SelfSubscribed(db, p, c, subscribe, name, now);
    var event := SubscriptionEvent(p, name, subscribe, false);
    SelfStopsIff(db, p, c, subscribe);
    if !SelfStops(db, p, c, subscribe) {
      assert c in db.channels by {
        assert (p, c) in db.subs ==> (p, c).1 in db.channels;
      }
      if db.channels[c].archived {
        assert (p, c) !in db.subs && (p, c) in r.subs;
        assert !Precedence(r);
      } else if db.channels[c].name == name {
        InvApart(db, c);
        MembershipKeepsInv(db, p, c, subscribe, false, event, now);
        MembershipRebuilds(db, p, c, subscribe, false, now);
      } else {
        LogThenView(db, WithMembership(db, p, c, subscribe), event, Some(c), now);
        if Rebuilds(r) {
          OtherNameUntouched(db, r, p, c, name, subscribe, false);
        }
      }
    }
  }

  /** A record about another name says nothing of this channel: if the tables changed
      for it, the log does not rebuild them. */
  lemma OtherNameUntouched(db: Db, r: Db, p: Name, c: ChannelId, name: Name, subscribe: bool, byAdmin: bool)
    requires Rebuilds(db) && c in db.channels && db.channels[c].name != name && r.channels == db.channels
    requires Rebuilds(r) && Replayed(SystemLog(r))
             == Fold(Replayed(SystemLog(db)), SubscriptionEvent(p, name, subscribe, byAdmin))
    ensures (p, c) in r.subs <==> (p, c) in db.subs
    ensures (p, c) in r.overrides <==> (p, c) in db.overrides
    ensures (p, c) in r.overrides ==> r.overrides[(p, c)] == db.overrides[(p, c)]
  {
    var v, w, own := Replayed(SystemLog(db)), Replayed(SystemLog(r)), db.channels[c].name;
    assert (p, own) in v.members <==> (p, c) in db.subs;
    assert (p, own) in w.members <==> (p, c) in r.subs;
    assert (p, own) in v.overrides.Keys <==> (p, c) in db.overrides.Keys;
    assert (p, own) in w.overrides.Keys <==> (p, c) in r.overrides.Keys;
  }

  /** Such a run exists: a channel archived between the two halves of a
      subscribe request gains a member. */
  lemma ArchivedBetweenHalves(p: Name, channel: Name, actor: Name)
    ensures var before := Run(EMPTY, [Register(p, false, 0), Create(channel, actor, 0)]);
            var db := Step(before, Archive(channel, true, actor, 0));
            && Live(before, channel)
            && !Precedence(SelfSubscribed(db, p, Lookup(before, channel).value, true, channel, 0))
  {
    var ops := [Register(p, false, 0), Create(channel, actor, 0)];
    assert ops[..1] == [ops[0]] && ops[..1][..0] == [];
    assert Run(EMPTY, ops[..1]) == Step(EMPTY, ops[0]) by {
      assert Run(EMPTY, []) == EMPTY;
    }
    var before := Run(EMPTY, ops);
    assert before == Step(Step(EMPTY, ops[0]), ops[1]);
    assert before.channels == map[1 := ChannelRow(channel, false)];
    assert 1 in before.channels && before.channels[1].name == channel;
    var c := Lookup(before, channel).value;
    assert c == 1;
    RunKeepsInv(ops);
    var db := Step(before, Archive(channel, true, actor, 0));
    AppendEventsFrame(WithoutMembers(WithFlag(before, c, true), c),
                      UnsubscribeEvents(Ordered(Subscribers(before, c)), channel), Some(c), 0);
    assert db.channels[c].archived && (p, c) !in db.subs && p in db.principals && (p, c) !in db.overrides;
    assert (p, c) in SelfSubscribed(db, p, c, true, channel, 0).subs;
  }

  // -- admin decisions -------------------------------------------------------------------

  /** The transaction changes nothing: the channel is gone, or decision and membership
      are as asked. */
  predicate AdminStops(db: Db, p: Name, c: ChannelId, subscribe: bool) {
    || c !in db.channels
    || ((p, c) in db.overrides && db.overrides[(p, c)] == ModeFor(subscribe) && ((p, c) in db.subs) == subscribe)
  }

  /** What `admin_subscription` leaves: a missing channel violates a key. */
  function AdminStored(db: Db, p: Name, c: ChannelId, subscribe: bool, name: Name, now: nat): Db {
    if c in db.channels then AdminSubscribed(db, p, c, subscribe, name, now) else db
  }

  /** With an outdated row an admin decision keeps the invariants and the log if and only
      if the transaction changes nothing or the row was still current. */
  lemma AdminStaleIff(db: Db, p: Name, c: ChannelId, subscribe: bool, name: Name, now: nat)
    requires Sound(db) && p in db.principals
    ensures Sound(AdminStored(db, p, c, subscribe, name, now)) <==>
            AdminStops(db, p, c, subscribe) || Current(db, c, name)
  {
    var r := AdminStored(db, p, c, subscribe, name, now);
    var event := SubscriptionEvent(p, name, subscribe, true);
    if !AdminStops(db, p, c, subscribe) {
      var decided := db.(overrides := db.overrides[(p, c) := ModeFor(subscribe)]);
      if db.channels[c].archived {
        assert (p, c) in r.overrides;
        assert !Precedence(r);
      } else if db.channels[c].name == name {
        InvApart(db, c);
        MembershipKeepsInv(db, p, c, subscribe, true, event, now);
        MembershipRebuilds(db, p, c, subscribe, true, now);
      } else {
        LogThenView(db, WithMembership(decided, p, c, subscribe), event, Some(c), now);
        if Rebuilds(r) {
          OtherNameUntouched(db, r, p, c, name, subscribe, true);
        }
      }
    }
  }

  // -- deletion ------------------------------------------------------------------------------

  /** With an outdated name a deletion keeps the invariants and the log if and only if
      the channel still bore the name, or both were gone. */
  lemma DeleteStaleIff(db: Db, c: ChannelId, name: Name, actor: Name, now: nat)
    requires Sound(db)
    ensures Sound(Deleted(db, c, name, actor, now)) <==> Bears(db, c, name) || (c !in db.channels && NameFree(db, name))
  {
    if Bears(db, c, name) {
      InvApart(db, c);
      DeleteKeepsInv(db, c, name, actor, now);
      DeleteRebuilds(db, c, actor, now);
    } else if c !in db.channels && NameFree(db, name) {
      DeleteOfNothing(db, c, name, actor, now);
    } else {
      DeleteOfAnother(db, c, name, actor, now);
    }
  }

  lemma DeleteOfNothing(db: Db, c: ChannelId, name: Name, actor: Name, now: nat)
    requires Sound(db) && c !in db.channels && NameFree(db, name)
    ensures Sound(Deleted(db, c, name, actor, now))
  {
    var tx := WithoutChannel(WithoutRecords(db, Sole(db, c)), c);
    assert Sole(db, c) == {} by { assert forall m :: m in Sole(db, c) ==> (m, c) in db.links; }
    NothingRemoved(db, c);
    DropOfNothing(Replayed(SystemLog(db)), db, name);
    DeleteKeepsEvents(db, c);
    AgreesFrame(Replayed(SystemLog(db)), db, tx);
    LoggedOverSame(tx, ChannelDeleted(c, name, 0, actor), now);
  }

  /** Logging what changes nothing in the view. */
  lemma LoggedOverSame(tx: Db, event: SystemEvent, now: nat)
    requires Sound(tx) && Fold(Replayed(SystemLog(tx)), event) == Replayed(SystemLog(tx))
    ensures Sound(AppendSystem(tx, event, None, now))
  {
    AppendOneKeepsInv(tx, event, None, now);
    LogChange(tx, tx, event, None, now);
  }

  lemma DropOfNothing(v: View, db: Db, name: Name)
    requires Agrees(v, db) && NameFree(db, name)
    ensures Dropped(v.(channels := v.channels - {name}), name) == v
  {
    assert forall k :: k in v.members || k in v.overrides.Keys ==> Known(db.channels, k.1);
    assert name !in v.channels && v.channels - {name} == v.channels;
    var w := Dropped(v, name);
    assert w.members == v.members && w.overrides == v.overrides;
  }

  lemma NothingRemoved(db: Db, c: ChannelId)
    requires Inv(db) && c !in db.channels && Sole(db, c) == {}
    ensures var tx := WithoutChannel(WithoutRecords(db, {}), c);
            tx == db.(records := tx.records) && Inv(tx)
  {
    var tx := WithoutChannel(WithoutRecords(db, {}), c);
    assert forall k :: k in db.overrides ==> k.1 in db.channels;
    assert tx.overrides == db.overrides && tx.subs == db.subs && tx.links == db.links && tx.channels == db.channels;
    assert tx.acks == db.acks && tx.participants == db.participants;
    MailFrame(db, tx);
  }

  lemma DeleteOfAnother(db: Db, c: ChannelId, name: Name, actor: Name, now: nat)
    requires Sound(db) && !Bears(db, c, name) && (c in db.channels || !NameFree(db, name))
    ensures !Rebuilds(Deleted(db, c, name, actor, now))
  {
    DeletionView(db, c, name, actor, now);
    var w := Replayed(SystemLog(Deleted(db, c, name, actor, now)));
    assert w.channels == Replayed(SystemLog(db)).channels - {name};
    NamesDiffer(db, c, name, Replayed(SystemLog(db)).channels, w.channels);
  }

  lemma DeletionView(db: Db, c: ChannelId, name: Name, actor: Name, now: nat)
    requires Inv(db)
    ensures Replayed(SystemLog(Deleted(db, c, name, actor, now))).channels == Replayed(SystemLog(db)).channels - {name}
    ensures Deleted(db, c, name, actor, now).channels == WithoutChannel(db, c).channels
  {
    var tx := WithoutChannel(WithoutRecords(db, Sole(db, c)), c);
    assert forall m :: m in Sole(db, c) ==> (m, c) in db.links && IsMessage(db, m);
    DeleteKeepsEvents(db, c);
    LogThenView(db, tx, ChannelDeleted(c, name, |Sole(db, c)|, actor), None, now);
  }

  /** The view has lost one name, the tables another channel. */
  lemma NamesDiffer(db: Db, c: ChannelId, name: Name, before: map<Name, bool>, flags: map<Name, bool>)
    requires UniqueNames(db) && !Bears(db, c, name) && (c in db.channels || !NameFree(db, name))
    requires ChannelsAgree(db.channels, before) && flags == before - {name}
    ensures !ChannelsAgree(WithoutChannel(db, c).channels, flags)
  {
    var left := WithoutChannel(db, c).channels;
    if !NameFree(db, name) {
      var d :| d in db.channels && db.channels[d].name == name;
      assert d in left && left[d].name !in flags;
    } else {
      var own := db.channels[c].name;
      assert own in flags && !Known(left, own);
    }
  }

  // -- renaming ------------------------------------------------------------------------------

  /** With an outdated name a renaming keeps the invariants and the log if and only if
      the channel still bore the old name, or nothing bears the old name and the channel
      is gone or has the new name already, or the channel is gone and the names are the
      same. */
  lemma RenameStaleIff(db: Db, c: ChannelId, oldName: Name, newName: Name, actor: Name, now: nat)
    requires Sound(db) && !RenameClash(db, c, newName)
    ensures Sound(Renamed(db, c, oldName, newName, actor, now)) <==>
            || Bears(db, c, oldName)
            || (NameFree(db, oldName) && (c !in db.channels || Bears(db, c, newName)))
            || (c !in db.channels && oldName == newName)
  {
    var event := ChannelRenamed(oldName, newName, actor);
    var tx := if c in db.channels then db.(channels := db.channels[c := db.channels[c].(name := newName)]) else db;
    var v := Replayed(SystemLog(db));
    LogThenView(db, tx, event, Some(c), now);
    if Bears(db, c, oldName) {
      InvApart(db, c);
      RenameKeepsInv(db, c, oldName, newName, actor, now);
      RenameRebuilds(db, c, newName, actor, now);
    } else if c !in db.channels || Bears(db, c, newName) {
      AppendOneKeepsInv(db, event, Some(c), now);
      assert tx == db by { assert tx.channels == db.channels; }
      if NameFree(db, oldName) {
        assert Fold(v, event) == v;
      } else {
        RenameOfBorne(db, c, oldName, newName, actor);
      }
    } else {
      NameLeftBehind(db, c, oldName, newName, actor);
    }
  }

  /** A channel that bears neither name keeps its own in the log, where the tables have
      the new one. */
  lemma NameLeftBehind(db: Db, c: ChannelId, oldName: Name, newName: Name, actor: Name)
    requires Sound(db) && c in db.channels && !Bears(db, c, oldName) && !Bears(db, c, newName)
    ensures var tx := db.(channels := db.channels[c := db.channels[c].(name := newName)]);
            !Agrees(Fold(Replayed(SystemLog(db)), ChannelRenamed(oldName, newName, actor)), tx)
  {
    var v := Replayed(SystemLog(db));
    var own := db.channels[c].name;
    assert own in v.channels && own != oldName && own != newName;
    assert own in Fold(v, ChannelRenamed(oldName, newName, actor)).channels;
    assert !Known(db.channels[c := db.channels[c].(name := newName)], own);
  }

  /** Renaming in the log what another channel is called in the tables shows, unless
      the two names are the same. */
  lemma RenameOfBorne(db: Db, c: ChannelId, oldName: Name, newName: Name, actor: Name)
    requires Sound(db) && !NameFree(db, oldName) && !Bears(db, c, oldName)
    ensures Agrees(Fold(Replayed(SystemLog(db)), ChannelRenamed(oldName, newName, actor)), db) <==> oldName == newName
  {
    var v := Replayed(SystemLog(db));
    var d :| d in db.channels && db.channels[d].name == oldName;
    var w := Fold(v, ChannelRenamed(oldName, newName, actor));
    if oldName != newName {
      assert oldName !in w.channels;
    } else {
      InvApart(db, d);
      assert db.channels[d := db.channels[d].(name := newName)] == db.channels;
      RenameAgrees(v, db, db, d, newName, actor);
    }
  }

  // -- archiving -----------------------------------------------------------------------------

  /** Some channel bears the name and has this flag already. */
  predicate BorneAs(db: Db, name: Name, archived: bool) {
    exists d :: d in db.channels && db.channels[d].name == name && db.channels[d].archived == archived
  }

  /** With an outdated row a flag change keeps the invariants and the log if and only if
      the channel still bore the name, or it is gone or has the flag already and so has
      the channel that bears the name now. */
  lemma ArchiveStaleIff(db: Db, c: ChannelId, name: Name, actor: Name, archive: bool, now: nat)
    requires Sound(db)
    ensures Sound(Archived(db, c, name, actor, archive, now)) <==>
            || Bears(db, c, name)
            || ((c in db.channels ==> db.channels[c].archived == archive) && BorneAs(db, name, archive))
  {
    if Bears(db, c, name) {
      ArchiveOfBearer(db, c, name, actor, archive, now);
    } else if c in db.channels ==> db.channels[c].archived == archive {
      ArchiveOfNothing(db, c, name, actor, archive, now);
    } else {
      ArchiveOfAnother(db, c, name, actor, archive, now);
    }
  }

  lemma ArchiveOfBearer(db: Db, c: ChannelId, name: Name, actor: Name, archive: bool, now: nat)
    requires Sound(db) && Bears(db, c, name)
    ensures Sound(Archived(db, c, name, actor, archive, now))
  {
    InvApart(db, c);
    if archive {
      ClearedKeepsInv(db, c);
      var cleared := WithoutMembers(WithFlag(db, c, true), c);
      AppendKeepsInv(cleared, UnsubscribeEvents(Ordered(Subscribers(db, c)), name), Some(c), now);
      AppendOneKeepsInv(AppendEvents(cleared, UnsubscribeEvents(Ordered(Subscribers(db, c)), name), Some(c), now),
                        ChannelArchived(name, actor), Some(c), now);
      ArchiveRebuilds(db, c, actor, now);
    } else {
      UnarchivedKeepsInv(db, c);
      AppendOneKeepsInv(WithFlag(db, c, false), ChannelUnarchived(name, actor), Some(c), now);
      UnarchiveRebuilds(db, c, actor, now);
    }
  }

  lemma UnarchivedKeepsInv(db: Db, c: ChannelId)
    requires Inv(db) && c in db.channels
    ensures Inv(WithFlag(db, c, false))
  {
    MailFrame(db, WithFlag(db, c, false));
  }

  /** The one record a flag change leaves when there is nobody to unsubscribe. */
  function FlagEvent(name: Name, actor: Name, archive: bool): SystemEvent {
    if archive then ChannelArchived(name, actor) else ChannelUnarchived(name, actor)
  }

  /** No channel, or one that has the flag already: the tables stay as they are. */
  lemma FlagAlready(db: Db, c: ChannelId, name: Name, actor: Name, archive: bool, now: nat)
    requires Inv(db) && (c in db.channels ==> db.channels[c].archived == archive)
    ensures Archived(db, c, name, actor, archive, now)
            == AppendSystem(db, FlagEvent(name, actor, archive), Some(c), now)
  {
    assert WithFlag(db, c, archive).channels == db.channels;
    if archive {
      NobodyThere(db, c);
    }
  }

  lemma NobodyThere(db: Db, c: ChannelId)
    requires Inv(db) && (c in db.channels ==> db.channels[c].archived)
    ensures WithoutMembers(db, c) == db && Subscribers(db, c) == {} && UnsubscribeEvents(Ordered({}), "") == []
  {
    forall s | s in db.subs
      ensures s.1 != c
    {
    }
    forall k | k in db.overrides
      ensures k.1 != c
    {
    }
    assert Subscribers(db, c) == {} by {
      assert forall p :: p in Subscribers(db, c) ==> (p, c).1 == c && (p, c) in db.subs;
    }
    assert WithoutMembers(db, c).subs == db.subs && WithoutMembers(db, c).overrides == db.overrides;
    assert Ordered({}) == [] by { assert forall x :: x in Ordered({}) ==> x in Elements(Ordered({})); }
  }

  lemma ArchiveOfNothing(db: Db, c: ChannelId, name: Name, actor: Name, archive: bool, now: nat)
    requires Sound(db) && !Bears(db, c, name) && (c in db.channels ==> db.channels[c].archived == archive)
    ensures Sound(Archived(db, c, name, actor, archive, now)) <==> BorneAs(db, name, archive)
  {
    var event, v := FlagEvent(name, actor, archive), Replayed(SystemLog(db));
    FlagAlready(db, c, name, actor, archive, now);
    AppendOneKeepsInv(db, event, Some(c), now);
    LoggedAgreesIff(db, event, Some(c), now);
    FlagAgreesIff(v, db, name, actor, archive);
  }

  /** Logging an event over unchanged tables: the log rebuilds them if the event changes
      nothing for them. */
  lemma LoggedAgreesIff(db: Db, event: SystemEvent, ref: Option<ChannelId>, now: nat)
    requires Rebuilds(db) && UniqueNames(db)
    ensures Rebuilds(AppendSystem(db, event, ref, now)) <==> Agrees(Fold(Replayed(SystemLog(db)), event), db)
  {
    var w, r := Fold(Replayed(SystemLog(db)), event), AppendSystem(db, event, ref, now);
    LogThenView(db, db, event, ref, now);
    if Agrees(w, db) {
      AgreesFrame(w, db, r);
    }
    if Agrees(w, r) {
      AgreesFrame(w, r, db);
    }
  }

  lemma FlagAgreesIff(v: View, db: Db, name: Name, actor: Name, archive: bool)
    requires Inv(db) && Agrees(v, db)
    ensures Agrees(Fold(v, FlagEvent(name, actor, archive)), db) <==> BorneAs(db, name, archive)
  {
    if BorneAs(db, name, archive) {
      var d :| d in db.channels && db.channels[d].name == name && db.channels[d].archived == archive;
      FoldOfFlag(v, db, d, actor, archive);
    } else {
      var w := Fold(v, FlagEvent(name, actor, archive));
      assert name in w.channels && w.channels[name] == archive;
      if Agrees(w, db) {
        FlagIsBorne(w, db, name);
      }
    }
  }

  lemma FlagIsBorne(w: View, db: Db, name: Name)
    requires Agrees(w, db) && name in w.channels
    ensures BorneAs(db, name, w.channels[name])
  {
    assert Known(db.channels, name);
    var d :| d in db.channels && db.channels[d].name == name;
  }

  /** A flag the channel has already changes nothing in the view. */
  lemma FoldOfFlag(v: View, db: Db, d: ChannelId, actor: Name, archive: bool)
    requires Inv(db) && Agrees(v, db) && d in db.channels && db.channels[d].archived == archive
    ensures Fold(v, FlagEvent(db.channels[d].name, actor, archive)) == v
  {
    var name := db.channels[d].name;
    assert v.channels[name := archive] == v.channels;
    if archive {
      forall k | k in v.members || k in v.overrides.Keys
        ensures k.1 != name
      {
        assert Known(db.channels, k.1);
        assert k.1 == name && k in v.members ==> (k.0, d) in db.subs;
        assert k.1 == name && k in v.overrides.Keys ==> (k.0, d) in db.overrides.Keys;
      }
      assert Dropped(v, name).members == v.members && Dropped(v, name).overrides == v.overrides;
    }
  }

  /** The flag of a channel that does not bear the logged name has changed. */
  lemma ArchiveOfAnother(db: Db, c: ChannelId, name: Name, actor: Name, archive: bool, now: nat)
    requires Sound(db) && c in db.channels && db.channels[c].name != name && db.channels[c].archived != archive
    ensures !Rebuilds(Archived(db, c, name, actor, archive, now))
  {
    var r := Archived(db, c, name, actor, archive, now);
    if archive {
      ArchivedView(db, c, name, actor, now);
    } else {
      LogThenView(db, WithFlag(db, c, false), ChannelUnarchived(name, actor), Some(c), now);
    }
    FlagsDiffer(db, c, name, archive, Replayed(SystemLog(db)), Replayed(SystemLog(r)), r);
  }

  /** The flag of the channel has changed, but not in the view. */
  lemma FlagsDiffer(db: Db, c: ChannelId, name: Name, archive: bool, v: View, w: View, r: Db)
    requires Agrees(v, db) && c in db.channels && db.channels[c].name != name && db.channels[c].archived != archive
    requires w.channels == v.channels[name := archive]
    requires c in r.channels && r.channels[c] == db.channels[c].(archived := archive)
    ensures !Agrees(w, r)
  {
    assert w.channels[db.channels[c].name] != archive;
  }

  lemma UnsubscribedView(db: Db, c: ChannelId, name: Name, now: nat)
    requires UniqueNames(db) && c in db.channels
    ensures var cleared := WithoutMembers(WithFlag(db, c, true), c);
            var logged := AppendEvents(cleared, UnsubscribeEvents(Ordered(Subscribers(db, c)), name), Some(c), now);
            && Replayed(SystemLog(logged)).channels == Replayed(SystemLog(db)).channels
            && logged.channels == cleared.channels && logged.nextRecord !in logged.records
  {
    var cleared := WithoutMembers(WithFlag(db, c, true), c);
    var names := Ordered(Subscribers(db, c));
    EventsFrame(db.records, cleared.records, db.nextRecord);
    AppendEventsGrowsLog(cleared, UnsubscribeEvents(names, name), Some(c), now);
    AppendEventsFrame(cleared, UnsubscribeEvents(names, name), Some(c), now);
    UnsubscribedThenDropped(SystemLog(db), names, name);
  }

  lemma ArchivedView(db: Db, c: ChannelId, name: Name, actor: Name, now: nat)
    requires UniqueNames(db) && c in db.channels
    ensures var r := Archived(db, c, name, actor, true, now);
            && Replayed(SystemLog(r)).channels == Replayed(SystemLog(db)).channels[name := true]
            && c in r.channels && r.channels[c] == db.channels[c].(archived := true)
  {
    var cleared := WithoutMembers(WithFlag(db, c, true), c);
    var logged := AppendEvents(cleared, UnsubscribeEvents(Ordered(Subscribers(db, c)), name), Some(c), now);
    UnsubscribedView(db, c, name, now);
    FlagLogged(logged, name, actor, Some(c), now);
  }

  lemma FlagLogged(db: Db, name: Name, actor: Name, ref: Option<ChannelId>, now: nat)
    requires db.nextRecord !in db.records
    ensures var r := AppendSystem(db, ChannelArchived(name, actor), ref, now);
            Replayed(SystemLog(r)).channels == Replayed(SystemLog(db)).channels[name := true]
              && r.channels == db.channels
  {
    LogThenView(db, db, ChannelArchived(name, actor), ref, now);
  }
}
