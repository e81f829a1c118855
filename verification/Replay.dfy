/** The log as the source of truth: folding its system records from nothing
    rebuilds principals, channels, memberships and human decisions. */
module Replay {
  import opened Wrappers
  import opened Names
  import opened Store
  import opened Handlers

  /** What a reader of the log can know: names only, no row ids. */
  datatype View = View(
    principals: set<Name>,
    channels: map<Name, bool>,
    members: set<(Name, Name)>,
    overrides: map<(Name, Name), Mode>)

  const NOTHING: View := View({}, map[], {}, map[])

  function Moved(n: Name, oldName: Name, newName: Name): Name {
    if n == oldName then newName else n
  }

  function MovedKeys(keys: set<(Name, Name)>, oldName: Name, newName: Name): (r: set<(Name, Name)>)
    ensures forall k :: k in keys ==> (k.0, Moved(k.1, oldName, newName)) in r
    ensures forall k :: k in r ==> (k in keys && k.1 != oldName) || (k.1 == newName && (k.0, oldName) in keys)
  {
    set k | k in keys :: (k.0, Moved(k.1, oldName, newName))
  }

  function MovedChannel(v: View, oldName: Name, newName: Name): View
    requires oldName in v.channels
  {
    v.(channels := (v.channels - {oldName})[newName := v.channels[oldName]],
       members := MovedKeys(v.members, oldName, newName),
       overrides := (map k | k in MovedKeys(v.overrides.Keys, oldName, newName) ::
                       if k.1 == newName && (k.0, oldName) in v.overrides then v.overrides[(k.0, oldName)]
                         else v.overrides[k]))
  }

  function Dropped(v: View, channel: Name): View {
    v.(members := (set m | m in v.members && m.1 != channel),
       overrides := (map k | k in v.overrides && k.1 != channel :: v.overrides[k]))
  }

  function Fold(v: View, e: SystemEvent): View {
    match e
    case Registered(p, _) => v.(principals := v.principals + {p})
    case Subscribed(p, c, byAdmin) =>
      v.(members := v.members + {(p, c)}, overrides := if byAdmin then v.overrides[(p, c) := Forced] else v.overrides)
    case Unsubscribed(p, c, byAdmin) =>
      v.(members := v.members - {(p, c)},
         overrides := if byAdmin then v.overrides[(p, c) := Cancelled] else v.overrides)
    case ChannelCreated(c, _) => v.(channels := v.channels[c := false])
    case ChannelRenamed(oldName, newName, _) => if oldName in v.channels then MovedChannel(v, oldName, newName) else v
    case ChannelArchived(c, _) => Dropped(v.(channels := v.channels[c := true]), c)
    case ChannelUnarchived(c, _) => v.(channels := v.channels[c := false])
    case ChannelDeleted(_, c, _, _) => Dropped(v.(channels := v.channels - {c}), c)
    case _ => v
  }

  function Replayed(events: seq<SystemEvent>): View {
    if events == [] then NOTHING else Fold(Replayed(events[..|events| - 1]), events[|events| - 1])
  }

  // -- the system records of a log, in order --------------------------------

  function EventAt(records: map<RecordId, Record>, m: RecordId): seq<SystemEvent> {
    if m in records && records[m].System? then [records[m].event] else []
  }

  function EventsBelow(records: map<RecordId, Record>, n: RecordId): seq<SystemEvent> {
    if n == 0 then [] else EventsBelow(records, n - 1) + EventAt(records, n - 1)
  }

  function SystemLog(db: Db): seq<SystemEvent> {
    EventsBelow(db.records, db.nextRecord)
  }

  ghost predicate Known(channels: map<ChannelId, ChannelRow>, n: Name) {
    exists c :: c in channels && channels[c].name == n
  }

  /** A set of (principal, channel name) pairs that says of every channel what
      the rows say of it, and speaks of no other name. */
  ghost predicate PairsAgree(channels: map<ChannelId, ChannelRow>, pairs: set<(Name, Name)>,
                             rows: set<(Name, ChannelId)>) {
    && (forall k :: k in pairs ==> Known(channels, k.1))
    && (forall p, c :: c in channels ==> ((p, channels[c].name) in pairs <==> (p, c) in rows))
  }

  ghost predicate ChannelsAgree(channels: map<ChannelId, ChannelRow>, flags: map<Name, bool>) {
    && (forall n :: n in flags ==> Known(channels, n))
    && (forall c :: c in channels ==> channels[c].name in flags && flags[channels[c].name] == channels[c].archived)
  }

  ghost predicate ValuesAgree(channels: map<ChannelId, ChannelRow>, overrides: map<(Name, Name), Mode>,
                              rows: map<(Name, ChannelId), Mode>) {
    forall s :: s in rows && s.1 in channels && (s.0, channels[s.1].name) in overrides ==>
      overrides[(s.0, channels[s.1].name)] == rows[s]
  }

  ghost predicate ModesAgree(channels: map<ChannelId, ChannelRow>, overrides: map<(Name, Name), Mode>,
                             rows: map<(Name, ChannelId), Mode>) {
    PairsAgree(channels, overrides.Keys, rows.Keys) && ValuesAgree(channels, overrides, rows)
  }

  /** The view and the tables describe the same principals, channels,
      memberships and decisions. */
  ghost predicate Agrees(v: View, db: Db) {
    && v.principals == db.principals
    && ChannelsAgree(db.channels, v.channels)
    && PairsAgree(db.channels, v.members, db.subs)
    && ModesAgree(db.channels, v.overrides, db.overrides)
  }

  lemma PairsUnique(channels: map<ChannelId, ChannelRow>, a: set<(Name, Name)>, b: set<(Name, Name)>,
                    rows: set<(Name, ChannelId)>)
    requires PairsAgree(channels, a, rows) && PairsAgree(channels, b, rows)
    ensures a == b
  {
    forall k
      ensures k in a <==> k in b
    {
      if k in a || k in b {
        var c :| c in channels && channels[c].name == k.1;
        assert k == (k.0, channels[c].name);
      }
    }
  }

  lemma ModesUnique(channels: map<ChannelId, ChannelRow>, a: map<(Name, Name), Mode>, b: map<(Name, Name), Mode>,
                    rows: map<(Name, ChannelId), Mode>)
    requires ModesAgree(channels, a, rows) && ModesAgree(channels, b, rows)
    ensures a == b
  {
    PairsUnique(channels, a.Keys, b.Keys, rows.Keys);
    forall k | k in a
      ensures a[k] == b[k]
    {
      assert k in a.Keys;
      var c :| c in channels && channels[c].name == k.1;
      assert k == (k.0, channels[c].name);
      assert (k.0, c) in rows.Keys;
    }
  }

  /** The tables admit only one such view. */
  lemma AgreesUnique(v: View, w: View, db: Db)
    requires Agrees(v, db) && Agrees(w, db)
    ensures v == w
  {
    forall n
      ensures n in v.channels <==> n in w.channels
      ensures n in v.channels && n in w.channels ==> v.channels[n] == w.channels[n]
    {
      if n in v.channels || n in w.channels {
        var c :| c in db.channels && db.channels[c].name == n;
      }
    }
    assert v.channels == w.channels;
    PairsUnique(db.channels, v.members, w.members, db.subs);
    ModesUnique(db.channels, v.overrides, w.overrides, db.overrides);
  }

  // -- one handler at a time -------------------------------------------------

  lemma {:induction false} EventsFrame(a: map<RecordId, Record>, b: map<RecordId, Record>, n: RecordId)
    requires forall m :: 0 <= m < n ==> EventAt(a, m) == EventAt(b, m)
    ensures EventsBelow(a, n) == EventsBelow(b, n)
  {
    if n > 0 {
      EventsFrame(a, b, n - 1);
    }
  }

  lemma AppendGrowsLog(db: Db, event: SystemEvent, ref: Option<ChannelId>, now: nat)
    ensures SystemLog(AppendSystem(db, event, ref, now)) == SystemLog(db) + [event]
  {
    EventsFrame(db.records, AppendSystem(db, event, ref, now).records, db.nextRecord);
  }

  /** The view after one more record is the fold of the view before. */
  lemma ReplayedGrows(events: seq<SystemEvent>, e: SystemEvent)
    ensures Replayed(events + [e]) == Fold(Replayed(events), e)
  {
    assert (events + [e])[..|events|] == events;
  }

  /** The log of `db` rebuilds `db`. */
  ghost predicate Rebuilds(db: Db) {
    Agrees(Replayed(SystemLog(db)), db)
  }

  /** Logging the event that describes a change keeps the log in step. */
  lemma LogChange(before: Db, tx: Db, event: SystemEvent, ref: Option<ChannelId>, now: nat)
    requires SystemLog(tx) == SystemLog(before)
    requires Agrees(Fold(Replayed(SystemLog(before)), event), tx)
    ensures Rebuilds(AppendSystem(tx, event, ref, now))
  {
    AppendGrowsLog(tx, event, ref, now);
    ReplayedGrows(SystemLog(tx), event);
  }

  lemma KnownAfter(channels: map<ChannelId, ChannelRow>, c: ChannelId, row: ChannelRow, n: Name)
    ensures Known(channels[c := row], row.name)
    ensures Known(channels, n) && (c in channels ==> n != channels[c].name) ==> Known(channels[c := row], n)
  {
    assert c in channels[c := row];
    if Known(channels, n) && (c in channels ==> n != channels[c].name) {
      var d :| d in channels && channels[d].name == n;
      assert d in channels[c := row] && channels[c := row][d].name == n;
    }
  }

  lemma NewPairsAgree(channels: map<ChannelId, ChannelRow>, c: ChannelId, name: Name, pairs: set<(Name, Name)>,
                      rows: set<(Name, ChannelId)>)
    requires c !in channels && !Known(channels, name) && PairsAgree(channels, pairs, rows)
    requires forall s :: s in rows ==> s.1 in channels
    ensures PairsAgree(channels[c := ChannelRow(name, false)], pairs, rows)
  {
    var after := channels[c := ChannelRow(name, false)];
    forall k | k in pairs
      ensures Known(after, k.1)
    {
      KnownAfter(channels, c, ChannelRow(name, false), k.1);
    }
    assert forall k :: k in pairs ==> k.1 != name;
    assert forall s :: s in rows ==> s.1 != c;
  }

  lemma NewFlagsAgree(channels: map<ChannelId, ChannelRow>, c: ChannelId, name: Name, flags: map<Name, bool>)
    requires c !in channels && !Known(channels, name) && ChannelsAgree(channels, flags)
    ensures ChannelsAgree(channels[c := ChannelRow(name, false)], flags[name := false])
  {
    var after, grown := channels[c := ChannelRow(name, false)], flags[name := false];
    forall n | n in grown
      ensures Known(after, n)
    {
      KnownAfter(channels, c, ChannelRow(name, false), n);
    }
  }

  lemma CreateAgrees(v: View, db: Db, tx: Db, name: Name, actor: Name)
    requires Agrees(v, db) && NameFree(db, name) && db.nextChannel !in db.channels
    requires forall s :: s in db.subs ==> s.1 in db.channels
    requires forall k :: k in db.overrides.Keys ==> k.1 in db.channels
    requires tx == db.(channels := db.channels[db.nextChannel := ChannelRow(name, false)],
                       nextChannel := db.nextChannel + 1)
    ensures Agrees(Fold(v, ChannelCreated(name, actor)), tx)
  {
    var c := db.nextChannel;
    assert !Known(db.channels, name);
    NewFlagsAgree(db.channels, c, name, v.channels);
    NewPairsAgree(db.channels, c, name, v.members, db.subs);
    NewModesAgree(db.channels, c, name, v.overrides, db.overrides);
    assert Fold(v, ChannelCreated(name, actor)) == v.(channels := v.channels[name := false]);
  }

  lemma NewModesAgree(channels: map<ChannelId, ChannelRow>, c: ChannelId, name: Name,
                      overrides: map<(Name, Name), Mode>, rows: map<(Name, ChannelId), Mode>)
    requires c !in channels && !Known(channels, name) && ModesAgree(channels, overrides, rows)
    requires forall k :: k in rows.Keys ==> k.1 in channels
    ensures ModesAgree(channels[c := ChannelRow(name, false)], overrides, rows)
  {
    NewPairsAgree(channels, c, name, overrides.Keys, rows.Keys);
    NewValuesAgree(channels, c, name, overrides, rows);
  }

  lemma NewValuesAgree(channels: map<ChannelId, ChannelRow>, c: ChannelId, name: Name,
                       overrides: map<(Name, Name), Mode>, rows: map<(Name, ChannelId), Mode>)
    requires c !in channels && ValuesAgree(channels, overrides, rows)
    requires forall k :: k in rows ==> k.1 in channels
    ensures ValuesAgree(channels[c := ChannelRow(name, false)], overrides, rows)
  {
    var after := channels[c := ChannelRow(name, false)];
    forall s | s in rows && s.1 in after && (s.0, after[s.1].name) in overrides
      ensures overrides[(s.0, after[s.1].name)] == rows[s]
    {
      assert s.1 in channels && after[s.1] == channels[s.1];
    }
  }

  lemma MovedPairsAgree(channels: map<ChannelId, ChannelRow>, c: ChannelId, newName: Name, pairs: set<(Name, Name)>,
                        rows: set<(Name, ChannelId)>)
    requires c in channels && PairsAgree(channels, pairs, rows)
    requires forall d :: d in channels && d != c ==> channels[d].name != channels[c].name && channels[d].name != newName
    ensures PairsAgree(channels[c := channels[c].(name := newName)], MovedKeys(pairs, channels[c].name, newName), rows)
  {
    var oldName := channels[c].name;
    var after := channels[c := channels[c].(name := newName)];
    var moved := MovedKeys(pairs, oldName, newName);
    forall k | k in moved
      ensures Known(after, k.1)
    {
      KnownAfter(channels, c, channels[c].(name := newName), k.1);
    }
    forall p, d | d in after
      ensures (p, after[d].name) in moved <==> (p, d) in rows
    {
      assert (p, channels[d].name) in pairs <==> (p, d) in rows;
      if d == c {
        assert newName != oldName ==> !Known(channels, newName);
        assert (p, newName) in pairs ==> Known(channels, (p, newName).1);
      }
    }
  }

  lemma MovedFlagsAgree(channels: map<ChannelId, ChannelRow>, c: ChannelId, newName: Name, flags: map<Name, bool>)
    requires c in channels && ChannelsAgree(channels, flags)
    requires forall d :: d in channels && d != c ==> channels[d].name != channels[c].name && channels[d].name != newName
    ensures ChannelsAgree(channels[c := channels[c].(name := newName)],
                          (flags - {channels[c].name})[newName := flags[channels[c].name]])
  {
    var after := channels[c := channels[c].(name := newName)];
    forall n | n in (flags - {channels[c].name})[newName := flags[channels[c].name]]
      ensures Known(after, n)
    {
      KnownAfter(channels, c, channels[c].(name := newName), n);
    }
  }

  lemma RenameAgrees(v: View, db: Db, tx: Db, c: ChannelId, newName: Name, actor: Name)
    requires Agrees(v, db) && c in db.channels
    requires forall d :: d in db.channels && d != c ==>
             db.channels[d].name != db.channels[c].name && db.channels[d].name != newName
    requires tx == db.(channels := db.channels[c := db.channels[c].(name := newName)])
    ensures Agrees(Fold(v, ChannelRenamed(db.channels[c].name, newName, actor)), tx)
  {
    var oldName := db.channels[c].name;
    var w := MovedChannel(v, oldName, newName);
    MovedFlagsAgree(db.channels, c, newName, v.channels);
    MovedPairsAgree(db.channels, c, newName, v.members, db.subs);
    assert w.overrides.Keys == MovedKeys(v.overrides.Keys, oldName, newName);
    MovedModesAgree(db.channels, c, newName, v.overrides, db.overrides, w.overrides);
  }

  lemma MovedModesAgree(channels: map<ChannelId, ChannelRow>, c: ChannelId, newName: Name,
                        overrides: map<(Name, Name), Mode>, rows: map<(Name, ChannelId), Mode>,
                        moved: map<(Name, Name), Mode>)
    requires c in channels && ModesAgree(channels, overrides, rows)
    requires forall d :: d in channels && d != c ==> channels[d].name != channels[c].name && channels[d].name != newName
    requires moved.Keys == MovedKeys(overrides.Keys, channels[c].name, newName)
    requires forall k :: k in moved ==>
               moved[k] == if k.1 == newName && (k.0, channels[c].name) in overrides
                           then overrides[(k.0, channels[c].name)]
                           else if k in overrides then overrides[k] else moved[k]
    ensures ModesAgree(channels[c := channels[c].(name := newName)], moved, rows)
  {
    MovedPairsAgree(channels, c, newName, overrides.Keys, rows.Keys);
    MovedValuesAgree(channels, c, newName, overrides, rows, moved);
  }

  lemma MovedValuesAgree(channels: map<ChannelId, ChannelRow>, c: ChannelId, newName: Name,
                         overrides: map<(Name, Name), Mode>, rows: map<(Name, ChannelId), Mode>,
                         moved: map<(Name, Name), Mode>)
    requires c in channels && ModesAgree(channels, overrides, rows)
    requires forall d :: d in channels && d != c ==> channels[d].name != newName
    requires forall k :: k in moved ==>
               moved[k] == if k.1 == newName && (k.0, channels[c].name) in overrides
                           then overrides[(k.0, channels[c].name)]
                           else if k in overrides then overrides[k] else moved[k]
    ensures ValuesAgree(channels[c := channels[c].(name := newName)], moved, rows)
  {
    var after := channels[c := channels[c].(name := newName)];
    forall s | s in rows && s.1 in after && (s.0, after[s.1].name) in moved
      ensures moved[(s.0, after[s.1].name)] == rows[s]
    {
      assert (s.0, s.1) in rows.Keys;
      assert (s.0, channels[s.1].name) in overrides.Keys;
    }
  }

  /** `after` still has every other channel under its old name. */
  ghost predicate OthersKept(channels: map<ChannelId, ChannelRow>, c: ChannelId, after: map<ChannelId, ChannelRow>) {
    && (forall d :: d in after ==> d in channels && after[d].name == channels[d].name)
    && (forall d :: d in channels && d != c ==> d in after)
  }

  /** No other channel bears the name of `c`. */
  ghost predicate Apart(channels: map<ChannelId, ChannelRow>, c: ChannelId) {
    c in channels && forall d :: d in channels && d != c ==> channels[d].name != channels[c].name
  }

  lemma DroppedPairsAgree(channels: map<ChannelId, ChannelRow>, c: ChannelId, after: map<ChannelId, ChannelRow>,
                          pairs: set<(Name, Name)>, rows: set<(Name, ChannelId)>, kept: set<(Name,
                              Name)>, left: set<(Name, ChannelId)>)
    requires Apart(channels, c) && OthersKept(channels, c, after) && PairsAgree(channels, pairs, rows)
    requires forall k :: k in kept <==> k in pairs && k.1 != channels[c].name
    requires forall s :: s in left <==> s in rows && s.1 != c
    ensures PairsAgree(after, kept, left)
  {
    forall k | k in kept
      ensures Known(after, k.1)
    {
      var d :| d in channels && channels[d].name == k.1;
      assert d in after && after[d].name == k.1;
    }
    forall p, d | d in after
      ensures (p, after[d].name) in kept <==> (p, d) in left
    {
      assert (p, channels[d].name) in pairs <==> (p, d) in rows;
    }
  }

  lemma DroppedValuesAgree(channels: map<ChannelId, ChannelRow>, c: ChannelId, after: map<ChannelId, ChannelRow>,
                           overrides: map<(Name, Name), Mode>, rows: map<(Name, ChannelId), Mode>,
                           kept: map<(Name, Name), Mode>, left: map<(Name, ChannelId), Mode>)
    requires Apart(channels, c) && OthersKept(channels, c, after) && ValuesAgree(channels, overrides, rows)
    requires forall k :: k in kept ==> k in overrides && kept[k] == overrides[k]
    requires forall s :: s in left ==> s in rows && left[s] == rows[s]
    ensures ValuesAgree(after, kept, left)
  {
    forall s | s in left && s.1 in after && (s.0, after[s.1].name) in kept
      ensures kept[(s.0, after[s.1].name)] == left[s]
    {
      assert s in rows && s.1 in channels;
    }
  }

  /** Clearing one channel of members and decisions, in the view and in the tables. */
  lemma DroppedAgrees(v: View, db: Db, c: ChannelId, flags: map<Name, bool>, tx: Db)
    requires Agrees(v, db) && Apart(db.channels, c) && OthersKept(db.channels, c, tx.channels)
             && ChannelsAgree(tx.channels, flags)
    requires tx.principals == db.principals
    requires tx.subs == WithoutMembers(db, c).subs && tx.overrides == WithoutMembers(db, c).overrides
    ensures Agrees(Dropped(v.(channels := flags), db.channels[c].name), tx)
  {
    var w := Dropped(v.(channels := flags), db.channels[c].name);
    DroppedPairsAgree(db.channels, c, tx.channels, v.members, db.subs, w.members, tx.subs);
    DroppedPairsAgree(db.channels, c, tx.channels, v.overrides.Keys, db.overrides.Keys, w.overrides.Keys,
                      tx.overrides.Keys);
    DroppedValuesAgree(db.channels, c, tx.channels, v.overrides, db.overrides, w.overrides, tx.overrides);
  }

  lemma FlagAgrees(channels: map<ChannelId, ChannelRow>, c: ChannelId, archived: bool, flags: map<Name, bool>)
    requires Apart(channels, c) && ChannelsAgree(channels, flags)
    ensures ChannelsAgree(channels[c := channels[c].(archived := archived)], flags[channels[c].name := archived])
    ensures OthersKept(channels, c, channels[c := channels[c].(archived := archived)])
  {
    var after, grown := channels[c := channels[c].(archived := archived)], flags[channels[c].name := archived];
    forall n | n in grown
      ensures Known(after, n)
    {
      KnownAfter(channels, c, channels[c].(archived := archived), n);
    }
  }

  lemma FlagsWithoutAgree(channels: map<ChannelId, ChannelRow>, c: ChannelId, flags: map<Name, bool>)
    requires Apart(channels, c) && ChannelsAgree(channels, flags)
    ensures ChannelsAgree(map d | d in channels && d != c :: channels[d], flags - {channels[c].name})
  {
    var after := map d | d in channels && d != c :: channels[d];
    var left := flags - {channels[c].name};
    forall n | n in left
      ensures Known(after, n)
    {
      var d :| d in channels && channels[d].name == n;
      assert d in after && after[d].name == n;
    }
  }

  lemma UnsubscribeThenDrop(v: View, p: Name, channel: Name)
    ensures var w := Fold(v, Unsubscribed(p, channel, true));
            w.principals == v.principals && w.channels == v.channels
            && Dropped(w, channel).members == Dropped(v, channel).members
            && Dropped(w, channel).overrides == Dropped(v, channel).overrides
  {
  }

  /** The audited unsubscriptions of an archive leave nothing that dropping the
      channel does not drop as well. */
  lemma {:induction false} UnsubscribedThenDropped(log: seq<SystemEvent>, names: seq<Name>, channel: Name)
    ensures var v := Replayed(log);
            var w := Replayed(log + UnsubscribeEvents(names, channel));
            w.principals == v.principals && w.channels == v.channels
            && Dropped(w, channel).members == Dropped(v, channel).members
            && Dropped(w, channel).overrides == Dropped(v, channel).overrides
    decreases |names|
  {
    var events := UnsubscribeEvents(names, channel);
    if names == [] {
      assert log + events == log;
    } else {
      var n := |names| - 1;
      UnsubscribedThenDropped(log, names[..n], channel);
      assert events == UnsubscribeEvents(names[..n], channel) + [events[n]];
      assert log + events == (log + UnsubscribeEvents(names[..n], channel)) + [events[n]];
      ReplayedGrows(log + UnsubscribeEvents(names[..n], channel), events[n]);
      UnsubscribeThenDrop(Replayed(log + UnsubscribeEvents(names[..n], channel)), names[n], channel);
    }
  }

  lemma {:induction false} AppendEventsGrowsLog(db: Db, events: seq<SystemEvent>, ref: Option<ChannelId>, now: nat)
    ensures SystemLog(AppendEvents(db, events, ref, now)) == SystemLog(db) + events
  {
    if events == [] {
      assert SystemLog(db) + events == SystemLog(db);
    } else {
      var n := |events| - 1;
      AppendEventsGrowsLog(db, events[..n], ref, now);
      AppendGrowsLog(AppendEvents(db, events[..n], ref, now), events[n], ref, now);
      assert SystemLog(db) + events[..n] + [events[n]] == SystemLog(db) + events;
    }
  }

  lemma MemberPairsAgree(channels: map<ChannelId, ChannelRow>, c: ChannelId, p: Name, pairs: set<(Name, Name)>,
                         rows: set<(Name, ChannelId)>)
    requires Apart(channels, c) && PairsAgree(channels, pairs, rows)
    ensures PairsAgree(channels, pairs + {(p, channels[c].name)}, rows + {(p, c)})
    ensures PairsAgree(channels, pairs - {(p, channels[c].name)}, rows - {(p, c)})
  {
    assert Known(channels, channels[c].name);
  }

  lemma DecisionAgrees(channels: map<ChannelId, ChannelRow>, c: ChannelId, p: Name, mode: Mode,
                       overrides: map<(Name, Name), Mode>, rows: map<(Name, ChannelId), Mode>)
    requires Apart(channels, c) && ModesAgree(channels, overrides, rows)
    ensures ModesAgree(channels, overrides[(p, channels[c].name) := mode], rows[(p, c) := mode])
  {
    MemberPairsAgree(channels, c, p, overrides.Keys, rows.Keys);
    var after, left := overrides[(p, channels[c].name) := mode], rows[(p, c) := mode];
    assert after.Keys == overrides.Keys + {(p, channels[c].name)};
    assert left.Keys == rows.Keys + {(p, c)};
    forall s | s in left && s.1 in channels && (s.0, channels[s.1].name) in after
      ensures after[(s.0, channels[s.1].name)] == left[s]
    {
      if s != (p, c) {
        assert (s.0, s.1) in rows.Keys;
        assert (s.0, channels[s.1].name) in overrides.Keys;
      }
    }
  }

  /** Agreement looks at four tables only. */
  lemma AgreesFrame(v: View, a: Db, b: Db)
    requires Agrees(v, a)
    requires b.principals == a.principals && b.channels == a.channels && b.subs == a.subs && b.overrides == a.overrides
    ensures Agrees(v, b)
  {
  }

  lemma ArchiveAgrees(log: seq<SystemEvent>, db: Db, c: ChannelId, names: seq<Name>, actor: Name)
    requires Agrees(Replayed(log), db) && Apart(db.channels, c)
    ensures var name := db.channels[c].name;
            Agrees(Fold(Replayed(log + UnsubscribeEvents(names, name)), ChannelArchived(name, actor)),
                   WithoutMembers(WithFlag(db, c, true), c))
  {
    var name := db.channels[c].name;
    var v := Replayed(log);
    var w := Replayed(log + UnsubscribeEvents(names, name));
    UnsubscribedThenDropped(log, names, name);
    ArchivedFold(v, w, name, actor);
    FlagAgrees(db.channels, c, true, v.channels);
    DroppedAgrees(v, db, c, v.channels[name := true], WithoutMembers(WithFlag(db, c, true), c));
  }

  /** Folding the archive record does not depend on the members that are dropped. */
  lemma ArchivedFold(v: View, w: View, name: Name, actor: Name)
    requires w.principals == v.principals && w.channels == v.channels
    requires Dropped(w, name).members == Dropped(v, name).members
             && Dropped(w, name).overrides == Dropped(v, name).overrides
    ensures Fold(w, ChannelArchived(name, actor)) == Dropped(v.(channels := v.channels[name := true]), name)
  {
  }

  lemma ArchiveRebuilds(db: Db, c: ChannelId, actor: Name, now: nat)
    requires Rebuilds(db) && Apart(db.channels, c) && forall m :: m in db.records ==> m < db.nextRecord
    ensures Rebuilds(Archived(db, c, db.channels[c].name, actor, true, now))
  {
    var name := db.channels[c].name;
    var names := Ordered(Subscribers(db, c));
    var events := UnsubscribeEvents(names, name);
    var cleared := WithoutMembers(WithFlag(db, c, true), c);
    var logged := AppendEvents(cleared, events, Some(c), now);
    AppendEventsFrame(cleared, events, Some(c), now);
    AppendEventsGrowsLog(cleared, events, Some(c), now);
    assert SystemLog(cleared) == SystemLog(db);
    ArchiveAgrees(SystemLog(db), db, c, names, actor);
    AgreesFrame(Fold(Replayed(SystemLog(logged)), ChannelArchived(name, actor)), cleared, logged);
    LogChange(logged, logged, ChannelArchived(name, actor), Some(c), now);
  }

  lemma SameNamesAgree(channels: map<ChannelId, ChannelRow>, after: map<ChannelId, ChannelRow>,
                       pairs: set<(Name, Name)>, rows: set<(Name, ChannelId)>)
    requires after.Keys == channels.Keys && forall d :: d in channels ==> after[d].name == channels[d].name
    requires PairsAgree(channels, pairs, rows)
    ensures PairsAgree(after, pairs, rows)
  {
    forall k | k in pairs
      ensures Known(after, k.1)
    {
      var d :| d in channels && channels[d].name == k.1;
      assert d in after && after[d].name == k.1;
    }
    forall p, d | d in after
      ensures (p, after[d].name) in pairs <==> (p, d) in rows
    {
      assert d in channels;
    }
  }

  lemma SameNamesValues(channels: map<ChannelId, ChannelRow>, after: map<ChannelId, ChannelRow>,
                        overrides: map<(Name, Name), Mode>, rows: map<(Name, ChannelId), Mode>)
    requires after.Keys == channels.Keys && forall d :: d in channels ==> after[d].name == channels[d].name
    requires ValuesAgree(channels, overrides, rows)
    ensures ValuesAgree(after, overrides, rows)
  {
    forall s | s in rows && s.1 in after && (s.0, after[s.1].name) in overrides
      ensures overrides[(s.0, after[s.1].name)] == rows[s]
    {
      assert s.1 in channels;
    }
  }

  lemma UnarchiveRebuilds(db: Db, c: ChannelId, actor: Name, now: nat)
    requires Rebuilds(db) && Apart(db.channels, c)
    ensures Rebuilds(Archived(db, c, db.channels[c].name, actor, false, now))
  {
    var v := Replayed(SystemLog(db));
    var tx := WithFlag(db, c, false);
    FlagAgrees(db.channels, c, false, v.channels);
    SameNamesAgree(db.channels, tx.channels, v.members, db.subs);
    SameNamesAgree(db.channels, tx.channels, v.overrides.Keys, db.overrides.Keys);
    SameNamesValues(db.channels, tx.channels, v.overrides, db.overrides);
    LogChange(db, tx, ChannelUnarchived(db.channels[c].name, actor), Some(c), now);
  }

  lemma DeleteRebuilds(db: Db, c: ChannelId, actor: Name, now: nat)
    requires Rebuilds(db) && Apart(db.channels, c) && forall m :: m in Sole(db, c) ==> IsMessage(db, m)
    ensures Rebuilds(Deleted(db, c, db.channels[c].name, actor, now))
  {
    var name := db.channels[c].name;
    var v := Replayed(SystemLog(db));
    var sole := Sole(db, c);
    var tx := WithoutChannel(WithoutRecords(db, sole), c);
    FlagsWithoutAgree(db.channels, c, v.channels);
    DroppedAgrees(v, db, c, v.channels - {name}, tx);
    DeleteKeepsEvents(db, c);
    LogChange(db, tx, ChannelDeleted(c, name, |sole|, actor), None, now);
  }

  lemma DeleteKeepsEvents(db: Db, c: ChannelId)
    requires forall m :: m in Sole(db, c) ==> IsMessage(db, m)
    ensures SystemLog(WithoutChannel(WithoutRecords(db, Sole(db, c)), c)) == SystemLog(db)
  {
    EventsFrame(db.records, WithoutChannel(WithoutRecords(db, Sole(db, c)), c).records, db.nextRecord);
  }

  lemma MembershipRebuilds(db: Db, p: Name, c: ChannelId, subscribe: bool, byAdmin: bool, now: nat)
    requires Rebuilds(db) && Apart(db.channels, c)
    ensures var tx := if byAdmin then db.(overrides := db.overrides[(p, c) := ModeFor(subscribe)]) else db;
            Rebuilds(AppendSystem(WithMembership(tx, p, c, subscribe),
                                  SubscriptionEvent(p, db.channels[c].name, subscribe, byAdmin), Some(c), now))
  {
    var v := Replayed(SystemLog(db));
    var tx := if byAdmin then db.(overrides := db.overrides[(p, c) := ModeFor(subscribe)]) else db;
    var event := SubscriptionEvent(p, db.channels[c].name, subscribe, byAdmin);
    MemberPairsAgree(db.channels, c, p, v.members, db.subs);
    DecisionAgrees(db.channels, c, p, ModeFor(subscribe), v.overrides, db.overrides);
    assert Agrees(Fold(v, event), WithMembership(tx, p, c, subscribe));
    LogChange(db, WithMembership(tx, p, c, subscribe), event, Some(c), now);
  }

  lemma CreateRebuilds(db: Db, name: Name, actor: Name, now: nat)
    requires Rebuilds(db) && NameFree(db, name) && db.nextChannel !in db.channels
    requires forall s :: s in db.subs ==> s.1 in db.channels
    requires forall k :: k in db.overrides.Keys ==> k.1 in db.channels
    ensures Rebuilds(Created(db, name, actor, now))
  {
    var tx := db.(channels := db.channels[db.nextChannel := ChannelRow(name, false)],
                  nextChannel := db.nextChannel + 1);
    CreateAgrees(Replayed(SystemLog(db)), db, tx, name, actor);
    LogChange(db, tx, ChannelCreated(name, actor), Some(db.nextChannel), now);
  }

  lemma RenameRebuilds(db: Db, c: ChannelId, newName: Name, actor: Name, now: nat)
    requires Rebuilds(db) && Apart(db.channels, c) && !RenameClash(db, c, newName)
    ensures Rebuilds(Renamed(db, c, db.channels[c].name, newName, actor, now))
  {
    var tx := db.(channels := db.channels[c := db.channels[c].(name := newName)]);
    assert forall d :: d in db.channels && d != c ==> db.channels[d].name != newName;
    RenameAgrees(Replayed(SystemLog(db)), db, tx, c, newName, actor);
    LogChange(db, tx, ChannelRenamed(db.channels[c].name, newName, actor), Some(c), now);
  }

  lemma SendRebuilds(db: Db, op: Op)
    requires Rebuilds(db) && op.Send? && SendStores(db, op)
    ensures Rebuilds(Step(db, op))
  {
    var r := Step(db, op);
    EventsFrame(db.records, r.records, db.nextRecord);
    assert EventAt(r.records, db.nextRecord) == [];
    assert SystemLog(r) == SystemLog(db);
    AgreesFrame(Replayed(SystemLog(db)), db, r);
  }

  lemma InvApart(db: Db, c: ChannelId)
    requires Inv(db) && c in db.channels
    ensures Apart(db.channels, c)
    ensures forall m :: m in Sole(db, c) ==> IsMessage(db, m)
  {
    assert forall m :: m in Sole(db, c) ==> (m, c) in db.links;
  }

  lemma ByNameRebuilds(db: Db, op: Op)
    requires Inv(db) && Rebuilds(db) && (op.Rename? || op.Archive? || op.Delete?)
    ensures Rebuilds(Step(db, op))
  {
    var found := Lookup(db, op.channel);
    if Step(db, op) != db {
      var c := found.value;
      InvApart(db, c);
      match op
      case Rename(_, newName, actor, now) => RenameRebuilds(db, c, newName, actor, now);
      case Archive(_, archive, actor, now) =>
        if archive { ArchiveRebuilds(db, c, actor, now); } else { UnarchiveRebuilds(db, c, actor, now); }
      case Delete(_, actor, now) => DeleteRebuilds(db, c, actor, now);
    }
  }

  lemma MemberRebuilds(db: Db, op: Op)
    requires Inv(db) && Rebuilds(db) && (op.SelfSub? || op.AdminSub?)
    ensures Rebuilds(Step(db, op))
  {
    if Step(db, op) != db {
      var c := Lookup(db, op.channel).value;
      InvApart(db, c);
      MembershipRebuilds(db, op.principal, c, op.subscribe, op.AdminSub?, op.now);
    }
  }

  /** Every handler leaves the log able to rebuild the tables. */
  lemma {:induction false} StepRebuilds(db: Db, op: Op)
    requires Inv(db) && Rebuilds(db)
    ensures Rebuilds(Step(db, op))
  {
    match op
    case Register(name, admin, now) =>
      LogChange(db, db.(principals := db.principals + {name}), Registered(name, admin), None, now);
    case Note(event, now) => if Presence(event) { LogChange(db, db, event, None, now); }
    case Create(name, actor, now) => if NameFree(db, name) { CreateRebuilds(db, name, actor, now); }
    case Rename(_, _, _, _) => ByNameRebuilds(db, op);
    case Archive(_, _, _, _) => ByNameRebuilds(db, op);
    case Delete(_, _, _) => ByNameRebuilds(db, op);
    case SelfSub(_, _, _, _) => MemberRebuilds(db, op);
    case AdminSub(_, _, _, _) => MemberRebuilds(db, op);
    case Send(_, _, _, _, _, _, _, _) => if SendStores(db, op) { SendRebuilds(db, op); }
    case Ack(_, _, _) =>
  }

  lemma EmptyRebuilds()
    ensures Rebuilds(EMPTY)
  {
    assert EventsBelow(EMPTY.records, 0) == [];
    assert SystemLog(EMPTY) == [];
  }

  /** After any sequence of requests the log rebuilds the tables. */
  lemma {:induction false} LogRebuildsTables(ops: seq<Op>)
    ensures Agrees(Replayed(SystemLog(Run(EMPTY, ops))), Run(EMPTY, ops))
    decreases |ops|
  {
    if ops == [] {
      EmptyRebuilds();
    } else {
      LogRebuildsTables(ops[..|ops| - 1]);
      RunKeepsInv(ops[..|ops| - 1]);
      StepRebuilds(Run(EMPTY, ops[..|ops| - 1]), ops[|ops| - 1]);
    }
  }

  /** And nothing but the tables: whatever view fits them is the replayed one. */
  lemma {:induction false} OnlyReplayFits(ops: seq<Op>, v: View)
    requires Agrees(v, Run(EMPTY, ops))
    ensures v == Replayed(SystemLog(Run(EMPTY, ops)))
  {
    LogRebuildsTables(ops);
    AgreesUnique(v, Replayed(SystemLog(Run(EMPTY, ops))), Run(EMPTY, ops));
  }
}
