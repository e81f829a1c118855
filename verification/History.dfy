/** A client's walk through a history as the handler serves it: every fetch resolves
    the request anew, so a channel is found by the name it bears at that moment. */
module History {
  import opened Wrappers
  import opened Names
  import opened Store
  import opened Handlers
  import opened Audit
  import opened Paging
  import Rpc

  /** The scopes of the fetches, up to the first one that is refused. */
  ghost function ScopesSeen(states: seq<Db>, caller: Rpc.Caller, request: Rpc.HistoryRequest): (r: seq<set<RecordId>>)
    ensures |r| <= |states|
    ensures forall k :: 0 <= k < |r| ==>
              var scope := Rpc.Readable(states[k], caller, request);
              scope.Some? && r[k] == ScopeIds(states[k], scope.value)
    ensures |r| < |states| ==> Rpc.Readable(states[|r|], caller, request).None?
  {
    if states == [] || Rpc.Readable(states[0], caller, request).None? then []
    else [ScopeIds(states[0], Rpc.Readable(states[0], caller, request).value)]
         + ScopesSeen(states[1..], caller, request)
  }

  /** The pages a client gets that starts at the top and follows the cursors, when
      `states[k]` is the store at fetch `k`. */
  ghost function Pages(states: seq<Db>, caller: Rpc.Caller, request: Rpc.HistoryRequest, top: nat,
                       limit: nat): seq<seq<RecordId>> {
    Walk(ScopesSeen(states, caller, request), top, Rpc.Clamp(limit))
  }

  /** The last page came without a cursor. */
  predicate Ended(pages: seq<seq<RecordId>>, limit: nat) {
    pages != [] && NextCursor(pages[|pages| - 1], limit).None?
  }

  // -- a walk ends, or is refused --------------------------------------------------------

  lemma {:induction false} WalkEnds(scopes: seq<set<RecordId>>, before: nat, limit: nat)
    ensures |Walk(scopes, before, limit)| <= |scopes|
    ensures !Ended(Walk(scopes, before, limit), limit) ==> |Walk(scopes, before, limit)| == |scopes| <= before
    decreases |scopes|
  {
    if scopes != [] {
      var page := Page(scopes[0], before, limit);
      PageSplitsListing(scopes[0], before, limit);
      match NextCursor(page, limit)
      case None =>
      case Some(cursor) =>
        var rest := Walk(scopes[1..], cursor, limit);
        WalkEnds(scopes[1..], cursor, limit);
        assert rest != [] ==> ([page] + rest)[|rest|] == rest[|rest| - 1];
    }
  }

  /** Given enough time, a walk ends with a page without a cursor if and only if none of
      its fetches is refused: each page lowers the cursor. */
  lemma {:induction false} EndsUnlessRefused(states: seq<Db>, caller: Rpc.Caller, request: Rpc.HistoryRequest, top: nat,
                                             limit: nat)
    requires |states| > top
    ensures var pages := Pages(states, caller, request, top, limit);
            !Ended(pages, Rpc.Clamp(limit)) <==>
              |pages| == |ScopesSeen(states, caller, request)| < |states|
                && Rpc.Readable(states[|pages|], caller, request).None?
              && (pages == [] || NextCursor(pages[|pages| - 1], Rpc.Clamp(limit)).Some?)
  {
    WalkEnds(ScopesSeen(states, caller, request), top, Rpc.Clamp(limit));
  }

  // -- exact while the request keeps resolving --------------------------------------------

  lemma {:induction false} GoneStaysGone(db: Db, ops: seq<Op>, c: ChannelId)
    requires Inv(db) && c !in db.channels && c < db.nextChannel
    ensures var r := Run(db, ops);
            Inv(r) && c !in r.channels && c < r.nextChannel
    decreases |ops|
  {
    if ops != [] {
      var n := |ops| - 1;
      GoneStaysGone(db, ops[..n], c);
      StepKeepsInv(Run(db, ops[..n]), ops[n]);
      StepKeepsGone(Run(db, ops[..n]), ops[n], c);
    }
  }

  lemma StepKeepsGone(db: Db, op: Op, c: ChannelId)
    requires UniqueNames(db) && c !in db.channels && c < db.nextChannel
    ensures c !in Step(db, op).channels && c < Step(db, op).nextChannel
  {
    if op.Archive? && Lookup(db, op.channel).Some? {
      var d := Lookup(db, op.channel).value;
      AppendEventsFrame(WithoutMembers(WithFlag(db, d, true), d),
                        UnsubscribeEvents(Ordered(Subscribers(db, d)), op.channel), Some(d), op.now);
    }
  }

  lemma {:induction false} RunKeepsInvFrom(db: Db, ops: seq<Op>)
    requires Inv(db)
    ensures Inv(Run(db, ops))
    decreases |ops|
  {
    if ops != [] {
      RunKeepsInvFrom(db, ops[..|ops| - 1]);
      StepKeepsInv(Run(db, ops[..|ops| - 1]), ops[|ops| - 1]);
    }
  }

  lemma {:induction false} RunSplits(db: Db, a: seq<Op>, b: seq<Op>)
    ensures Run(db, a + b) == Run(Run(db, a), b)
    decreases |b|
  {
    if b == [] {
      assert a + b == a;
    } else {
      assert (a + b)[..|a + b| - 1] == a + b[..|b| - 1];
      RunSplits(db, a, b[..|b| - 1]);
    }
  }

  lemma DeleteRemoves(db: Db, op: Op, c: ChannelId)
    requires Inv(db) && DeletesChannel(db, op, c)
    ensures c !in Step(db, op).channels && c < Step(db, op).nextChannel
  {
  }

  lemma GoneForGood(db: Db, ops: seq<Op>, i: nat, c: ChannelId)
    requires i <= |ops| && Inv(Run(db, ops[..i])) && c !in Run(db, ops[..i]).channels
             && c < Run(db, ops[..i]).nextChannel
    ensures c !in Run(db, ops).channels
  {
    GoneStaysGone(Run(db, ops[..i]), ops[i..], c);
    RunSplits(db, ops[..i], ops[i..]);
    assert ops[..i] + ops[i..] == ops;
  }

  lemma RemovedIsGone(db: Db, ops: seq<Op>, i: nat, c: ChannelId)
    requires Inv(db) && i < |ops| && DeletesChannel(Run(db, ops[..i]), ops[i], c)
    ensures c !in Run(db, ops).channels
  {
    RunKeepsInvFrom(db, ops[..i]);
    RunKeepsInvFrom(db, ops[..i + 1]);
    DeleteRemoves(Run(db, ops[..i]), ops[i], c);
    RunNext(db, ops, i);
    GoneForGood(db, ops, i + 1, c);
  }

  lemma RunNext(db: Db, ops: seq<Op>, i: nat)
    requires i < |ops|
    ensures Run(db, ops[..i + 1]) == Step(Run(db, ops[..i]), ops[i])
  {
    assert ops[..i + 1][..i] == ops[..i];
  }

  /** A channel that is there before and after some requests was not deleted by them,
      because ids are never used again. */
  lemma SurvivorWasNotRemoved(db: Db, ops: seq<Op>, scope: Scope)
    requires Inv(db) && (scope.OfChannel? ==> scope.c in Run(db, ops).channels)
    ensures NeverRemoves(db, ops, scope)
  {
    forall i | 0 <= i < |ops|
      ensures !Removes(Run(db, ops[..i]), ops[i], scope)
    {
      if Removes(Run(db, ops[..i]), ops[i], scope) {
        RemovedIsGone(db, ops, i, scope.c);
      }
    }
  }

  lemma {:induction false} ResolvingIsKept(db: Db, between: seq<seq<Op>>, scope: Scope)
    requires Inv(db)
    requires scope.OfChannel? ==> forall k :: 0 <= k <= |between| ==> scope.c in StatesAt(db, between)[k].channels
    ensures NeverRemovesBetween(db, between, scope)
    decreases |between|
  {
    if between != [] {
      var next := Run(db, between[0]);
      assert StatesAt(db, between)[1] == StatesAt(next, between[1..])[0] == next;
      SurvivorWasNotRemoved(db, between[0], scope);
      RunKeepsInvFrom(db, between[0]);
      assert forall k :: 0 <= k <= |between[1..]| ==> StatesAt(next, between[1..])[k] == StatesAt(db, between)[k + 1];
      ResolvingIsKept(next, between[1..], scope);
    }
  }

  /** Every fetch resolves to this scope. */
  ghost predicate KeepsResolving(db: Db, between: seq<seq<Op>>, caller: Rpc.Caller, request: Rpc.HistoryRequest,
                                 scope: Scope) {
    forall k :: 0 <= k <= |between| ==> Rpc.Readable(StatesAt(db, between)[k], caller, request) == Some(scope)
  }

  lemma ResolvedScopes(db: Db, between: seq<seq<Op>>, caller: Rpc.Caller, request: Rpc.HistoryRequest, scope: Scope)
    requires Inv(db) && KeepsResolving(db, between, caller, request, scope)
    ensures NeverRemovesBetween(db, between, scope)
    ensures ScopesSeen(StatesAt(db, between), caller, request)
            == seq(|between| + 1, k requires 0 <= k <= |between| => ScopeIds(StatesAt(db, between)[k], scope))
  {
    var states := StatesAt(db, between);
    forall k | 0 <= k <= |between|
      ensures Rpc.Readable(states[k], caller, request) == Some(scope)
      ensures scope.OfChannel? ==> scope.c in states[k].channels
    {
    }
    ResolvingIsKept(db, between, scope);
    var scopes := ScopesSeen(states, caller, request);
    assert |scopes| == |states|;
  }

  /** As long as every fetch resolves to the scope of the first, following the cursors
      yields every record the scope held at the first fetch once, in id order, in full
      pages but the last, whatever requests run in between. */
  lemma {:induction false} HistoryIsExact(db: Db, between: seq<seq<Op>>, caller: Rpc.Caller,
                                          request: Rpc.HistoryRequest, scope: Scope, limit: nat)
    requires Inv(db) && KeepsResolving(db, between, caller, request, scope)
    requires (|between| + 1) * Rpc.Clamp(limit) > |Below(ScopeIds(db, scope), db.nextRecord)|
    ensures var pages := Pages(StatesAt(db, between), caller, request, db.nextRecord, limit);
            var listing := Joined(pages);
            && Ended(pages, Rpc.Clamp(limit))
            && (forall m :: m in listing <==> m in ScopeIds(db, scope))
            && (forall i, j :: 0 <= i < j < |listing| ==> listing[i] < listing[j])
            && PagesFor(|pages|, Rpc.Clamp(limit), |listing|)
  {
    ResolvedScopes(db, between, caller, request, scope);
    ScopeWalkIsExact(db, between, scope, Rpc.Clamp(limit));
  }

  // -- exact or not, in general ------------------------------------------------------------

  /** Every page is the one that the listing would have given. */
  predicate PagesMatch(scopes: seq<set<RecordId>>, before: nat, limit: nat, listing: set<RecordId>)
    decreases |scopes|
  {
    scopes != [] &&
    var page := Page(scopes[0], before, limit);
    page == Page(listing, before, limit) &&
    match NextCursor(page, limit)
    case None => true
    case Some(cursor) => PagesMatch(scopes[1..], cursor, limit, listing)
  }

  lemma SuffixUnique<T>(a: seq<T>, x: seq<T>, b: seq<T>, y: seq<T>)
    requires a + x == b + y && |x| == |y|
    ensures a == b && x == y
  {
    assert a == (a + x)[..|a|] && x == (a + x)[|a|..];
    assert b == (b + y)[..|b|] && y == (b + y)[|b|..];
  }

  /** A walk that ends yields the listing below its start if and only if each of its
      pages is the page the listing has at that cursor. */
  lemma {:induction false} ExactIffPagesMatch(scopes: seq<set<RecordId>>, before: nat, limit: nat,
                                              listing: set<RecordId>)
    requires limit >= 1
    ensures Ended(Walk(scopes, before, limit), limit) && Joined(Walk(scopes, before, limit)) == Below(listing, before)
            <==> PagesMatch(scopes, before, limit, listing)
    decreases |scopes|
  {
    if scopes != [] {
      var page, ideal := Page(scopes[0], before, limit), Page(listing, before, limit);
      PageSplitsListing(scopes[0], before, limit);
      PageSplitsListing(listing, before, limit);
      if |page| < limit {
        assert Joined([page]) == page by { assert [page] + [] == [page]; JoinedFirst(page, []); }
      } else {
        var rest := Walk(scopes[1..], page[0], limit);
        JoinedFirst(page, rest);
        ExactIffPagesMatch(scopes[1..], page[0], limit, listing);
        assert rest != [] ==> ([page] + rest)[|rest|] == rest[|rest| - 1];
        if Joined(rest) + page == Below(listing, before) {
          assert |ideal| == limit;
          SuffixUnique(Joined(rest), page, Below(listing, ideal[0]), ideal);
        }
      }
    }
  }

  // -- when the name moves to another channel ---------------------------------------------

  /** Records refer to channels that are there. */
  ghost predicate RefsKnown(db: Db) {
    forall m :: m in db.records && db.records[m].System? && db.records[m].channelRef.Some? ==>
      db.records[m].channelRef.value in db.channels
  }

  /** The channel's oldest record is its own, and no other channel's. */
  ghost predicate Begun(db: Db, c: ChannelId, r: RecordId) {
    && r in db.records && db.records[r].System? && db.records[r].channelRef == Some(c)
    && forall m :: m in ChannelScope(db, c) ==> r <= m
  }

  ghost predicate AllBegun(db: Db) {
    forall c :: c in db.channels ==> exists r: RecordId :: Begun(db, c, r)
  }

  lemma AppendedRefs(db: Db, events: seq<SystemEvent>, ref: Option<ChannelId>, now: nat)
    requires forall m :: m in db.records ==> m < db.nextRecord
    requires RefsKnown(db) && (ref.Some? ==> ref.value in db.channels)
    ensures RefsKnown(AppendEvents(db, events, ref, now))
  {
    if events != [] {
      AppendedRefs(db, events[..|events| - 1], ref, now);
      AppendEventsFrame(db, events[..|events| - 1], ref, now);
    }
  }

  lemma ArchiveKeepsRefs(db: Db, op: Op)
    requires UniqueNames(db) && RefsKnown(db) && op.Archive? && Lookup(db, op.channel).Some?
    ensures RefsKnown(Step(db, op))
  {
    var d := Lookup(db, op.channel).value;
    var tx := WithoutMembers(WithFlag(db, d, true), d);
    var events := UnsubscribeEvents(Ordered(Subscribers(db, d)), op.channel);
    AppendedRefs(tx, events, Some(d), op.now);
    AppendEventsFrame(tx, events, Some(d), op.now);
  }

  lemma StepKeepsRefs(db: Db, op: Op)
    requires Inv(db) && RefsKnown(db)
    ensures RefsKnown(Step(db, op))
  {
    if op.Archive? {
      if Lookup(db, op.channel).Some? {
        ArchiveKeepsRefs(db, op);
      }
    } else if op.Delete? {
      if Lookup(db, op.channel).Some? {
        DeleteKeepsRefs(db, Lookup(db, op.channel).value, op.channel, op.actor, op.now);
      }
    }
  }

  lemma DeleteKeepsRefs(db: Db, c: ChannelId, name: Name, actor: Name, now: nat)
    requires UniqueNames(db) && RefsKnown(db)
    ensures RefsKnown(Deleted(db, c, name, actor, now))
  {
    var tx := WithoutChannel(WithoutRecords(db, Sole(db, c)), c);
    assert RefsKnown(tx);
  }

  lemma CreateBegins(db: Db, name: Name, actor: Name, now: nat)
    requires Inv(db) && RefsKnown(db)
    ensures Begun(Created(db, name, actor, now), db.nextChannel, db.nextRecord)
  {
    var after, c := Created(db, name, actor, now), db.nextChannel;
    forall m | m in ChannelScope(after, c)
      ensures db.nextRecord <= m
    {
      assert (m, c) !in db.links by { assert (m, c) in db.links ==> (m, c).1 in db.channels; }
    }
  }

  lemma BegunStays(db: Db, op: Op, c: ChannelId, r: RecordId)
    requires Inv(db) && c in db.channels && c in Step(db, op).channels && Begun(db, c, r)
    ensures Begun(Step(db, op), c, r)
  {
    var after := Step(db, op);
    assert !DeletesChannel(db, op, c);
    StepKeepsInv(db, op);
    StepKeepsLog(db, op);
    StepKeepsChannelScope(db, op, c, r);
    assert (r, c) !in after.links by { assert (r, c) in after.links ==> IsMessage(after, (r, c).0); }
    forall m | m in ChannelScope(after, c)
      ensures r <= m
    {
      if m < db.nextRecord {
        StepKeepsChannelScope(db, op, c, m);
      }
    }
  }

  lemma NewChannelIsCreated(db: Db, op: Op, c: ChannelId)
    requires UniqueNames(db) && c !in db.channels && c in Step(db, op).channels
    ensures op.Create? && c == db.nextChannel && Step(db, op) == Created(db, op.channel, op.actor, op.now)
  {
    if op.Archive? && Lookup(db, op.channel).Some? {
      var d := Lookup(db, op.channel).value;
      AppendEventsFrame(WithoutMembers(WithFlag(db, d, true), d),
                        UnsubscribeEvents(Ordered(Subscribers(db, d)), op.channel), Some(d), op.now);
    }
  }

  lemma StepKeepsBegun(db: Db, op: Op)
    requires Inv(db) && RefsKnown(db) && AllBegun(db)
    ensures AllBegun(Step(db, op))
  {
    forall c | c in Step(db, op).channels
      ensures exists r: RecordId :: Begun(Step(db, op), c, r)
    {
      if c in db.channels {
        var r: RecordId :| Begun(db, c, r);
        BegunStays(db, op, c, r);
      } else {
        NewChannelIsCreated(db, op, c);
        CreateBegins(db, op.channel, op.actor, op.now);
      }
    }
  }

  /** After any requests, the oldest record in a channel's history belongs to it alone. */
  lemma {:induction false} HistoriesBegin(ops: seq<Op>)
    ensures RefsKnown(Run(EMPTY, ops)) && AllBegun(Run(EMPTY, ops))
    decreases |ops|
  {
    if ops != [] {
      var n := |ops| - 1;
      HistoriesBegin(ops[..n]);
      RunKeepsInv(ops[..n]);
      StepKeepsRefs(Run(EMPTY, ops[..n]), ops[n]);
      StepKeepsBegun(Run(EMPTY, ops[..n]), ops[n]);
    }
  }

  lemma BelowNeedsFirst(db: Db, c: ChannelId, r: RecordId, before: nat)
    requires Begun(db, c, r)
    ensures Below(ChannelScope(db, c), before) != [] ==> r in Below(ChannelScope(db, c), before)
  {
    var all := Below(ChannelScope(db, c), before);
    BelowLists(ChannelScope(db, c), before);
    if all != [] {
      assert all[0] in ChannelScope(db, c) && all[0] < before;
    }
  }

  /** Two channels have the same records below a cursor only if they have none. */
  lemma SameBelowIff(db: Db, c: ChannelId, d: ChannelId, before: nat)
    requires MailKnown(db) && AllBegun(db) && c in db.channels && d in db.channels && c != d
    ensures Below(ChannelScope(db, d), before) == Below(ChannelScope(db, c), before) <==>
            Below(ChannelScope(db, c), before) == [] && Below(ChannelScope(db, d), before) == []
  {
    var r: RecordId :| Begun(db, c, r);
    var q: RecordId :| Begun(db, d, q);
    BelowNeedsFirst(db, c, r, before);
    BelowNeedsFirst(db, d, q, before);
    BelowLists(ChannelScope(db, c), before);
    BelowLists(ChannelScope(db, d), before);
    assert r !in ChannelScope(db, d) by { assert (r, d) in db.links ==> IsMessage(db, (r, d).0); }
    assert q !in ChannelScope(db, c) by { assert (q, c) in db.links ==> IsMessage(db, (q, c).0); }
  }

  /** Once the name has moved to another channel for the rest of the walk, the rest is
      exact if and only if neither channel has anything left below the cursor: otherwise
      records of the first are missing or records of the other are read instead. */
  lemma {:induction false} MovedNameExactIff(ops: seq<Op>, between: seq<seq<Op>>, caller: Rpc.Caller,
                                             request: Rpc.HistoryRequest, cursor: nat, limit: nat,
                                             c: ChannelId, d: ChannelId)
    requires var db := Run(EMPTY, ops);
             c in db.channels && d in db.channels && c != d && cursor <= db.nextRecord
             && KeepsResolving(db, between, caller, request, OfChannel(d))
             && (|between| + 1) * Rpc.Clamp(limit) > |Below(ChannelScope(db, d), cursor)|
    ensures var db := Run(EMPTY, ops);
            Joined(Pages(StatesAt(db, between), caller, request, cursor, limit))
              == Below(ChannelScope(db, c), cursor) <==>
            Below(ChannelScope(db, c), cursor) == [] && Below(ChannelScope(db, d), cursor) == []
  {
    var db := Run(EMPTY, ops);
    RunKeepsInv(ops);
    HistoriesBegin(ops);
    TailIsListing(db, between, caller, request, cursor, limit, OfChannel(d));
    SameBelowIff(db, c, d, cursor);
  }

  /** From any cursor on, a walk whose fetches resolve to one scope yields its listing. */
  lemma TailIsListing(db: Db, between: seq<seq<Op>>, caller: Rpc.Caller, request: Rpc.HistoryRequest, cursor: nat,
                      limit: nat, scope: Scope)
    requires Inv(db) && cursor <= db.nextRecord && KeepsResolving(db, between, caller, request, scope)
    requires (|between| + 1) * Rpc.Clamp(limit) > |Below(ScopeIds(db, scope), cursor)|
    ensures Joined(Pages(StatesAt(db, between), caller, request, cursor, limit)) == Below(ScopeIds(db, scope), cursor)
  {
    ResolvedScopes(db, between, caller, request, scope);
    StatesKeepScope(db, between, scope, cursor);
    var scopes := ScopesSeen(StatesAt(db, between), caller, request);
    assert forall k :: 0 <= k < |scopes| ==> scopes[k] == ScopeIds(StatesAt(db, between)[k], scope);
    WalkIsListing(scopes, cursor, Rpc.Clamp(limit), ScopeIds(db, scope));
  }

  /** The store after a channel was created, renamed, and its name given to another. */
  function AfterMove(a: Name, b: Name, actor: Name): Db {
    Created(Renamed(Created(EMPTY, a, actor, 0), 1, a, b, actor, 0), a, actor, 0)
  }

  lemma MovesName(a: Name, b: Name, actor: Name)
    requires a != b
    ensures Run(EMPTY, [Create(a, actor, 0)]) == Created(EMPTY, a, actor, 0)
    ensures Run(Created(EMPTY, a, actor, 0), [Rename(a, b, actor, 0), Create(a, actor, 0)]) == AfterMove(a, b, actor)
    ensures UniqueNames(Created(EMPTY, a, actor, 0)) && UniqueNames(AfterMove(a, b, actor))
  {
    var db, ops := Created(EMPTY, a, actor, 0), [Rename(a, b, actor, 0), Create(a, actor, 0)];
    Begins(a, actor);
    Renames(a, b, actor);
    RunNext(db, ops, 0);
    RunNext(db, ops, 1);
    assert ops[..0] == [] && ops[..2] == ops;
  }

  lemma Begins(a: Name, actor: Name)
    ensures var db := Created(EMPTY, a, actor, 0);
            db == Run(EMPTY, [Create(a, actor, 0)]) && Inv(db) && db.channels == map[1 := ChannelRow(a, false)]
  {
    RunKeepsInv([Create(a, actor, 0)]);
    RunNext(EMPTY, [Create(a, actor, 0)], 0);
    assert [Create(a, actor, 0)][..1] == [Create(a, actor, 0)] && [Create(a, actor, 0)][..0] == [];
  }

  lemma Renames(a: Name, b: Name, actor: Name)
    requires a != b
    ensures var db := Created(EMPTY, a, actor, 0);
            var renamed := Renamed(db, 1, a, b, actor, 0);
            && Step(db, Rename(a, b, actor, 0)) == renamed && renamed.channels == map[1 := ChannelRow(b, false)]
            && Step(renamed, Create(a, actor, 0)) == AfterMove(a, b, actor) && Inv(AfterMove(a, b, actor))
  {
    var db := Created(EMPTY, a, actor, 0);
    Begins(a, actor);
    Rpc.LookupIs(db, 1);
    StepKeepsInv(db, Rename(a, b, actor, 0));
    CreatesAgain(Renamed(db, 1, a, b, actor, 0), a, b, actor);
  }

  lemma CreatesAgain(renamed: Db, a: Name, b: Name, actor: Name)
    requires a != b && Inv(renamed) && renamed.channels == map[1 := ChannelRow(b, false)]
    ensures Step(renamed, Create(a, actor, 0)) == Created(renamed, a, actor, 0) && Inv(Created(renamed, a, actor, 0))
  {
    StepKeepsInv(renamed, Create(a, actor, 0));
  }

  /** Such a run exists: while a client pages through a channel, the channel is renamed
      and another takes its name. The next fetch reads the other one, and everything the
      first has below the cursor is lost. */
  lemma RenamedUnderTheCursor(a: Name, b: Name, actor: Name, caller: Rpc.Caller)
    requires a != b
    ensures var db := Run(EMPTY, [Create(a, actor, 0)]);
            var later := Run(db, [Rename(a, b, actor, 0), Create(a, actor, 0)]);
            && Rpc.Readable(db, caller, Rpc.ByChannel(a)) == Some(OfChannel(1)) && 1 in later.channels
            && Rpc.Readable(later, caller, Rpc.ByChannel(a)) == Some(OfChannel(2))
            && 1 in Below(ChannelScope(later, 1), 2) && Below(ChannelScope(later, 2), 2) == []
  {
    var db, later := Created(EMPTY, a, actor, 0), AfterMove(a, b, actor);
    MovesName(a, b, actor);
    Rpc.LookupIs(db, 1);
    Rpc.LookupIs(later, 2);
    BelowLists(ChannelScope(later, 1), 2);
    assert later.records[1].channelRef == Some(1) && 1 in ChannelScope(later, 1);

    NothingBelow(ChannelScope(later, 2), 2);
  }

  lemma {:induction false} NothingBelow(scope: set<RecordId>, before: nat)
    requires forall m :: m in scope ==> m >= before
    ensures Below(scope, before) == []
  {
    if before > 0 {
      NothingBelow(scope, before - 1);
    }
  }
}
