/** History paging: newest-last pages of at most `limit` records, each next page
    fetched with the first id of the page before it as cursor. */
module Paging {
  import opened Wrappers
  import opened Names
  import opened Store
  import opened Handlers
  import opened Audit

  /** `WHERE id < before ORDER BY id DESC LIMIT limit`. */
  function NewestFirst(scope: set<RecordId>, before: nat, limit: nat): seq<RecordId> {
    if before == 0 || limit == 0 then []
    else if before - 1 in scope then [before - 1] + NewestFirst(scope, before - 1, limit - 1)
    else NewestFirst(scope, before - 1, limit)
  }

  function Reversed(s: seq<RecordId>): seq<RecordId> {
    if s == [] then [] else Reversed(s[1..]) + [s[0]]
  }

  function Page(scope: set<RecordId>, before: nat, limit: nat): seq<RecordId> {
    Reversed(NewestFirst(scope, before, limit))
  }

  /** The query as a scan: newest first up to the limit, then turned around. */
  method FetchPage(scope: set<RecordId>, before: nat, limit: nat) returns (rows: seq<RecordId>)
    ensures rows == Page(scope, before, limit)
  {
    var found: seq<RecordId> := [];
    var i := before;
    while i > 0 && |found| < limit
      invariant |found| <= limit
      invariant NewestFirst(scope, before, limit) == found + NewestFirst(scope, i, limit - |found|)
    {
      i := i - 1;
      if i in scope {
        found := found + [i];
      }
    }
    assert found == NewestFirst(scope, before, limit);
    rows := [];
    for k := 0 to |found|
      invariant Reversed(found) == Reversed(found[k..]) + rows
    {
      assert found[k..][1..] == found[k + 1..];
      rows := [found[k]] + rows;
    }
  }

  /** The cursor is given out exactly when the page is full. */
  function NextCursor(page: seq<RecordId>, limit: nat): Option<nat> {
    if |page| == limit && page != [] then Some(page[0]) else None
  }

  /** Every id of the scope below a bound, in id order. */
  function Below(scope: set<RecordId>, before: nat): seq<RecordId> {
    if before == 0 then []
    else if before - 1 in scope then Below(scope, before - 1) + [before - 1]
    else Below(scope, before - 1)
  }

  lemma {:induction false} BelowLists(scope: set<RecordId>, before: nat)
    ensures forall i :: 0 <= i < |Below(scope, before)| ==> Below(scope, before)[i] < before
    ensures forall m :: m in Below(scope, before) <==> m in scope && 0 <= m < before
    ensures forall i, j :: 0 <= i < j < |Below(scope, before)| ==> Below(scope, before)[i] < Below(scope, before)[j]
  {
    if before > 0 {
      BelowLists(scope, before - 1);
    }
  }

  /** A page is the end of the listing, and the listing before it is what lies
      below the page's first id. */
  lemma {:induction false} PageSplitsListing(scope: set<RecordId>, before: nat, limit: nat)
    ensures var page := Page(scope, before, limit);
            && |page| <= limit
            && (|page| < limit ==> Below(scope, before) == page)
            && (|page| == limit && page != [] ==>
                page[0] < before && Below(scope, before) == Below(scope, page[0]) + page)
    decreases before
  {
    if before > 0 && limit > 0 {
      if before - 1 in scope {
        PageSplitsListing(scope, before - 1, limit - 1);
        var rest := NewestFirst(scope, before - 1, limit - 1);
        assert ([before - 1] + rest)[1..] == rest;
        var shorter := Page(scope, before - 1, limit - 1);
        assert Page(scope, before, limit) == shorter + [before - 1];
        if limit == 1 {
          assert rest == [] && shorter == [];
        } else if |shorter| == limit - 1 {
          assert Below(scope, before - 1) + [before - 1] == Below(scope, shorter[0]) + (shorter + [before - 1]);
        }
      } else {
        PageSplitsListing(scope, before - 1, limit);
      }
    }
  }

  /** The client's walk: `scopes[k]` is the scope as it stands at fetch `k`. It
      stops at the first page that carries no cursor. */
  function Walk(scopes: seq<set<RecordId>>, before: nat, limit: nat): seq<seq<RecordId>> {
    if scopes == [] then []
    else
      var page := Page(scopes[0], before, limit);
      match NextCursor(page, limit)
      case None => [page]
      case Some(cursor) => [page] + Walk(scopes[1..], cursor, limit)
  }

  function Joined(pages: seq<seq<RecordId>>): seq<RecordId> {
    if pages == [] then [] else Joined(pages[1..]) + pages[0]
  }

  lemma {:induction false} BelowSame(a: set<RecordId>, b: set<RecordId>, before: nat)
    requires forall m :: 0 <= m < before ==> (m in a <==> m in b)
    ensures Below(a, before) == Below(b, before)
  {
    if before > 0 {
      BelowSame(a, b, before - 1);
    }
  }

  /** Exactness: if the scope below the first bound never changes between the
      fetches, the pages joined oldest first are the whole listing, and all but
      the last of them are full. */
  lemma {:induction false} WalkIsListing(scopes: seq<set<RecordId>>, before: nat, limit: nat, listing: set<RecordId>)
    requires limit >= 1 && |scopes| * limit > |Below(listing, before)|
    requires forall k, m :: 0 <= k < |scopes| && 0 <= m < before ==> (m in scopes[k] <==> m in listing)
    ensures Joined(Walk(scopes, before, limit)) == Below(listing, before)
    ensures PagesFor(|Walk(scopes, before, limit)|, limit, |Below(listing, before)|)
    ensures LastIsShort(Walk(scopes, before, limit), limit)
    decreases |scopes|
  {
    OneFewer(|scopes|, limit);
    var page := Page(scopes[0], before, limit);
    PageSplitsListing(scopes[0], before, limit);
    BelowSame(scopes[0], listing, before);
    if |page| == limit {
      var rest := Walk(scopes[1..], page[0], limit);
      BelowSame(scopes[0], listing, page[0]);
      WalkIsListing(scopes[1..], page[0], limit, listing);
      FullPage(page, rest, |Below(listing, page[0])|, limit);
    } else {
      JoinedFirst(page, []);
      assert [page] + [] == [page];
    }
  }

  /** The walk has come to a page that is not full. */
  predicate LastIsShort(pages: seq<seq<RecordId>>, limit: nat) {
    pages != [] && |pages[|pages| - 1]| < limit
  }

  /** `n` records take this many pages, all but the last of them full. */
  predicate PagesFor(pages: nat, limit: nat, n: nat) {
    pages >= 1 && (pages - 1) * limit <= n < pages * limit
  }

  lemma FullPage(page: seq<RecordId>, rest: seq<seq<RecordId>>, n: nat, limit: nat)
    requires PagesFor(|rest|, limit, n)
    ensures Joined([page] + rest) == Joined(rest) + page
    ensures PagesFor(|rest| + 1, limit, n + limit)
  {
    JoinedFirst(page, rest);
    OneFewer(|rest| + 1, limit);
    OneFewer(|rest|, limit);
  }

  lemma JoinedFirst(page: seq<RecordId>, rest: seq<seq<RecordId>>)
    ensures Joined([page] + rest) == Joined(rest) + page
  {
    assert ([page] + rest)[1..] == rest;
  }

  lemma OneFewer(n: nat, limit: nat)
    requires n >= 1
    ensures n * limit == (n - 1) * limit + limit
  {
  }

  // -- the scopes of the store -------------------------------------------------

  /** Messages sent to the channel and system records about it. */
  function ChannelScope(db: Db, c: ChannelId): (r: set<RecordId>)
    ensures forall m :: m in r <==>
            m in db.records && ((m, c) in db.links || (db.records[m].System? && db.records[m].channelRef == Some(c)))
  {
    set m | m in db.records && ((m, c) in db.links || (db.records[m].System? && db.records[m].channelRef == Some(c)))
  }

  /** Direct messages that have both principals among their participants. */
  function DirectScope(db: Db, a: Name, b: Name): (r: set<RecordId>)
    ensures forall m :: m in r <==> IsMessage(db, m) && (m, a) in db.participants && (m, b) in db.participants
  {
    set m | m in db.records && db.records[m].Message? && (m, a) in db.participants && (m, b) in db.participants
  }

  ghost predicate DeletesChannel(db: Db, op: Op, c: ChannelId) {
    op.Delete? && Lookup(db, op.channel) == Some(c)
  }

  lemma AppendKeepsChannelScope(db: Db, tx: Db, events: seq<SystemEvent>, ref: Option<ChannelId>, now: nat,
                                c: ChannelId, m: RecordId)
    requires forall r :: r in tx.records ==> r < tx.nextRecord
    requires tx.records == db.records && tx.links == db.links && tx.nextRecord == db.nextRecord && m < db.nextRecord
    ensures m in ChannelScope(AppendEvents(tx, events, ref, now), c) <==> m in ChannelScope(db, c)
  {
    AppendEventsFrame(tx, events, ref, now);
  }

  lemma ArchiveKeepsChannelScope(db: Db, op: Op, c: ChannelId, m: RecordId)
    requires UniqueNames(db) && op.Archive? && Lookup(db, op.channel).Some? && m < db.nextRecord
    ensures m in ChannelScope(Step(db, op), c) <==> m in ChannelScope(db, c)
  {
    var d := Lookup(db, op.channel).value;
    var tx := WithoutMembers(WithFlag(db, d, true), d);
    var events := UnsubscribeEvents(Ordered(Subscribers(db, d)), op.channel);
    AppendEventsFrame(tx, events, Some(d), op.now);
    AppendKeepsChannelScope(db, tx, events, Some(d), op.now, c, m);
  }

  lemma DeleteKeepsChannelScope(db: Db, op: Op, c: ChannelId, m: RecordId)
    requires op.Delete? && Lookup(db, op.channel).Some? && Lookup(db, op.channel) != Some(c) && m < db.nextRecord
    requires forall r :: r in Sole(db, Lookup(db, op.channel).value) ==> IsMessage(db, r)
    ensures m in ChannelScope(Step(db, op), c) <==> m in ChannelScope(db, c)
  {
    var d := Lookup(db, op.channel).value;
    assert (m, c) in db.links ==> m !in Sole(db, d);
  }

  /** Nothing below the next record id enters or leaves the scope of a channel
      unless that very channel is deleted. */
  lemma StepKeepsChannelScope(db: Db, op: Op, c: ChannelId, m: RecordId)
    requires Inv(db) && !DeletesChannel(db, op, c) && m < db.nextRecord
    ensures m in ChannelScope(Step(db, op), c) <==> m in ChannelScope(db, c)
  {
    if op.Archive? {
      if Lookup(db, op.channel).Some? {
        ArchiveKeepsChannelScope(db, op, c, m);
      }
    } else if op.Delete? {
      if Lookup(db, op.channel).Some? {
        assert forall r :: r in Sole(db, Lookup(db, op.channel).value) ==>
          (r, Lookup(db, op.channel).value) in db.links;
        DeleteKeepsChannelScope(db, op, c, m);
      }
    }
  }

  lemma ParticipantsKept(db: Db, c: ChannelId, m: RecordId, p: Name)
    requires MailKnown(db) && Linked(db) && (m, p) in db.participants
    ensures m !in Sole(db, c)
  {
    assert IsMessage(db, (m, p).0);
    assert forall l :: l in db.links ==> l.0 != m;
    assert (m, c) !in db.links;
  }

  lemma ArchiveKeepsDirectScope(db: Db, op: Op, a: Name, b: Name, m: RecordId)
    requires UniqueNames(db) && op.Archive? && Lookup(db, op.channel).Some? && m < db.nextRecord
    ensures m in DirectScope(Step(db, op), a, b) <==> m in DirectScope(db, a, b)
  {
    var d := Lookup(db, op.channel).value;
    AppendEventsFrame(WithoutMembers(WithFlag(db, d, true), d),
                      UnsubscribeEvents(Ordered(Subscribers(db, d)), op.channel), Some(d), op.now);
  }

  lemma DeleteKeepsDirectScope(db: Db, op: Op, a: Name, b: Name, m: RecordId)
    requires MailKnown(db) && Linked(db) && op.Delete? && Lookup(db, op.channel).Some? && m < db.nextRecord
    ensures m in DirectScope(Step(db, op), a, b) <==> m in DirectScope(db, a, b)
  {
    if (m, a) in db.participants {
      ParticipantsKept(db, Lookup(db, op.channel).value, m, a);
    }
  }

  lemma QuietKeepsDirectScope(db: Db, op: Op, a: Name, b: Name, m: RecordId)
    requires UniqueNames(db) && MailKnown(db) && !op.Archive? && !op.Delete? && m < db.nextRecord
    ensures m in DirectScope(Step(db, op), a, b) <==> m in DirectScope(db, a, b)
  {
  }

  /** Direct history has no deletion path at all. */
  lemma StepKeepsDirectScope(db: Db, op: Op, a: Name, b: Name, m: RecordId)
    requires UniqueNames(db) && MailKnown(db) && Linked(db) && m < db.nextRecord
    ensures m in DirectScope(Step(db, op), a, b) <==> m in DirectScope(db, a, b)
  {
    if op.Archive? {
      if Lookup(db, op.channel).Some? {
        ArchiveKeepsDirectScope(db, op, a, b, m);
      }
    } else if op.Delete? {
      if Lookup(db, op.channel).Some? {
        DeleteKeepsDirectScope(db, op, a, b, m);
      }
    } else {
      QuietKeepsDirectScope(db, op, a, b, m);
    }
  }

  /** A history request names a channel or a pair of principals. */
  datatype Scope = OfChannel(c: ChannelId) | Between(a: Name, b: Name)

  function ScopeIds(db: Db, scope: Scope): set<RecordId> {
    match scope
    case OfChannel(c) => ChannelScope(db, c)
    case Between(a, b) => DirectScope(db, a, b)
  }

  ghost predicate Removes(db: Db, op: Op, scope: Scope) {
    scope.OfChannel? && DeletesChannel(db, op, scope.c)
  }

  /** The store as it stands at each fetch, when `between[k]` runs before fetch `k + 1`. */
  ghost function StatesAt(db: Db, between: seq<seq<Op>>): (r: seq<Db>)
    ensures |r| == |between| + 1 && r[0] == db
    decreases |between|
  {
    if between == [] then [db] else [db] + StatesAt(Run(db, between[0]), between[1..])
  }

  ghost predicate NeverRemoves(db: Db, ops: seq<Op>, scope: Scope) {
    forall i :: 0 <= i < |ops| ==> !Removes(Run(db, ops[..i]), ops[i], scope)
  }

  ghost predicate NeverRemovesBetween(db: Db, between: seq<seq<Op>>, scope: Scope)
    decreases |between|
  {
    between == [] || (NeverRemoves(db, between[0], scope)
                      && NeverRemovesBetween(Run(db, between[0]), between[1..], scope))
  }

  lemma {:induction false} RunKeepsScope(db: Db, ops: seq<Op>, scope: Scope, bound: nat)
    requires Inv(db) && NeverRemoves(db, ops, scope) && bound <= db.nextRecord
    ensures Inv(Run(db, ops)) && bound <= Run(db, ops).nextRecord
    ensures forall m :: 0 <= m < bound ==> (m in ScopeIds(Run(db, ops), scope) <==> m in ScopeIds(db, scope))
    decreases |ops|
  {
    if ops != [] {
      var n := |ops| - 1;
      assert forall i :: 0 <= i <= n ==> ops[..n][..i] == ops[..i];
      RunKeepsScope(db, ops[..n], scope, bound);
      var before := Run(db, ops[..n]);
      StepKeepsInv(before, ops[n]);
      StepKeepsLog(before, ops[n]);
      forall m | 0 <= m < bound
        ensures m in ScopeIds(Run(db, ops), scope) <==> m in ScopeIds(db, scope)
      {
        assert !Removes(before, ops[n], scope);
        match scope
        case OfChannel(c) => StepKeepsChannelScope(before, ops[n], c, m);
        case Between(a, b) => StepKeepsDirectScope(before, ops[n], a, b, m);
      }
    }
  }

  lemma {:induction false} StatesKeepScope(db: Db, between: seq<seq<Op>>, scope: Scope, bound: nat)
    requires Inv(db) && NeverRemovesBetween(db, between, scope) && bound <= db.nextRecord
    ensures forall k, m :: 0 <= k <= |between| && 0 <= m < bound ==>
              (m in ScopeIds(StatesAt(db, between)[k], scope) <==> m in ScopeIds(db, scope))
    decreases |between|
  {
    if between != [] {
      RunKeepsScope(db, between[0], scope, bound);
      StatesKeepScope(Run(db, between[0]), between[1..], scope, bound);
    }
  }

  /** Following the cursors through a history yields every record the scope held
      at the first fetch exactly once, in id order, whatever requests run between
      the fetches as long as the channel itself is not deleted. All pages but the
      last are full. */
  lemma {:induction false} ScopeWalkIsExact(db: Db, between: seq<seq<Op>>, scope: Scope, limit: nat)
    requires Inv(db) && NeverRemovesBetween(db, between, scope) && limit >= 1
    requires (|between| + 1) * limit > |Below(ScopeIds(db, scope), db.nextRecord)|
    ensures var scopes := seq(|between| + 1, k requires 0 <= k <= |between| =>
                                ScopeIds(StatesAt(db, between)[k], scope));
            var pages := Walk(scopes, db.nextRecord, limit);
            var listing := Joined(pages);
            && (forall m :: m in listing <==> m in ScopeIds(db, scope))
            && (forall i, j :: 0 <= i < j < |listing| ==> listing[i] < listing[j])
            && PagesFor(|pages|, limit, |listing|) && LastIsShort(pages, limit)
            && listing == Below(ScopeIds(db, scope), db.nextRecord)
  {
    var scopes := seq(|between| + 1, k requires 0 <= k <= |between| => ScopeIds(StatesAt(db, between)[k], scope));
    StatesKeepScope(db, between, scope, db.nextRecord);
    WalkIsListing(scopes, db.nextRecord, limit, ScopeIds(db, scope));
    BelowLists(ScopeIds(db, scope), db.nextRecord);
  }
}
