/** The broker's session registry: which session holds which principal, and the
    requests that change or depend on it. */
module Sessions {
  import opened Wrappers
  import opened Names
  import opened Acks
  import opened Utf8
  import opened Store
  import opened Handlers
  import opened Deletion
  import opened Rpc
  import Replay

  datatype Bound = Bound(name: Name, admin: bool)

  /** The acknowledgment rows after the held ones of a recipient have failed. */
  ghost function Swept(db: Db, recipient: Name, now: nat): Db {
    db.(acks := (map k | k in db.acks ::
                   if k.1 == recipient && db.acks[k].state == Held then Apply(db.acks[k], Gone(now)) else db.acks[k]))
  }

  function Gone(now: nat): Update {
    Update(Failed, Some("disconnected"), now)
  }

  /** A denial of the credential or the name is recorded, nothing else is. */
  ghost predicate Denies(before: Db, after: Db, refusal: Option<RpcError>, name: Name, now: nat) {
    if refusal == Some(Unauthorized) || refusal == Some(NameActive) then DenialNoted(before, after, name, now)
    else after == before
  }

  ghost predicate DenialNoted(before: Db, after: Db, name: Name, now: nat) {
    exists reason :: after == Step(before, Note(RegistrationDenied(name, reason), now))
  }

  ghost predicate OneSessionEach(bound: map<SessionId, Bound>) {
    forall s, t :: s in bound && t in bound && bound[s].name == bound[t].name ==> s == t
  }

  class Registry {
    const broker: Broker
    var bound: map<SessionId, Bound>

    constructor (messageSizeLimit: nat)
      ensures Valid() && bound == map[] && fresh(broker) && fresh(broker.store)
    {
      broker := new Broker(messageSizeLimit);
      bound := map[];
    }

    /** Every bound name is a known principal, and no two sessions share one. */
    ghost predicate Valid()
      reads this, broker, broker.store
    {
      && broker.Valid() && OneSessionEach(bound)
      && forall s :: s in bound ==> bound[s].name in broker.store.db.principals
    }

    function Active(): (r: set<Name>)
      reads this
      ensures forall n :: n in r <==> exists s :: s in bound && bound[s].name == n
    {
      set s | s in bound :: bound[s].name
    }

    function CallerOf(session: SessionId): Caller
      reads this
    {
      if session in bound then Caller(session, Some(bound[session].name), bound[session].admin)
      else Caller(session, None, false)
    }

    /** Binds a name nobody holds, records the registration and lists what is held for
        it, oldest first. `credential` is whether an admin registration is authorized,
        `commits` whether the store takes the registration. A refusal because of the
        credential or the name is recorded; a failure leaves no trace. */
    method Register(session: SessionId, name: Name, admin: bool, credential: bool, commits: bool, now: nat)
      returns (r: Result<(), RpcError>, drained: seq<RecordId>)
      requires Valid()
      modifies this`bound, broker.store
      ensures Valid()
      ensures r == if admin && !credential then Err(Unauthorized)
                   else if session in old(bound) then Err(AlreadyRegistered)
                   else if name in old(Active()) then Err(NameActive)
                   else if !commits then Err(Internal) else Ok(())
      ensures r.Ok? ==> bound == old(bound)[session := Bound(name, admin)] && IsHeldList(broker.store.db, name, drained)
      ensures r.Ok? ==> broker.store.db == Step(old(broker.store.db), Op.Register(name, admin, now))
      ensures r.Err? ==> bound == old(bound) && drained == []
      ensures r.Err? ==> Denies(old(broker.store.db), broker.store.db, Some(r.error), name, now)
    {
      drained := [];
      var refusal := Refusal(session, name, admin, credential);
      if refusal.Some? {
        RecordRefusal(refusal.value, name, now);
        return Err(refusal.value), drained;
      }
      if !commits {
        Unpersisted(session, name, admin);
        return Err(Internal), drained;
      }
      drained := Persisted(session, name, admin, now);
      r := Ok(());
    }

    /** Why the registration is refused, if it is. */
    function Refusal(session: SessionId, name: Name, admin: bool, credential: bool): Option<RpcError>
      reads this
    {
      if admin && !credential then Some(Unauthorized)
      else if session in bound then Some(AlreadyRegistered)
      else if name in Active() then Some(NameActive)
      else None
    }

    method RecordRefusal(refusal: RpcError, name: Name, now: nat)
      requires Valid()
      modifies broker.store
      ensures Valid() && Denies(old(broker.store.db), broker.store.db, Some(refusal), name, now)
    {
      if refusal == Unauthorized {
        RecordDenial(name, "invalid admin credential", now);
      } else if refusal == NameActive {
        RecordDenial(name, "actively claimed", now);
      }
    }

    /** The name is bound and, as the store refuses the registration, given back. */
    method Unpersisted(session: SessionId, name: Name, admin: bool)
      requires session !in bound
      modifies this`bound
      ensures bound == old(bound)
    {
      bound := bound[session := Bound(name, admin)];
      bound := bound - {session};
      assert bound == old(bound);
    }

    /** The name is bound, its registration stored, and what is held for it listed. */
    method Persisted(session: SessionId, name: Name, admin: bool, now: nat) returns (drained: seq<RecordId>)
      requires Valid() && session !in bound && name !in Active()
      modifies this`bound, broker.store
      ensures Valid() && bound == old(bound)[session := Bound(name, admin)]
      ensures broker.store.db == Step(old(broker.store.db), Op.Register(name, admin, now))
      ensures IsHeldList(broker.store.db, name, drained)
    {
      assert forall s :: s in bound ==> bound[s].name in Active();
      bound := bound[session := Bound(name, admin)];
      StepKeepsInv(broker.store.db, Op.Register(name, admin, now));
      broker.store.RegisterPrincipal(name, admin, now);
      drained := broker.store.HeldFor(name);
    }

    method RecordDenial(name: Name, reason: string, now: nat)
      requires Valid()
      modifies broker.store
      ensures Valid() && DenialNoted(old(broker.store.db), broker.store.db, name, now)
    {
      StepKeepsInv(broker.store.db, Note(RegistrationDenied(name, reason), now));
      broker.store.AppendSystemRecord(RegistrationDenied(name, reason), now);
    }

    /** Records the deregistration first: without a record the binding stays. Held rows
        are left as they are. */
    method Deregister(session: SessionId, commits: bool, now: nat) returns (r: Result<(), RpcError>)
      requires Valid()
      modifies this, broker.store
      ensures Valid()
      ensures r == if session !in old(bound) then Err(NotRegistered) else if !commits then Err(Internal) else Ok(())
      ensures r.Err? ==> bound == old(bound) && broker.store.db == old(broker.store.db)
      ensures r.Ok? ==> bound == old(bound) - {session}
      ensures r.Ok? ==> broker.store.db == Step(old(broker.store.db), Note(Deregistered(old(bound)[session].name), now))
    {
      if session !in bound {
        return Err(NotRegistered);
      }
      if !commits {
        return Err(Internal);
      }
      var event := Deregistered(bound[session].name);
      StepKeepsInv(broker.store.db, Note(event, now));
      broker.store.AppendSystemRecord(event, now);
      bound := bound - {session};
      r := Ok(());
    }

    /** One acknowledgment update; `told` is the time of a transition watchers see. */
    method AckUpdate(m: RecordId, recipient: Name, u: Update) returns (told: Option<nat>)
      requires Valid()
      modifies broker.store
      ensures Valid() && broker.store.db == Step(old(broker.store.db), Ack(m, recipient, u))
      ensures told.Some? <==>
              (m, recipient) in old(broker.store.db).acks && Advances(old(broker.store.db).acks[(m, recipient)], u)
    {
      ghost var op := Ack(m, recipient, u);
      StepKeepsInv(broker.store.db, op);
      assert Step(broker.store.db, op) == AckSet(broker.store.db, m, recipient, u);
      told := broker.store.SetAck(m, recipient, u);
    }

    /** Only the session bound to the recipient may report processing. */
    method ReportProcessed(session: SessionId, m: RecordId, recipient: Name, now: nat)
      requires Valid()
      modifies broker.store
      ensures Valid()
      ensures broker.store.db == if session in bound && bound[session].name == recipient
                                 then Step(old(broker.store.db), Ack(m, recipient, Update(Processed, None, now)))
                                 else old(broker.store.db)
    {
      if session in bound && bound[session].name == recipient {
        var _ := AckUpdate(m, recipient, Update(Processed, None, now));
      }
    }

    /** Forgets the session, records the disconnection, and fails every row held for its
        principal. */
    method Detach(session: SessionId, now: nat)
      requires Valid()
      modifies this, broker.store
      ensures Valid() && bound == old(bound) - {session}
      ensures session !in old(bound) ==> broker.store.db == old(broker.store.db)
      ensures session in old(bound) ==>
                var name := old(bound)[session].name;
                broker.store.db == Swept(Step(old(broker.store.db), Note(Disconnected(name), now)), name, now)
    {
      if session !in bound {
        assert bound - {session} == bound;
        return;
      }
      var name := bound[session].name;
      bound := bound - {session};
      StepKeepsInv(broker.store.db, Note(Disconnected(name), now));
      broker.store.AppendSystemRecord(Disconnected(name), now);
      var held := broker.store.HeldFor(name);
      FailAll(name, held, now);
    }

    method FailOne(ghost before: Db, name: Name, held: seq<RecordId>, i: nat, now: nat)
      requires Valid() && i < |held| && IsHeldList(before, name, held)
      requires broker.store.db == before.(acks := broker.store.db.acks)
      requires SweptSome(before.acks, broker.store.db.acks, name, held[..i], now)
      modifies broker.store
      ensures Valid() && broker.store.db == before.(acks := broker.store.db.acks)
      ensures SweptSome(before.acks, broker.store.db.acks, name, held[..i + 1], now)
    {
      AckSweepsOne(before, broker.store.db, name, held, i, now);
      var _ := AckUpdate(held[i], name, Gone(now));
    }

    method FailAll(name: Name, held: seq<RecordId>, now: nat)
      requires Valid() && IsHeldList(broker.store.db, name, held)
      modifies broker.store
      ensures Valid() && broker.store.db == Swept(old(broker.store.db), name, now)
    {
      ghost var before := broker.store.db;
      for i := 0 to |held|
        invariant Valid() && broker.store.db == before.(acks := broker.store.db.acks)
        invariant SweptSome(before.acks, broker.store.db.acks, name, held[..i], now)
      {
        FailOne(before, name, held, i, now);
      }
      assert held[..|held|] == held;
      SweptAll(before, broker.store.db.acks, name, held, now);
    }

    /** A send as the broker spawns it: tracked deliveries to the recipients that are
        there, and untracked copies to every other admin. */
    method Send(session: SessionId, channels: seq<Name>, principals: seq<Name>, body: seq<Byte>,
                thread: Option<RecordId>, now: nat)
      returns (r: Result<SendReport, RpcError>, tracked: seq<Name>, copies: seq<Name>)
      requires Valid() && Utf8.Valid(body)
      modifies broker.store
      ensures Valid()
      ensures r.Ok? <==> && session in bound && NoRepeat(channels)
                         && SendResolves(old(broker.store.db), Recipients(channels, principals), thread)
      ensures r.Err? ==> broker.store.db == old(broker.store.db) && tracked == copies == []
      ensures r.Ok? ==> Published(old(broker.store.db), broker.store.db, bound[session].name, channels, principals,
                                  body, thread, Active(), r.value, broker.messageSizeLimit, now)
      ensures r.Ok? ==> tracked == r.value.delivered && IsCopyList(bound, bound[session].name, r.value, copies)
    {
      tracked, copies := [], [];
      r := Publish(session, channels, principals, body, thread, now);
      if r.Ok? {
        tracked := r.value.delivered;
        copies := CopiesFor(bound[session].name, r.value);
      }
    }

    method Publish(session: SessionId, channels: seq<Name>, principals: seq<Name>, body: seq<Byte>,
                   thread: Option<RecordId>, now: nat)
      returns (r: Result<SendReport, RpcError>)
      requires Valid() && Utf8.Valid(body)
      modifies broker.store
      ensures Valid()
      ensures r.Ok? <==> && session in bound && NoRepeat(channels)
                         && SendResolves(old(broker.store.db), Recipients(channels, principals), thread)
      ensures r.Err? ==> broker.store.db == old(broker.store.db)
      ensures r.Ok? ==> Published(old(broker.store.db), broker.store.db, bound[session].name, channels, principals,
                                  body, thread, Active(), r.value, broker.messageSizeLimit, now)
    {
      ghost var before := broker.store.db;
      r := broker.SendMessage(CallerOf(session), channels, principals, body, thread, Active(), now);
      if r.Ok? {
        PublishedKeepsPrincipals(before, broker.store.db, bound[session].name, channels, principals, body, thread,
                                 Active(), r.value, broker.messageSizeLimit, now);
      }
    }

    method CopiesFor(sender: Name, report: SendReport) returns (copies: seq<Name>)
      requires OneSessionEach(bound)
      ensures IsCopyList(bound, sender, report, copies)
    {
      var admins := Rows(set s | s in bound && bound[s].admin :: bound[s].name);
      copies := [];
      for i := 0 to |admins|
        invariant NoRepeat(copies)
        invariant forall n :: n in copies <==>
                  n in admins[..i] && n != sender && n !in report.delivered && n !in report.failed
      {
        assert admins[..i + 1] == admins[..i] + [admins[i]];
        if admins[i] != sender && admins[i] !in report.delivered && admins[i] !in report.failed
          && admins[i] !in copies {
          copies := copies + [admins[i]];
        }
      }
      assert admins[..|admins|] == admins;
    }
  }

  /** One copy for every admin that neither sent the message nor was addressed. */
  ghost predicate IsCopyList(bound: map<SessionId, Bound>, sender: Name, report: SendReport, copies: seq<Name>) {
    && NoRepeat(copies)
    && forall n :: n in copies <==>
         (exists s :: s in bound && bound[s].admin && bound[s].name == n) && n != sender && n !in report.delivered
           && n !in report.failed
  }

  /** The rows of these records have failed for the recipient, the others are as before. */
  ghost predicate SweptSome(before: map<(RecordId, Name), AckRow>, after: map<(RecordId, Name), AckRow>, name: Name,
                            done: seq<RecordId>, now: nat) {
    && (forall k :: k in after <==> k in before)
    && forall k :: k in before ==>
       after[k] == if k.1 == name && k.0 in done then Apply(before[k], Gone(now)) else before[k]
  }

  lemma SweepStep(before: map<(RecordId, Name), AckRow>, acks: map<(RecordId, Name), AckRow>,
                  after: map<(RecordId, Name), AckRow>, name: Name, held: seq<RecordId>, i: nat, now: nat)
    requires i < |held| && Rising(held) && (held[i], name) in before && SweptSome(before, acks, name, held[..i], now)
    requires after == acks[(held[i], name) := Apply(acks[(held[i], name)], Gone(now))]
    ensures SweptSome(before, after, name, held[..i + 1], now)
  {
    assert held[..i + 1] == held[..i] + [held[i]] && held[i] !in held[..i];
  }

  lemma AckSweepsOne(before: Db, db: Db, name: Name, held: seq<RecordId>, i: nat, now: nat)
    requires i < |held| && IsHeldList(before, name, held)
    requires db == before.(acks := db.acks) && SweptSome(before.acks, db.acks, name, held[..i], now)
    ensures var after := Step(db, Ack(held[i], name, Gone(now)));
            after == before.(acks := after.acks) && SweptSome(before.acks, after.acks, name, held[..i + 1], now)
  {
    var after := AckSet(db, held[i], name, Gone(now));
    assert held[i] in held && (held[i], name) in db.acks;
    SweepStep(before.acks, db.acks, after.acks, name, held, i, now);
  }

  lemma SweptAll(before: Db, after: map<(RecordId, Name), AckRow>, name: Name, held: seq<RecordId>, now: nat)
    requires IsHeldList(before, name, held) && SweptSome(before.acks, after, name, held, now)
    ensures before.(acks := after) == Swept(before, name, now)
  {
    assert after == Swept(before, name, now).acks;
  }

  /** After a sweep nothing is held for the recipient, and nothing else has changed. */
  lemma SweepLeavesNothingHeld(db: Db, recipient: Name, now: nat, k: (RecordId, Name))
    requires k in db.acks
    ensures var after := Swept(db, recipient, now).acks;
            k in after && (k.1 == recipient ==> after[k].state != Held) && (k.1 != recipient ==> after[k] == db.acks[k])
  {
    if k.1 == recipient && db.acks[k].state == Held {
      ResultMeetsVerdict(db.acks[k], [Gone(now)]);
    }
  }

  /** A registered principal stays one: no request removes it. */
  lemma {:induction false} PrincipalsStay(db: Db, ops: seq<Op>, name: Name)
    requires Inv(db) && name in db.principals
    ensures Inv(Run(db, ops)) && name in Run(db, ops).principals
    decreases |ops|
  {
    if ops != [] {
      var n := |ops| - 1;
      PrincipalsStay(db, ops[..n], name);
      StepKeepsInv(Run(db, ops[..n]), ops[n]);
      StepKeepsPrincipal(Run(db, ops[..n]), ops[n], name);
    }
  }

  lemma StepKeepsPrincipal(db: Db, op: Op, name: Name)
    requires UniqueNames(db) && name in db.principals
    ensures name in Step(db, op).principals
  {
    if op.Archive? && Lookup(db, op.channel).Some? {
      var d := Lookup(db, op.channel).value;
      AppendEventsFrame(WithoutMembers(WithFlag(db, d, true), d),
                        UnsubscribeEvents(Ordered(Subscribers(db, d)), op.channel), Some(d), op.now);
    }
  }

  /** A registration makes its name a principal for good, and adds one record that says
      so; whoever is one already gets nothing but the record. */
  lemma {:induction false} RegistrationLasts(db: Db, name: Name, admin: bool, now: nat, later: seq<Op>)
    requires Inv(db)
    ensures var after := Step(db, Op.Register(name, admin, now));
            && name in Run(after, later).principals
            && Replay.SystemLog(after) == Replay.SystemLog(db) + [Registered(name, admin)]
            && (name in db.principals ==> after == AppendSystem(db, Registered(name, admin), None, now))
  {
    var after := Step(db, Op.Register(name, admin, now));
    StepKeepsInv(db, Op.Register(name, admin, now));
    PrincipalsStay(after, later, name);
    Replay.AppendGrowsLog(db.(principals := db.principals + {name}), Registered(name, admin), None, now);
    assert name in db.principals ==> db.principals + {name} == db.principals;
  }
}
