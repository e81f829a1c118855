/** The shim's broker link: which principal it believes to be, which of its calls
    an answer belongs to, and what the broker's session for it says.

    Requests and responses travel in order. When the shim loses a connection, the
    answers under way are lost; the broker may still serve the requests it has
    received. On the next connection the shim says hello and asserts the binding it
    carries again. */
module ShimBinding {
  import opened Wrappers

  datatype Params = Params(name: string, coordinates: Option<string>)

  datatype What = Hello | Register(params: Params) | Deregister | Other(name: string)

  /** What a successful call does to the binding. */
  datatype Effect = Bind(params: Params) | Unbind

  datatype Pending = Pending(caller: Option<nat>, effect: Option<Effect>)

  /** State of the link; `pending` and `nextId` live as long as a connection. */
  datatype Shim = Shim(binding: Option<Params>, pending: map<nat, Pending>, nextId: nat)

  /** `caller` is not on the wire: it remembers on whose behalf a message travels. */
  datatype Request = Request(id: nat, what: What, caller: Option<nat>)

  datatype Response = Response(id: nat, ok: bool, caller: Option<nat>)

  datatype Outcome = Answered(ok: bool) | Unreachable

  // -- the shim --------------------------------------------------------------------

  function EffectOf(what: What): Option<Effect> {
    match what
    case Register(params) => Some(Bind(params))
    case Deregister => Some(Unbind)
    case _ => None
  }

  /** The shim writes one request. */
  function Asked(s: Shim, what: What, caller: Option<nat>): Shim {
    s.(pending := s.pending[s.nextId := Pending(caller, EffectOf(what))], nextId := s.nextId + 1)
  }

  /** A new connection: hello, then the binding carried along. */
  function Opened(s: Shim): Shim {
    var greeted := Asked(Shim(s.binding, map[], 1), Hello, None);
    if s.binding.Some? then Asked(greeted, Register(s.binding.value), None) else greeted
  }

  function Opening(s: Shim): seq<Request> {
    [Request(1, Hello, None)] + if s.binding.Some? then [Request(2, Register(s.binding.value), None)] else []
  }

  function Effected(binding: Option<Params>, effect: Option<Effect>, ok: bool): Option<Params> {
    if !ok then binding
    else
      match effect
      case Some(Bind(params)) => Some(params)
      case Some(Unbind) => None
      case None => binding
  }

  /** A response arrives; one that answers nothing pending is ignored. */
  function Received(s: Shim, r: Response): Shim {
    if r.id in s.pending
    then s.(binding := Effected(s.binding, s.pending[r.id].effect, r.ok), pending := s.pending - {r.id})
    else s
  }

  /** The caller a response resolves. */
  function Resolves(s: Shim, r: Response): Option<nat> {
    if r.id in s.pending then s.pending[r.id].caller else None
  }

  class Link {
    var binding: Option<Params>
    var pending: map<nat, Pending>
    var nextId: nat

    constructor ()
      ensures State() == Shim(None, map[], 1)
    {
      binding, pending, nextId := None, map[], 1;
    }

    ghost function State(): Shim
      reads this
    {
      Shim(binding, pending, nextId)
    }

    method Ask(what: What, caller: Option<nat>) returns (q: Request)
      modifies this
      ensures State() == Asked(old(State()), what, caller)
      ensures q == Request(old(nextId), what, caller)
    {
      var effect :=
        match what
        case Register(params) => Some(Bind(params))
        case Deregister => Some(Unbind)
        case _ => None;
      q := Request(nextId, what, caller);
      pending := pending[nextId := Pending(caller, effect)];
      nextId := nextId + 1;
    }

    method Connect() returns (written: seq<Request>)
      modifies this
      ensures State() == Opened(old(State())) && written == Opening(old(State()))
    {
      pending, nextId := map[], 1;
      var hello := Ask(Hello, None);
      written := [hello];
      if binding.Some? {
        var replay := Ask(Register(binding.value), None);
        written := written + [replay];
      }
    }

    method OnResponse(r: Response) returns (resolved: Option<nat>)
      modifies this
      ensures State() == Received(old(State()), r) && resolved == Resolves(old(State()), r)
    {
      resolved := None;
      if r.id in pending {
        var call := pending[r.id];
        pending := pending - {r.id};
        if r.ok {
          match call.effect {
            case Some(Bind(params)) => binding := Some(params);
            case Some(Unbind) => binding := None;
            case None =>
          }
        }
        resolved := call.caller;
      }
    }
  }

  // -- shim and broker together ---------------------------------------------------------

  /** One connection: what is under way, the name its broker session is bound to,
      the binding the shim came with, and whether the broker accepted a
      registration on it. */
  datatype Conn = Conn(requests: seq<Request>, responses: seq<Response>, bound: Option<string>, carried: Option<Params>,
                       granted: bool)

  /** A connection the shim has lost: the broker's session for it and the requests it
      has yet to come to. */
  datatype Old = Old(requests: seq<Request>, bound: Option<string>)

  /** `served` is what the broker answered to each call it got to, `resolved` what
      each caller was told. */
  datatype World = World(
    shim: Shim, conn: Option<Conn>, olds: seq<Old>, issued: set<nat>, served: map<nat, bool>,
    resolved: map<nat, Outcome>)

  datatype Step =
    | Connect | Call(what: What, caller: nat) | Serve(willing: bool) | Receive | Cut
    | ServeOld(i: nat, willing: bool) | EndOld(i: nat)

  const START: World := World(Shim(None, map[], 1), None, [], {}, map[], map[])

  /** The broker's answer: a bound session cannot register, an unbound one cannot
      deregister; everything else is up to the broker. */
  function Verdict(bound: Option<string>, what: What, willing: bool): bool {
    match what
    case Register(_) => bound.None? && willing
    case Deregister => bound.Some? && willing
    case _ => willing
  }

  /** The name the session is bound to after an answer. */
  function Rebound(bound: Option<string>, what: What, ok: bool): Option<string> {
    if ok && what.Register? then Some(what.params.name) else if ok && what.Deregister? then None else bound
  }

  function Served(c: Conn, willing: bool): Conn
    requires c.requests != []
  {
    var q := c.requests[0];
    var ok := Verdict(c.bound, q.what, willing);
    Conn(c.requests[1..], c.responses + [Response(q.id, ok, q.caller)], Rebound(c.bound, q.what, ok),
         c.carried, c.granted || (ok && q.what.Register?))
  }

  /** Calls answered once the request is. */
  function WithAnswer(served: map<nat, bool>, q: Request, ok: bool): map<nat, bool> {
    if q.caller.Some? then served[q.caller.value := ok] else served
  }

  predicate Can(w: World, e: Step) {
    match e
    case Connect => w.conn.None?
    case Call(what, caller) => caller !in w.issued && !what.Hello?
    case Serve(_) => w.conn.Some? && w.conn.value.requests != []
    case Receive => w.conn.Some? && w.conn.value.responses != []
    case Cut => w.conn.Some?
    case ServeOld(i, _) => i < |w.olds| && w.olds[i].requests != []
    case EndOld(i) => i < |w.olds|
  }

  function Waiting(s: Shim): set<nat> {
    set id | id in s.pending && s.pending[id].caller.Some? :: s.pending[id].caller.value
  }

  function Next(w: World, e: Step): World
    requires Can(w, e)
  {
    match e
    case Connect => w.(shim := Opened(w.shim), conn := Some(Conn(Opening(w.shim), [], None, w.shim.binding, false)))
    case Call(what, caller) =>
      var issued := w.(issued := w.issued + {caller});
      if w.conn.None? then issued.(resolved := w.resolved[caller := Unreachable])
      else
        var c := w.conn.value;
        issued.(shim := Asked(w.shim, what, Some(caller)),
                conn := Some(c.(requests := c.requests + [Request(w.shim.nextId, what, Some(caller))])))
    case Serve(willing) =>
      var c := w.conn.value;
      var q := c.requests[0];
      w.(conn := Some(Served(c, willing)), served := WithAnswer(w.served, q, Verdict(c.bound, q.what, willing)))
    case Receive =>
      var c := w.conn.value;
      var r := c.responses[0];
      var caller := Resolves(w.shim, r);
      w.(shim := Received(w.shim, r), conn := Some(c.(responses := c.responses[1..])),
         resolved := if caller.Some? then w.resolved[caller.value := Answered(r.ok)] else w.resolved)
    case Cut =>
      w.(shim := w.shim.(pending := map[]), conn := None,
         olds := w.olds + [Old(w.conn.value.requests, w.conn.value.bound)],
         resolved := w.resolved + (map c | c in Waiting(w.shim) :: Unreachable))
    case ServeOld(i, willing) =>
      var past := w.olds[i];
      var q := past.requests[0];
      var ok := Verdict(past.bound, q.what, willing);
      w.(olds := w.olds[i := Old(past.requests[1..], Rebound(past.bound, q.what, ok))],
         served := WithAnswer(w.served, q, ok))
    case EndOld(i) => w.(olds := w.olds[i := Old([], None)])
  }

  function Run(steps: seq<Step>): Option<World> {
    if steps == [] then Some(START)
    else
      var n := |steps| - 1;
      match Run(steps[..n])
      case None => None
      case Some(w) => if Can(w, steps[n]) then Some(Next(w, steps[n])) else None
  }

  // -- what is under way ------------------------------------------------------------------

  /** Answers under way have smaller ids than questions, each kind in order. */
  predicate Ordered(c: Conn) {
    && (forall i, j :: 0 <= i < j < |c.responses| ==> c.responses[i].id < c.responses[j].id)
    && (forall i, j :: 0 <= i < j < |c.requests| ==> c.requests[i].id < c.requests[j].id)
    && (forall i, j :: 0 <= i < |c.responses| && 0 <= j < |c.requests| ==> c.responses[i].id < c.requests[j].id)
  }

  /** A question under way is pending with its own caller and effect. */
  predicate Goes(s: Shim, q: Request) {
    q.id in s.pending && s.pending[q.id] == Pending(q.caller, EffectOf(q.what)) && q.id < s.nextId
  }

  /** An answer under way is pending for its own caller. */
  predicate Comes(s: Shim, r: Response) {
    r.id in s.pending && s.pending[r.id].caller == r.caller && r.id < s.nextId
  }

  predicate Matched(s: Shim, c: Conn) {
    && Ordered(c)
    && (forall q :: q in c.requests ==> Goes(s, q))
    && (forall r :: r in c.responses ==> Comes(s, r))
  }

  predicate AllPending(pending: map<nat, Pending>, responses: seq<Response>) {
    forall r :: r in responses ==> r.id in pending
  }

  /** The binding once the responses have been applied. */
  function Applied(binding: Option<Params>, pending: map<nat, Pending>, responses: seq<Response>): Option<Params>
    requires AllPending(pending, responses)
    decreases |responses|
  {
    if responses == [] then binding
    else Applied(Effected(binding, pending[responses[0].id].effect, responses[0].ok), pending, responses[1..])
  }

  function NameOf(binding: Option<Params>): Option<string> {
    match binding case Some(p) => Some(p.name) case None => None
  }

  /** Once a registration was accepted on this connection, shim and broker agree;
      before, the session is unbound and the shim keeps what it came with. */
  predicate Agrees(s: Shim, c: Conn)
    requires AllPending(s.pending, c.responses)
  {
    var binding := Applied(s.binding, s.pending, c.responses);
    if c.granted then NameOf(binding) == c.bound else c.bound.None? && binding == c.carried
  }

  predicate LinkOk(w: World) {
    match w.conn
    case None => w.shim.pending == map[]
    case Some(c) => Matched(w.shim, c) && AllPending(w.shim.pending, c.responses) && Agrees(w.shim, c)
  }

  lemma {:induction false} AppliedLast(binding: Option<Params>, pending: map<nat, Pending>, rs: seq<Response>,
                                       r: Response)
    requires AllPending(pending, rs) && r.id in pending
    ensures AllPending(pending, rs + [r])
    ensures Applied(binding, pending, rs + [r]) == Effected(Applied(binding, pending, rs), pending[r.id].effect, r.ok)
    decreases |rs|
  {
    if rs != [] {
      assert (rs + [r])[1..] == rs[1..] + [r];
      AppliedLast(Effected(binding, pending[rs[0].id].effect, rs[0].ok), pending, rs[1..], r);
    } else {
      assert rs + [r] == [r];
    }
  }

  /** Entries for other ids do not matter. */
  lemma {:induction false} AppliedFrame(binding: Option<Params>, pending: map<nat, Pending>, other: map<nat, Pending>,
                                        rs: seq<Response>)
    requires AllPending(pending, rs) && AllPending(other, rs) && forall r :: r in rs ==> pending[r.id] == other[r.id]
    ensures Applied(binding, pending, rs) == Applied(binding, other, rs)
    decreases |rs|
  {
    if rs != [] {
      AppliedFrame(Effected(binding, pending[rs[0].id].effect, rs[0].ok), pending, other, rs[1..]);
    }
  }

  lemma ServeMatches(s: Shim, c: Conn, willing: bool)
    requires Matched(s, c) && c.requests != []
    ensures Matched(s, Served(c, willing))
  {
    var after := Served(c, willing);
    assert Goes(s, c.requests[0]);
    forall r | r in after.responses
      ensures Comes(s, r)
    {
      assert r in c.responses || r == after.responses[|c.responses|];
    }
  }

  lemma ServeKeepsLink(w: World, willing: bool)
    requires LinkOk(w) && Can(w, Serve(willing))
    ensures LinkOk(Next(w, Serve(willing)))
  {
    var c, s := w.conn.value, w.shim;
    var q := c.requests[0];
    ServeMatches(s, c, willing);
    assert Goes(s, q);
    AppliedLast(s.binding, s.pending, c.responses, Response(q.id, Verdict(c.bound, q.what, willing), q.caller));
  }

  lemma ReceiveMatches(s: Shim, c: Conn)
    requires Matched(s, c) && c.responses != []
    ensures Matched(Received(s, c.responses[0]), c.(responses := c.responses[1..]))
  {
    var t := Received(s, c.responses[0]);
    forall q | q in c.requests
      ensures Goes(t, q)
    {
      assert Goes(s, q);
    }
    forall r | r in c.responses[1..]
      ensures Comes(t, r)
    {
      assert Comes(s, r);
    }
  }

  lemma ReceiveKeepsLink(w: World)
    requires LinkOk(w) && Can(w, Receive)
    ensures LinkOk(Next(w, Receive))
  {
    var c, s := w.conn.value, w.shim;
    var r, rest := c.responses[0], c.responses[1..];
    ReceiveMatches(s, c);
    var t := Received(s, r);
    assert forall x :: x in rest ==> Comes(t, x);
    assert AllPending(t.pending, rest) && AllPending(s.pending, rest);
    AppliedFrame(t.binding, s.pending, t.pending, rest);
    assert Comes(s, r);
  }

  lemma CallMatches(s: Shim, c: Conn, what: What, caller: Option<nat>)
    requires Matched(s, c)
    ensures Matched(Asked(s, what, caller), c.(requests := c.requests + [Request(s.nextId, what, caller)]))
  {
    var t, q := Asked(s, what, caller), Request(s.nextId, what, caller);
    forall x | x in c.requests + [q]
      ensures Goes(t, x)
    {
      assert x == q || Goes(s, x);
    }
    forall r | r in c.responses
      ensures Comes(t, r)
    {
      assert Comes(s, r);
    }
    assert forall i :: 0 <= i < |c.requests| ==> Goes(s, c.requests[i]);
    assert forall i :: 0 <= i < |c.responses| ==> Comes(s, c.responses[i]);
  }

  lemma CallKeepsLink(w: World, what: What, caller: nat)
    requires LinkOk(w) && Can(w, Call(what, caller))
    ensures LinkOk(Next(w, Call(what, caller)))
  {
    if w.conn.Some? {
      var c, s := w.conn.value, w.shim;
      CallMatches(s, c, what, Some(caller));
      var t := Asked(s, what, Some(caller));
      assert forall r :: r in c.responses ==> Comes(s, r) && Comes(t, r);
      AppliedFrame(s.binding, s.pending, t.pending, c.responses);
    }
  }

  lemma ConnectKeepsLink(w: World)
    requires w.conn.None?
    ensures LinkOk(Next(w, Connect))
  {
  }

  lemma StepKeepsLink(w: World, e: Step)
    requires LinkOk(w) && Can(w, e)
    ensures LinkOk(Next(w, e))
  {
    match e
    case Connect => ConnectKeepsLink(w);
    case Call(what, caller) => CallKeepsLink(w, what, caller);
    case Serve(willing) => ServeKeepsLink(w, willing);
    case Receive => ReceiveKeepsLink(w);
    case Cut =>
    case ServeOld(_, _) =>
    case EndOld(_) =>
  }

  // -- every call is answered once -----------------------------------------------------------

  /** A caller waits for one request at most. */
  predicate OneEach(s: Shim) {
    forall i, j :: (i in s.pending && j in s.pending && s.pending[i].caller.Some?
                    && s.pending[i].caller == s.pending[j].caller) ==> i == j
  }

  /** Every issued call waits or is resolved, never both. */
  predicate Accounted(w: World) {
    && Waiting(w.shim) <= w.issued && (forall c :: c in w.resolved ==> c in w.issued)
    && (forall c :: c in w.issued ==> (c in w.resolved <==> c !in Waiting(w.shim)))
    && (forall c :: c in w.served ==> c in w.issued)
  }

  /** What a caller was told is what the broker answered to that call. */
  predicate Truthful(w: World) {
    forall c :: c in w.resolved && w.resolved[c].Answered? ==> c in w.served && w.served[c] == w.resolved[c].ok
  }

  predicate Unserved(w: World, q: Request) {
    q.caller.Some? ==> q.caller.value !in w.served
  }

  predicate Faithful(w: World, r: Response) {
    r.caller.Some? ==> r.caller.value in w.served && w.served[r.caller.value] == r.ok
  }

  predicate InFlight(w: World, c: Conn) {
    && (forall q :: q in c.requests ==> Unserved(w, q))
    && (forall r :: r in c.responses ==> Faithful(w, r))
  }

  /** The message that a pending entry waits for is under way. */
  predicate Travels(c: Conn, id: nat) {
    (exists q :: q in c.requests && q.id == id) || (exists r :: r in c.responses && r.id == id)
  }

  predicate AllTravel(s: Shim, c: Conn) {
    forall id :: id in s.pending ==> Travels(c, id)
  }

  /** The caller of a request left behind was told unreachable and is not answered. */
  predicate LeftBehind(w: World, q: Request) {
    q.caller.Some? ==> q.caller.value in w.resolved && w.resolved[q.caller.value] == Unreachable && Unserved(w, q)
  }

  predicate OldsLeft(w: World) {
    forall i, a :: 0 <= i < |w.olds| && 0 <= a < |w.olds[i].requests| ==> LeftBehind(w, w.olds[i].requests[a])
  }

  /** No two requests left behind are the same call. */
  predicate OldsApart(olds: seq<Old>) {
    forall i, a, j, b ::
      (0 <= i < |olds| && 0 <= a < |olds[i].requests| && 0 <= j < |olds| && 0 <= b < |olds[j].requests|
       && olds[i].requests[a].caller.Some? && olds[i].requests[a].caller == olds[j].requests[b].caller)
      ==> i == j && a == b
  }

  predicate OldsOk(w: World) {
    OldsLeft(w) && OldsApart(w.olds)
  }

  predicate LedgerOk(w: World) {
    && OneEach(w.shim) && Accounted(w) && Truthful(w)
    && (w.conn.Some? ==> InFlight(w, w.conn.value) && AllTravel(w.shim, w.conn.value))
  }

  lemma ServeTravels(s: Shim, c: Conn, willing: bool)
    requires AllTravel(s, c) && c.requests != []
    ensures AllTravel(s, Served(c, willing))
  {
    var after := Served(c, willing);
    var q, answer := c.requests[0], after.responses[|c.responses|];
    forall id | id in s.pending
      ensures Travels(after, id)
    {
      assert Travels(c, id);
      if id == q.id {
        assert answer in after.responses;
      } else if x :| x in c.requests && x.id == id {
        assert x in c.requests[1..];
      } else {
        var r :| r in c.responses && r.id == id;
        assert r in after.responses;
      }
    }
  }

  lemma ServeKeepsFlight(w: World, willing: bool)
    requires LinkOk(w) && OneEach(w.shim) && Can(w, Serve(willing)) && InFlight(w, w.conn.value)
    ensures InFlight(Next(w, Serve(willing)), Next(w, Serve(willing)).conn.value)
  {
    var c, s, after := w.conn.value, w.shim, Next(w, Serve(willing));
    var q, answer := c.requests[0], after.conn.value.responses[|c.responses|];
    assert Goes(s, q) && Unserved(w, q);
    forall x | x in c.requests[1..]
      ensures Unserved(after, x)
    {
      assert Goes(s, x) && Unserved(w, x) && x.id != q.id;
    }
    forall r | r in after.conn.value.responses
      ensures Faithful(after, r)
    {
      assert r == answer || Faithful(w, r);
    }
  }

  lemma ServeKeepsLedger(w: World, willing: bool)
    requires LinkOk(w) && LedgerOk(w) && Can(w, Serve(willing))
    ensures LedgerOk(Next(w, Serve(willing)))
  {
    var q := w.conn.value.requests[0];
    ServeTravels(w.shim, w.conn.value, willing);
    ServeKeepsFlight(w, willing);
    assert Goes(w.shim, q) && Unserved(w, q);
    assert q.caller.Some? ==> q.caller.value in Waiting(w.shim);
  }

  /** What was left behind stays so while resolutions and answers concern others. */
  lemma OldsStay(w: World, after: World)
    requires OldsLeft(w) && after.olds == w.olds
    requires forall c :: c in w.resolved ==>
             c in after.resolved && after.resolved[c] == w.resolved[c] && (c in after.served ==> c in w.served)
    ensures OldsLeft(after)
  {
    forall i, a | 0 <= i < |after.olds| && 0 <= a < |after.olds[i].requests|
      ensures LeftBehind(after, after.olds[i].requests[a])
    {
      assert LeftBehind(w, w.olds[i].requests[a]);
    }
  }

  lemma ReceiveKeepsLedger(w: World)
    requires LinkOk(w) && LedgerOk(w) && Can(w, Receive)
    ensures LedgerOk(Next(w, Receive))
  {
    var c, s, after := w.conn.value, w.shim, Next(w, Receive);
    var r := c.responses[0];
    assert Comes(s, r) && Faithful(w, r);
    forall x | x in c.requests
      ensures Unserved(after, x)
    {
      assert Unserved(w, x);
    }
    forall x | x in c.responses[1..]
      ensures Faithful(after, x)
    {
      assert Faithful(w, x);
    }
    forall id | id in after.shim.pending
      ensures Travels(after.conn.value, id)
    {
      assert Travels(c, id);
      if x :| x in c.responses && x.id == id {
        assert x in c.responses[1..];
      }
    }
    WaitingShrinks(s, r.id);
  }

  lemma WaitingShrinks(s: Shim, id: nat)
    requires OneEach(s) && id in s.pending
    ensures Waiting(s.(pending := s.pending - {id}))
            == Waiting(s) - (if s.pending[id].caller.Some? then {s.pending[id].caller.value} else {})
  {
    var rest := s.(pending := s.pending - {id});
    forall c | c in Waiting(s)
      ensures c in Waiting(rest) <==> Some(c) != s.pending[id].caller
    {
      var i :| i in s.pending && s.pending[i].caller == Some(c);
      if i != id {
        assert i in rest.pending && rest.pending[i].caller == Some(c);
      }
    }
  }

  lemma PendingIsOlder(s: Shim, c: Conn, id: nat)
    requires Matched(s, c) && AllTravel(s, c) && id in s.pending
    ensures id < s.nextId
  {
    assert Travels(c, id);
    if q :| q in c.requests && q.id == id {
      assert Goes(s, q);
    } else {
      var r :| r in c.responses && r.id == id;
      assert Comes(s, r);
    }
  }

  lemma WaitingGrows(s: Shim, what: What, caller: nat)
    requires s.nextId !in s.pending && OneEach(s) && caller !in Waiting(s)
    ensures Waiting(Asked(s, what, Some(caller))) == Waiting(s) + {caller} && OneEach(Asked(s, what, Some(caller)))
  {
    var t := Asked(s, what, Some(caller));
    assert t.pending[s.nextId].caller == Some(caller);
    forall x | x in Waiting(s)
      ensures x in Waiting(t)
    {
      var i :| i in s.pending && s.pending[i].caller == Some(x);
      assert i in t.pending && t.pending[i].caller == Some(x);
    }
    assert forall i :: i in s.pending && s.pending[i].caller.Some? ==> s.pending[i].caller.value in Waiting(s);
  }

  lemma AskingTravels(s: Shim, c: Conn, what: What, caller: Option<nat>)
    requires AllTravel(s, c)
    ensures AllTravel(Asked(s, what, caller), c.(requests := c.requests + [Request(s.nextId, what, caller)]))
  {
    var t, after := Asked(s, what, caller), c.(requests := c.requests + [Request(s.nextId, what, caller)]);
    forall id | id in t.pending
      ensures Travels(after, id)
    {
      if id == s.nextId {
        assert after.requests[|c.requests|].id == id;
      } else {
        assert Travels(c, id);
        assert forall q :: q in c.requests ==> q in after.requests;
      }
    }
  }

  lemma CallKeepsLedger(w: World, what: What, caller: nat)
    requires LinkOk(w) && LedgerOk(w) && Can(w, Call(what, caller))
    ensures LedgerOk(Next(w, Call(what, caller)))
  {
    if w.conn.Some? {
      var c, s, after := w.conn.value, w.shim, Next(w, Call(what, caller));
      forall id | id in s.pending
        ensures id != s.nextId
      {
        PendingIsOlder(s, c, id);
      }
      WaitingGrows(s, what, caller);
      AskingTravels(s, c, what, Some(caller));
      forall x | x in after.conn.value.requests
        ensures Unserved(after, x)
      {
        assert x in c.requests ==> Unserved(w, x);
      }
      forall r | r in c.responses
        ensures Faithful(after, r)
      {
        assert Faithful(w, r);
      }
    }
  }

  lemma ConnectKeepsLedger(w: World)
    requires LinkOk(w) && LedgerOk(w) && w.conn.None?
    ensures LedgerOk(Next(w, Connect))
  {
    var after := Next(w, Connect);
    assert Waiting(w.shim) == {} == Waiting(after.shim);
    assert forall q :: q in Opening(w.shim) ==> q.caller == None;
    assert Opening(w.shim)[0].id == 1;
    assert w.shim.binding.Some? ==> Opening(w.shim)[1].id == 2;
  }

  lemma CutKeepsLedger(w: World)
    requires LedgerOk(w) && w.conn.Some?
    ensures LedgerOk(Next(w, Cut))
  {
    assert Waiting(Next(w, Cut).shim) == {};
  }

  /** Serving a request left behind concerns neither a waiting call nor an answer. */
  lemma ServeOldKeepsLedger(w: World, i: nat, willing: bool)
    requires LinkOk(w) && LedgerOk(w) && OldsOk(w) && Can(w, ServeOld(i, willing))
    ensures LedgerOk(Next(w, ServeOld(i, willing)))
  {
    var after := Next(w, ServeOld(i, willing));
    assert LeftBehind(w, w.olds[i].requests[0]);
    if w.conn.Some? {
      var c := w.conn.value;
      forall q | q in c.requests
        ensures Unserved(after, q)
      {
        assert Goes(w.shim, q) && Unserved(w, q);
        assert q.caller.Some? ==> q.caller.value in Waiting(w.shim);
      }
      forall r | r in c.responses
        ensures Faithful(after, r)
      {
        assert Comes(w.shim, r) && Faithful(w, r);
        assert r.caller.Some? ==> r.caller.value in Waiting(w.shim);
      }
    }
  }

  lemma EndOldKeepsLedger(w: World, i: nat)
    requires LedgerOk(w) && Can(w, EndOld(i))
    ensures LedgerOk(Next(w, EndOld(i)))
  {
    var after := Next(w, EndOld(i));
    if w.conn.Some? {
      assert forall q :: q in w.conn.value.requests ==> Unserved(w, q);
      assert forall r :: r in w.conn.value.responses ==> Faithful(w, r);
    }
  }

  lemma StepKeepsLedger(w: World, e: Step)
    requires LinkOk(w) && LedgerOk(w) && OldsOk(w) && Can(w, e)
    ensures LedgerOk(Next(w, e))
  {
    match e
    case Connect => ConnectKeepsLedger(w);
    case Call(what, caller) => CallKeepsLedger(w, what, caller);
    case Serve(willing) => ServeKeepsLedger(w, willing);
    case Receive => ReceiveKeepsLedger(w);
    case Cut => CutKeepsLedger(w);
    case ServeOld(i, willing) => ServeOldKeepsLedger(w, i, willing);
    case EndOld(i) => EndOldKeepsLedger(w, i);
  }

  lemma CutKeepsOlds(w: World)
    requires LinkOk(w) && LedgerOk(w) && OldsOk(w) && w.conn.Some?
    ensures OldsOk(Next(w, Cut))
  {
    var c, after, n := w.conn.value, Next(w, Cut), |w.olds|;
    forall q | q in c.requests
      ensures LeftBehind(after, q)
      ensures q.caller.Some? ==> q.caller.value in Waiting(w.shim)
    {
      assert Goes(w.shim, q) && Unserved(w, q);
    }
    forall i, a | 0 <= i < |after.olds| && 0 <= a < |after.olds[i].requests|
      ensures LeftBehind(after, after.olds[i].requests[a])
    {
      if i < n {
        assert LeftBehind(w, w.olds[i].requests[a]);
      } else {
        assert after.olds[i].requests[a] in c.requests;
      }
    }
    CutKeepsApart(w);
  }

  lemma CallersDiffer(s: Shim, c: Conn)
    requires Matched(s, c) && OneEach(s)
    ensures forall a, b | 0 <= a < |c.requests| && 0 <= b < |c.requests| && c.requests[a].caller.Some? ::
              c.requests[a].caller == c.requests[b].caller ==> a == b
  {
    forall a, b | 0 <= a < b < |c.requests| && c.requests[a].caller.Some?
      ensures c.requests[a].caller != c.requests[b].caller
    {
      assert Goes(s, c.requests[a]) && Goes(s, c.requests[b]);
    }
  }

  lemma CutKeepsApart(w: World)
    requires LinkOk(w) && LedgerOk(w) && OldsOk(w) && w.conn.Some?
    ensures OldsApart(Next(w, Cut).olds)
  {
    var c, olds, n := w.conn.value, Next(w, Cut).olds, |w.olds|;
    forall q | q in c.requests && q.caller.Some?
      ensures q.caller.value in Waiting(w.shim)
    {
      assert Goes(w.shim, q);
    }
    CallersDiffer(w.shim, c);
    forall i, a, b | 0 <= i < n && 0 <= a < |w.olds[i].requests| && 0 <= b < |c.requests| && c.requests[b].caller.Some?
      ensures w.olds[i].requests[a].caller != c.requests[b].caller
    {
      assert LeftBehind(w, w.olds[i].requests[a]) && c.requests[b] in c.requests;
    }
  }

  lemma ServeOldKeepsOlds(w: World, i: nat, willing: bool)
    requires OldsOk(w) && Can(w, ServeOld(i, willing))
    ensures OldsOk(Next(w, ServeOld(i, willing)))
  {
    var after := Next(w, ServeOld(i, willing));
    forall j, b | 0 <= j < |after.olds| && 0 <= b < |after.olds[j].requests|
      ensures LeftBehind(after, after.olds[j].requests[b])
    {
      var at := if j == i then b + 1 else b;
      assert after.olds[j].requests[b] == w.olds[j].requests[at];
      assert LeftBehind(w, w.olds[j].requests[at]) && w.olds[i].requests[0].caller == w.olds[i].requests[0].caller;
    }
    forall j, a, k, b | 0 <= j < |after.olds| && 0 <= a < |after.olds[j].requests| && 0 <= k < |after.olds|
      && 0 <= b < |after.olds[k].requests|
      && after.olds[j].requests[a].caller.Some?
      && after.olds[j].requests[a].caller == after.olds[k].requests[b].caller
      ensures j == k && a == b
    {
      assert after.olds[j].requests[a] == w.olds[j].requests[if j == i then a + 1 else a];
      assert after.olds[k].requests[b] == w.olds[k].requests[if k == i then b + 1 else b];
    }
  }

  lemma EndOldKeepsOlds(w: World, i: nat)
    requires OldsOk(w) && Can(w, EndOld(i))
    ensures OldsOk(Next(w, EndOld(i)))
  {
    var after := Next(w, EndOld(i));
    forall j, b | 0 <= j < |after.olds| && 0 <= b < |after.olds[j].requests|
      ensures LeftBehind(after, after.olds[j].requests[b])
    {
      assert LeftBehind(w, w.olds[j].requests[b]);
    }
  }

  lemma StepKeepsOlds(w: World, e: Step)
    requires LinkOk(w) && LedgerOk(w) && OldsOk(w) && Can(w, e)
    ensures OldsOk(Next(w, e))
  {
    match e
    case Cut => CutKeepsOlds(w);
    case ServeOld(i, willing) => ServeOldKeepsOlds(w, i, willing);
    case EndOld(i) => EndOldKeepsOlds(w, i);
    case Receive =>
      assert Comes(w.shim, w.conn.value.responses[0]);
      OldsStay(w, Next(w, e));
    case Serve(_) =>
      assert Goes(w.shim, w.conn.value.requests[0]);
      assert w.conn.value.requests[0].caller.Some? ==> w.conn.value.requests[0].caller.value in Waiting(w.shim);
      OldsStay(w, Next(w, e));
    case _ => OldsStay(w, Next(w, e));
  }

  // -- theorems over whole runs ------------------------------------------------------------------

  lemma {:induction false} RunIsSound(steps: seq<Step>)
    requires Run(steps).Some?
    ensures LinkOk(Run(steps).value) && LedgerOk(Run(steps).value) && OldsOk(Run(steps).value)
  {
    if steps != [] {
      var n := |steps| - 1;
      RunIsSound(steps[..n]);
      StepKeepsLink(Run(steps[..n]).value, steps[n]);
      StepKeepsLedger(Run(steps[..n]).value, steps[n]);
      StepKeepsOlds(Run(steps[..n]).value, steps[n]);
    }
  }

  /** Whenever the broker's session is bound, the shim's binding carries that name
      once the answers under way have arrived. */
  lemma {:induction false} BoundMeansKnown(steps: seq<Step>)
    requires Run(steps).Some? && Run(steps).value.conn.Some?
    ensures var w := Run(steps).value; var c := w.conn.value;
            AllPending(w.shim.pending, c.responses) &&
            (c.bound.Some? ==> NameOf(Applied(w.shim.binding, w.shim.pending, c.responses)) == c.bound)
  {
    RunIsSound(steps);
  }

  /** Full agreement holds exactly when the broker accepted a registration on this
      connection or the shim brought none: not while a replay waits or was refused. */
  lemma {:induction false} AgreementIff(steps: seq<Step>)
    requires Run(steps).Some? && Run(steps).value.conn.Some?
    ensures var w := Run(steps).value; var c := w.conn.value;
            AllPending(w.shim.pending, c.responses) &&
            (NameOf(Applied(w.shim.binding, w.shim.pending, c.responses)) == c.bound <==> c.granted || c.carried.None?)
  {
    RunIsSound(steps);
  }

  /** Every call is waiting or was resolved, and an answer is the broker's answer to
      that very call. */
  lemma {:induction false} EachCallOnce(steps: seq<Step>, caller: nat)
    requires Run(steps).Some? && caller in Run(steps).value.issued
    ensures var w := Run(steps).value;
            && (caller in w.resolved <==> caller !in Waiting(w.shim))
            && (caller in w.resolved && w.resolved[caller].Answered? ==>
                caller in w.served && w.served[caller] == w.resolved[caller].ok)
  {
    RunIsSound(steps);
  }

  /** What a caller was told is never told again, nor differently. */
  lemma ResolvedOnce(w: World, e: Step, caller: nat)
    requires LinkOk(w) && LedgerOk(w) && Can(w, e) && caller in w.resolved
    ensures caller in Next(w, e).resolved && Next(w, e).resolved[caller] == w.resolved[caller]
    ensures e.Receive? ==> Resolves(w.shim, w.conn.value.responses[0]) != Some(caller)
  {
    if e.Receive? {
      assert Comes(w.shim, w.conn.value.responses[0]);
    }
  }

  predicate AnswerUnderWay(c: Conn, caller: nat) {
    exists r :: r in c.responses && r.caller == Some(caller)
  }

  predicate RequestUnderWay(requests: seq<Request>, caller: nat) {
    exists a :: 0 <= a < |requests| && requests[a].caller == Some(caller)
  }

  /** A request of the call was left behind on some lost connection. */
  predicate Behind(w: World, caller: nat) {
    exists i :: 0 <= i < |w.olds| && RequestUnderWay(w.olds[i].requests, caller)
  }

  /** A waiting call has its request or its answer under way, and was answered by the
      broker exactly when it is the answer. */
  lemma UnderWayIff(w: World, c: Conn, caller: nat)
    requires Matched(w.shim, c) && InFlight(w, c) && AllTravel(w.shim, c) && caller in Waiting(w.shim)
    ensures caller in w.served <==> AnswerUnderWay(c, caller)
    ensures caller !in w.served <==> RequestUnderWay(c.requests, caller)
  {
    var id :| id in w.shim.pending && w.shim.pending[id].caller == Some(caller);
    CallTravels(w.shim, c, id, caller);
    if AnswerUnderWay(c, caller) {
      var r :| r in c.responses && r.caller == Some(caller);
      assert Faithful(w, r);
    }
    if RequestUnderWay(c.requests, caller) {
      var a :| 0 <= a < |c.requests| && c.requests[a].caller == Some(caller);
      assert c.requests[a] in c.requests && Unserved(w, c.requests[a]);
    }
  }

  lemma CallTravels(s: Shim, c: Conn, id: nat, caller: nat)
    requires Matched(s, c) && AllTravel(s, c) && id in s.pending && s.pending[id].caller == Some(caller)
    ensures AnswerUnderWay(c, caller) || RequestUnderWay(c.requests, caller)
  {
    assert Travels(c, id);
    if q :| q in c.requests && q.id == id {
      assert Goes(s, q);
      var a :| 0 <= a < |c.requests| && c.requests[a] == q;
    } else {
      var r :| r in c.responses && r.id == id;
      assert Comes(s, r);
    }
  }

  /** At a connection loss every waiting call is told that the broker is unreachable.
      It was served exactly when its answer was under way, and otherwise its request
      was, and is left behind for the broker to come to. */
  lemma {:induction false} LostCallIff(steps: seq<Step>, caller: nat)
    requires Run(steps).Some? && Run(steps).value.conn.Some? && caller in Waiting(Run(steps).value.shim)
    ensures var w := Run(steps).value; var c := w.conn.value; var after := Next(w, Cut);
            && after.resolved[caller] == Unreachable
            && (caller in after.served <==> AnswerUnderWay(c, caller))
            && (caller !in after.served <==> RequestUnderWay(c.requests, caller))
            && (caller !in after.served ==> Behind(after, caller))
  {
    RunIsSound(steps);
    var w := Run(steps).value;
    UnderWayIff(w, w.conn.value, caller);
    assert Next(w, Cut).olds[|w.olds|].requests == w.conn.value.requests;
  }

  lemma {:induction false} RunJoins(a: seq<Step>, e: Step)
    requires Run(a).Some? && Can(Run(a).value, e)
    ensures Run(a + [e]) == Some(Next(Run(a).value, e))
  {
    assert (a + [e])[..|a|] == a;
  }

  /** A request left behind can still be served, after those before it. */
  lemma {:induction false} BehindCanBeServed(steps: seq<Step>, caller: nat, i: nat) returns (longer: seq<Step>)
    requires Run(steps).Some? && i < |Run(steps).value.olds|
             && RequestUnderWay(Run(steps).value.olds[i].requests, caller)
    ensures steps <= longer && Run(longer).Some? && caller in Run(longer).value.served
    decreases |Run(steps).value.olds[i].requests|
  {
    var w := Run(steps).value;
    var a :| 0 <= a < |w.olds[i].requests| && w.olds[i].requests[a].caller == Some(caller);
    RunJoins(steps, ServeOld(i, true));
    longer := steps + [ServeOld(i, true)];
    if a > 0 {
      assert Run(longer).value.olds[i].requests[a - 1].caller == Some(caller);
      longer := BehindCanBeServed(longer, caller, i);
    }
  }

  lemma SettledStaysUnserved(w: World, e: Step, caller: nat)
    requires LinkOk(w) && LedgerOk(w) && Can(w, e) && caller in w.resolved && caller !in w.served && !Behind(w, caller)
    ensures var after := Next(w, e);
            caller in after.resolved && caller !in after.served && !Behind(after, caller)
  {
    var after := Next(w, e);
    if w.conn.Some? {
      forall q | q in w.conn.value.requests
        ensures q.caller != Some(caller)
      {
        assert Goes(w.shim, q);
        assert q.caller.Some? ==> q.caller.value in Waiting(w.shim);
      }
    }
    forall i | 0 <= i < |after.olds|
      ensures !RequestUnderWay(after.olds[i].requests, caller)
    {
      if i < |w.olds| {
        assert !RequestUnderWay(w.olds[i].requests, caller);
      }
      forall a | 0 <= a < |after.olds[i].requests|
        ensures after.olds[i].requests[a].caller != Some(caller)
      {
        assert i < |w.olds| && after.olds[i].requests != w.olds[i].requests ==>
          after.olds[i].requests[a] == w.olds[i].requests[a + 1];
        assert i == |w.olds| ==> after.olds[i].requests[a] in w.conn.value.requests;
      }
    }
  }

  lemma {:induction false} NeverServed(steps: seq<Step>, longer: seq<Step>, caller: nat)
    requires steps <= longer && Run(steps).Some? && Run(longer).Some?
    requires var w := Run(steps).value; caller in w.resolved && caller !in w.served && !Behind(w, caller)
    ensures var w := Run(longer).value; caller in w.resolved && caller !in w.served && !Behind(w, caller)
    decreases |longer|
  {
    if longer == steps {
    } else {
      var n := |longer| - 1;
      assert steps <= longer[..n];
      NeverServed(steps, longer[..n], caller);
      RunIsSound(longer[..n]);
      SettledStaysUnserved(Run(longer[..n]).value, longer[n], caller);
    }
  }

  /** A call that was told unreachable and has not been served can be served in some
      continuation exactly when a lost connection left its request behind; a call that
      was turned away while there was no connection never is. */
  lemma {:induction false} UnreachableServedIff(steps: seq<Step>, caller: nat)
    requires Run(steps).Some? && caller in Run(steps).value.resolved && caller !in Run(steps).value.served
    ensures Behind(Run(steps).value, caller) <==>
            exists longer :: steps <= longer && Run(longer).Some? && caller in Run(longer).value.served
  {
    var w := Run(steps).value;
    if Behind(w, caller) {
      var i :| 0 <= i < |w.olds| && RequestUnderWay(w.olds[i].requests, caller);
      var longer := BehindCanBeServed(steps, caller, i);
    } else {
      forall longer | steps <= longer && Run(longer).Some?
        ensures caller !in Run(longer).value.served
      {
        NeverServed(steps, longer, caller);
      }
    }
  }

  // -- two runs that end in disagreement -----------------------------------------------------------

  const ME: Params := Params("@me", None)

  lemma Add(steps: seq<Step>, w: World, e: Step) returns (longer: seq<Step>, after: World)
    requires Run(steps) == Some(w) && Can(w, e)
    ensures Run(longer) == Some(after) && after == Next(w, e)
  {
    longer, after := steps + [e], Next(w, e);
    assert longer[..|steps|] == steps;
  }

  /** A connection on which hello is done and caller 7 asked to register. */
  lemma AsksToRegister() returns (steps: seq<Step>, w: World)
    ensures Run(steps) == Some(w)
    ensures w.shim == Shim(None, map[2 := Pending(Some(7), Some(Bind(ME)))], 3) && w.issued == {7}
    ensures w.conn == Some(Conn([Request(2, Register(ME), Some(7))], [], None, None, false))
  {
    steps, w := Add([], START, Connect);
    assert w.conn.value.requests == [Request(1, Hello, None)];
    steps, w := Add(steps, w, Serve(true));
    assert w.conn.value.requests == [] && w.conn.value.responses == [Response(1, true, None)];
    steps, w := Add(steps, w, Receive);
    assert w.shim.pending == map[] && w.conn.value.responses == [];
    steps, w := Add(steps, w, Call(Register(ME), 7));
    assert w.conn.value.requests == [Request(2, Register(ME), Some(7))];
  }

  /** The registration succeeds, but its caller is told that the broker could not be
      reached and nothing was sent. */
  lemma ServedYetUnreachable()
    ensures exists steps, w ::
              Run(steps) == Some(w) && 7 in w.served && w.served[7] && 7 in w.resolved && w.resolved[7] == Unreachable
  {
    var steps, w := AsksToRegister();
    steps, w := Add(steps, w, Serve(true));
    assert 2 in w.shim.pending && w.shim.pending[2].caller == Some(7);
    assert 7 in Waiting(w.shim);
    steps, w := Add(steps, w, Cut);
  }

  /** The broker refuses the replay because the name is taken; the shim keeps its
      binding, and shim and broker disagree with nothing under way. */
  lemma RefusedReplayDisagrees()
    ensures exists steps, w :: Run(steps) == Some(w) && w.shim.binding == Some(ME) && w.conn.Some?
              && w.conn.value.bound == None && w.conn.value.requests == [] && w.conn.value.responses == []
  {
    var steps, w := AsksToRegister();
    steps, w := Add(steps, w, Serve(true));
    steps, w := Add(steps, w, Receive);
    steps, w := Add(steps, w, Cut);
    assert w.shim.binding == Some(ME);
    steps, w := Add(steps, w, Connect);
    steps, w := Refuses(steps, w);
  }

  lemma Refuses(steps: seq<Step>, w: World) returns (longer: seq<Step>, after: World)
    requires Run(steps) == Some(w) && w.shim == Opened(Shim(Some(ME), map[], 1))
    requires w.conn == Some(Conn(Opening(Shim(Some(ME), map[], 1)), [], None, Some(ME), false))
    ensures Run(longer) == Some(after) && after.shim.binding == Some(ME) && after.conn.Some?
    ensures after.conn.value.bound == None && after.conn.value.requests == [] && after.conn.value.responses == []
  {
    longer, after := Add(steps, w, Serve(true));
    longer, after := Add(longer, after, Receive);
    longer, after := Add(longer, after, Serve(false));
    longer, after := Add(longer, after, Receive);
  }
}
