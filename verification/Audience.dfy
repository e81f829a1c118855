/** Whom a send reaches: the intersection addressing of `message/send`. */
module Audience {
  import opened Wrappers
  import opened Names
  import opened Store

  datatype EmptyAudience = NoSubscribers | EmptyIntersection

  /** The addressed principals, sender included: subscribers of some listed
      channel, listed principals, or the intersection when both are given. */
  function Addressed(db: Db, channelIds: seq<ChannelId>, principals: seq<Name>): (r: set<Name>)
    ensures forall p :: p in r <==>
              && (channelIds != [] ==> exists c :: c in channelIds && (p, c) in db.subs)
              && (channelIds == [] || principals != [] ==> p in principals)
  {
    if channelIds == [] then Elements(principals)
    else
      var members := set s | s in db.subs && s.1 in channelIds :: s.0;
      assert forall p :: p in members <==> exists c :: c in channelIds && (p, c) in db.subs;
      if principals == [] then members else set p | p in principals && p in members
  }

  function Recipients(db: Db, sender: Name, channelIds: seq<ChannelId>, principals: seq<Name>): set<Name> {
    Addressed(db, channelIds, principals) - {sender}
  }

  /** `Vec::retain(|r| r != sender)`. */
  function Without(s: seq<Name>, sender: Name): seq<Name> {
    if s == [] then []
    else if s[0] == sender then Without(s[1..], sender)
    else [s[0]] + Without(s[1..], sender)
  }

  lemma {:induction false} WithoutHas(s: seq<Name>, sender: Name, x: Name)
    ensures x in Without(s, sender) <==> x in s && x != sender
  {
    if s != [] {
      assert s == [s[0]] + s[1..];
      WithoutHas(s[1..], sender, x);
    }
  }

  lemma {:induction false} WithoutSorted(s: seq<Name>, sender: Name)
    requires StrictlySorted(s)
    ensures StrictlySorted(Without(s, sender))
  {
    if s != [] {
      var rest := Without(s[1..], sender);
      WithoutSorted(s[1..], sender);
      forall x | x in rest
        ensures Less(s[0], x)
      {
        WithoutHas(s[1..], sender, x);
      }
    }
  }

  lemma WithoutElements(s: seq<Name>, sender: Name)
    ensures Elements(Without(s, sender)) == Elements(s) - {sender}
  {
    forall x
      ensures x in Elements(Without(s, sender)) <==> x in Elements(s) - {sender}
    {
      WithoutHas(s, sender, x);
    }
  }

  /** Naming principals beside channels narrows a send to channels, never
      widens it: the result is the listed subscribers. */
  lemma PrincipalsNarrow(db: Db, sender: Name, channelIds: seq<ChannelId>, principals: seq<Name>)
    requires channelIds != [] && principals != []
    ensures Recipients(db, sender, channelIds, principals) ==
            Recipients(db, sender, channelIds, []) * Elements(principals)
  {
  }

  /** More channels reach more subscribers; more principals beside channels
      reach more of them, and a repeated name changes nothing. */
  lemma AddressingIsMonotone(db: Db, sender: Name, c: seq<ChannelId>, d: seq<ChannelId>, p: seq<Name>, q: seq<Name>)
    requires c != [] && p != []
    requires (forall x :: x in c ==> x in d) && (forall x :: x in p ==> x in q)
    ensures Recipients(db, sender, c, p) <= Recipients(db, sender, d, q)
    ensures Recipients(db, sender, c, []) <= Recipients(db, sender, d, [])
  {
    assert c[0] in d && p[0] in q;
  }

  method ListedSubscribers(db: Db, channelIds: seq<ChannelId>, principals: seq<Name>) returns (r: seq<Name>)
    requires channelIds != [] && principals != []
    ensures Elements(r) == Addressed(db, channelIds, principals)
  {
    r := [];
    for i := 0 to |principals|
      invariant forall p :: p in r <==> p in principals[..i] && exists c :: c in channelIds && (p, c) in db.subs
    {
      var subscribed := false;
      for j := 0 to |channelIds|
        invariant !subscribed && forall c :: c in channelIds[..j] ==> (principals[i], c) !in db.subs
      {
        assert channelIds[j] in channelIds && channelIds[..j + 1] == channelIds[..j] + [channelIds[j]];
        if (principals[i], channelIds[j]) in db.subs {
          subscribed := true;
          break;
        }
      }
      assert channelIds[..|channelIds|] == channelIds;
      assert subscribed <==> exists c :: c in channelIds && (principals[i], c) in db.subs;
      if subscribed {
        r := r + [principals[i]];
      }
      assert principals[..i + 1] == principals[..i] + [principals[i]];
    }
    assert principals[..|principals|] == principals;
  }

  method AllSubscribers(db: Db, channelIds: seq<ChannelId>) returns (r: seq<Name>)
    requires channelIds != []
    ensures Elements(r) == Addressed(db, channelIds, [])
  {
    var found: set<Name> := {};
    for i := 0 to |channelIds|
      invariant forall p :: p in found <==> exists k :: 0 <= k < i && (p, channelIds[k]) in db.subs
    {
      found := found + Subscribers(db, channelIds[i]);
    }
    r := Rows(found);
    forall p
      ensures p in r <==> p in Addressed(db, channelIds, [])
    {
      if p in r {
        var k :| 0 <= k < |channelIds| && (p, channelIds[k]) in db.subs;
        assert channelIds[k] in channelIds;
      }
    }
  }

  /** The audience in delivery order: one entry per recipient, sorted, without
      the sender; and the reason reported when nobody was addressed. */
  method ResolveAudience(db: Db, sender: Name, channelIds: seq<ChannelId>, principals: seq<Name>)
    returns (audience: seq<Name>, empty: Option<EmptyAudience>)
    requires channelIds != [] || principals != []
    ensures StrictlySorted(audience) && Elements(audience) == Recipients(db, sender, channelIds, principals)
    ensures empty == if Addressed(db, channelIds, principals) != {} then None
                     else if principals == [] then Some(NoSubscribers) else Some(EmptyIntersection)
  {
    empty := None;
    if channelIds != [] && principals != [] {
      audience := ListedSubscribers(db, channelIds, principals);
      if audience == [] {
        empty := Some(EmptyIntersection);
      }
    } else if channelIds != [] {
      audience := AllSubscribers(db, channelIds);
      if audience == [] {
        empty := Some(NoSubscribers);
      }
    } else {
      audience := principals;
    }
    ElementsEmpty(audience);
    SortDedup(audience);
    var sorted := Dedup(Sort(audience));
    WithoutElements(sorted, sender);
    WithoutSorted(sorted, sender);
    audience := Without(sorted, sender);
    ElementsEmpty(audience);
    if audience != [] {
      empty := None;
    }
  }

  /** The reason reported for a send, as `ResolveAudience` computes it. */
  function Reported(db: Db, channelIds: seq<ChannelId>, principals: seq<Name>): Option<EmptyAudience> {
    if Addressed(db, channelIds, principals) != {} then None
    else if principals == [] then Some(NoSubscribers) else Some(EmptyIntersection)
  }

  /** A send that reaches nobody is reported with a reason exactly when the
      sender was not itself addressed: a send to oneself is silently empty. */
  lemma EmptyReasonIff(db: Db, sender: Name, channelIds: seq<ChannelId>, principals: seq<Name>)
    requires channelIds != [] || principals != []
    requires Recipients(db, sender, channelIds, principals) == {}
    ensures Reported(db, channelIds, principals).Some? <==> sender !in Addressed(db, channelIds, principals)
  {
    var addressed := Addressed(db, channelIds, principals);
    assert addressed <= {sender};
    assert addressed == {} || addressed == {sender};
  }

  /** The sender as the only subscriber of the only channel. */
  lemma SilentlyEmptySend(sender: Name)
    ensures var db := EMPTY.(principals := {sender}, channels := map[1 := ChannelRow("#c", false)],
                             subs := {(sender, 1)});
            Recipients(db, sender, [1], []) == {} && Reported(db, [1], []) == None
  {
    var db := EMPTY.(principals := {sender}, channels := map[1 := ChannelRow("#c", false)], subs := {(sender, 1)});
    assert 1 in [1] && (sender, 1) in db.subs;
    assert sender in Addressed(db, [1], []);
    assert forall p :: p in Addressed(db, [1], []) ==> p == sender;
  }
}
