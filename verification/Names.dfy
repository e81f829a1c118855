/** Names in their stored order: bytewise order of strings, sorting and
    removal of repeats. */
module Names {

  type Name = string

  predicate Less(a: Name, b: Name)
    decreases |a|
  {
    b != [] && (a == [] || a[0] < b[0] || (a[0] == b[0] && Less(a[1..], b[1..])))
  }

  lemma {:induction false} LessTrans(a: Name, b: Name, c: Name)
    requires Less(a, b) && Less(b, c)
    ensures Less(a, c)
    decreases |a|
  {
    if a != [] && a[0] == b[0] && b[0] == c[0] {
      LessTrans(a[1..], b[1..], c[1..]);
    }
  }

  lemma {:induction false} LessTotal(a: Name, b: Name)
    ensures Less(a, b) || a == b || Less(b, a)
    ensures !(Less(a, b) && Less(b, a)) && !Less(a, a)
    decreases |a|
  {
    if a != [] {
      LessTotal(a[1..], a[1..]);
    }
    if a != [] && b != [] && a[0] == b[0] {
      LessTotal(a[1..], b[1..]);
      assert a == [a[0]] + a[1..] && b == [b[0]] + b[1..];
    }
  }

  lemma AtMostTrans(a: Name, b: Name, c: Name)
    requires !Less(b, a) && !Less(c, b)
    ensures !Less(c, a)
  {
    LessTotal(a, b);
    LessTotal(b, c);
    if Less(c, a) && a != b {
      LessTrans(c, a, b);
    }
  }

  predicate StrictlySorted(s: seq<Name>) {
    forall i, j :: 0 <= i < j < |s| ==> Less(s[i], s[j])
  }

  predicate Sorted(s: seq<Name>) {
    forall i, j :: 0 <= i < j < |s| ==> !Less(s[j], s[i])
  }

  function Elements(s: seq<Name>): (r: set<Name>)
    ensures forall x :: x in r <==> x in s
  {
    set x | x in s
  }

  function Insert(x: Name, s: seq<Name>): (r: seq<Name>)
    ensures multiset(r) == multiset(s) + multiset{x}
  {
    if s == [] then [x]
    else if Less(s[0], x) then
      assert s == [s[0]] + s[1..];
      [s[0]] + Insert(x, s[1..])
    else [x] + s
  }

  /** `Vec::sort`. */
  function Sort(s: seq<Name>): (r: seq<Name>)
    ensures multiset(r) == multiset(s)
  {
    if s == [] then []
    else
      assert s == [s[0]] + s[1..];
      Insert(s[0], Sort(s[1..]))
  }

  /** `Vec::dedup`: drops an element equal to the one before it. */
  function Dedup(s: seq<Name>): seq<Name> {
    if |s| <= 1 then s
    else if s[0] == s[1] then Dedup(s[1..])
    else [s[0]] + Dedup(s[1..])
  }

  lemma ConsSorted(x: Name, s: seq<Name>)
    requires Sorted(s) && (s != [] ==> !Less(s[0], x))
    ensures Sorted([x] + s)
  {
    forall j | 0 <= j < |s|
      ensures !Less(s[j], x)
    {
      LessTotal(s[0], s[0]);
      AtMostTrans(x, s[0], s[j]);
    }
  }

  lemma {:induction false} InsertSorted(x: Name, s: seq<Name>)
    requires Sorted(s)
    ensures Sorted(Insert(x, s))
  {
    if s != [] && Less(s[0], x) {
      InsertSorted(x, s[1..]);
      LessTotal(s[0], x);
      ConsSorted(s[0], Insert(x, s[1..]));
    } else {
      ConsSorted(x, s);
    }
  }

  lemma {:induction false} SortSorts(s: seq<Name>)
    ensures Sorted(Sort(s))
  {
    if s != [] {
      SortSorts(s[1..]);
      InsertSorted(s[0], Sort(s[1..]));
    }
  }

  lemma {:induction false} DedupStrict(s: seq<Name>)
    requires Sorted(s)
    ensures StrictlySorted(Dedup(s)) && Elements(Dedup(s)) == Elements(s)
    ensures s != [] ==> Dedup(s) != [] && Dedup(s)[0] == s[0]
  {
    if |s| > 1 {
      var t := Dedup(s[1..]);
      DedupStrict(s[1..]);
      assert s == [s[0]] + s[1..];
      assert Elements(s) == {s[0]} + Elements(s[1..]);
      if s[0] != s[1] {
        forall j | 0 <= j < |t|
          ensures Less(s[0], t[j])
        {
          LessTotal(s[0], s[1]);
          assert t[0] == s[1];
          if j > 0 {
            LessTrans(s[0], t[0], t[j]);
          }
        }
        assert Elements([s[0]] + t) == {s[0]} + Elements(t);
      } else {
        assert s[0] in s[1..];
      }
    }
  }

  lemma ElementsEmpty(s: seq<Name>)
    ensures Elements(s) == {} <==> s == []
  {
    if s != [] {
      assert s[0] in Elements(s);
    }
  }

  /** A strictly sorted list is determined by its elements. */
  lemma {:induction false} StrictlySortedUnique(s: seq<Name>, t: seq<Name>)
    requires StrictlySorted(s) && StrictlySorted(t) && Elements(s) == Elements(t)
    ensures s == t
  {
    ElementsEmpty(s);
    ElementsEmpty(t);
    if s != [] {
      assert s[0] in Elements(t) && t != [];
      assert t[0] in Elements(s);
      LessTotal(s[0], t[0]);
      assert s[0] == t[0];
      forall x
        ensures x in s[1..] <==> x in t[1..]
      {
        LessTotal(s[0], x);
        assert x in s[1..] ==> x in s && Less(s[0], x);
        assert x in t[1..] ==> x in t && Less(t[0], x);
        assert x in s <==> x in Elements(s);
        assert x in t <==> x in Elements(t);
      }
      StrictlySortedUnique(s[1..], t[1..]);
      assert s == [s[0]] + s[1..] && t == [t[0]] + t[1..];
    }
  }

  /** The rows of an `ORDER BY name` query over a set of names. */
  ghost function Ordered(names: set<Name>): (r: seq<Name>)
    ensures StrictlySorted(r) && Elements(r) == names
  {
    if names == {} then []
    else
      var x :| x in names;
      OrderedStep(x, names);
      Dedup(Sort([x] + Ordered(names - {x})))
  }

  lemma OrderedStep(x: Name, names: set<Name>)
    requires x in names
    ensures forall rest: seq<Name> :: Elements(rest) == names - {x} ==>
              StrictlySorted(Dedup(Sort([x] + rest))) && Elements(Dedup(Sort([x] + rest))) == names
  {
    forall rest: seq<Name> | Elements(rest) == names - {x}
      ensures StrictlySorted(Dedup(Sort([x] + rest))) && Elements(Dedup(Sort([x] + rest))) == names
    {
      SortDedup([x] + rest);
      assert Elements([x] + rest) == {x} + Elements(rest);
    }
  }

  lemma SortDedup(s: seq<Name>)
    ensures StrictlySorted(Dedup(Sort(s))) && Elements(Dedup(Sort(s))) == Elements(s)
  {
    SortSorts(s);
    DedupStrict(Sort(s));
    forall x
      ensures x in Sort(s) <==> x in s
    {
      assert x in Sort(s) <==> x in multiset(Sort(s));
      assert x in s <==> x in multiset(s);
    }
  }

  method OrderNames(names: set<Name>) returns (r: seq<Name>)
    ensures r == Ordered(names)
  {
    var left := names;
    var rows: seq<Name> := [];
    while left != {}
      invariant left !! Elements(rows) && left + Elements(rows) == names
      decreases left
    {
      var x :| x in left;
      assert Elements([x] + rows) == {x} + Elements(rows);
      left, rows := left - {x}, [x] + rows;
    }
    r := Dedup(Sort(rows));
    SortDedup(rows);
    StrictlySortedUnique(r, Ordered(names));
  }
}
