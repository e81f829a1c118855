/** UTF-8 well-formedness (section 4 of RFC 3629) and the body truncation of
    `message/send`, which shortens an oversized body and never rejects it. */
module Utf8 {

  type Byte = b: int | 0 <= b < 0x100

  predicate IsTail(b: Byte) {
    0x80 <= b < 0xC0
  }

  predicate AllTail(s: seq<Byte>) {
    forall i :: 0 <= i < |s| ==> IsTail(s[i])
  }

  /** Length of the well-formed character that starts `s`; 0 when there is none. */
  function CharLen(s: seq<Byte>): (n: nat)
    ensures n <= 4 && n <= |s|
    ensures n > 0 ==> !IsTail(s[0]) && AllTail(s[1..n])
  {
    if s == [] then 0
    else if s[0] < 0x80 then 1
    else if 0xC2 <= s[0] < 0xE0 then
      if |s| >= 2 && IsTail(s[1]) then 2 else 0
    else if 0xE0 <= s[0] < 0xF0 then
      if |s| >= 3 && IsTail(s[1]) && IsTail(s[2])
         && (s[0] == 0xE0 ==> 0xA0 <= s[1])
         && (s[0] == 0xED ==> s[1] < 0xA0)
      then 3 else 0
    else if 0xF0 <= s[0] < 0xF5 then
      if |s| >= 4 && IsTail(s[1]) && IsTail(s[2]) && IsTail(s[3])
         && (s[0] == 0xF0 ==> 0x90 <= s[1])
         && (s[0] == 0xF4 ==> s[1] < 0x90)
      then 4 else 0
    else 0
  }

  predicate Valid(s: seq<Byte>) {
    s == [] || (CharLen(s) > 0 && Valid(s[CharLen(s)..]))
  }

  /** `str::is_char_boundary`: looks at one byte only. */
  predicate IsCharBoundary(s: seq<Byte>, k: nat) {
    if k == 0 then true
    else if k >= |s| then k == |s|
    else !IsTail(s[k])
  }

  /** A cut character is no character; a whole one does not look past itself. */
  lemma CharLenOfPrefix(s: seq<Byte>, k: nat)
    requires CharLen(s) > 0 && 0 < k <= |s|
    ensures CharLen(s[..k]) == if k < CharLen(s) then 0 else CharLen(s)
  {
    assert forall i :: 0 <= i < k ==> s[..k][i] == s[i];
  }

  /** The one-byte test decides whether the prefix is itself well formed. */
  lemma {:induction false} BoundaryIffValidPrefix(s: seq<Byte>, k: nat)
    requires Valid(s) && k <= |s|
    ensures IsCharBoundary(s, k) <==> Valid(s[..k])
    decreases |s|
  {
    if k > 0 {
      var n := CharLen(s);
      CharLenOfPrefix(s, k);
      if k < n {
        assert s[k] == s[1..n][k - 1];
      } else {
        assert s[..k][n..] == s[n..][..k - n];
        BoundaryIffValidPrefix(s[n..], k - n);
      }
    }
  }

  /** A boundary lies at most three bytes below any position. */
  lemma {:induction false} BoundaryNearby(s: seq<Byte>, k: nat)
    requires Valid(s) && k <= |s|
    ensures exists j :: 0 <= j <= k && k <= j + 3 && IsCharBoundary(s, j)
    decreases |s|
  {
    if k == 0 || k == |s| {
      assert IsCharBoundary(s, k);
    } else {
      var n := CharLen(s);
      if k < n {
        assert IsCharBoundary(s, 0);
      } else {
        BoundaryNearby(s[n..], k - n);
        var j :| 0 <= j <= k - n && k - n <= j + 3 && IsCharBoundary(s[n..], j);
        assert IsCharBoundary(s, n + j) by {
          if j == 0 && n < |s| {
            assert s[n] == s[n..][0];
          }
        }
      }
    }
  }

  /** `kept` is the longest well-formed prefix of `body` within the limit. */
  predicate IsLongestFit(kept: seq<Byte>, body: seq<Byte>, limit: nat) {
    && kept <= body && |kept| <= limit && Valid(kept)
    && (forall k :: |kept| < k <= limit && k <= |body| ==> !Valid(body[..k]))
  }

  /** The size limit of `send_message`: the longest well-formed prefix that
      fits, found in at most three backward steps. */
  method Truncate(body: seq<Byte>, limit: nat) returns (kept: seq<Byte>, truncated: bool, ghost steps: nat)
    requires Valid(body)
    ensures IsLongestFit(kept, body, limit)
    ensures truncated <==> |kept| < |body|
    ensures steps <= 3
  {
    steps := 0;
    if |body| > limit {
      var cut := limit;
      BoundaryNearby(body, limit);
      ghost var j :| 0 <= j <= limit && limit <= j + 3 && IsCharBoundary(body, j);
      while !IsCharBoundary(body, cut)
        invariant j <= cut <= limit && steps == limit - cut
        invariant forall k :: cut < k <= limit ==> !IsCharBoundary(body, k)
        decreases cut
      {
        cut := cut - 1;
        steps := steps + 1;
      }
      BoundaryIffValidPrefix(body, cut);
      forall k | cut < k <= limit
        ensures !Valid(body[..k])
      {
        BoundaryIffValidPrefix(body, k);
      }
      kept, truncated := body[..cut], true;
    } else {
      kept, truncated := body, false;
    }
  }
}
