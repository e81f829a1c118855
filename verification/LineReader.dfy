/** Newline-delimited input with a hard cap on the bytes of one line. The
    transport hands out its bytes in arbitrary non-empty pieces. */
module LineReader {
  import opened Wrappers
  import opened Utf8

  const NEWLINE: Byte := 0x0A

  datatype InboundLine = Line(text: seq<Byte>) | Oversized | Eof

  ghost predicate AllSized(pieces: seq<seq<Byte>>, widest: nat) {
    forall i :: 0 <= i < |pieces| ==> 0 < |pieces[i]| <= widest
  }

  function Flatten(pieces: seq<seq<Byte>>): seq<Byte> {
    if pieces == [] then [] else pieces[0] + Flatten(pieces[1..])
  }

  /** Position of the first newline, or the length when there is none. */
  function LineEnd(s: seq<Byte>): (p: nat)
    ensures p <= |s|
    ensures NEWLINE !in s[..p]
    ensures p < |s| ==> s[p] == NEWLINE
  {
    if s == [] || s[0] == NEWLINE then 0 else 1 + LineEnd(s[1..])
  }

  /** No byte of `s` is a newline. */
  predicate Unterminated(s: seq<Byte>) {
    LineEnd(s) == |s|
  }

  lemma {:induction false} PrefixUnterminated(s: seq<Byte>)
    ensures Unterminated(s[..LineEnd(s)])
  {
    if s != [] && s[0] != NEWLINE {
      PrefixUnterminated(s[1..]);
      assert s[..LineEnd(s)][1..] == s[1..][..LineEnd(s[1..])];
    }
  }

  /** Newline-free bytes in front push the end of the line back by their length. */
  lemma {:induction false} LineEndSkips(taken: seq<Byte>, s: seq<Byte>)
    requires Unterminated(taken)
    ensures LineEnd(taken + s) == |taken| + LineEnd(s)
  {
    if taken == [] {
      assert taken + s == s;
    } else {
      assert (taken + s)[1..] == taken[1..] + s;
      LineEndSkips(taken[1..], s);
    }
  }

  /** What one line of content reads as: too long, or its text, which is empty
      when the content is not well-formed UTF-8. */
  function Classify(content: seq<Byte>, max: nat): InboundLine {
    if |content| > max then Oversized
    else if Valid(content) then Line(content)
    else Line([])
  }

  /** The first line of a whole byte stream, seen without any pieces. */
  function FirstLine(stream: seq<Byte>, max: nat): InboundLine {
    if stream == [] then Eof else Classify(stream[..LineEnd(stream)], max)
  }

  /** The stream after its first line and the newline that ends it. */
  function AfterLine(stream: seq<Byte>): (rest: seq<Byte>)
    ensures stream != [] ==> |rest| < |stream|
  {
    var p := LineEnd(stream);
    if p < |stream| then stream[p + 1..] else []
  }

  /** Contents of the lines of a whole stream; a final unterminated line counts. */
  function SplitLines(stream: seq<Byte>): seq<seq<Byte>>
    decreases |stream|
  {
    if stream == [] then []
    else [stream[..LineEnd(stream)]] + SplitLines(AfterLine(stream))
  }

  function JoinLines(lines: seq<seq<Byte>>): seq<Byte> {
    if lines == [] then [] else lines[0] + [NEWLINE] + JoinLines(lines[1..])
  }

  /** A buffered reader: `pieces[0]` is the unread part of the current buffer.
      `broken` makes the transport fail instead of ending cleanly. */
  class Reader {
    var pieces: seq<seq<Byte>>
    const broken: bool
    ghost const widest: nat

    ghost predicate Valid()
      reads this
    {
      AllSized(pieces, widest)
    }

    ghost function Rest(): seq<Byte>
      reads this
    {
      Flatten(pieces)
    }

    constructor (pieces: seq<seq<Byte>>, broken: bool, ghost widest: nat)
      requires AllSized(pieces, widest)
      ensures Valid() && this.pieces == pieces && this.broken == broken && this.widest == widest
    {
      this.pieces := pieces;
      this.broken := broken;
      this.widest := widest;
    }

    method FillBuf() returns (available: Result<seq<Byte>, ()>)
      requires Valid()
      ensures pieces != [] ==> available == Ok(pieces[0]) && 0 < |pieces[0]| <= widest
      ensures pieces == [] ==> available == if broken then Err(()) else Ok([])
    {
      if pieces != [] {
        available := Ok(pieces[0]);
      } else if broken {
        available := Err(());
      } else {
        available := Ok([]);
      }
    }

    method Consume(n: nat)
      requires Valid() && pieces != [] && n <= |pieces[0]|
      modifies this
      ensures Valid() && Rest() == old(pieces)[0][n..] + Flatten(old(pieces)[1..])
      ensures n == |old(pieces)[0]| ==> Rest() == Flatten(old(pieces)[1..])
      ensures |pieces| == if n == |old(pieces)[0]| then |old(pieces)| - 1 else |old(pieces)|
    {
      if n == |pieces[0]| {
        pieces := pieces[1..];
      } else {
        pieces := [pieces[0][n..]] + pieces[1..];
      }
    }

    /** Reads one line. The answer depends only on the bytes, never on how they
        were cut into pieces; exactly the line and its newline are consumed;
        the buffer never holds more than the cap and one piece. */
    method ReadLineBounded(max: nat) returns (line: Result<InboundLine, ()>, ghost peak: nat)
      requires Valid()
      modifies this
      ensures Valid()
      ensures line == if broken && LineEnd(old(Rest())) == |old(Rest())| then Err(())
                      else Ok(FirstLine(old(Rest()), max))
      ensures Rest() == AfterLine(old(Rest()))
      ensures peak <= max + widest
    {
      ghost var stream := Rest();
      ghost var taken: seq<Byte> := [];
      var buf: seq<Byte> := [];
      var oversized := false;
      peak := 0;
      while true
        invariant Valid()
        invariant stream == taken + Rest() && Unterminated(taken)
        invariant oversized <==> |taken| > max
        invariant buf == if oversized then [] else taken
        invariant peak <= max + widest
        decreases |pieces|
      {
        var filled := FillBuf();
        if filled.Err? {
          AllTaken(stream, taken, pieces, max);
          return Err(()), peak;
        }
        var available := filled.value;
        if available == [] {
          AllTaken(stream, taken, pieces, max);
          line := Ok(if oversized then Oversized else if buf == [] then Eof
                     else Line(if Utf8.Valid(buf) then buf else []));
          return line, peak;
        }
        var pos := LineEnd(available);
        ghost var later := Flatten(pieces[1..]);
        if pos < |available| {
          TerminatedLine(taken, available, later, max);
          assert stream == taken + (available + later);
          if !oversized {
            buf := buf + available[..pos];
          }
          peak := if |buf| > peak then |buf| else peak;
          Consume(pos + 1);
          if |buf| > max {
            oversized := true;
          }
          taken := taken + available[..pos];
          break;
        }
        if !oversized {
          buf := buf + available;
        }
        peak := if |buf| > peak then |buf| else peak;
        Consume(|available|);
        ExtendTaken(taken, available, later);
        taken := taken + available;
        if |buf| > max {
          oversized := true;
          buf := [];
        }
      }
      if oversized {
        return Ok(Oversized), peak;
      }
      line := Ok(Line(if Utf8.Valid(buf) then buf else []));
    }
  }

  /** The end of the stream ends an unterminated line. */
  lemma {:induction false} UnterminatedLine(taken: seq<Byte>, max: nat)
    requires Unterminated(taken)
    ensures LineEnd(taken) == |taken| && AfterLine(taken) == []
    ensures FirstLine(taken, max) == if taken == [] then Eof else Classify(taken, max)
  {
    LineEndSkips(taken, []);
    assert taken + [] == taken;
    assert taken[..|taken|] == taken;
  }

  /** Nothing is left to read. */
  lemma AllTaken(stream: seq<Byte>, taken: seq<Byte>, pieces: seq<seq<Byte>>, max: nat)
    requires pieces == [] && stream == taken + Flatten(pieces) && Unterminated(taken)
    ensures LineEnd(stream) == |stream| && AfterLine(stream) == [] == Flatten(pieces)
    ensures FirstLine(stream, max) == if taken == [] then Eof else Classify(taken, max)
  {
    assert stream == taken;
    UnterminatedLine(taken, max);
  }

  /** A piece with a newline ends the line that earlier pieces began. */
  lemma TerminatedLine(taken: seq<Byte>, available: seq<Byte>, later: seq<Byte>, max: nat)
    requires Unterminated(taken) && LineEnd(available) < |available|
    ensures var pos := LineEnd(available);
            var stream := taken + (available + later);
            && LineEnd(stream) == |taken| + pos && LineEnd(stream) < |stream|
            && FirstLine(stream, max) == Classify(taken + available[..pos], max)
            && AfterLine(stream) == available[pos + 1..] + later
  {
    var pos := LineEnd(available);
    var head, rest := available[..pos], available[pos + 1..] + later;
    NewlineEnds(taken, available, later);
    assert taken + (available + later) == (taken + head) + ([NEWLINE] + rest);
    TakeDrop(taken + head, NEWLINE, rest);
  }

  lemma NewlineEnds(taken: seq<Byte>, available: seq<Byte>, later: seq<Byte>)
    requires Unterminated(taken) && LineEnd(available) < |available|
    ensures LineEnd(taken + (available + later)) == |taken| + LineEnd(available)
    ensures available == available[..LineEnd(available)] + [NEWLINE] + available[LineEnd(available) + 1..]
    ensures taken + (available + later)
            == (taken + available[..LineEnd(available)]) + ([NEWLINE] + (available[LineEnd(available) + 1..] + later))
  {
    var pos := LineEnd(available);
    var head, tail := available[..pos], available[pos + 1..];
    PrefixUnterminated(available);
    LineEndSkips(taken, head);
    LineEndSkips(taken + head, [NEWLINE] + (tail + later));
    assert available == head + [NEWLINE] + tail;
    Reassociate(taken, head, NEWLINE, tail, later);
  }

  lemma Reassociate(a: seq<Byte>, b: seq<Byte>, x: Byte, c: seq<Byte>, d: seq<Byte>)
    ensures a + (b + [x] + c + d) == (a + b) + ([x] + (c + d))
  {
  }

  lemma TakeDrop(a: seq<Byte>, x: Byte, b: seq<Byte>)
    ensures (a + ([x] + b))[..|a|] == a && (a + ([x] + b))[|a| + 1..] == b
  {
  }

  /** A piece without a newline joins the bytes already taken. */
  lemma ExtendTaken(taken: seq<Byte>, available: seq<Byte>, later: seq<Byte>)
    requires Unterminated(taken) && Unterminated(available)
    ensures Unterminated(taken + available)
    ensures taken + (available + later) == (taken + available) + later
  {
    LineEndSkips(taken, available);
  }

  /** Reading until the end gives every line of the stream, each classified on
      its own, for every way of cutting the stream into pieces. */
  method ReadAll(pieces: seq<seq<Byte>>, max: nat, ghost widest: nat) returns (lines: seq<InboundLine>)
    requires AllSized(pieces, widest)
    ensures lines == ClassifyAll(SplitLines(Flatten(pieces)), max)
  {
    var reader := new Reader(pieces, false, widest);
    ghost var expected := ClassifyAll(SplitLines(Flatten(pieces)), max);
    ghost var later := expected;
    lines := [];
    while true
      invariant reader.Valid() && !reader.broken
      invariant expected == lines + later
      invariant later == ClassifyAll(SplitLines(reader.Rest()), max)
      decreases |later|
    {
      ghost var before := reader.Rest();
      var line, _ := reader.ReadLineBounded(max);
      if line.value.Eof? {
        assert later == [];
        return;
      }
      FirstOfSplit(before, max);
      assert later == [line.value] + later[1..];
      lines, later := lines + [line.value], later[1..];
    }
  }

  function ClassifyAll(lines: seq<seq<Byte>>, max: nat): seq<InboundLine> {
    if lines == [] then [] else [Classify(lines[0], max)] + ClassifyAll(lines[1..], max)
  }

  lemma FirstOfSplit(stream: seq<Byte>, max: nat)
    requires stream != []
    ensures ClassifyAll(SplitLines(stream), max) ==
            [FirstLine(stream, max)] + ClassifyAll(SplitLines(AfterLine(stream)), max)
  {
    assert SplitLines(stream)[1..] == SplitLines(AfterLine(stream));
  }

  /** The stream with a newline added to an unterminated end. */
  function Closed(stream: seq<Byte>): seq<Byte> {
    if stream == [] || stream[|stream| - 1] == NEWLINE then stream else stream + [NEWLINE]
  }

  lemma ClosedAfterLine(stream: seq<Byte>)
    requires stream != []
    ensures Closed(stream) == stream[..LineEnd(stream)] + [NEWLINE] + Closed(AfterLine(stream))
  {
    var p := LineEnd(stream);
    var first, rest := stream[..p], AfterLine(stream);
    if p == |stream| {
      assert stream[|stream| - 1] in first;
      assert first + [NEWLINE] + [] == first + [NEWLINE];
    } else {
      assert stream == first + [NEWLINE] + rest;
      assert first + [NEWLINE] + (rest + [NEWLINE]) == first + [NEWLINE] + rest + [NEWLINE];
      assert rest != [] ==> rest[|rest| - 1] == stream[|stream| - 1];
    }
  }

  /** The split loses no byte: joining the lines again gives the stream. */
  lemma {:induction false} SplitJoin(stream: seq<Byte>)
    ensures JoinLines(SplitLines(stream)) == Closed(stream)
    decreases |stream|
  {
    if stream != [] {
      var first := stream[..LineEnd(stream)];
      var lines := SplitLines(AfterLine(stream));
      calc {
        JoinLines(SplitLines(stream));
        { assert ([first] + lines)[1..] == lines; }
        first + [NEWLINE] + JoinLines(lines);
        { SplitJoin(AfterLine(stream)); }
        first + [NEWLINE] + Closed(AfterLine(stream));
        { ClosedAfterLine(stream); }
        Closed(stream);
      }
    }
  }

  lemma {:induction false} SplitHasNoNewline(stream: seq<Byte>, i: nat)
    requires i < |SplitLines(stream)|
    ensures NEWLINE !in SplitLines(stream)[i]
    decreases |stream|
  {
    var first, later := stream[..LineEnd(stream)], SplitLines(AfterLine(stream));
    assert SplitLines(stream) == [first] + later;
    if i > 0 {
      SplitHasNoNewline(AfterLine(stream), i - 1);
      assert ([first] + later)[i] == later[i - 1];
    }
  }
}
