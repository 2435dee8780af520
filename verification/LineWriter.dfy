/** The engine output splitter: bytes arrive in arbitrary pieces and leave as lines. */
module LineWriter {
  import opened Text

  type Bytes = seq<byte>

  const NEWLINE: byte := 10
  const RETURN: byte := 13
  const MAX_LINE: nat := 65536

  /** bytes.IndexByte for the newline; the length when there is none. */
  function IndexByte(s: Bytes): (i: nat)
    ensures i <= |s| && NEWLINE !in s[..i] && (i < |s| ==> s[i] == NEWLINE)
  {
    if s == [] || s[0] == NEWLINE then 0 else 1 + IndexByte(s[1..])
  }

  function TrimReturns(s: Bytes): Bytes
  {
    if s != [] && s[|s| - 1] == RETURN then TrimReturns(s[..|s| - 1]) else s
  }

  /** The newline-terminated lines of a stream, carriage returns trimmed. */
  function Terminated(s: Bytes): seq<Bytes>
  {
    var i := IndexByte(s);
    if i == |s| then [] else [TrimReturns(s[..i])] + Terminated(s[i + 1..])
  }

  /** What follows the last newline. */
  function Remainder(s: Bytes): (r: Bytes)
    ensures NEWLINE !in r
  {
    var i := IndexByte(s);
    if i == |s| then s else Remainder(s[i + 1..])
  }

  /** The lines of a whole stream: terminated lines trimmed, a final fragment as it is. */
  function Lines(s: Bytes): seq<Bytes>
  {
    Terminated(s) + Flushed(Remainder(s))
  }

  function Flushed(buf: Bytes): seq<Bytes> { if buf == [] then [] else [buf] }

  /** What one Write emits, and the buffer it leaves. */
  function Emits(buf: Bytes, p: Bytes): seq<Bytes>
  {
    var rest := Remainder(buf + p);
    if |rest| > MAX_LINE then Terminated(buf + p) + [rest] else Terminated(buf + p)
  }

  function Leaves(buf: Bytes, p: Bytes): Bytes
  {
    var rest := Remainder(buf + p);
    if |rest| > MAX_LINE then [] else rest
  }

  /** Everything a sequence of Writes and the closing flush emit. */
  function Output(buf: Bytes, pieces: seq<Bytes>): seq<Bytes>
    decreases |pieces|
  {
    if pieces == [] then Flushed(buf)
    else Emits(buf, pieces[0]) + Output(Leaves(buf, pieces[0]), pieces[1..])
  }

  function Joined(pieces: seq<Bytes>): Bytes
  {
    if pieces == [] then [] else pieces[0] + Joined(pieces[1..])
  }

  /** Terminated lines stay within the limit; the unterminated end may exceed it by one. */
  predicate Fits(s: Bytes)
  {
    var i := IndexByte(s);
    if i == |s| then |s| <= MAX_LINE + 1 else i <= MAX_LINE && Fits(s[i + 1..])
  }

  class Splitter {
    var buf: Bytes
    var emitted: seq<Bytes>

    constructor ()
      ensures buf == [] && emitted == []
    {
      buf, emitted := [], [];
    }

    /** Appends, cuts the complete lines off one by one, and emits an overlong fragment as it is. */
    method Write(p: Bytes)
      modifies this
      ensures emitted == old(emitted) + Emits(old(buf), p)
      ensures buf == Leaves(old(buf), p) && |buf| <= MAX_LINE
    {
      buf := buf + p;
      ghost var data := buf;
      var i := IndexByte(buf);
      while i < |buf|
        invariant i == IndexByte(buf)
        invariant emitted + Terminated(buf) == old(emitted) + Terminated(data)
        invariant Remainder(buf) == Remainder(data)
        decreases |buf|
      {
        ghost var line, tail := TrimReturns(buf[..i]), Terminated(buf[i + 1..]);
        assert emitted + ([line] + tail) == emitted + [line] + tail;
        emitted := emitted + [TrimReturns(buf[..i])];
        buf := buf[i + 1..];
        i := IndexByte(buf);
      }
      assert Terminated(buf) == [] && Remainder(buf) == buf;
      assert emitted == old(emitted) + Terminated(data);
      if |buf| > MAX_LINE {
        emitted := emitted + [buf];
        buf := [];
      }
    }

    method Flush()
      modifies this
      ensures emitted == old(emitted) + Flushed(old(buf)) && buf == []
    {
      if |buf| != 0 {
        emitted := emitted + [buf];
        buf := [];
      }
    }
  }

  /** The contract of IndexByte fixes its result. */
  lemma {:induction false} IndexIs(s: Bytes, i: nat)
    requires i <= |s| && NEWLINE !in s[..i] && (i < |s| ==> s[i] == NEWLINE)
    ensures IndexByte(s) == i
  {
    if i > 0 {
      assert s[0] == s[..i][0];
      assert s[1..][..i - 1] == s[..i][1..];
      IndexIs(s[1..], i - 1);
    }
  }

  lemma {:induction false} IndexOfAppended(a: Bytes, b: Bytes)
    ensures IndexByte(a) < |a| ==> IndexByte(a + b) == IndexByte(a)
    ensures IndexByte(a) == |a| ==> IndexByte(a + b) == |a| + IndexByte(b)
  {
    var j, k := IndexByte(a), IndexByte(b);
    if j < |a| {
      assert (a + b)[..j] == a[..j];
      IndexIs(a + b, j);
    } else {
      assert (a + b)[..|a| + k] == a[..j] + b[..k];
      IndexIs(a + b, |a| + k);
    }
  }

  /** Splitting a stream in two places what the first part left over before the second. */
  lemma {:induction false} Appended(a: Bytes, b: Bytes)
    ensures Terminated(a + b) == Terminated(a) + Terminated(Remainder(a) + b)
    ensures Remainder(a + b) == Remainder(Remainder(a) + b)
    decreases |a|
  {
    hide Terminated, Remainder, IndexByte, TrimReturns;
    var i := IndexByte(a);
    IndexOfAppended(a, b);
    Unfolds(a, i);
    if i < |a| {
      var line, tail := TrimReturns(a[..i]), a[i + 1..];
      assert (a + b)[..i] == a[..i] && (a + b)[i + 1..] == tail + b;
      Unfolds(a + b, i);
      Appended(tail, b);
      Assoc([line], Terminated(tail), Terminated(Remainder(tail) + b));
    } else {
      Whole(Terminated(a + b));
    }
  }

  lemma {:induction false} LinesAppended(a: Bytes, b: Bytes)
    ensures Lines(a + b) == Terminated(a) + Lines(Remainder(a) + b)
  {
    Appended(a, b);
  }

  lemma {:induction false} LinesOfFragment(s: Bytes)
    requires NEWLINE !in s
    ensures Terminated(s) == [] && Remainder(s) == s && Lines(s) == Flushed(s)
  {
    assert IndexByte(s) == |s|;
  }

  lemma {:induction false} FitsAppended(a: Bytes, b: Bytes)
    requires Fits(a + b)
    ensures Fits(Remainder(a) + b)
    ensures |Remainder(a)| <= MAX_LINE + 1 && (|Remainder(a)| > MAX_LINE ==> b == [])
    decreases |a|
  {
    var i := IndexByte(a);
    IndexOfAppended(a, b);
    if i < |a| {
      assert (a + b)[i + 1..] == a[i + 1..] + b;
      FitsAppended(a[i + 1..], b);
    }
  }

  /** One Write moves the split point without changing the lines of the stream. */
  lemma {:induction false} WriteFits(buf: Bytes, p: Bytes, later: Bytes)
    requires Fits(buf + p + later)
    ensures Emits(buf, p) + Lines(Leaves(buf, p) + later) == Lines(buf + p + later)
    ensures Fits(Leaves(buf, p) + later) && NEWLINE !in Leaves(buf, p)
  {
    var data := buf + p;
    var rest := Remainder(data);
    LinesAppended(data, later);
    FitsAppended(data, later);
    if |rest| > MAX_LINE {
      assert rest + later == rest;
      assert Leaves(buf, p) + later == [];
      LinesOfFragment(rest);
      assert Terminated(data) + [rest] + [] == Terminated(data) + [rest];
    }
  }

  lemma {:induction false} OutputFits(buf: Bytes, pieces: seq<Bytes>)
    requires Fits(buf + Joined(pieces)) && NEWLINE !in buf
    ensures Output(buf, pieces) == Lines(buf + Joined(pieces))
    decreases |pieces|
  {
    if pieces == [] {
      assert buf + Joined(pieces) == buf;
      LinesOfFragment(buf);
    } else {
      var p, later := pieces[0], Joined(pieces[1..]);
      assert buf + Joined(pieces) == buf + p + later;
      WriteFits(buf, p, later);
      OutputFits(Leaves(buf, p), pieces[1..]);
    }
  }

  /** A newline-free head joins the first line of what follows and adds none. */
  lemma {:induction false} HeadAddsNoLine(head: Bytes, s: Bytes)
    requires NEWLINE !in head && head != [] && s != []
    ensures |Lines(head + s)| == |Lines(s)|
  {
    var i := IndexByte(s);
    assert IndexByte(head) == |head|;
    IndexOfAppended(head, s);
    if i < |s| {
      assert (head + s)[|head| + i + 1..] == s[i + 1..];
    }
  }

  /** The cut that tears an overlong line apart. */
  lemma {:induction false} OverlongLineIsTorn(s: Bytes) returns (cut: nat)
    requires !Fits(s)
    ensures cut <= |s| && Output([], [s[..cut], s[cut..]]) != Lines(s)
  {
    cut := TearingPoint(s);
    var a, b := s[..cut], s[cut..];
    assert s == a + b;
    TornOutput(a, b);
    LinesAppended(a, b);
    HeadAddsNoLine(Remainder(a), b);
  }

  lemma TornOutput(a: Bytes, b: Bytes)
    requires |Remainder(a)| == MAX_LINE + 1
    ensures |Output([], [a, b])| == |Terminated(a)| + 1 + |Lines(b)|
  {
    hide Terminated, Remainder, Lines;
    assert [] + a == a;
    assert [a, b][1..] == [b];
    assert Output([], [a, b]) == Emits([], a) + Output(Leaves([], a), [b]);
    OutputOfOne(b);
  }

  lemma {:induction false} OutputOfOne(b: Bytes)
    ensures Output([], [b]) == Lines(b)
  {
    assert [] + b == b;
    assert [b][1..] == [];
    assert Output([], [b]) == Emits([], b) + Flushed(Leaves([], b));
  }

  lemma {:induction false} TearingPoint(s: Bytes) returns (cut: nat)
    requires !Fits(s)
    ensures cut < |s| && |Remainder(s[..cut])| == MAX_LINE + 1
    decreases |s|
  {
    hide Terminated, Remainder, IndexByte, TrimReturns;
    var i := IndexByte(s);
    if i > MAX_LINE {
      cut := MAX_LINE + 1;
      var head := s[..cut];
      assert head == s[..i][..cut];
      IndexIs(head, cut);
      Unfolds(head, cut);
    } else {
      var tail := s[i + 1..];
      var later := TearingPoint(tail);
      cut := i + 1 + later;
      var head := s[..cut];
      assert head[..i] == s[..i];
      IndexIs(head, i);
      assert head[i + 1..] == tail[..later];
      Unfolds(head, i);
    }
  }

  lemma {:induction false} OutputFromStart(s: Bytes, pieces: seq<Bytes>)
    requires Joined(pieces) == s && Fits(s)
    ensures Output([], pieces) == Lines(s)
  {
    assert [] + Joined(pieces) == s;
    OutputFits([], pieces);
  }

  lemma {:induction false} JoinedPair(a: Bytes, b: Bytes)
    ensures Joined([a, b]) == a + b
  {
    assert [a, b][1..] == [b] && [b][1..] == [];
    assert Joined([b]) == b + [] == b;
  }

  /** However the stream is cut, the lines come out the same, exactly when every line fits. */
  lemma {:induction false} CuttingNeverMatters(s: Bytes)
    ensures (forall pieces: seq<Bytes> :: Joined(pieces) == s ==> Output([], pieces) == Lines(s)) <==> Fits(s)
  {
    hide Joined, Output, Lines, Fits;
    if Fits(s) {
      forall pieces: seq<Bytes> | Joined(pieces) == s
        ensures Output([], pieces) == Lines(s)
      {
        OutputFromStart(s, pieces);
      }
    } else {
      var cut := OverlongLineIsTorn(s);
      JoinedPair(s[..cut], s[cut..]);
      assert s[..cut] + s[cut..] == s;
    }
  }

  /** The bytes that carry text: everything but line ends. */
  function Textual(s: Bytes): Bytes
  {
    if s == [] then []
    else if s[0] == NEWLINE || s[0] == RETURN then Textual(s[1..])
    else [s[0]] + Textual(s[1..])
  }

  lemma {:induction false} TextualJoins(a: Bytes, b: Bytes)
    ensures Textual(a + b) == Textual(a) + Textual(b)
  {
    hide Textual;
    if a == [] {
      Whole(b);
      NoText();
      Whole(Textual(b));
    } else {
      var x, tail := a[0], a[1..];
      TextualJoins(tail, b);
      Uncons(a, 0);
      Whole(a);
      Assoc([x], tail, b);
      TextFirst(x, tail);
      TextFirst(x, tail + b);
      Assoc([x], Textual(tail), Textual(b));
    }
  }

  lemma NoText()
    ensures Textual([]) == []
  {
  }

  lemma TextFirst(x: byte, s: Bytes)
    ensures Textual([x] + s) == if x == NEWLINE || x == RETURN then Textual(s) else [x] + Textual(s)
  {
    assert ([x] + s)[1..] == s;
  }

  lemma {:induction false} TrimKeepsText(s: Bytes)
    ensures Textual(TrimReturns(s)) == Textual(s)
  {
    if s != [] && s[|s| - 1] == RETURN {
      TrimKeepsText(s[..|s| - 1]);
      TextualJoins(s[..|s| - 1], [RETURN]);
      assert s == s[..|s| - 1] + [RETURN];
    }
  }

  lemma {:induction false} JoinedAppends(a: seq<Bytes>, b: seq<Bytes>)
    ensures Joined(a + b) == Joined(a) + Joined(b)
  {
    JoinedFirst([], []);
    hide Joined;
    if a == [] {
      Whole(b);
      Whole(Joined(b));
    } else {
      var head, tail := a[0], a[1..];
      JoinedAppends(tail, b);
      Uncons(a, 0);
      Whole(a);
      Assoc([head], tail, b);
      JoinedFirst(head, tail);
      JoinedFirst(head, tail + b);
      Assoc(head, Joined(tail), Joined(b));
    }
  }

  /** A line and its terminator carry the text of the trimmed line. */
  lemma LineKeepsText(line: Bytes, tail: Bytes)
    ensures Textual(line + [NEWLINE] + tail) == Textual(TrimReturns(line)) + Textual(tail)
  {
    TrimKeepsText(line);
    TextualJoins(line, [NEWLINE]);
    TextualJoins(line + [NEWLINE], tail);
    assert Textual([NEWLINE]) == [] by { assert [NEWLINE][1..] == []; }
    hide Textual, TrimReturns;
    assert Textual(line) + [] == Textual(line);
  }

  lemma Unfolds(s: Bytes, i: nat)
    requires i == IndexByte(s)
    ensures i == |s| ==> Terminated(s) == [] && Remainder(s) == s
    ensures i < |s| ==> Terminated(s) == [TrimReturns(s[..i])] + Terminated(s[i + 1..]) && Remainder(s) == Remainder(s[i + 1..])
  {
    hide IndexByte, TrimReturns;
  }

  lemma JoinedFirst(head: Bytes, lines: seq<Bytes>)
    ensures Joined([head] + lines) == head + Joined(lines) && Joined([]) == []
  {
    assert ([head] + lines)[1..] == lines;
  }

  lemma {:induction false} SplittingKeepsText(s: Bytes)
    ensures Textual(Joined(Terminated(s))) + Textual(Remainder(s)) == Textual(s)
    decreases |s|
  {
    hide Terminated, Remainder, Textual, TrimReturns, Joined, IndexByte;
    var i := IndexByte(s);
    Unfolds(s, i);
    JoinedFirst([], []);
    if i < |s| {
      var line, tail := s[..i], s[i + 1..];
      SplittingKeepsText(tail);
      LineKeepsText(line, tail);
      assert s == line + [NEWLINE] + tail;
      var head, lines := TrimReturns(line), Terminated(tail);
      JoinedFirst(head, lines);
      TextualJoins(head, Joined(lines));
      var x, y, z := Textual(head), Textual(Joined(lines)), Textual(Remainder(tail));
      assert (x + y) + z == x + (y + z);
    } else {
      TextualJoins([], s);
      assert [] + s == s;
    }
  }

  lemma {:induction false} WriteKeepsText(buf: Bytes, p: Bytes)
    ensures Textual(Joined(Emits(buf, p))) + Textual(Leaves(buf, p)) == Textual(buf + p)
  {
    var data := buf + p;
    var rest := Remainder(data);
    SplittingKeepsText(data);
    if |rest| > MAX_LINE {
      JoinedAppends(Terminated(data), [rest]);
      assert [rest][1..] == [];
      assert Joined([rest]) == rest + [] == rest;
      TextualJoins(Joined(Terminated(data)), rest);
    }
  }

  lemma {:induction false} TextComposes(lines: seq<Bytes>, more: seq<Bytes>, data: Bytes, leaves: Bytes, later: Bytes)
    requires Textual(Joined(lines)) + Textual(leaves) == Textual(data)
    requires Textual(Joined(more)) == Textual(leaves + later)
    ensures Textual(Joined(lines + more)) == Textual(data + later)
  {
    hide Textual, Joined;
    JoinedAppends(lines, more);
    TextualJoins(Joined(lines), Joined(more));
    TextualJoins(leaves, later);
    TextualJoins(data, later);
    var a, b, c := Textual(Joined(lines)), Textual(leaves), Textual(later);
    assert a + (b + c) == (a + b) + c;
  }

  /** No byte of text is lost or reordered, even when lines are torn. */
  lemma {:induction false} NoTextIsLost(buf: Bytes, pieces: seq<Bytes>)
    ensures Textual(Joined(Output(buf, pieces))) == Textual(buf + Joined(pieces))
    decreases |pieces|
  {
    hide Textual, Emits, Leaves, Output, Joined, Flushed;
    if pieces == [] {
      FlushKeepsText(buf);
    } else {
      var p, later := pieces[0], Joined(pieces[1..]);
      var leaves := Leaves(buf, p);
      NoTextIsLost(leaves, pieces[1..]);
      WriteKeepsText(buf, p);
      TextComposes(Emits(buf, p), Output(leaves, pieces[1..]), buf + p, leaves, later);
      OnePiece(buf, pieces);
      assert buf + (p + later) == buf + p + later;
    }
  }

  lemma FlushKeepsText(buf: Bytes)
    ensures Output(buf, []) == Flushed(buf) && Joined(Flushed(buf)) == buf && buf + Joined([]) == buf
  {
    assert [buf][1..] == [];
    assert Joined([buf]) == buf + Joined([]);
    assert buf + [] == buf;
  }

  lemma OnePiece(buf: Bytes, pieces: seq<Bytes>)
    requires pieces != []
    ensures Joined(pieces) == pieces[0] + Joined(pieces[1..])
    ensures Output(buf, pieces) == Emits(buf, pieces[0]) + Output(Leaves(buf, pieces[0]), pieces[1..])
  {
    hide Emits, Leaves;
  }
}
