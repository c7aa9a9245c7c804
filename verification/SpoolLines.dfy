/**
 Incremental line splitting of a growing spool file: each read decodes the whole
 file lossily, resumes at the cursor and hands over the newly completed lines.
 Text is modelled as its UTF-8 bytes.
 */
module SpoolLines {
  type Bytes = seq<nat>

  const NEWLINE: nat := 10
  const RETURN: nat := 13
  const REPLACEMENT: Bytes := [0xEF, 0xBF, 0xBD]

  // ---------- lossy UTF-8 decoding ----------

  predicate Continues(b: Bytes, i: nat, low: nat, high: nat) {
    i < |b| && low <= b[i] <= high
  }

  /** How many bytes the next unit of `b` spans, and whether they form one scalar value. */
  function Unit(b: Bytes): (u: (nat, bool))
    requires b != []
    ensures 1 <= u.0 <= |b|
    ensures forall i :: 0 < i < u.0 ==> b[i] >= 0x80
  {
    var lead := b[0];
    if lead < 0x80 then (1, true)
    else if 0xC2 <= lead <= 0xDF then Tail(b, 2, 0x80, 0xBF)
    else if lead == 0xE0 then Tail(b, 3, 0xA0, 0xBF)
    else if lead == 0xED then Tail(b, 3, 0x80, 0x9F)
    else if 0xE1 <= lead <= 0xEF then Tail(b, 3, 0x80, 0xBF)
    else if lead == 0xF0 then Tail(b, 4, 0x90, 0xBF)
    else if 0xF1 <= lead <= 0xF3 then Tail(b, 4, 0x80, 0xBF)
    else if lead == 0xF4 then Tail(b, 4, 0x80, 0x8F)
    else (1, false)
  }

  /** The second byte lies in a range of its own; a broken sequence ends before its first wrong byte. */
  function Tail(b: Bytes, length: nat, low: nat, high: nat): (u: (nat, bool))
    requires b != [] && 2 <= length <= 4 && 0x80 <= low <= high
    ensures 1 <= u.0 <= |b|
    ensures forall i :: 0 < i < u.0 ==> b[i] >= 0x80
  {
    if !Continues(b, 1, low, high) then (1, false)
    else if length == 2 then (2, true)
    else if !Continues(b, 2, 0x80, 0xBF) then (2, false)
    else if length == 3 then (3, true)
    else if !Continues(b, 3, 0x80, 0xBF) then (3, false)
    else (4, true)
  }

  function Piece(b: Bytes): Bytes
    requires b != []
  {
    if Unit(b).1 then b[..Unit(b).0] else REPLACEMENT
  }

  function DecodeLossy(b: Bytes): Bytes {
    if b == [] then [] else Piece(b) + DecodeLossy(b[Unit(b).0..])
  }

  // ---------- a newline splits the decoding ----------

  /** A unit that starts before a newline ends before it, whatever follows the newline. */
  lemma UnitStopsAtNewline(a: Bytes, b: Bytes)
    requires a != []
    ensures Unit(a + [NEWLINE] + b) == Unit(a + [NEWLINE]) && Unit(a + [NEWLINE]).0 <= |a|
  {
    var x, y := a + [NEWLINE] + b, a + [NEWLINE];
    assert forall i :: 0 <= i <= |a| ==> x[i] == y[i];
    assert y[|a|] == NEWLINE;
  }

  lemma Regroup<T>(p: seq<T>, q: seq<T>, r: seq<T>)
    ensures p + (q + r) == p + q + r
  {
  }

  /** The first unit decodes alike with and without what follows the newline. */
  lemma FirstPiece(a: Bytes, b: Bytes) returns (n: nat, piece: Bytes)
    requires a != []
    ensures 1 <= n <= |a|
    ensures DecodeLossy(a + [NEWLINE] + b) == piece + DecodeLossy(a[n..] + [NEWLINE] + b)
    ensures DecodeLossy(a + [NEWLINE]) == piece + DecodeLossy(a[n..] + [NEWLINE])
  {
    var x, y := a + [NEWLINE] + b, a + [NEWLINE];
    UnitStopsAtNewline(a, b);
    n := Unit(y).0;
    piece := Piece(y);
    assert x[n..] == a[n..] + [NEWLINE] + b && y[n..] == a[n..] + [NEWLINE];
    assert x[..n] == y[..n];
  }

  lemma BareNewline(b: Bytes)
    ensures DecodeLossy([NEWLINE] + b) == [NEWLINE] + DecodeLossy(b)
  {
    assert ([NEWLINE] + b)[1..] == b && ([NEWLINE] + b)[..1] == [NEWLINE];
  }

  lemma {:induction false} NewlineSplits(a: Bytes, b: Bytes)
    ensures DecodeLossy(a + [NEWLINE] + b) == DecodeLossy(a + [NEWLINE]) + DecodeLossy(b)
    decreases |a|
  {
    if a == [] {
      assert a + [NEWLINE] + b == [NEWLINE] + b && a + [NEWLINE] == [NEWLINE] + [];
      BareNewline(b);
      BareNewline([]);
    } else {
      var n, piece := FirstPiece(a, b);
      NewlineSplits(a[n..], b);
      Regroup(piece, DecodeLossy(a[n..] + [NEWLINE]), DecodeLossy(b));
    }
  }

  lemma {:induction false} NoNewlineAppears(b: Bytes)
    requires NEWLINE !in b
    ensures NEWLINE !in DecodeLossy(b)
  {
    if b != [] {
      NoNewlineAppears(b[Unit(b).0..]);
    }
  }

  // ---------- lines ----------

  function TrimEol(s: Bytes): Bytes {
    if s != [] && (s[|s| - 1] == NEWLINE || s[|s| - 1] == RETURN) then TrimEol(s[..|s| - 1]) else s
  }

  /** The byte length of a leading Unicode white-space character, or 0. */
  function LeadingSpace(s: Bytes): (n: nat)
    ensures n <= |s|
  {
    if s == [] then 0
    else if 9 <= s[0] <= 13 || s[0] == 32 then 1
    else if |s| >= 2 && s[0] == 0xC2 && (s[1] == 0x85 || s[1] == 0xA0) then 2
    else if |s| < 3 then 0
    else if s[..3] == [0xE1, 0x9A, 0x80] || s[..3] == [0xE2, 0x81, 0x9F] || s[..3] == [0xE3, 0x80, 0x80] then 3
    else if s[0] == 0xE2 && s[1] == 0x80
            && (0x80 <= s[2] <= 0x8A || s[2] == 0xA8 || s[2] == 0xA9 || s[2] == 0xAF) then 3
    else 0
  }

  predicate BlankText(s: Bytes) {
    s == [] || (LeadingSpace(s) > 0 && BlankText(s[LeadingSpace(s)..]))
  }

  predicate EndsLine(s: Bytes) {
    s != [] ==> s[|s| - 1] == NEWLINE
  }

  /** The end of the last newline, or 0. */
  function LastEnd(s: Bytes): (n: nat)
    ensures n <= |s|
  {
    if EndsLine(s) then |s| else LastEnd(s[..|s| - 1])
  }

  /** All newline-terminated pieces, newline included, in order. */
  function Pieces(s: Bytes): seq<Bytes> {
    if s == [] then [] else Pieces(s[..|s| - 1]) + Completed(s)
  }

  /** The piece that the last byte completes, if it is a newline. */
  function Completed(s: Bytes): seq<Bytes>
    requires s != []
  {
    if s[|s| - 1] == NEWLINE then [s[LastEnd(s[..|s| - 1])..]] else []
  }

  /** The line a terminated piece contributes, if it is not blank. */
  function LineOf(piece: Bytes): seq<Bytes> {
    var line := TrimEol(piece);
    if BlankText(line) then [] else [line]
  }

  function Kept(pieces: seq<Bytes>): seq<Bytes> {
    if pieces == [] then [] else Kept(pieces[..|pieces| - 1]) + LineOf(pieces[|pieces| - 1])
  }

  /** All nonblank newline-terminated lines, in order. */
  function Lines(s: Bytes): seq<Bytes> {
    Kept(Pieces(s))
  }

  lemma {:induction false} LastEndIsLast(s: Bytes)
    ensures var n := LastEnd(s); EndsLine(s[..n]) && NEWLINE !in s[n..]
  {
    if EndsLine(s) {
      assert s[..|s|] == s;
    } else {
      var front := s[..|s| - 1];
      LastEndIsLast(front);
      var n := LastEnd(front);
      assert s[..n] == front[..n] && s[n..] == front[n..] + [s[|s| - 1]];
    }
  }

  // ---------- lines of a text cut at a newline ----------

  lemma {:induction false} KeptJoin(x: seq<Bytes>, y: seq<Bytes>)
    ensures Kept(x + y) == Kept(x) + Kept(y)
  {
    if y == [] {
      assert x + y == x;
    } else {
      assert (x + y)[..|x + y| - 1] == x + y[..|y| - 1];
      KeptJoin(x, y[..|y| - 1]);
      Regroup(Kept(x), Kept(y[..|y| - 1]), LineOf(y[|y| - 1]));
    }
  }

  lemma {:induction false} LastEndJoin(a: Bytes, b: Bytes)
    requires EndsLine(a)
    ensures LastEnd(a + b) == |a| + LastEnd(b)
  {
    if b == [] {
      assert a + b == a;
    } else {
      assert (a + b)[..|a + b| - 1] == a + b[..|b| - 1];
      LastEndJoin(a, b[..|b| - 1]);
    }
  }

  lemma JoinedFront(a: Bytes, b: Bytes)
    requires b != []
    ensures (a + b)[..|a + b| - 1] == a + b[..|b| - 1] && (a + b)[|a + b| - 1] == b[|b| - 1]
  {
  }

  lemma JoinedTail(a: Bytes, b: Bytes, n: nat)
    requires n <= |b|
    ensures (a + b)[|a| + n..] == b[n..]
  {
  }

  lemma CompletedJoin(a: Bytes, b: Bytes)
    requires EndsLine(a) && b != []
    ensures Completed(a + b) == Completed(b)
  {
    JoinedFront(a, b);
    LastEndJoin(a, b[..|b| - 1]);
    JoinedTail(a, b, LastEnd(b[..|b| - 1]));
  }

  lemma {:induction false} PiecesJoin(a: Bytes, b: Bytes)
    requires EndsLine(a)
    ensures Pieces(a + b) == Pieces(a) + Pieces(b)
  {
    if b == [] {
      assert a + b == a;
    } else {
      JoinedFront(a, b);
      PiecesJoin(a, b[..|b| - 1]);
      CompletedJoin(a, b);
      Regroup(Pieces(a), Pieces(b[..|b| - 1]), Completed(b));
    }
  }

  lemma LinesJoin(a: Bytes, b: Bytes)
    requires EndsLine(a)
    ensures Lines(a + b) == Lines(a) + Lines(b) && LastEnd(a + b) == |a| + LastEnd(b)
  {
    PiecesJoin(a, b);
    LastEndJoin(a, b);
    KeptJoin(Pieces(a), Pieces(b));
  }

  lemma {:induction false} NoPieces(s: Bytes)
    requires NEWLINE !in s
    ensures Pieces(s) == [] && LastEnd(s) == 0
  {
    if s != [] {
      NoPieces(s[..|s| - 1]);
    }
  }

  function Flatten(pieces: seq<Bytes>): Bytes {
    if pieces == [] then [] else Flatten(pieces[..|pieces| - 1]) + pieces[|pieces| - 1]
  }

  predicate SingleLine(piece: Bytes) {
    piece != [] && EndsLine(piece) && NEWLINE !in piece[..|piece| - 1]
  }

  /** A newline at the end completes the one line since the last newline before it. */
  lemma CompletedLine(s: Bytes)
    requires s != [] && s[|s| - 1] == NEWLINE
    ensures var front, n := s[..|s| - 1], LastEnd(s[..|s| - 1]);
            Completed(s) == [s[n..]] && SingleLine(s[n..]) && front[..n] + s[n..] == s
  {
    var front, n := s[..|s| - 1], LastEnd(s[..|s| - 1]);
    LastEndIsLast(front);
    assert s[n..][..|s| - n - 1] == front[n..];
  }

  lemma FlattenMore(pieces: seq<Bytes>, piece: Bytes)
    ensures Flatten(pieces + [piece]) == Flatten(pieces) + piece
  {
    assert (pieces + [piece])[..|pieces|] == pieces;
  }

  /** The pieces cut the text up to its last newline, each at its one newline. */
  lemma {:induction false} PiecesCutTheText(s: Bytes)
    ensures Flatten(Pieces(s)) == s[..LastEnd(s)]
    ensures forall piece :: piece in Pieces(s) ==> SingleLine(piece)
  {
    if s != [] {
      var front, n := s[..|s| - 1], LastEnd(s[..|s| - 1]);
      PiecesCutTheText(front);
      if s[|s| - 1] == NEWLINE {
        CompletedLine(s);
        FlattenMore(Pieces(front), s[n..]);
        assert s[..|s|] == s;
      } else {
        assert Pieces(front) + [] == Pieces(front);
        assert s[..n] == front[..n];
      }
    }
  }

  /** A text whose only newline is its last byte is one line. */
  lemma OneLine(s: Bytes)
    requires s != [] && EndsLine(s) && NEWLINE !in s[..|s| - 1]
    ensures Lines(s) == LineOf(s)
  {
    NoPieces(s[..|s| - 1]);
    assert s[0..] == s;
    assert Pieces(s) == [] + [s] == [s];
    assert [s][..0] == [];
    assert Kept([s]) == [] + LineOf(s);
  }

  /** The position of the next newline, or the length when there is none. */
  method NextNewline(s: Bytes, from: nat) returns (p: nat)
    requires from <= |s|
    ensures from <= p <= |s| && NEWLINE !in s[from..p] && (p < |s| ==> s[p] == NEWLINE)
  {
    p := from;
    while p < |s| && s[p] != NEWLINE
      invariant from <= p <= |s| && forall k :: from <= k < p ==> s[k] != NEWLINE
    {
      p := p + 1;
    }
  }

  lemma TakeLine(s: Bytes, from: nat, p: nat)
    requires from <= p < |s| && EndsLine(s[..from]) && NEWLINE !in s[from..p] && s[p] == NEWLINE
    ensures EndsLine(s[..p + 1]) && Lines(s[..p + 1]) == Lines(s[..from]) + LineOf(s[from..p + 1])
  {
    var piece := s[from..p + 1];
    assert piece[..|piece| - 1] == s[from..p];
    OneLine(piece);
    assert s[..p + 1] == s[..from] + piece;
    LinesJoin(s[..from], piece);
  }

  lemma LeaveRest(s: Bytes, from: nat)
    requires from <= |s| && EndsLine(s[..from]) && NEWLINE !in s[from..]
    ensures Lines(s) == Lines(s[..from]) && LastEnd(s) == from
  {
    NoPieces(s[from..]);
    assert s == s[..from] + s[from..];
    LinesJoin(s[..from], s[from..]);
  }

  /** Splits off the complete lines of the unread text. */
  method CompleteSpoolLines(unread: Bytes) returns (lines: seq<Bytes>, consumed: nat)
    ensures lines == Lines(unread) && consumed == LastEnd(unread)
  {
    lines, consumed := [], 0;
    while true
      invariant consumed <= |unread| && EndsLine(unread[..consumed])
      invariant lines == Lines(unread[..consumed])
      decreases |unread| - consumed
    {
      var p := NextNewline(unread, consumed);
      if p == |unread| {
        assert unread[consumed..p] == unread[consumed..];
        LeaveRest(unread, consumed);
        return;
      }
      TakeLine(unread, consumed, p);
      var line := TrimEol(unread[consumed..p + 1]);
      consumed := p + 1;
      if !BlankText(line) {
        lines := lines + [line];
      }
    }
  }

  // ---------- the cursor over a growing file ----------

  /** The decoded text up to the last complete line of the file. */
  function Settled(file: Bytes): Bytes {
    DecodeLossy(file[..LastEnd(file)])
  }

  lemma {:induction false} DecodedLineEnds(b: Bytes)
    requires EndsLine(b)
    ensures EndsLine(DecodeLossy(b))
  {
    if b != [] {
      var front := b[..|b| - 1];
      assert b == front + [NEWLINE];
      DecodedNewline(front);
    }
  }

  lemma {:induction false} DecodedNewline(a: Bytes)
    ensures DecodeLossy(a + [NEWLINE]) != [] && EndsLine(DecodeLossy(a + [NEWLINE]))
    decreases |a|
  {
    if a == [] {
      assert a + [NEWLINE] == [NEWLINE] + [];
      BareNewline([]);
    } else {
      var n, piece := FirstPiece(a, []);
      DecodedNewline(a[n..]);
    }
  }

  lemma CutAtNewline(file: Bytes, n: nat)
    requires 0 < n <= |file| && file[n - 1] == NEWLINE
    ensures file[..n] == file[..n - 1] + [NEWLINE] && file == file[..n - 1] + [NEWLINE] + file[n..]
  {
  }

  /** Everything up to a newline decodes the same however the file grows. */
  lemma DecodeSplitsAt(file: Bytes, n: nat)
    requires n <= |file| && EndsLine(file[..n])
    ensures DecodeLossy(file) == DecodeLossy(file[..n]) + DecodeLossy(file[n..])
  {
    if n == 0 {
      assert file[n..] == file;
    } else {
      CutAtNewline(file, n);
      NewlineSplits(file[..n - 1], file[n..]);
    }
  }

  /** The complete lines of the decoded file are those of its settled part. */
  lemma SettledHoldsTheLines(file: Bytes)
    ensures LastEnd(DecodeLossy(file)) == |Settled(file)|
    ensures Lines(DecodeLossy(file)) == Lines(Settled(file))
    ensures Settled(file) <= DecodeLossy(file) && EndsLine(Settled(file))
  {
    var n := LastEnd(file);
    LastEndIsLast(file);
    DecodeSplitsAt(file, n);
    DecodedLineEnds(file[..n]);
    NoNewlineAppears(file[n..]);
    LinesJoin(Settled(file), DecodeLossy(file[n..]));
    NoPieces(DecodeLossy(file[n..]));
  }

  /** When the file has grown, the settled part is still there. */
  lemma GrowthKeepsSettled(file: Bytes, grown: Bytes) returns (unread: Bytes)
    requires file <= grown
    ensures DecodeLossy(grown) == Settled(file) + unread
  {
    var n := LastEnd(file);
    LastEndIsLast(file);
    assert grown[..n] == file[..n];
    DecodeSplitsAt(grown, n);
    unread := DecodeLossy(grown[n..]);
  }

  /** The lines of a grown file are those already complete and those of the text after them. */
  lemma GrowthAddsLines(file: Bytes, grown: Bytes)
    requires file <= grown
    ensures var text, start := DecodeLossy(grown), |Settled(file)|;
            && start <= |text|
            && Lines(text) == Lines(DecodeLossy(file)) + Lines(text[start..])
            && LastEnd(text) == start + LastEnd(text[start..])
  {
    var unread := GrowthKeepsSettled(file, grown);
    SettledHoldsTheLines(file);
    assert DecodeLossy(grown)[|Settled(file)|..] == unread;
    LinesJoin(Settled(file), unread);
  }

  /**
   Having read the file so far, the cursor sits at zero or just after the last
   newline of the decoded text, and every complete nonblank line before it was
   handed over, once and in order.
   */
  predicate CaughtUp(file: Bytes, consumed: nat, delivered: seq<Bytes>) {
    && delivered == Lines(DecodeLossy(file))
    && consumed == LastEnd(DecodeLossy(file)) == |Settled(file)|
    && (consumed == 0 || DecodeLossy(file)[consumed - 1] == NEWLINE)
  }

  lemma StartsCaughtUp()
    ensures CaughtUp([], 0, [])
  {
  }

  /** A cursor beyond the text means the file was truncated: start over. */
  function ResumeAt(consumed: nat, length: nat): nat {
    if length < consumed then 0 else consumed
  }

  /** The lines completed since the cursor, and the cursor after them. */
  predicate ReadsOn(text: Bytes, consumed: nat, lines: seq<Bytes>, end: nat) {
    var unread := text[ResumeAt(consumed, |text|)..];
    lines == Lines(unread) && end == ResumeAt(consumed, |text|) + LastEnd(unread)
  }

  method ReadNew(text: Bytes, consumed: nat) returns (lines: seq<Bytes>, end: nat, reset: bool)
    ensures ReadsOn(text, consumed, lines, end) && (reset <==> |text| < consumed)
  {
    reset := |text| < consumed;
    var start := ResumeAt(consumed, |text|);
    var delta;
    lines, delta := CompleteSpoolLines(text[start..]);
    end := start + delta;
  }

  lemma AtLineEnd(file: Bytes)
    ensures var text, n := DecodeLossy(file), LastEnd(DecodeLossy(file));
            n == |Settled(file)| && (n == 0 || text[n - 1] == NEWLINE)
  {
    SettledHoldsTheLines(file);
    LastEndIsLast(DecodeLossy(file));
  }

  /** What was known of a text and what is read on from there are its lines, up to its last newline. */
  lemma ReadOnLines(text: Bytes, start: nat, known: seq<Bytes>, lines: seq<Bytes>, end: nat)
    requires start <= |text| && ReadsOn(text, start, lines, end)
    requires Lines(text) == known + Lines(text[start..]) && LastEnd(text) == start + LastEnd(text[start..])
    ensures start <= end == LastEnd(text) && known + lines == Lines(text)
  {
  }

  lemma ReachesLineEnd(file: Bytes, end: nat, lines: seq<Bytes>)
    requires end == LastEnd(DecodeLossy(file)) && lines == Lines(DecodeLossy(file))
    ensures CaughtUp(file, end, lines)
  {
    AtLineEnd(file);
  }

  /** Reading on after the file has grown starts inside the text and catches up with it. */
  lemma ReadingOnCatchesUp(file: Bytes, consumed: nat, delivered: seq<Bytes>, grown: Bytes, lines: seq<Bytes>, end: nat)
    requires file <= grown && CaughtUp(file, consumed, delivered) && ReadsOn(DecodeLossy(grown), consumed, lines, end)
    ensures consumed <= |DecodeLossy(grown)| && consumed <= end
    ensures CaughtUp(grown, end, delivered + lines)
  {
    GrowthAddsLines(file, grown);
    ReadOnLines(DecodeLossy(grown), consumed, delivered, lines, end);
    ReachesLineEnd(grown, end, delivered + lines);
  }

  class SpoolCursor {
    var consumed: nat
    /** The file as last read, and all lines handed over so far. */
    ghost var file: Bytes
    ghost var delivered: seq<Bytes>

    ghost predicate Valid()
      reads this
    {
      CaughtUp(file, consumed, delivered)
    }

    constructor ()
      ensures Valid() && file == [] && delivered == [] && consumed == 0
    {
      consumed, file, delivered := 0, [], [];
      new;
      StartsCaughtUp();
    }

    /**
     One incremental read of a file that has only grown. The truncation reset
     never fires.
     */
    method PersistNewFrames(bytes: Bytes) returns (lines: seq<Bytes>, reset: bool)
      requires Valid() && file <= bytes
      modifies this
      ensures Valid() && file == bytes && delivered == old(delivered) + lines
      ensures !reset && old(consumed) <= consumed
    {
      var text := DecodeLossy(bytes);
      var end;
      lines, end, reset := ReadNew(text, consumed);
      ReadingOnCatchesUp(file, consumed, delivered, bytes, lines, end);
      consumed, file, delivered := end, bytes, delivered + lines;
    }
  }
}
