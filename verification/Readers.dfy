/** Chunked readers (src/runtime-files.ts): a file is read in pieces of whatever
    size each read returns, and the result is that of the whole-file definition.

    The file does not change while it is read. A read before the end of the file
    returns at least one byte and at most what was asked for. */
module Readers {

  type Byte = b: int | 0 <= b < 256

  type Bytes = seq<Byte>

  const NEWLINE: Byte := 0x0a
  const CHUNK: nat := 64 * 1024

  function Min(a: nat, b: nat): nat {
    if a <= b then a else b
  }

  function Max(a: nat, b: nat): nat {
    if a >= b then a else b
  }

  /** One read: some prefix of what lies at `position`, at most `length` bytes. */
  method Read(file: Bytes, position: nat, length: nat) returns (bytes: Bytes)
    requires length > 0
    ensures position >= |file| ==> bytes == []
    ensures position < |file| ==> 0 < |bytes| <= length && position + |bytes| <= |file|
    ensures position < |file| ==> bytes == file[position..position + |bytes|]
  {
    if position >= |file| { return []; }
    var count: nat :| 0 < count <= length && position + count <= |file| by {
      assert 0 < 1 <= length && position + 1 <= |file|;
    }
    bytes := file[position..position + count];
  }

  // --------------------------------------------------------------------- lines

  function Newlines(t: Bytes): nat {
    if t == [] then 0 else Newlines(t[..|t| - 1]) + if t[|t| - 1] == NEWLINE then 1 else 0
  }

  /** The line, counted from 1, that the byte at `i` belongs to. */
  function LineAt(t: Bytes, i: nat): nat
    requires i <= |t|
  {
    1 + Newlines(t[..i])
  }

  datatype End = Unlimited | Before(line: nat)

  predicate InRange(line: nat, first: nat, end: End) {
    first <= line && (end.Before? ==> line < end.line)
  }

  /** The bytes of lines `first` up to `end`. */
  function LinesOf(t: Bytes, first: nat, end: End): Bytes {
    if t == [] then []
    else
      var n := |t| - 1;
      LinesOf(t[..n], first, end) + if InRange(LineAt(t, n), first, end) then [t[n]] else []
  }

  function Take(t: Bytes, cap: nat): Bytes {
    if |t| <= cap then t else t[..cap]
  }

  /** The lines of a text; a last line need not end in a line feed. */
  function LineCount(t: Bytes): nat {
    if t == [] || t[|t| - 1] == NEWLINE then Newlines(t) else Newlines(t) + 1
  }

  lemma {:induction false} NewlinesSplit(a: Bytes, b: Bytes)
    ensures Newlines(a + b) == Newlines(a) + Newlines(b)
  {
    if b == [] {
      assert a + b == a;
    } else {
      NewlinesSplit(a, b[..|b| - 1]);
      assert (a + b)[..|a + b| - 1] == a + b[..|b| - 1];
    }
  }

  lemma {:induction false} NoNewlines(t: Bytes)
    requires NEWLINE !in t
    ensures Newlines(t) == 0
  {
    if t != [] {
      NoNewlines(t[..|t| - 1]);
    }
  }

  /** A piece of one line adds all of itself or nothing. */
  lemma {:induction false} PieceOfLine(t: Bytes, piece: Bytes, first: nat, end: End)
    requires forall i | 0 <= i < |piece| - 1 :: piece[i] != NEWLINE
    ensures LinesOf(t + piece, first, end) == LinesOf(t, first, end) + if InRange(1 + Newlines(t), first, end) then piece else []
  {
    if piece == [] {
      assert t + piece == t;
      assert LinesOf(t, first, end) + [] == LinesOf(t, first, end);
    } else {
      var n := |piece| - 1;
      var before := piece[..n];
      PieceOfLine(t, before, first, end);
      assert (t + piece)[..|t + piece| - 1] == t + before;
      NewlinesSplit(t, before);
      NoNewlines(before);
      assert piece == before + [piece[n]];
      Appended(LinesOf(t, first, end), before, [piece[n]]);
    }
  }

  lemma Appended(a: Bytes, b: Bytes, c: Bytes)
    ensures (a + b) + c == a + (b + c)
  {}

  /** Keeping `cap` bytes piece by piece keeps the first `cap` bytes of the whole. */
  lemma TakeGrows(t: Bytes, piece: Bytes, cap: nat)
    ensures Take(t + piece, cap) == Take(t, cap) + Take(piece, cap - |Take(t, cap)|)
    ensures |Take(t, cap)| <= cap
  {}

  lemma EndOfPiece(t: Bytes, piece: Bytes, ends: bool)
    requires forall i | 0 <= i < |piece| - 1 :: piece[i] != NEWLINE
    requires piece != [] && (piece[|piece| - 1] == NEWLINE <==> ends)
    ensures Newlines(t + piece) == Newlines(t) + if ends then 1 else 0
  {
    var n := |piece| - 1;
    NewlinesSplit(t, piece);
    NoNewlines(piece[..n]);
  }

  /** Lines one after another; each ends with its only line feed, but the last one
      may lack it. */
  function Joined(lines: seq<Bytes>): Bytes {
    if lines == [] then [] else Joined(lines[..|lines| - 1]) + lines[|lines| - 1]
  }

  ghost predicate AreLines(lines: seq<Bytes>) {
    forall i | 0 <= i < |lines| ::
      && lines[i] != [] && (forall k | 0 <= k < |lines[i]| - 1 :: lines[i][k] != NEWLINE)
      && (i < |lines| - 1 ==> lines[i][|lines[i]| - 1] == NEWLINE)
  }

  /** Of `n` lines, how many come before the end of the range. */
  function StopOf(n: nat, end: End): (stop: nat)
    ensures stop <= n
  {
    if end.Before? && end.line == 0 then 0 else if end.Before? && end.line - 1 < n then end.line - 1 else n
  }

  /** Lines `first` up to `end`, as one counts by hand. */
  function Range(lines: seq<Bytes>, first: nat, end: End): Bytes
    requires 1 <= first
  {
    if first - 1 <= StopOf(|lines|, end) then Joined(lines[first - 1..StopOf(|lines|, end)]) else []
  }

  lemma AllButLast(lines: seq<Bytes>)
    requires AreLines(lines) && lines != []
    ensures var n := |lines| - 1;
            && AreLines(lines[..n]) && lines[n] != [] && (forall k | 0 <= k < |lines[n]| - 1 :: lines[n][k] != NEWLINE)
            && (n > 0 ==> lines[n - 1][|lines[n - 1]| - 1] == NEWLINE)
  {}

  predicate Unended(lines: seq<Bytes>) {
    lines != [] && lines[|lines| - 1] != [] && lines[|lines| - 1][|lines[|lines| - 1]| - 1] != NEWLINE
  }

  /** A text of `n` lines has `n` lines. */
  lemma {:induction false} LinesAreCounted(lines: seq<Bytes>)
    requires AreLines(lines)
    ensures LineCount(Joined(lines)) == |lines|
    ensures Newlines(Joined(lines)) == if Unended(lines) then |lines| - 1 else |lines|
    decreases |lines|
  {
    if lines != [] {
      var n := |lines| - 1;
      AllButLast(lines);
      LinesAreCounted(lines[..n]);
      EndOfPiece(Joined(lines[..n]), lines[n], lines[n][|lines[n]| - 1] == NEWLINE);
    }
  }

  /** And a range of its lines is those lines. */
  lemma {:induction false} LinesAreThose(lines: seq<Bytes>, first: nat, end: End)
    requires AreLines(lines) && 1 <= first
    ensures LinesOf(Joined(lines), first, end) == Range(lines, first, end)
    decreases |lines|
  {
    if lines != [] {
      var n := |lines| - 1;
      AllButLast(lines);
      LinesAreThose(lines[..n], first, end);
      FullLines(lines, n);
      LineAdds(Joined(lines[..n]), lines[n], first, end, n);
      LastOfRange(lines, first, end);
    }
  }

  lemma FullLines(lines: seq<Bytes>, n: nat)
    requires AreLines(lines) && n < |lines|
    ensures Newlines(Joined(lines[..n])) == n
  {
    LinesAreCounted(lines[..n]);
  }

  lemma LineAdds(t: Bytes, line: Bytes, first: nat, end: End, n: nat)
    requires Newlines(t) == n && forall k | 0 <= k < |line| - 1 :: line[k] != NEWLINE
    ensures LinesOf(t + line, first, end) == LinesOf(t, first, end) + if InRange(n + 1, first, end) then line else []
  {
    PieceOfLine(t, line, first, end);
  }

  /** The range of all lines from that of all but the last. */
  lemma LastOfRange(lines: seq<Bytes>, first: nat, end: End)
    requires lines != [] && 1 <= first
    ensures var n := |lines| - 1;
            Range(lines, first, end) == Range(lines[..n], first, end) + if InRange(n + 1, first, end) then lines[n] else []
  {
    var n := |lines| - 1;
    if first - 1 <= n {
      assert lines[first - 1..n + 1][..n - (first - 1)] == lines[first - 1..n];
      assert lines[..n][first - 1..n] == lines[first - 1..n];
    }
    var was := StopOf(n, end);
    if first - 1 <= was {
      assert lines[..n][first - 1..was] == lines[first - 1..was];
    }
  }

  /** Where the line that goes on at `from` stops within `bytes`. */
  method LineStop(bytes: Bytes, from: nat) returns (stop: nat, ends: bool)
    requires from < |bytes|
    ensures from < stop <= |bytes|
    ensures forall i | from <= i < stop - 1 :: bytes[i] != NEWLINE
    ensures bytes[stop - 1] == NEWLINE <==> ends
    ensures !ends ==> stop == |bytes|
  {
    stop, ends := from, false;
    while stop < |bytes| && !ends
      invariant from <= stop <= |bytes|
      invariant ends ==> stop > from && bytes[stop - 1] == NEWLINE
      invariant forall i | from <= i < if ends then stop - 1 else stop :: bytes[i] != NEWLINE
    {
      ends := bytes[stop] == NEWLINE;
      stop := stop + 1;
    }
  }

  /** What the scan has seen after reading the text `t`. */
  ghost predicate Scanned(t: Bytes, first: nat, end: End, cap: nat, page: Bytes, line: nat) {
    page == Take(LinesOf(t, first, end), cap) && line == 1 + Newlines(t)
  }

  lemma ScannedPiece(t: Bytes, piece: Bytes, ends: bool, first: nat, end: End, cap: nat, page: Bytes, line: nat)
    requires Scanned(t, first, end, cap, page, line)
    requires forall i | 0 <= i < |piece| - 1 :: piece[i] != NEWLINE
    requires piece != [] && (piece[|piece| - 1] == NEWLINE <==> ends)
    ensures |page| <= cap
    ensures Scanned(t + piece, first, end, cap,
                    page + if InRange(line, first, end) then Take(piece, cap - |page|) else [], line + if ends then 1 else 0)
  {
    PieceOfLine(t, piece, first, end);
    EndOfPiece(t, piece, ends);
    TakeGrows(LinesOf(t, first, end), if InRange(line, first, end) then piece else [], cap);
  }

  /** The lines of one chunk. */
  method ScanChunk(ghost t: Bytes, bytes: Bytes, first: nat, end: End, cap: nat, page: Bytes, line: nat)
    returns (page': Bytes, line': nat)
    requires Scanned(t, first, end, cap, page, line)
    ensures Scanned(t + bytes, first, end, cap, page', line')
  {
    page', line' := page, line;
    var from := 0;
    assert t + bytes[..0] == t;
    while from < |bytes|
      invariant from <= |bytes|
      invariant Scanned(t + bytes[..from], first, end, cap, page', line')
    {
      var stop, ends := LineStop(bytes, from);
      var piece := bytes[from..stop];
      ScannedPiece(t + bytes[..from], piece, ends, first, end, cap, page', line');
      assert (t + bytes[..from]) + piece == t + bytes[..stop];
      if InRange(line', first, end) && |page'| < cap {
        page' := page' + bytes[from..Min(stop, from + cap - |page'|)];
      }
      if ends { line' := line' + 1; }
      from := stop;
    }
    assert bytes[..from] == bytes;
  }

  /** For every file and every way its reads are split: the first `cap` bytes of
      lines `first` up to `end`, and the line count of the whole text. */
  method ScanLines(file: Bytes, size: nat, first: nat, end: End, cap: nat) returns (page: Bytes, lines: nat)
    ensures var t := file[..Min(size, |file|)];
            page == Take(LinesOf(t, first, end), cap) && lines == LineCount(t)
  {
    page := [];
    var line, last, position := 1, NEWLINE, 0;
    while position < size
      invariant position <= size && position <= |file|
      invariant Scanned(file[..position], first, end, cap, page, line)
      invariant last == if position == 0 then NEWLINE else file[position - 1]
    {
      var bytes := Read(file, position, Min(CHUNK, size - position));
      if bytes == [] { break; }
      page, line := ScanChunk(file[..position], bytes, first, end, cap, page, line);
      assert file[..position] + bytes == file[..position + |bytes|];
      last := bytes[|bytes| - 1];
      position := position + |bytes|;
    }
    lines := if last == NEWLINE then line - 1 else line;
  }

  // ---------------------------------------------------------------- fixed range

  method ReadRange(file: Bytes, position: nat, length: nat) returns (bytes: Bytes)
    ensures bytes == if position <= |file| then file[position..Min(position + length, |file|)] else []
  {
    bytes := [];
    while |bytes| < length
      invariant |bytes| <= length
      invariant bytes == [] || position + |bytes| <= |file|
      invariant position + |bytes| <= |file| ==> bytes == file[position..position + |bytes|]
      decreases length - |bytes|
    {
      var more := Read(file, position + |bytes|, length - |bytes|);
      if more == [] { break; }
      bytes := bytes + more;
    }
  }

  // ------------------------------------------------------------- header length

  const OPENING: Bytes := [0x2d, 0x2d, 0x2d, 0x0a]
  const CLOSING: Bytes := [0x0a, 0x2d, 0x2d, 0x2d, 0x0a]

  predicate ClosesAt(t: Bytes, i: nat) {
    i + 5 <= |t| && t[i..i + 5] == CLOSING
  }

  /** The first place at or after `from` where the header closes, or the length. */
  function FirstClosing(t: Bytes, from: nat): (at: nat)
    ensures at <= |t| && (at < |t| ==> from <= at && ClosesAt(t, at))
    ensures forall i | from <= i && ClosesAt(t, i) :: at <= i
    decreases |t| - from
  {
    if from >= |t| then |t| else if ClosesAt(t, from) then from else FirstClosing(t, from + 1)
  }

  /** The whole-file definition: through the first closing line after the opening
      one, or 0 when there is none. */
  function HeaderLength(t: Bytes): nat {
    var at := FirstClosing(t, 3);
    if at < |t| then at + 5 else 0
  }

  lemma Slices(file: Bytes, start: nat, length: nat, i: nat)
    requires start + length <= |file| && i + 5 <= length
    ensures file[start..start + length][i..i + 5] == file[start + i..start + i + 5]
  {
    var a, b := file[start..start + length][i..i + 5], file[start + i..start + i + 5];
    forall k | 0 <= k < 5
      ensures a[k] == b[k]
    {
      assert a[k] == file[start..start + length][i + k];
    }
  }

  lemma ClosingStarts(t: Bytes, i: nat)
    requires ClosesAt(t, i)
    ensures t[i] == NEWLINE
  {
    assert t[i..i + 5][0] == t[i];
  }

  /** A place in the window is a place in the file. */
  lemma WindowCloses(file: Bytes, start: nat, window: Bytes, i: nat)
    requires start + |window| <= |file| && window == file[start..start + |window|]
    ensures ClosesAt(window, i) <==> i + 5 <= |window| && ClosesAt(file, start + i)
  {
    if i + 5 <= |window| {
      Slices(file, start, |window|, i);
    }
  }

  /** No closing line lies wholly before `read`. */
  ghost predicate NoneBefore(file: Bytes, read: nat) {
    forall i | 3 <= i && i + 5 <= read :: !ClosesAt(file, i)
  }

  /** Where a search ends that may also see bytes 1 and 2. */
  ghost predicate HeaderCloses(file: Bytes, at: nat) {
    ClosesAt(file, at) && (at == 1 || at == 2 || at == FirstClosing(file, 3))
  }

  /** No closing line starts at byte 1 or 2 of a record: it starts with the opening line. */
  lemma NotInOpening(file: Bytes)
    requires OPENING <= file
    ensures !ClosesAt(file, 1) && !ClosesAt(file, 2)
  {
    assert file[1] == OPENING[1] && file[2] == OPENING[2];
    if ClosesAt(file, 1) {
      ClosingStarts(file, 1);
    }
    if ClosesAt(file, 2) {
      ClosingStarts(file, 2);
    }
  }

  /** Searching the window from where the last search cannot have reached. */
  lemma SearchWindow(file: Bytes, start: nat, window: Bytes, seen: nat, from: nat)
    requires start + |window| <= |file| && window == file[start..start + |window|]
    requires NoneBefore(file, start + seen) && seen <= |window|
    requires from == Max(if start > 0 then 0 else 3, if seen > 4 then seen - 4 else 0)
    requires start == 0 || seen == 4
    ensures var at := FirstClosing(window, from);
            && (at < |window| ==> HeaderCloses(file, start + at))
            && (at == |window| ==> NoneBefore(file, start + |window|))
  {
    var at := FirstClosing(window, from);
    if at < |window| {
      WindowCloses(file, start, window, at);
      forall i | 3 <= i && ClosesAt(file, i)
        ensures start + at <= i
      {
        if i < start + at {
          BeforeIsEarlier(file, start, window, seen, from, at, i);
        }
      }
    } else {
      forall i | 3 <= i && i + 5 <= start + |window|
        ensures !ClosesAt(file, i)
      {
        if i + 5 > start + seen {
          WindowCloses(file, start, window, i - start);
        }
      }
    }
  }

  lemma BeforeIsEarlier(file: Bytes, start: nat, window: Bytes, seen: nat, from: nat, at: nat, i: nat)
    requires start + |window| <= |file| && window == file[start..start + |window|]
    requires NoneBefore(file, start + seen) && seen <= |window| && at == FirstClosing(window, from) < |window|
    requires from <= Max(if start > 0 then 0 else 3, if seen > 4 then seen - 4 else 0) && (start == 0 || seen == 4)
    requires 3 <= i < start + at
    ensures !ClosesAt(file, i)
  {
    if i + 5 > start + seen {
      WindowCloses(file, start, window, i - start);
    }
  }

  lemma HeaderFound(file: Bytes, at: nat)
    requires HeaderCloses(file, at)
    ensures !ClosesAt(file, 1) && !ClosesAt(file, 2) ==> HeaderLength(file) == at + 5
  {}

  lemma HeaderMissing(file: Bytes, read: nat, size: nat)
    requires NoneBefore(file, read) && read <= |file| && (read >= size || read == |file|)
    ensures NoneBefore(file, Min(size, |file|)) && (|file| <= size ==> HeaderLength(file) == 0)
  {}

  /** For every file, every size it was given and every way its reads are split:
      0 only where no closing line lies within that size, and otherwise the end
      of the first closing line, or of one that starts at byte 1 or 2. Without
      such a one, and with the whole file read, that is the header's length. */
  method TerminalHeaderLength(file: Bytes, size: nat) returns (length: nat)
    ensures length > 0 ==> length >= 5 && HeaderCloses(file, length - 5)
    ensures length == 0 ==> NoneBefore(file, Min(size, |file|))
    ensures |file| <= size && !ClosesAt(file, 1) && !ClosesAt(file, 2) ==> length == HeaderLength(file)
  {
    var window: Bytes := [];
    var start: nat := 0;
    length := 0;
    while start + |window| < size
      invariant start + |window| <= |file| && window == file[start..start + |window|]
      invariant NoneBefore(file, start + |window|)
      invariant start == 0 || |window| == 4
      decreases size - (start + |window|)
    {
      var bytes := Read(file, start + |window|, CHUNK);
      if bytes == [] { break; }
      var seen := |window|;
      var from := Max(if start > 0 then 0 else 3, if seen > 4 then seen - 4 else 0);
      window := window + bytes;
      SearchWindow(file, start, window, seen, from);
      var at := FirstClosing(window, from);
      if at < |window| {
        HeaderFound(file, start + at);
        return start + at + 5;
      }
      ghost var read := start + |window|;
      assert NoneBefore(file, read);
      if |window| > 4 {
        start, window := start + |window| - 4, window[|window| - 4..];
      }
      assert start + |window| == read;
    }
    HeaderMissing(file, start + |window|, size);
  }

  // ------------------------------------------------------------- UTF-8 slicing

  /** A continuation byte of UTF-8. */
  predicate Continues(b: Byte) {
    0x80 <= b < 0xc0
  }

  /** An encoded code point: a leading byte and its continuation bytes. */
  predicate IsPoint(p: Bytes) {
    p != [] && !Continues(p[0]) && forall i | 1 <= i < |p| :: Continues(p[i])
  }

  function Encoded(points: seq<Bytes>): Bytes {
    if points == [] then [] else points[0] + Encoded(points[1..])
  }

  ghost predicate AllPoints(points: seq<Bytes>) {
    forall p | p in points :: IsPoint(p)
  }

  /** Where the slice starts and ends once both bounds are off continuation bytes. */
  method Utf8Slice(bytes: Bytes, start: nat, end: nat) returns (slice: Bytes, lo: nat, hi: nat)
    requires start <= end <= |bytes|
    ensures start <= lo <= hi <= end && slice == bytes[lo..hi]
    ensures forall i | start <= i < lo :: Continues(bytes[i])
    ensures lo == end || !Continues(bytes[lo])
    ensures forall i | hi < i <= end && i < |bytes| :: Continues(bytes[i])
    ensures hi < end ==> end < |bytes|
    ensures hi == lo || hi == |bytes| || !Continues(bytes[hi])
  {
    var from := start;
    while from < end && Continues(bytes[from])
      invariant start <= from <= end
      invariant forall i | start <= i < from :: Continues(bytes[i])
    {
      from := from + 1;
    }
    var to := end;
    while to > from && to < |bytes| && Continues(bytes[to])
      invariant from <= to <= end
      invariant to < end ==> end < |bytes|
      invariant forall i | to < i <= end && i < |bytes| :: Continues(bytes[i])
    {
      to := to - 1;
    }
    slice, lo, hi := bytes[from..to], from, to;
  }

  lemma {:induction false} EncodedSplit(points: seq<Bytes>, k: nat)
    requires k <= |points|
    ensures Encoded(points) == Encoded(points[..k]) + Encoded(points[k..])
  {
    if k > 0 {
      EncodedSplit(points[1..], k - 1);
      assert points[1..][..k - 1] == points[..k][1..] && points[1..][k - 1..] == points[k..];
    }
  }

  lemma FirstPoint(points: seq<Bytes>, i: nat)
    requires points != [] && IsPoint(points[0]) && 0 < i < |Encoded(points)|
    ensures i < |points[0]| ==> Continues(Encoded(points)[i])
  {
    if i < |points[0]| {
      assert Encoded(points)[i] == points[0][i];
    }
  }

  lemma OffsetsGrow(points: seq<Bytes>, k: nat, j: nat)
    requires k <= j <= |points|
    ensures |Encoded(points[..k])| <= |Encoded(points[..j])|
  {
    EncodedSplit(points[..j], k);
    assert points[..j][..k] == points[..k];
  }

  /** In well-formed text a byte that does not continue starts a code point. */
  lemma {:induction false} StartOfPoint(points: seq<Bytes>, i: nat) returns (k: nat)
    requires AllPoints(points) && i <= |Encoded(points)| && (i == |Encoded(points)| || !Continues(Encoded(points)[i]))
    ensures k <= |points| && |Encoded(points[..k])| == i
  {
    if i == 0 { return 0; }
    var p := points[0];
    assert IsPoint(p);
    assert i >= |p| by {
      if i < |Encoded(points)| { FirstPoint(points, i); }
    }
    forall q | q in points[1..]
      ensures IsPoint(q)
    {
      assert q in points;
    }
    k := StartOfPoint(points[1..], i - |p|);
    k := k + 1;
    assert points[..k][1..] == points[1..][..k - 1];
  }

  /** Slicing well-formed text between bounds that do not split a code point gives
      whole code points: those that lie between the bounds. */
  lemma SliceIsWholePoints(points: seq<Bytes>, lo: nat, hi: nat) returns (j: nat, k: nat)
    requires AllPoints(points) && lo < hi <= |Encoded(points)|
    requires !Continues(Encoded(points)[lo]) && (hi == |Encoded(points)| || !Continues(Encoded(points)[hi]))
    ensures j <= k <= |points| && |Encoded(points[..j])| == lo && |Encoded(points[..k])| == hi
    ensures Encoded(points)[lo..hi] == Encoded(points[j..k])
  {
    j := StartOfPoint(points, lo);
    k := StartOfPoint(points, hi);
    if k <= j {
      OffsetsGrow(points, k, j);
    }
    EncodedSplit(points, k);
    EncodedSplit(points[..k], j);
    assert points[..k][..j] == points[..j] && points[..k][j..] == points[j..k];
  }
}
