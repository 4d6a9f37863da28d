/**
  Line tables and byte chunks of Python symbols. The chunk loop measures its
  line limit from the symbol's first line, not from the cursor, so it does not
  always end; when it does and what it then produces is stated exactly.
*/
module PythonChunks {
  import opened Prelude

  type Bytes = seq<Byte>

  /* ---------- lines ---------- */

  /** Octets of the first line with its terminator (\n, \r or \r\n), as bytes.splitlines(keepends=True) cuts it. */
  function FirstLine(s: Bytes): (n: nat)
    requires s != []
    ensures 1 <= n <= |s|
    decreases |s|
  {
    if s[0] == 10 then 1
    else if s[0] == 13 then (if |s| > 1 && s[1] == 10 then 2 else 1)
    else if |s| == 1 then 1
    else 1 + FirstLine(s[1..])
  }

  /** Position p of data starts a new line: the octet before it ends one. */
  predicate LineBreak(data: Bytes, p: nat)
    requires 0 < p < |data|
  {
    data[p - 1] == 10 || (data[p - 1] == 13 && data[p] != 10)
  }

  /** offsets[i] is where line i+1 starts; the last entry is the length of the data. */
  ghost predicate LineTable(offsets: seq<nat>, data: Bytes) {
    && |offsets| > 0 && offsets[0] == 0 && offsets[|offsets| - 1] == |data|
    && (forall i, j :: 0 <= i < j < |offsets| ==> offsets[i] < offsets[j])
    && (forall p :: 0 < p < |data| ==> (p in offsets <==> LineBreak(data, p)))
  }

  /** A first line stops at the first break and at nothing earlier. */
  lemma {:induction false} FirstLineStopsAtBreak(data: Bytes, start: nat)
    requires start < |data|
    requires start > 0 ==> LineBreak(data, start)
    ensures var e := start + FirstLine(data[start..]);
      && (e < |data| ==> LineBreak(data, e))
      && forall p :: start < p < e ==> !LineBreak(data, p)
  {
    ScanLine(data, start);
  }

  lemma {:induction false} ScanLine(data: Bytes, at: nat)
    requires at < |data|
    ensures var e := at + FirstLine(data[at..]);
      && (e < |data| ==> LineBreak(data, e))
      && forall p :: at < p < e ==> !LineBreak(data, p)
    decreases |data| - at
  {
    var s := data[at..];
    if s[0] != 10 && s[0] != 13 && |s| > 1 {
      assert s[1..] == data[at + 1..];
      ScanLine(data, at + 1);
    }
  }

  /** _line_offsets; its closing append never fires, because the lines cover the data. */
  method LineOffsets(data: Bytes) returns (offsets: seq<nat>)
    ensures LineTable(offsets, data)
  {
    offsets := [0];
    var cursor := 0;
    while cursor < |data|
      invariant 0 <= cursor <= |data| && |offsets| > 0
      invariant offsets[0] == 0 && offsets[|offsets| - 1] == cursor
      invariant forall i, j :: 0 <= i < j < |offsets| ==> offsets[i] < offsets[j]
      invariant 0 < cursor < |data| ==> LineBreak(data, cursor)
      invariant forall p :: 0 < p < |data| && p <= cursor ==> (p in offsets <==> LineBreak(data, p))
    {
      FirstLineStopsAtBreak(data, cursor);
      var next := cursor + FirstLine(data[cursor..]);
      ghost var before := offsets;
      offsets := offsets + [next];
      forall p | 0 < p < |data| && p <= next ensures p in offsets <==> LineBreak(data, p) {
        assert p in offsets <==> p in before || p == next;
        if cursor < p < next {
          assert forall i :: 0 <= i < |before| ==> before[i] <= cursor;
        }
      }
      cursor := next;
    }
  }

  /** _line_for_offset: the line that holds an octet; the last line for anything beyond the end. */
  method LineForOffset(offsets: seq<nat>, offset: nat) returns (line: nat)
    requires |offsets| > 0 && offsets[0] == 0
    requires forall i, j :: 0 <= i < j < |offsets| ==> offsets[i] < offsets[j]
    ensures line == LineOf(offsets, offset)
    ensures offset < offsets[|offsets| - 1] ==> 1 <= line < |offsets| && offsets[line - 1] <= offset < offsets[line]
    ensures offset >= offsets[|offsets| - 1] ==> line == if |offsets| > 1 then |offsets| - 1 else 1
  {
    var index := 1;
    while index < |offsets|
      invariant 1 <= index <= |offsets|
      invariant offsets[index - 1] <= offset
    {
      if offset < offsets[index] {
        LineIsUnique(offsets, offset, index);
        return index;
      }
      index := index + 1;
    }
    line := if |offsets| > 1 then |offsets| - 1 else 1;
  }

  /** The line number as a function: the one bracket that holds the offset. */
  ghost function LineOf(offsets: seq<nat>, offset: nat): nat {
    if exists i :: 1 <= i < |offsets| && offsets[i - 1] <= offset < offsets[i]
    then var i :| 1 <= i < |offsets| && offsets[i - 1] <= offset < offsets[i]; i
    else if |offsets| > 1 then |offsets| - 1 else 1
  }

  /** Brackets are ordered like the offsets they hold. */
  lemma BracketOrder(offsets: seq<nat>, i: nat, j: nat, x: int, y: int)
    requires forall k, l :: 0 <= k < l < |offsets| ==> offsets[k] < offsets[l]
    requires 1 <= i <= |offsets| && 1 <= j < |offsets| && offsets[i - 1] <= x <= y < offsets[j]
    ensures i <= j
  {
  }

  lemma LineIsUnique(offsets: seq<nat>, offset: nat, i: nat)
    requires forall i, j :: 0 <= i < j < |offsets| ==> offsets[i] < offsets[j]
    requires 1 <= i < |offsets| && offsets[i - 1] <= offset < offsets[i]
    ensures LineOf(offsets, offset) == i
  {
    BracketOrder(offsets, LineOf(offsets, offset), i, offset, offset);
    BracketOrder(offsets, i, LineOf(offsets, offset), offset, offset);
  }

  /* ---------- the chunk loop ---------- */

  /** A symbol's byte range, the end of its line limit and the chunk size. */
  datatype Span = Span(start: nat, end: nat, limit: nat, size: int)

  function Min(a: int, b: int): int { if a <= b then a else b }

  ghost predicate SymbolLines(offsets: seq<nat>, data: Bytes, startLine: nat, endLine: nat) {
    LineTable(offsets, data) && 1 <= startLine <= endLine && startLine <= |offsets|
  }

  /** start, end and next_line of _chunks_for. */
  function SpanOf(offsets: seq<nat>, length: nat, startLine: nat, endLine: nat, maxBytes: int, maxLines: nat): Span
    requires 1 <= startLine <= endLine && startLine <= |offsets|
  {
    var end := if endLine < |offsets| then offsets[endLine] else length;
    var lineLimit := Min(endLine, startLine + maxLines - 1);
    Span(offsets[startLine - 1], end, if lineLimit < |offsets| then offsets[lineLimit] else end, maxBytes)
  }

  lemma SpanOrdered(offsets: seq<nat>, data: Bytes, startLine: nat, endLine: nat, maxBytes: int, maxLines: nat)
    requires SymbolLines(offsets, data, startLine, endLine)
    ensures var w := SpanOf(offsets, |data|, startLine, endLine, maxBytes, maxLines);
      w.start <= w.limit <= w.end <= |data| && (endLine - startLine < maxLines ==> w.limit == w.end)
  {
  }

  /** One turn of the loop: the next cursor and the partial-line mark. */
  function Turn(w: Span, cursor: int): (int, bool) {
    var target := Min(w.end, Min(w.limit, cursor + w.size));
    if target == cursor then (Min(w.end, cursor + w.size), true)
    else (target, target < w.end && target != w.limit)
  }

  /** The cursor after k turns; it stops once it reaches the end. */
  function Cursor(w: Span, from: int, k: nat): int
    decreases k
  {
    if k == 0 || from >= w.end then from else Cursor(w, Turn(w, from).0, k - 1)
  }

  ghost predicate Ends(w: Span) {
    exists k: nat :: Cursor(w, w.start, k) >= w.end
  }

  /** What a caller can check beforehand. */
  predicate Bounded(w: Span) {
    w.start >= w.end || (w.size > 0 && w.end - w.limit <= w.size)
  }

  lemma {:induction false} ReachesLimit(w: Span, from: nat) returns (k: nat)
    requires w.start <= from <= w.limit <= w.end && w.size > 0
    ensures Cursor(w, from, k) == w.limit
    decreases w.limit - from
  {
    if from == w.limit {
      k := 0;
    } else {
      var next := Turn(w, from).0;
      var rest := ReachesLimit(w, next);
      k := rest + 1;
    }
  }

  lemma {:induction false} CursorAdds(w: Span, from: int, j: nat, k: nat)
    ensures Cursor(w, from, j + k) == Cursor(w, Cursor(w, from, j), k)
    decreases j
  {
    if j > 0 && from < w.end {
      CursorAdds(w, Turn(w, from).0, j - 1, k);
    }
  }

  /** Cursors of an unbounded span: at or before the limit, or the one position past it. */
  lemma {:induction false} NeverEnds(w: Span, from: int, k: nat)
    requires w.start <= w.limit <= w.end && w.start < w.end && !Bounded(w)
    requires if w.size > 0 then from <= w.limit || from == w.limit + w.size else from <= w.start
    ensures Cursor(w, from, k) < w.end
    decreases k
  {
    if k > 0 {
      NeverEnds(w, Turn(w, from).0, k - 1);
    }
  }

  /** The chunk loop ends if and only if the bytes after the line limit fit into one chunk. */
  lemma EndsIffBounded(w: Span)
    requires w.start <= w.limit <= w.end
    ensures Ends(w) <==> Bounded(w)
  {
    if w.start >= w.end {
      assert Cursor(w, w.start, 0) >= w.end;
    } else if Bounded(w) {
      var k := ReachesLimit(w, w.start);
      CursorAdds(w, w.start, k, 1);
      assert Cursor(w, w.start, k + 1) >= w.end;
    } else {
      forall k: nat ensures Cursor(w, w.start, k) < w.end {
        NeverEnds(w, w.start, k);
      }
    }
  }

  lemma {:induction false} TwoCycle(w: Span, j: nat)
    requires w.limit <= w.end && w.size > 0 && w.end - w.limit > w.size
    ensures Cursor(w, w.limit, 2 * j) == w.limit && Cursor(w, w.limit, 2 * j + 1) == w.limit + w.size
  {
    if j == 0 {
      assert Cursor(w, w.limit, 1) == Cursor(w, w.limit + w.size, 0);
    } else {
      TwoCycle(w, j - 1);
      CursorAdds(w, w.limit, 2, 2 * j - 2);
      CursorAdds(w, w.limit, 2, 2 * j - 1);
      assert Turn(w, w.limit).0 == w.limit + w.size && Turn(w, w.limit + w.size).0 == w.limit;
      assert Cursor(w, w.limit, 2) == Cursor(w, w.limit + w.size, 1) == Cursor(w, w.limit, 0);
    }
  }

  /** Otherwise the cursor swings between the limit and the position one chunk after it, for ever. */
  lemma UnboundedOscillates(w: Span) returns (k: nat)
    requires w.start <= w.limit <= w.end && w.start < w.end && w.size > 0 && !Bounded(w)
    ensures forall j: nat :: Cursor(w, w.start, k + 2 * j) == w.limit && Cursor(w, w.start, k + 2 * j + 1) == w.limit + w.size
  {
    k := ReachesLimit(w, w.start);
    forall j: nat
      ensures Cursor(w, w.start, k + 2 * j) == w.limit && Cursor(w, w.start, k + 2 * j + 1) == w.limit + w.size
    {
      TwoCycle(w, j);
      CursorAdds(w, w.start, k, 2 * j);
      CursorAdds(w, w.start, k, 2 * j + 1);
    }
  }

  /** The octets of `def f():`, its line end and 199 more, and a last line of four blanks and a long name. */
  function LoopingOctet(i: nat): Byte {
    if i < 8 then [100, 101, 102, 32, 102, 40, 41, 58][i]
    else if i < 208 then 10
    else if i < 212 then 32
    else 120
  }

  function LoopingSource(): Bytes { seq(16_593, (i: nat) => LoopingOctet(i)) }

  function LoopingLines(): seq<nat> { seq(202, (i: nat) => if i == 0 then 0 else if i <= 200 then 8 + i else 16_593) }

  /** A one-function file of 201 lines whose last line has 16385 octets: with the default limits its chunks never come to an end. */
  lemma DefaultLimitsCanLoop()
    ensures LineTable(LoopingLines(), LoopingSource()) && SymbolLines(LoopingLines(), LoopingSource(), 1, 201)
    ensures !Ends(SpanOf(LoopingLines(), |LoopingSource()|, 1, 201, 16_384, 200))
  {
    var offsets, data := LoopingLines(), LoopingSource();
    forall p | 0 < p < |data| ensures p in offsets <==> LineBreak(data, p) {
      assert LineBreak(data, p) <==> 9 <= p <= 208;
      if 9 <= p <= 208 {
        assert offsets[p - 8] == p;
      }
    }
    EndsIffBounded(SpanOf(offsets, |data|, 1, 201, 16_384, 200));
  }

  /* ---------- the pieces ---------- */

  datatype Piece = Piece(start: nat, end: nat, partial: bool)

  /** Pieces tile [from, to) in order. */
  ghost predicate Tiles(pieces: seq<Piece>, from: nat, to: nat) {
    && (pieces == [] ==> from == to)
    && (pieces != [] ==> pieces[0].start == from && pieces[|pieces| - 1].end == to)
    && (forall i :: 0 <= i < |pieces| - 1 ==> pieces[i].end == pieces[i + 1].start)
    && (forall i :: 0 <= i < |pieces| ==> pieces[i].start < pieces[i].end)
  }

  /** A piece is as long as allowed unless it stops at the line limit or at the end; none crosses the limit. */
  ghost predicate Cut(w: Span, p: Piece) {
    && p.end - p.start <= w.size
    && (p.end - p.start == w.size || p.end == w.limit || p.end == w.end)
    && (p.end <= w.limit || p.start == w.limit)
    && (p.partial <==> p.start == w.limit || (p.end != w.limit && p.end != w.end))
  }

  /** The while loop, for the spans on which it ends. */
  method CutPieces(w: Span) returns (pieces: seq<Piece>)
    requires w.start <= w.limit <= w.end && Bounded(w)
    ensures Tiles(pieces, w.start, w.end)
    ensures forall i :: 0 <= i < |pieces| ==> Cut(w, pieces[i])
  {
    var cursor := w.start;
    pieces := [];
    while cursor < w.end
      invariant w.start <= cursor <= w.end
      invariant cursor <= w.limit || cursor == w.end
      invariant Tiles(pieces, w.start, cursor)
      invariant forall i :: 0 <= i < |pieces| ==> Cut(w, pieces[i])
    {
      var target := Min(w.end, Min(w.limit, cursor + w.size));
      var partial := target < w.end && target != w.limit;
      if target == cursor {
        target := Min(w.end, cursor + w.size);
        partial := true;
      }
      pieces := pieces + [Piece(cursor, target, partial)];
      cursor := target;
    }
  }

  datatype Chunk = Chunk(start: nat, end: nat, startLine: nat, endLine: nat, truncated: bool, partial: bool)

  /** The line numbers of a chunk name the lines that hold its first and its last octet. */
  ghost predicate LinesBracket(offsets: seq<nat>, c: Chunk) {
    && 1 <= c.startLine <= c.endLine < |offsets|
    && offsets[c.startLine - 1] <= c.start < offsets[c.startLine]
    && offsets[c.endLine - 1] < c.end <= offsets[c.endLine]
  }

  /** What one chunk of a symbol must satisfy. */
  ghost predicate ChunkOk(offsets: seq<nat>, w: Span, startLine: nat, endLine: nat, many: bool, c: Chunk) {
    && Cut(w, PieceOf(c))
    && LinesBracket(offsets, c)
    && startLine <= c.startLine && c.endLine <= endLine
    && (c.truncated <==> many)
  }

  method ChunkOf(offsets: seq<nat>, data: Bytes, startLine: nat, endLine: nat, ghost w: Span, p: Piece, many: bool)
    returns (c: Chunk)
    requires SymbolLines(offsets, data, startLine, endLine) && Cut(w, p)
    requires offsets[startLine - 1] <= p.start < p.end <= (if endLine < |offsets| then offsets[endLine] else |data|)
    ensures ChunkOk(offsets, w, startLine, endLine, many, c) && PieceOf(c) == p
  {
    var first := LineForOffset(offsets, p.start);
    var last := LineForOffset(offsets, if p.end - 1 > p.start then p.end - 1 else p.start);
    EndsWithinData(offsets, data, endLine, p);
    LinesInside(offsets, data, startLine, endLine, p, first, last);
    c := Chunk(p.start, p.end, first, last, many, p.partial);
  }

  lemma EndsWithinData(offsets: seq<nat>, data: Bytes, endLine: nat, p: Piece)
    requires LineTable(offsets, data)
    requires p.end <= (if endLine < |offsets| then offsets[endLine] else |data|)
    ensures p.end <= |data| == offsets[|offsets| - 1]
  {
  }

  /** The second loop of _chunks_for: one chunk per piece, in order. */
  method ChunkEach(offsets: seq<nat>, data: Bytes, startLine: nat, endLine: nat, ghost w: Span, pieces: seq<Piece>)
    returns (chunks: seq<Chunk>)
    requires SymbolLines(offsets, data, startLine, endLine)
    requires w.start == offsets[startLine - 1] && w.end == (if endLine < |offsets| then offsets[endLine] else |data|)
    requires forall i :: 0 <= i < |pieces| ==> w.start <= pieces[i].start < pieces[i].end <= w.end && Cut(w, pieces[i])
    ensures PiecesOf(chunks) == pieces
    ensures forall i :: 0 <= i < |chunks| ==> ChunkOk(offsets, w, startLine, endLine, |chunks| > 1, chunks[i])
  {
    chunks := [];
    var i := 0;
    while i < |pieces|
      invariant 0 <= i <= |pieces| && |chunks| == i
      invariant forall j :: 0 <= j < i ==> PieceOf(chunks[j]) == pieces[j]
      invariant forall j :: 0 <= j < i ==> ChunkOk(offsets, w, startLine, endLine, |pieces| > 1, chunks[j])
    {
      var c := ChunkOf(offsets, data, startLine, endLine, w, pieces[i], |pieces| > 1);
      chunks := chunks + [c];
      i := i + 1;
    }
  }

  /** The chunks of a symbol: they tile its octets, each inside its lines. */
  ghost predicate SymbolChunks(offsets: seq<nat>, data: Bytes, startLine: nat, endLine: nat, maxBytes: int, maxLines: nat,
                               chunks: seq<Chunk>)
  {
    && SymbolLines(offsets, data, startLine, endLine)
    && var w := SpanOf(offsets, |data|, startLine, endLine, maxBytes, maxLines);
      && Tiles(PiecesOf(chunks), w.start, w.end)
      && forall i :: 0 <= i < |chunks| ==> ChunkOk(offsets, w, startLine, endLine, |chunks| > 1, chunks[i])
  }

  lemma ChunkInData(offsets: seq<nat>, data: Bytes, startLine: nat, endLine: nat, maxBytes: int, maxLines: nat,
                    chunks: seq<Chunk>, i: nat)
    requires SymbolChunks(offsets, data, startLine, endLine, maxBytes, maxLines, chunks) && i < |chunks|
    ensures chunks[i].start < chunks[i].end <= |data|
  {
    var w := SpanOf(offsets, |data|, startLine, endLine, maxBytes, maxLines);
    SpanOrdered(offsets, data, startLine, endLine, maxBytes, maxLines);
    TilesInside(PiecesOf(chunks), w.start, w.end, i);
  }

  /** _chunks_for */
  method ChunksFor(offsets: seq<nat>, data: Bytes, startLine: nat, endLine: nat, maxBytes: int, maxLines: nat)
    returns (chunks: seq<Chunk>)
    requires SymbolLines(offsets, data, startLine, endLine)
    requires Bounded(SpanOf(offsets, |data|, startLine, endLine, maxBytes, maxLines))
    ensures SymbolChunks(offsets, data, startLine, endLine, maxBytes, maxLines, chunks)
  {
    SpanOrdered(offsets, data, startLine, endLine, maxBytes, maxLines);
    var w := SpanOf(offsets, |data|, startLine, endLine, maxBytes, maxLines);
    var pieces := CutPieces(w);
    forall i | 0 <= i < |pieces| ensures w.start <= pieces[i].start < pieces[i].end <= w.end {
      TilesInside(pieces, w.start, w.end, i);
    }
    chunks := ChunkEach(offsets, data, startLine, endLine, w, pieces);
  }

  function PieceOf(c: Chunk): Piece { Piece(c.start, c.end, c.partial) }

  function PiecesOf(chunks: seq<Chunk>): seq<Piece> {
    seq(|chunks|, i requires 0 <= i < |chunks| => PieceOf(chunks[i]))
  }

  lemma {:induction false} TilesInside(pieces: seq<Piece>, from: nat, to: nat, i: nat)
    requires Tiles(pieces, from, to) && i < |pieces|
    ensures from <= pieces[i].start < pieces[i].end <= to
  {
    var j := i;
    while j > 0
      invariant 0 <= j <= i && pieces[j].start <= pieces[i].start
    {
      j := j - 1;
    }
    j := i;
    while j < |pieces| - 1
      invariant i <= j < |pieces| && pieces[i].end <= pieces[j].end
    {
      j := j + 1;
    }
  }

  lemma LinesInside(offsets: seq<nat>, data: Bytes, startLine: nat, endLine: nat, p: Piece, first: nat, last: nat)
    requires SymbolLines(offsets, data, startLine, endLine)
    requires offsets[startLine - 1] <= p.start < p.end <= (if endLine < |offsets| then offsets[endLine] else |data|)
    requires 1 <= first < |offsets| && offsets[first - 1] <= p.start < offsets[first]
    requires 1 <= last < |offsets| && offsets[last - 1] <= p.end - 1 < offsets[last]
    ensures startLine <= first <= last <= endLine
  {
    BracketOrder(offsets, startLine, first, p.start, p.start);
    BracketOrder(offsets, first, last, p.start, p.end - 1);
    if endLine < |offsets| {
      BracketOrder(offsets, last, endLine, p.end - 1, p.end - 1);
    }
  }

  /** The contents of tiling pieces, joined, are the source of the symbol. */
  function Joined(data: Bytes, pieces: seq<Piece>): Bytes
    requires forall i :: 0 <= i < |pieces| ==> pieces[i].start <= pieces[i].end <= |data|
  {
    if pieces == [] then []
    else Joined(data, pieces[..|pieces| - 1]) + data[pieces[|pieces| - 1].start..pieces[|pieces| - 1].end]
  }

  lemma {:induction false} TilesJoin(data: Bytes, pieces: seq<Piece>, from: nat, to: nat)
    requires Tiles(pieces, from, to) && from <= to <= |data|
    ensures forall i :: 0 <= i < |pieces| ==> pieces[i].start <= pieces[i].end <= |data|
    ensures Joined(data, pieces) == data[from..to]
  {
    forall i | 0 <= i < |pieces| ensures pieces[i].start <= pieces[i].end <= |data| {
      TilesInside(pieces, from, to, i);
    }
    if pieces != [] {
      var n := |pieces| - 1;
      TilesInside(pieces, from, to, n);
      var rest, mid := pieces[..n], pieces[n].start;
      assert Tiles(rest, from, mid);
      TilesJoin(data, rest, from, mid);
      assert data[from..mid] + data[mid..to] == data[from..to];
    }
  }
}
