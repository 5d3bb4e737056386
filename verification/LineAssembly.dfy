/**
  How the output hub turns the chunks of one stream into lines (daemon/output_hub.py, SheetOutputBuffer.feed):
  split at newlines, keep the rest for the next chunk, force out a rest that grows too long.
 */
module LineAssembly {
  import opened ByteStrings
  import opened Sequences

  /** A pending partial line above this size is emitted without its newline. */
  const MAX_PARTIAL_LINE := 8192

  // ---- lines of a byte string -----------------------------------------------------------------------------

  datatype Cut = Cut(lines: seq<Bytes>, rest: Bytes)

  /** bytes.split at newlines: the complete lines and what follows the last newline. */
  function Split(data: Bytes): Cut {
    if data == [] then Cut([], [])
    else
      var cut, b := Split(data[..|data| - 1]), data[|data| - 1];
      if b == LF then Cut(cut.lines + [cut.rest], []) else Cut(cut.lines, cut.rest + [b])
  }

  lemma SplitSnoc(data: Bytes, b: byte)
    ensures
      var cut := Split(data);
      Split(data + [b]) == if b == LF then Cut(cut.lines + [cut.rest], []) else Cut(cut.lines, cut.rest + [b])
  {
    assert (data + [b])[..|data|] == data;
  }

  /** Splitting can stop anywhere and go on with what was left over. */
  lemma {:induction false} SplitAppend(a: Bytes, b: Bytes)
    ensures
      var left, right := Split(a), Split(Split(a).rest + b);
      Split(a + b) == Cut(left.lines + right.lines, right.rest)
  {
    var rest := Split(a).rest;
    if b == [] {
      assert a + b == a && rest + b == rest;
      RestIsOneLine(a);
      assert Split(a).lines + [] == Split(a).lines;
    } else {
      var front, x := b[..|b| - 1], b[|b| - 1];
      SplitAppend(a, front);
      assert a + b == a + front + [x] && rest + b == rest + front + [x];
      SplitSnoc(a + front, x);
      SplitSnoc(rest + front, x);
      var lines, right := Split(a).lines, Split(rest + front);
      assert lines + (right.lines + [right.rest]) == lines + right.lines + [right.rest];
    }
  }

  /** What is left over holds no newline. */
  lemma {:induction false} RestIsOneLine(a: Bytes)
    ensures Split(Split(a).rest) == Cut([], Split(a).rest)
  {
    if a != [] && a[|a| - 1] != LF {
      var front := a[..|a| - 1];
      RestIsOneLine(front);
      SplitSnoc(Split(front).rest, a[|a| - 1]);
    }
  }

  predicate Short(cut: Cut) {
    |cut.rest| <= MAX_PARTIAL_LINE && forall i :: 0 <= i < |cut.lines| ==> |cut.lines[i]| <= MAX_PARTIAL_LINE
  }

  /** What is left over after a part of the data belongs to one line of the whole. */
  lemma {:induction false} PartOfALine(a: Bytes, b: Bytes)
    requires Short(Split(a + b))
    ensures |Split(a).rest| <= MAX_PARTIAL_LINE
  {
    if b == [] {
      assert a + b == a;
    } else {
      var front := b[..|b| - 1];
      assert a + b == a + front + [b[|b| - 1]];
      SplitSnoc(a + front, b[|b| - 1]);
      var shorter, cut := Split(a + front), Split(a + b);
      if b[|b| - 1] == LF {
        assert cut.lines[|cut.lines| - 1] == shorter.rest;
        assert forall i :: 0 <= i < |shorter.lines| ==> cut.lines[i] == shorter.lines[i];
      }
      PartOfALine(a, front);
    }
  }

  // ---- assembling one stream ------------------------------------------------------------------------------

  /** What one stream has emitted, and its partial line. */
  datatype Assembly = Assembly(pieces: seq<Bytes>, rest: Bytes)

  function Absorb(a: Assembly, chunk: Bytes): Assembly {
    var cut := Split(a.rest + chunk);
    if |cut.rest| > MAX_PARTIAL_LINE then Assembly(a.pieces + cut.lines + [cut.rest], [])
    else Assembly(a.pieces + cut.lines, cut.rest)
  }

  /** What a chunk emits depends on the partial line alone. */
  lemma PiecesPileUp(a: Assembly, chunk: Bytes)
    ensures
      var alone := Absorb(Assembly([], a.rest), chunk);
      Absorb(a, chunk) == Assembly(a.pieces + alone.pieces, alone.rest)
  {
    var cut := Split(a.rest + chunk);
    assert [] + cut.lines == cut.lines;
    assert a.pieces + (cut.lines + [cut.rest]) == a.pieces + cut.lines + [cut.rest];
  }

  function AbsorbAll(chunks: seq<Bytes>): Assembly {
    if chunks == [] then Assembly([], []) else Absorb(AbsorbAll(chunks[..|chunks| - 1]), chunks[|chunks| - 1])
  }

  function Joined(chunks: seq<Bytes>): Bytes {
    if chunks == [] then [] else Joined(chunks[..|chunks| - 1]) + chunks[|chunks| - 1]
  }

  function WithoutNewlines(data: Bytes): Bytes {
    if data == [] then []
    else if data[|data| - 1] == LF then WithoutNewlines(data[..|data| - 1])
    else WithoutNewlines(data[..|data| - 1]) + [data[|data| - 1]]
  }

  /** No partial line is over the limit when a chunk ends. */
  predicate Calm(chunks: seq<Bytes>) {
    chunks == [] || (Calm(chunks[..|chunks| - 1]) && |Split(Joined(chunks)).rest| <= MAX_PARTIAL_LINE)
  }

  lemma {:induction false} JoinedAppend(a: seq<Bytes>, b: seq<Bytes>)
    ensures Joined(a + b) == Joined(a) + Joined(b)
  {
    if b == [] {
      assert a + b == a;
    } else {
      assert (a + b)[..|a + b| - 1] == a + b[..|b| - 1];
      JoinedAppend(a, b[..|b| - 1]);
    }
  }

  lemma {:induction false} WithoutNewlinesAppend(a: Bytes, b: Bytes)
    ensures WithoutNewlines(a + b) == WithoutNewlines(a) + WithoutNewlines(b)
  {
    if b == [] {
      assert a + b == a;
    } else {
      assert (a + b)[..|a + b| - 1] == a + b[..|b| - 1];
      WithoutNewlinesAppend(a, b[..|b| - 1]);
    }
  }

  lemma {:induction false} SplitKeepsBytes(data: Bytes)
    ensures Joined(Split(data).lines) + Split(data).rest == WithoutNewlines(data)
  {
    if data != [] {
      var front := data[..|data| - 1];
      SplitKeepsBytes(front);
      var cut := Split(front);
      assert (cut.lines + [cut.rest])[..|cut.lines|] == cut.lines;
    }
  }

  /** However the data is cut and however long its lines: no byte but newlines is lost, none is reordered. */
  lemma {:induction false} NothingLost(chunks: seq<Bytes>)
    ensures
      var a := AbsorbAll(chunks);
      Joined(a.pieces) + a.rest == WithoutNewlines(Joined(chunks)) && |a.rest| <= MAX_PARTIAL_LINE
  {
    if chunks != [] {
      var front, chunk := chunks[..|chunks| - 1], chunks[|chunks| - 1];
      NothingLost(front);
      var a := AbsorbAll(front);
      AbsorbKeepsBytes(a, chunk);
      WithoutNewlinesAppend(a.rest, chunk);
      RestIsClean(front);
      WithoutNewlinesAppend(Joined(front), chunk);
    }
  }

  lemma AbsorbKeepsBytes(a: Assembly, chunk: Bytes)
    ensures
      var next := Absorb(a, chunk);
      Joined(next.pieces) + next.rest == Joined(a.pieces) + WithoutNewlines(a.rest + chunk)
  {
    var cut := Split(a.rest + chunk);
    SplitKeepsBytes(a.rest + chunk);
    JoinedAppend(a.pieces, cut.lines);
    JoinedSnoc(a.pieces + cut.lines, cut.rest);
    Reassociate(Joined(a.pieces), Joined(cut.lines), cut.rest);
  }

  lemma JoinedSnoc(chunks: seq<Bytes>, last: Bytes)
    ensures Joined(chunks + [last]) == Joined(chunks) + last
  {
    assert (chunks + [last])[..|chunks|] == chunks;
  }

  lemma SplitRestIsClean(data: Bytes)
    ensures WithoutNewlines(Split(data).rest) == Split(data).rest
    ensures Split(Split(data).rest) == Cut([], Split(data).rest)
  {
    RestIsOneLine(data);
    SplitKeepsBytes(Split(data).rest);
    assert Joined([]) == [];
  }

  lemma RestIsClean(chunks: seq<Bytes>)
    ensures WithoutNewlines(AbsorbAll(chunks).rest) == AbsorbAll(chunks).rest
    ensures Split(AbsorbAll(chunks).rest) == Cut([], AbsorbAll(chunks).rest)
  {
    if chunks != [] {
      var data := AbsorbAll(chunks[..|chunks| - 1]).rest + chunks[|chunks| - 1];
      SplitRestIsClean(data);
    }
  }

  /** At least one piece for each line, and exactly one as long as no line was forced out. */
  lemma {:induction false} AtLeastTheLines(chunks: seq<Bytes>)
    ensures |AbsorbAll(chunks).pieces| >= |Split(Joined(chunks)).lines|
    ensures !Calm(chunks) ==> |AbsorbAll(chunks).pieces| > |Split(Joined(chunks)).lines|
    ensures Calm(chunks) ==> AbsorbAll(chunks) == Assembly(Split(Joined(chunks)).lines, Split(Joined(chunks)).rest)
  {
    if chunks != [] {
      var front, chunk := chunks[..|chunks| - 1], chunks[|chunks| - 1];
      AtLeastTheLines(front);
      var a, whole := AbsorbAll(front), Split(Joined(front));
      SplitAppend(Joined(front), chunk);
      RestIsClean(front);
      RestIsOneLine(Joined(front));
      LinesOfChunk(a.rest, whole.rest, chunk);
    }
  }

  /** How many lines a chunk ends does not depend on what was left over before. */
  lemma {:induction false} LinesOfChunk(rest: Bytes, rest': Bytes, chunk: Bytes)
    requires |Split(rest).lines| == |Split(rest').lines|
    ensures |Split(rest + chunk).lines| == |Split(rest' + chunk).lines|
  {
    if chunk == [] {
      assert rest + chunk == rest && rest' + chunk == rest';
    } else {
      var front, x := chunk[..|chunk| - 1], chunk[|chunk| - 1];
      LinesOfChunk(rest, rest', front);
      assert rest + chunk == rest + front + [x] && rest' + chunk == rest' + front + [x];
      SplitSnoc(rest + front, x);
      SplitSnoc(rest' + front, x);
    }
  }

  /**
    The emitted lines and the leftover are those of the whole byte string exactly when no partial line was over
    the limit at the end of a chunk.
   */
  lemma AssemblyIsSplitIff(chunks: seq<Bytes>)
    ensures AbsorbAll(chunks) == Assembly(Split(Joined(chunks)).lines, Split(Joined(chunks)).rest) <==> Calm(chunks)
  {
    AtLeastTheLines(chunks);
  }

  lemma {:induction false} ShortLinesAreCalm(chunks: seq<Bytes>)
    requires Short(Split(Joined(chunks)))
    ensures Calm(chunks)
  {
    if chunks != [] {
      var front := chunks[..|chunks| - 1];
      ShortPrefix(Joined(front), chunks[|chunks| - 1]);
      ShortLinesAreCalm(front);
    }
  }

  lemma ShortPrefix(a: Bytes, b: Bytes)
    requires Short(Split(a + b))
    ensures Short(Split(a))
  {
    PartOfALine(a, b);
    SplitAppend(a, b);
    var left, cut := Split(a), Split(a + b);
    assert forall i :: 0 <= i < |left.lines| ==> cut.lines[i] == left.lines[i];
  }

  /** Without over-long lines the same bytes give the same lines, however they are cut into chunks. */
  lemma ChunkingDoesNotMatter(chunks: seq<Bytes>, chunks': seq<Bytes>)
    requires Joined(chunks) == Joined(chunks') && Short(Split(Joined(chunks)))
    ensures AbsorbAll(chunks) == AbsorbAll(chunks')
  {
    ShortLinesAreCalm(chunks);
    ShortLinesAreCalm(chunks');
    AtLeastTheLines(chunks);
    AtLeastTheLines(chunks');
  }
}
