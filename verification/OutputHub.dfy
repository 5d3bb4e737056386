/**
  Live output of a sheet (daemon/output_hub.py): the lines of both streams go into a drop-oldest ring, and every
  watcher has a bounded queue that counts what it drops.

  What happens to the text of one line (decoding, carriage returns, control sequences, credentials) is the
  parameter `clean`. A drop marker is an item of its own kind rather than a line with a certain text.
 */
module OutputHub {
  import opened ByteStrings
  import opened LineAssembly
  import opened Sequences

  const SUBSCRIBER_QUEUE_SIZE := 500

  datatype Stream = Stdout | Stderr
  /** A line that is shown: the cleaned text of a piece, with a tag if the piece came from stderr. */
  datatype Line = Line(text: string)

  /** What a watcher's queue or a snapshot holds. */
  datatype Item = Shown(line: Line) | Dropped(count: nat)

  /** A piece of a stream that became a line. */
  datatype Emission = Emission(stream: Stream, raw: Bytes)

  function LineOf(clean: Bytes -> string, e: Emission): Line {
    Line(if e.stream == Stderr then "[stderr] " + clean(e.raw) else clean(e.raw))
  }

  function LinesOf(clean: Bytes -> string, log: seq<Emission>): seq<Line> {
    if log == [] then [] else LinesOf(clean, log[..|log| - 1]) + [LineOf(clean, log[|log| - 1])]
  }

  // ---- both streams ---------------------------------------------------------------------------------------

  /** The partial lines, in the order in which their streams first appeared, and all that was emitted. */
  datatype Buffer = Buffer(names: seq<Stream>, partials: map<Stream, Bytes>, log: seq<Emission>)

  function Rest(b: Buffer, s: Stream): Bytes {
    if s in b.partials then b.partials[s] else []
  }

  function Emit(s: Stream, pieces: seq<Bytes>): seq<Emission> {
    if pieces == [] then [] else Emit(s, pieces[..|pieces| - 1]) + [Emission(s, pieces[|pieces| - 1])]
  }

  function Fed(b: Buffer, s: Stream, chunk: Bytes): Buffer {
    var a := Absorb(Assembly([], Rest(b, s)), chunk);
    Buffer(if s in b.partials then b.names else b.names + [s], b.partials[s := a.rest], b.log + Emit(s, a.pieces))
  }

  function FlushEach(b: Buffer, names: seq<Stream>): Buffer {
    if names == [] then b
    else
      var before, s := FlushEach(b, names[..|names| - 1]), names[|names| - 1];
      if Rest(before, s) != [] then Fed(before, s, [LF]) else before
  }

  function Flushed(b: Buffer): Buffer {
    Buffer([], map[], FlushEach(b, b.names).log)
  }

  datatype Event = Feed(stream: Stream, chunk: Bytes) | Flush

  function Run(es: seq<Event>): Buffer {
    if es == [] then Buffer([], map[], [])
    else
      match es[|es| - 1]
      case Feed(s, chunk) => Fed(Run(es[..|es| - 1]), s, chunk)
      case Flush => Flushed(Run(es[..|es| - 1]))
  }

  /** The chunks one stream was fed; a flush feeds the newline that is missing. */
  function Chunks(es: seq<Event>, s: Stream): seq<Bytes> {
    if es == [] then []
    else
      var before := Chunks(es[..|es| - 1], s);
      match es[|es| - 1]
      case Feed(stream, chunk) => if stream == s then before + [chunk] else before
      case Flush => if Rest(Run(es[..|es| - 1]), s) != [] then before + [[LF]] else before
  }

  /** What one stream has emitted. */
  function Pieces(log: seq<Emission>, s: Stream): seq<Bytes> {
    if log == [] then []
    else
      var before := Pieces(log[..|log| - 1], s);
      if log[|log| - 1].stream == s then before + [log[|log| - 1].raw] else before
  }

  predicate InStep(b: Buffer, s: Stream, a: Assembly) {
    Pieces(b.log, s) == a.pieces && Rest(b, s) == a.rest
  }

  lemma PiecesSnoc(log: seq<Emission>, e: Emission, t: Stream)
    ensures Pieces(log + [e], t) == if e.stream == t then Pieces(log, t) + [e.raw] else Pieces(log, t)
  {
    assert (log + [e])[..|log|] == log;
  }

  lemma {:induction false} EmitPieces(log: seq<Emission>, s: Stream, pieces: seq<Bytes>, t: Stream)
    ensures Pieces(log + Emit(s, pieces), t) == if s == t then Pieces(log, t) + pieces else Pieces(log, t)
  {
    if pieces == [] {
      assert log + Emit(s, pieces) == log;
    } else {
      var front, raw := pieces[..|pieces| - 1], pieces[|pieces| - 1];
      EmitPieces(log, s, front, t);
      Regroup(log, Emit(s, front), Emission(s, raw));
      PiecesSnoc(log + Emit(s, front), Emission(s, raw), t);
      Regroup(Pieces(log, t), front, raw);
      assert front + [raw] == pieces;
    }
  }

  lemma FedInStep(b: Buffer, s: Stream, chunk: Bytes, t: Stream, a: Assembly)
    requires InStep(b, t, a)
    ensures InStep(Fed(b, s, chunk), t, if s == t then Absorb(a, chunk) else a)
  {
    var alone := Absorb(Assembly([], Rest(b, s)), chunk);
    EmitPieces(b.log, s, alone.pieces, t);
    if s == t {
      PiecesPileUp(a, chunk);
    }
  }

  /** The newline a flush feeds ends the partial line. */
  lemma NewlineEndsRest(a: Assembly)
    ensures Absorb(a, [LF]).rest == []
  {
    SplitSnoc(a.rest, LF);
  }

  function FlushedOne(a: Assembly): Assembly {
    if a.rest != [] then Absorb(a, [LF]) else a
  }

  lemma {:induction false} FlushEachInStep(b: Buffer, names: seq<Stream>, t: Stream, a: Assembly)
    requires InStep(b, t, a)
    ensures InStep(FlushEach(b, names), t, if t in names then FlushedOne(a) else a)
  {
    if names != [] {
      var front, s := names[..|names| - 1], names[|names| - 1];
      FlushEachInStep(b, front, t, a);
      NewlineEndsRest(a);
      var before := FlushEach(b, front);
      var a' := if t in front then FlushedOne(a) else a;
      assert names == front + [s];
      if Rest(before, s) != [] {
        FedInStep(before, s, [LF], t, a');
      }
    }
  }

  /** Every stream with a partial line has its name in the list. */
  predicate NamesOk(b: Buffer) {
    forall s :: s in b.partials ==> s in b.names
  }

  lemma {:induction false} RunKeepsNames(es: seq<Event>)
    ensures NamesOk(Run(es))
  {
    if es != [] {
      RunKeepsNames(es[..|es| - 1]);
    }
  }

  /** Each stream is assembled as if it were alone, whatever the other does in between and whenever it is flushed. */
  lemma {:induction false} StreamsDoNotMix(es: seq<Event>, t: Stream)
    ensures InStep(Run(es), t, AbsorbAll(Chunks(es, t)))
  {
    if es != [] {
      var front := es[..|es| - 1];
      var b, chunks, longer := Run(front), Chunks(front, t), Chunks(es, t);
      StreamsDoNotMix(front, t);
      match es[|es| - 1]
      case Feed(s, chunk) =>
        FedInStep(b, s, chunk, t, AbsorbAll(chunks));
        if s == t {
          assert longer[..|longer| - 1] == chunks;
        }
      case Flush =>
        RunKeepsNames(front);
        FlushEachInStep(b, b.names, t, AbsorbAll(chunks));
        NewlineEndsRest(AbsorbAll(chunks));
        if Rest(b, t) != [] {
          assert longer[..|longer| - 1] == chunks;
        }
    }
  }

  /**
    Without over-long lines the lines of a stream are those of all its bytes, whatever the chunks and however the
    streams interleave.
   */
  lemma LinesOfStream(es: seq<Event>, s: Stream)
    requires Short(Split(Joined(Chunks(es, s))))
    ensures
      var whole := Split(Joined(Chunks(es, s)));
      Pieces(Run(es).log, s) == whole.lines && Rest(Run(es), s) == whole.rest
  {
    StreamsDoNotMix(es, s);
    ShortLinesAreCalm(Chunks(es, s));
    AssemblyIsSplitIff(Chunks(es, s));
  }

  /** With any lines at all, no byte of a stream but its newlines is lost or reordered. */
  lemma BytesOfStream(es: seq<Event>, s: Stream)
    ensures
      && Joined(Pieces(Run(es).log, s)) + Rest(Run(es), s) == WithoutNewlines(Joined(Chunks(es, s)))
      && |Rest(Run(es), s)| <= MAX_PARTIAL_LINE
  {
    StreamsDoNotMix(es, s);
    NothingLost(Chunks(es, s));
  }

  /** A line shows the cleaned text of its piece, and says so if that came from stderr. */
  lemma {:induction false} LinesShowTheirPieces(clean: Bytes -> string, log: seq<Emission>, i: nat)
    requires i < |log|
    ensures |LinesOf(clean, log)| == |log|
    ensures
      var text := LinesOf(clean, log)[i].text;
      && (log[i].stream == Stdout ==> text == clean(log[i].raw))
      && (log[i].stream == Stderr ==> text == "[stderr] " + clean(log[i].raw))
  {
    var front := log[..|log| - 1];
    if i < |front| {
      LinesShowTheirPieces(clean, front, i);
    } else if front != [] {
      LinesShowTheirPieces(clean, front, 0);
    }
  }

  /** The streams with a partial line, in the order in which they appeared since the last flush. */
  function Appeared(es: seq<Event>): seq<Stream> {
    if es == [] then []
    else
      var before := Appeared(es[..|es| - 1]);
      match es[|es| - 1]
      case Feed(s, _) => if s in before then before else before + [s]
      case Flush => []
  }

  /** The partial lines of the listed streams, each as a piece of its own. */
  function Remainders(b: Buffer, names: seq<Stream>): seq<Emission> {
    if names == [] then []
    else
      var s := names[|names| - 1];
      Remainders(b, names[..|names| - 1]) + if Rest(b, s) != [] then [Emission(s, Rest(b, s))] else []
  }

  lemma {:induction false} NamesAppeared(es: seq<Event>)
    ensures Run(es).names == Appeared(es) && Distinct(Appeared(es))
    ensures forall s :: s in Run(es).partials <==> s in Appeared(es)
  {
    if es != [] {
      NamesAppeared(es[..|es| - 1]);
    }
  }

  lemma NewlineEmitsRest(b: Buffer, s: Stream)
    requires Split(Rest(b, s)) == Cut([], Rest(b, s))
    ensures Fed(b, s, [LF]).log == b.log + [Emission(s, Rest(b, s))]
  {
    var rest := Rest(b, s);
    SplitSnoc(rest, LF);
    var pieces := Absorb(Assembly([], rest), [LF]).pieces;
    assert pieces == [rest];
    assert Emit(s, pieces) == [Emission(s, rest)];
  }

  lemma {:induction false} FlushEachEmitsRemainders(b: Buffer, names: seq<Stream>)
    requires Distinct(names) && forall s :: Split(Rest(b, s)) == Cut([], Rest(b, s))
    ensures FlushEach(b, names).log == b.log + Remainders(b, names)
    ensures forall s :: s !in names ==> Rest(FlushEach(b, names), s) == Rest(b, s)
  {
    if names == [] {
      assert b.log + [] == b.log;
    } else {
      var front, s := names[..|names| - 1], names[|names| - 1];
      FlushEachEmitsRemainders(b, front);
      var before := FlushEach(b, front);
      assert s !in front && names == front + [s];
      assert Rest(before, s) == Rest(b, s);
      if Rest(b, s) != [] {
        NewlineEmitsRest(before, s);
        Regroup(b.log, Remainders(b, front), Emission(s, Rest(b, s)));
      } else {
        assert Remainders(b, names) == Remainders(b, front);
      }
    }
  }

  lemma RestsAreOneLine(es: seq<Event>, s: Stream)
    ensures Split(Rest(Run(es), s)) == Cut([], Rest(Run(es), s))
  {
    StreamsDoNotMix(es, s);
    var chunks := Chunks(es, s);
    if chunks != [] {
      RestIsOneLine(AbsorbAll(chunks[..|chunks| - 1]).rest + chunks[|chunks| - 1]);
    }
  }

  /** What was emitted stays; a flush adds the partial lines, in the order in which their streams appeared. */
  lemma FlushEmitsRemainders(es: seq<Event>)
    requires es != []
    ensures
      var before, after := Run(es[..|es| - 1]), Run(es);
      && before.log <= after.log
      && (es[|es| - 1].Flush? ==> after.log == before.log + Remainders(before, Appeared(es[..|es| - 1])))
  {
    var front := es[..|es| - 1];
    if es[|es| - 1].Flush? {
      NamesAppeared(front);
      forall s ensures Split(Rest(Run(front), s)) == Cut([], Rest(Run(front), s)) {
        RestsAreOneLine(front, s);
      }
      FlushEachEmitsRemainders(Run(front), Appeared(front));
    }
  }

  // ---- the ring -------------------------------------------------------------------------------------------

  datatype Ring = Ring(lines: seq<Line>, size: int, dropped: nat)

  function Evict(capacity: nat, r: Ring): Ring
    decreases |r.lines|
  {
    if r.size > capacity && |r.lines| > 1 then
      Evict(capacity, Ring(r.lines[1..], r.size - |r.lines[0].text|, r.dropped + 1))
    else r
  }

  function Append(capacity: nat, r: Ring, line: Line): Ring {
    Evict(capacity, Ring(r.lines + [line], r.size + |line.text|, r.dropped))
  }

  function RingOf(capacity: nat, lines: seq<Line>): Ring {
    if lines == [] then Ring([], 0, 0) else Append(capacity, RingOf(capacity, lines[..|lines| - 1]), lines[|lines| - 1])
  }

  /** The size of the lines from the d-th on. */
  function Weight(lines: seq<Line>, d: nat): int
    decreases |lines| - d
  {
    if d >= |lines| then 0 else |lines[d].text| + Weight(lines, d + 1)
  }

  lemma {:induction false} WeightSnoc(lines: seq<Line>, line: Line, d: nat)
    requires d <= |lines|
    ensures Weight(lines + [line], d) == Weight(lines, d) + |line.text|
    decreases |lines| - d
  {
    var longer := lines + [line];
    if d < |lines| {
      WeightSnoc(lines, line, d + 1);
    } else {
      assert longer[d] == line && Weight(longer, d + 1) == 0;
    }
  }

  /** A suffix of the lines, counted exactly, that could not start one line earlier. */
  predicate IsSuffix(capacity: nat, lines: seq<Line>, r: Ring) {
    && r.dropped + |r.lines| == |lines| && r.lines == lines[r.dropped..] && r.size == Weight(lines, r.dropped)
    && (lines != [] ==> r.dropped < |lines|)
    && (r.dropped > 0 ==> Weight(lines, r.dropped - 1) > capacity)
  }

  lemma OneLineMore(capacity: nat, lines: seq<Line>, r: Ring, line: Line)
    requires IsSuffix(capacity, lines, r)
    ensures IsSuffix(capacity, lines + [line], Ring(r.lines + [line], r.size + |line.text|, r.dropped))
  {
    WeightSnoc(lines, line, r.dropped);
    if r.dropped > 0 {
      WeightSnoc(lines, line, r.dropped - 1);
    }
  }

  lemma {:induction false} EvictKeepsSuffix(capacity: nat, lines: seq<Line>, r: Ring)
    requires IsSuffix(capacity, lines, r)
    ensures
      var r' := Evict(capacity, r);
      IsSuffix(capacity, lines, r') && Fits(capacity, r')
    decreases |r.lines|
  {
    if r.size > capacity && |r.lines| > 1 {
      assert r.lines[0] == lines[r.dropped];
      EvictKeepsSuffix(capacity, lines, Ring(r.lines[1..], r.size - |r.lines[0].text|, r.dropped + 1));
    }
  }

  predicate Fits(capacity: nat, r: Ring) {
    r.size <= capacity || |r.lines| <= 1
  }

  lemma AppendKeepsSuffix(capacity: nat, lines: seq<Line>, r: Ring, line: Line)
    requires IsSuffix(capacity, lines, r)
    ensures IsSuffix(capacity, lines + [line], Append(capacity, r, line)) && Fits(capacity, Append(capacity, r, line))
  {
    OneLineMore(capacity, lines, r, line);
    EvictKeepsSuffix(capacity, lines + [line], Ring(r.lines + [line], r.size + |line.text|, r.dropped));
  }

  /**
    The ring holds the longest suffix of all lines that fits its capacity, or the last line alone; what it
    dropped and what it holds add up to all of them.
   */
  lemma {:induction false} RingIsLongestSuffix(capacity: nat, lines: seq<Line>)
    ensures IsSuffix(capacity, lines, RingOf(capacity, lines)) && Fits(capacity, RingOf(capacity, lines))
  {
    if lines != [] {
      var front, line := lines[..|lines| - 1], lines[|lines| - 1];
      assert lines == front + [line];
      RingIsLongestSuffix(capacity, front);
      AppendKeepsSuffix(capacity, front, RingOf(capacity, front), line);
    }
  }

  // ---- positions ------------------------------------------------------------------------------------------

  function Gap(n: nat): (gap: seq<Option<Line>>)
    ensures |gap| == n && forall i :: 0 <= i < n ==> gap[i] == None
  {
    if n == 0 then [] else Gap(n - 1) + [None]
  }

  /** The items with every marker replaced by as many gaps as it counts. */
  function Expand(items: seq<Item>): seq<Option<Line>> {
    if items == [] then []
    else
      match items[|items| - 1]
      case Shown(line) => Expand(items[..|items| - 1]) + [Some(line)]
      case Dropped(k) => Expand(items[..|items| - 1]) + Gap(k)
  }

  /** Gaps, survivors and the pending count add up to all lines, and every survivor is at its own index. */
  predicate InPlace(items: seq<Item>, pending: nat, lines: seq<Line>) {
    var places := Expand(items);
    && |places| + pending == |lines|
    && forall i :: 0 <= i < |places| && places[i].Some? ==> places[i].value == lines[i]
  }

  function AsItems(lines: seq<Line>): seq<Item> {
    if lines == [] then [] else AsItems(lines[..|lines| - 1]) + [Shown(lines[|lines| - 1])]
  }

  function Snapshot(r: Ring): seq<Item> {
    if r.dropped > 0 then [Dropped(r.dropped)] + AsItems(r.lines) else AsItems(r.lines)
  }

  lemma ExpandSnoc(items: seq<Item>, item: Item)
    ensures Expand(items + [item]) == Expand(items) + if item.Shown? then [Some(item.line)] else Gap(item.count)
  {
    assert (items + [item])[..|items|] == items;
  }

  /** Appending a line behind everything offered so far keeps all in place. */
  lemma LineInPlace(items: seq<Item>, lines: seq<Line>, line: Line)
    requires InPlace(items, 0, lines)
    ensures InPlace(items + [Shown(line)], 0, lines + [line])
  {
    ExpandSnoc(items, Shown(line));
  }

  lemma MarkerInPlace(items: seq<Item>, pending: nat, lines: seq<Line>)
    requires InPlace(items, pending, lines)
    ensures InPlace(items + [Dropped(pending)], 0, lines)
  {
    ExpandSnoc(items, Dropped(pending));
  }

  lemma {:induction false} ItemsInPlace(head: seq<Item>, before: seq<Line>, lines: seq<Line>)
    requires InPlace(head, 0, before)
    ensures InPlace(head + AsItems(lines), 0, before + lines)
  {
    if lines == [] {
      assert head + AsItems(lines) == head && before + lines == before;
    } else {
      var front, line := lines[..|lines| - 1], lines[|lines| - 1];
      ItemsInPlace(head, before, front);
      var items, whole := head + AsItems(front), before + front;
      LineInPlace(items, whole, line);
      Regroup(head, AsItems(front), Shown(line));
      Regroup(before, front, line);
      assert front + [line] == lines;
    }
  }

  lemma WithMarker(before: seq<Line>, rest: seq<Line>)
    ensures InPlace([Dropped(|before|)] + AsItems(rest), 0, before + rest)
  {
    assert Expand([]) == [];
    MarkerInPlace([], |before|, before);
    assert [] + [Dropped(|before|)] == [Dropped(|before|)];
    ItemsInPlace([Dropped(|before|)], before, rest);
  }

  lemma WithoutMarker(lines: seq<Line>)
    ensures InPlace(AsItems(lines), 0, lines)
  {
    ItemsInPlace([], [], lines);
    assert [] + lines == lines && [] + AsItems(lines) == AsItems(lines);
  }

  /** A snapshot shows every retained line at its place among all lines. */
  lemma SnapshotInPlace(capacity: nat, lines: seq<Line>)
    ensures InPlace(Snapshot(RingOf(capacity, lines)), 0, lines)
  {
    var r := RingOf(capacity, lines);
    RingIsLongestSuffix(capacity, lines);
    if r.dropped > 0 {
      assert lines[..r.dropped] + r.lines == lines;
      WithMarker(lines[..r.dropped], r.lines);
    } else {
      assert r.lines == lines;
      WithoutMarker(lines);
    }
  }

  // ---- a watcher ------------------------------------------------------------------------------------------

  datatype Watcher = Watcher(queue: seq<Item>, dropped: nat)

  function OfferLine(w: Watcher, line: Line): Watcher {
    if |w.queue| >= SUBSCRIBER_QUEUE_SIZE then Watcher(w.queue, w.dropped + 1)
    else Watcher(w.queue + [Shown(line)], w.dropped)
  }

  function Offer(w: Watcher, line: Line): Watcher {
    if w.dropped == 0 then OfferLine(w, line)
    else if |w.queue| >= SUBSCRIBER_QUEUE_SIZE then Watcher(w.queue, w.dropped + 1)
    else OfferLine(Watcher(w.queue + [Dropped(w.dropped)], 0), line)
  }

  datatype WatcherEvent = Offered(line: Line) | Taken

  /** The watcher with its history: the lines offered to it and the items it has read. */
  datatype Watch = Watch(watcher: Watcher, offered: seq<Line>, taken: seq<Item>)

  function WatchStep(w: Watch, e: WatcherEvent): Watch {
    match e
    case Offered(line) => Watch(Offer(w.watcher, line), w.offered + [line], w.taken)
    case Taken =>
      if w.watcher.queue == [] then w
      else Watch(w.watcher.(queue := w.watcher.queue[1..]), w.offered, w.taken + [w.watcher.queue[0]])
  }

  function WatchRun(es: seq<WatcherEvent>): Watch {
    if es == [] then Watch(Watcher([], 0), [], []) else WatchStep(WatchRun(es[..|es| - 1]), es[|es| - 1])
  }

  predicate WatchOk(w: Watch) {
    |w.watcher.queue| <= SUBSCRIBER_QUEUE_SIZE && InPlace(w.taken + w.watcher.queue, w.watcher.dropped, w.offered)
  }

  lemma OfferLineInPlace(w: Watcher, taken: seq<Item>, offered: seq<Line>, line: Line)
    requires w.dropped == 0 && InPlace(taken + w.queue, 0, offered)
    ensures InPlace(taken + OfferLine(w, line).queue, OfferLine(w, line).dropped, offered + [line])
  {
    if |w.queue| < SUBSCRIBER_QUEUE_SIZE {
      LineInPlace(taken + w.queue, offered, line);
      assert taken + (w.queue + [Shown(line)]) == taken + w.queue + [Shown(line)];
    }
  }

  lemma WatchStepInPlace(w: Watch, e: WatcherEvent)
    requires WatchOk(w)
    ensures WatchOk(WatchStep(w, e))
  {
    var queue, dropped := w.watcher.queue, w.watcher.dropped;
    match e
    case Offered(line) =>
      if dropped == 0 {
        OfferLineInPlace(w.watcher, w.taken, w.offered, line);
      } else if |queue| < SUBSCRIBER_QUEUE_SIZE {
        MarkerInPlace(w.taken + queue, dropped, w.offered);
        assert w.taken + (queue + [Dropped(dropped)]) == w.taken + queue + [Dropped(dropped)];
        OfferLineInPlace(Watcher(queue + [Dropped(dropped)], 0), w.taken, w.offered, line);
      }
    case Taken =>
      if queue != [] {
        assert w.taken + [queue[0]] + queue[1..] == w.taken + queue;
      }
  }

  /**
    In every interleaving of offers and reads, every line that ever entered the queue is at its own index once
    the markers are read as gaps, and gaps, lines and the current count add up to all offers.
   */
  lemma {:induction false} WatcherInPlace(es: seq<WatcherEvent>)
    ensures WatchOk(WatchRun(es))
  {
    if es != [] {
      WatcherInPlace(es[..|es| - 1]);
      WatchStepInPlace(WatchRun(es[..|es| - 1]), es[|es| - 1]);
    }
  }

  /**
    A line that is offered is enqueued exactly if the queue of 500 has room for it and for the marker that is due; the
    marker is enqueued as soon as there is room for it, and only what is not enqueued is counted as dropped.
   */
  lemma OfferedLineIsKept(es: seq<WatcherEvent>)
    requires es != [] && es[|es| - 1].Offered?
    ensures
      var before, after, line := WatchRun(es[..|es| - 1]).watcher, WatchRun(es).watcher, es[|es| - 1].line;
      var due, room := before.dropped > 0, 500 - |before.queue|;
      && (!due && room >= 1 ==> after == Watcher(before.queue + [Shown(line)], 0))
      && (due && room >= 2 ==> after == Watcher(before.queue + [Dropped(before.dropped), Shown(line)], 0))
      && (due && room == 1 ==> after == Watcher(before.queue + [Dropped(before.dropped)], 1))
      && (room <= 0 ==> after == Watcher(before.queue, before.dropped + 1))
  {
    var before, line := WatchRun(es[..|es| - 1]).watcher, es[|es| - 1].line;
    assert before.queue + [Dropped(before.dropped)] + [Shown(line)]
        == before.queue + [Dropped(before.dropped), Shown(line)];
  }

  /** A read takes the oldest item, if there is one. */
  lemma OldestIsTaken(es: seq<WatcherEvent>)
    requires es != [] && es[|es| - 1].Taken?
    ensures
      var before, after := WatchRun(es[..|es| - 1]), WatchRun(es);
      && after.offered == before.offered && after.watcher.dropped == before.watcher.dropped
      && if before.watcher.queue == [] then after == before
         else [after.taken[|before.taken|]] + after.watcher.queue == before.watcher.queue
  {
  }

  function Offers(lines: seq<Line>): seq<WatcherEvent> {
    if lines == [] then [] else Offers(lines[..|lines| - 1]) + [Offered(lines[|lines| - 1])]
  }

  /** Offering several lines is offering one after the other. */
  lemma {:induction false} OfferAllIsRun(es: seq<WatcherEvent>, lines: seq<Line>)
    ensures WatchRun(es + Offers(lines)).watcher == OfferAll(WatchRun(es).watcher, lines)
    ensures WatchRun(es + Offers(lines)).offered == WatchRun(es).offered + lines
  {
    if lines == [] {
      assert es + [] == es;
    } else {
      var front, line := lines[..|lines| - 1], lines[|lines| - 1];
      OfferAllIsRun(es, front);
      Reassociate(es, Offers(front), [Offered(line)]);
      WatchSnoc(es + Offers(front), Offered(line));
      Reassociate(WatchRun(es).offered, front, [line]);
      assert front + [line] == lines;
    }
  }

  lemma WatchSnoc(es: seq<WatcherEvent>, e: WatcherEvent)
    ensures WatchRun(es + [e]) == WatchStep(WatchRun(es), e)
  {
    assert (es + [e])[..|es|] == es;
  }

  // ---- the objects ----------------------------------------------------------------------------------------

  lemma LinesOfSnoc(clean: Bytes -> string, log: seq<Emission>, e: Emission)
    ensures LinesOf(clean, log + [e]) == LinesOf(clean, log) + [LineOf(clean, e)]
  {
    assert (log + [e])[..|log|] == log;
  }

  lemma RingSnoc(capacity: nat, lines: seq<Line>, line: Line)
    ensures RingOf(capacity, lines + [line]) == Append(capacity, RingOf(capacity, lines), line)
  {
    assert (lines + [line])[..|lines|] == lines;
  }

  lemma EmitSnoc(s: Stream, pieces: seq<Bytes>, i: nat)
    requires i < |pieces|
    ensures Emit(s, pieces[..i + 1]) == Emit(s, pieces[..i]) + [Emission(s, pieces[i])]
  {
    assert pieces[..i + 1][..i] == pieces[..i];
  }

  lemma FlushEachSnoc(b: Buffer, names: seq<Stream>, i: nat)
    requires i < |names|
    ensures
      var before := FlushEach(b, names[..i]);
      FlushEach(b, names[..i + 1]) == if Rest(before, names[i]) != [] then Fed(before, names[i], [LF]) else before
  {
    assert names[..i + 1][..i] == names[..i];
  }

  /** The ring as an object; `shown` is the history that `Valid` ties it to. */
  class LineRing {
    const capacity: nat
    var lines: seq<Line>
    var size: int
    var dropped: nat
    ghost var shown: seq<Line>

    ghost predicate Valid()
      reads this
    {
      Ring(lines, size, dropped) == RingOf(capacity, shown)
    }

    constructor (capacity: nat)
      ensures Valid() && shown == [] && this.capacity == capacity
    {
      this.capacity := capacity;
      lines, size, dropped, shown := [], 0, 0, [];
    }

    /** The loop of _append: lines leave at the front until the rest fits or is one line. */
    method EvictOldest()
      modifies this`lines, this`size, this`dropped
      ensures Ring(lines, size, dropped) == Evict(capacity, old(Ring(lines, size, dropped)))
    {
      while size > capacity && |lines| > 1
        invariant Evict(capacity, Ring(lines, size, dropped)) == Evict(capacity, old(Ring(lines, size, dropped)))
        decreases |lines|
      {
        size := size - |lines[0].text|;
        lines := lines[1..];
        dropped := dropped + 1;
      }
    }

    /** _append */
    method AppendLine(line: Line)
      requires Valid()
      modifies this
      ensures Valid() && shown == old(shown) + [line]
    {
      RingSnoc(capacity, shown, line);
      lines := lines + [line];
      size := size + |line.text|;
      EvictOldest();
      shown := shown + [line];
    }

    /** snapshot: the retained lines, each at its place among all lines so far. */
    method TakeSnapshot() returns (items: seq<Item>)
      requires Valid()
      ensures InPlace(items, 0, shown)
      ensures |items| == |lines| + if dropped > 0 then 1 else 0
    {
      SnapshotInPlace(capacity, shown);
      items := AsItems(lines);
      if dropped > 0 {
        items := [Dropped(dropped)] + items;
      }
      SameLength(lines);
    }
  }

  /** One sheet's buffer: the partial lines and the ring; `log` holds the pieces behind the lines shown. */
  class SheetOutputBuffer {
    const clean: Bytes -> string
    const ring: LineRing
    var names: seq<Stream>
    var partials: map<Stream, Bytes>
    ghost var log: seq<Emission>

    ghost function State(): Buffer
      reads this
    {
      Buffer(names, partials, log)
    }

    ghost predicate Valid()
      reads this, ring
    {
      ring.Valid() && ring.shown == LinesOf(clean, log)
    }

    constructor (capacity: nat, clean: Bytes -> string)
      ensures Valid() && State() == Run([]) && ring.capacity == capacity && this.clean == clean && fresh(ring)
    {
      this.clean := clean;
      ring := new LineRing(capacity);
      names, partials, log := [], map[], [];
    }

    /** feed: the lines it returns are those it appended to the history. */
    method Feed(stream: Stream, chunk: Bytes) returns (out: seq<Line>)
      requires Valid()
      modifies this, ring
      ensures Valid() && State() == Fed(old(State()), stream, chunk)
      ensures ring.shown == old(ring.shown) + out
    {
      var cut := Split((if stream in partials then partials[stream] else []) + chunk);
      var complete, rest := cut.lines, cut.rest;
      if |rest| > MAX_PARTIAL_LINE {
        complete := complete + [rest];
        rest := [];
      }
      assert [] + cut.lines == cut.lines;
      if stream !in partials {
        names := names + [stream];
      }
      partials := partials[stream := rest];
      out := AppendPieces(stream, complete);
    }

    /** The loop of feed. */
    method AppendPieces(stream: Stream, complete: seq<Bytes>) returns (out: seq<Line>)
      requires Valid()
      modifies this`log, ring
      ensures Valid() && log == old(log) + Emit(stream, complete)
      ensures ring.shown == old(ring.shown) + out
    {
      out := [];
      for i := 0 to |complete|
        invariant Valid() && log == old(log) + Emit(stream, complete[..i])
        invariant ring.shown == old(ring.shown) + out
      {
        var text := clean(complete[i]);
        if stream == Stderr {
          text := "[stderr] " + text;
        }
        ring.AppendLine(Line(text));
        ghost var e := Emission(stream, complete[i]);
        LinesOfSnoc(clean, log, e);
        EmitSnoc(stream, complete, i);
        Regroup(old(log), Emit(stream, complete[..i]), e);
        log := log + [e];
        Regroup(old(ring.shown), out, Line(text));
        out := out + [Line(text)];
      }
      assert complete[..|complete|] == complete;
    }

    method FlushOne(s: Stream) returns (out: seq<Line>)
      requires Valid()
      modifies this, ring
      ensures Valid() && ring.shown == old(ring.shown) + out
      ensures State() == if Rest(old(State()), s) != [] then Fed(old(State()), s, [LF]) else old(State())
    {
      out := [];
      if s in partials && partials[s] != [] {
        out := Feed(s, [LF]);
      }
    }

    /** The loop of flush: a newline for every stream with a partial line. */
    method FlushStreams(items: seq<Stream>) returns (out: seq<Line>)
      requires Valid()
      modifies this, ring
      ensures Valid() && State() == FlushEach(old(State()), items)
      ensures ring.shown == old(ring.shown) + out
    {
      out := [];
      for i := 0 to |items|
        invariant Valid() && State() == FlushEach(old(State()), items[..i])
        invariant ring.shown == old(ring.shown) + out
      {
        FlushEachSnoc(old(State()), items, i);
        var ended := FlushOne(items[i]);
        Reassociate(old(ring.shown), out, ended);
        out := out + ended;
      }
      assert items[..|items|] == items;
    }

    /** flush */
    method Flush() returns (out: seq<Line>)
      requires Valid()
      modifies this, ring
      ensures Valid() && State() == Flushed(old(State()))
      ensures ring.shown == old(ring.shown) + out
    {
      out := FlushStreams(names);
      names, partials := [], map[];
    }
  }

  lemma {:induction false} SameLength(lines: seq<Line>)
    ensures |AsItems(lines)| == |lines|
  {
    if lines != [] {
      SameLength(lines[..|lines| - 1]);
    }
  }

  class OutputSubscriber {
    var queue: seq<Item>
    var dropped: nat

    function State(): Watcher
      reads this
    {
      Watcher(queue, dropped)
    }

    constructor ()
      ensures State() == Watcher([], 0)
    {
      queue, dropped := [], 0;
    }

    /** offer: never blocks, and surfaces the marker before the next line. */
    method OfferOne(line: Line)
      modifies this
      ensures State() == Offer(old(State()), line)
    {
      if dropped > 0 {
        if |queue| < SUBSCRIBER_QUEUE_SIZE {
          queue := queue + [Dropped(dropped)];
          dropped := 0;
        } else {
          dropped := dropped + 1;
          return;
        }
      }
      if |queue| < SUBSCRIBER_QUEUE_SIZE {
        queue := queue + [Shown(line)];
      } else {
        dropped := dropped + 1;
      }
    }

    method Take() returns (item: Option<Item>)
      modifies this`queue
      ensures item == if old(queue) == [] then None else Some(old(queue)[0])
      ensures queue == if old(queue) == [] then [] else old(queue)[1..]
    {
      if queue == [] {
        return None;
      }
      item := Some(queue[0]);
      queue := queue[1..];
    }
  }

  function OfferAll(w: Watcher, lines: seq<Line>): Watcher {
    if lines == [] then w else Offer(OfferAll(w, lines[..|lines| - 1]), lines[|lines| - 1])
  }

  method OfferTo(watchers: set<OutputSubscriber>, line: Line)
    modifies watchers
    ensures forall w :: w in watchers ==> w.State() == Offer(old(w.State()), line)
  {
    var rest := watchers;
    while rest != {}
      invariant rest <= watchers
      invariant forall w :: w in watchers ==>
                  w.State() == if w in rest then old(w.State()) else Offer(old(w.State()), line)
      decreases rest
    {
      var w := Pick(rest);
      w.OfferOne(line);
      rest := rest - {w};
    }
  }

  /** _fan_out: the watchers of the sheet see the line, those of the whole job see it tagged. */
  method FanOut(watchers: set<OutputSubscriber>, jobWatchers: set<OutputSubscriber>, tag: Line -> Line, line: Line)
    requires watchers !! jobWatchers
    modifies watchers, jobWatchers
    ensures forall w :: w in watchers ==> w.State() == Offer(old(w.State()), line)
    ensures forall w :: w in jobWatchers ==> w.State() == Offer(old(w.State()), tag(line))
  {
    OfferTo(watchers, line);
    OfferTo(jobWatchers, tag(line));
  }

  /** What the watchers of the whole job are offered. */
  function Tagged(tag: Line -> Line, lines: seq<Line>): seq<Line> {
    if lines == [] then [] else Tagged(tag, lines[..|lines| - 1]) + [tag(lines[|lines| - 1])]
  }

  lemma OfferAllSnoc(tag: Line -> Line, lines: seq<Line>, i: nat)
    requires i < |lines|
    ensures forall w :: OfferAll(w, lines[..i + 1]) == Offer(OfferAll(w, lines[..i]), lines[i])
    ensures forall w :: OfferAll(w, Tagged(tag, lines[..i + 1])) ==
                        Offer(OfferAll(w, Tagged(tag, lines[..i])), tag(lines[i]))
  {
    assert lines[..i + 1][..i] == lines[..i];
    var tagged := Tagged(tag, lines[..i + 1]);
    assert tagged[..|tagged| - 1] == Tagged(tag, lines[..i]);
  }

  method OfferLines(watchers: set<OutputSubscriber>, jobWatchers: set<OutputSubscriber>, tag: Line -> Line,
                    lines: seq<Line>)
    requires watchers !! jobWatchers
    modifies watchers, jobWatchers
    ensures forall w :: w in watchers ==> w.State() == OfferAll(old(w.State()), lines)
    ensures forall w :: w in jobWatchers ==> w.State() == OfferAll(old(w.State()), Tagged(tag, lines))
  {
    for i := 0 to |lines|
      invariant forall w :: w in watchers ==> w.State() == OfferAll(old(w.State()), lines[..i])
      invariant forall w :: w in jobWatchers ==> w.State() == OfferAll(old(w.State()), Tagged(tag, lines[..i]))
    {
      OfferAllSnoc(tag, lines, i);
      FanOut(watchers, jobWatchers, tag, lines[i]);
    }
    assert lines[..|lines|] == lines;
  }

  /**
    The writer of a sheet: every watcher of the sheet is offered exactly the lines that the chunk added to the
    history, and every watcher of the job the same lines with their tag.
   */
  method Write(buffer: SheetOutputBuffer, watchers: set<OutputSubscriber>, jobWatchers: set<OutputSubscriber>,
               tag: Line -> Line, stream: Stream, chunk: Bytes)
    returns (ghost out: seq<Line>)
    requires buffer.Valid() && watchers !! jobWatchers
    modifies buffer, buffer.ring, watchers, jobWatchers
    ensures buffer.Valid() && buffer.State() == Fed(old(buffer.State()), stream, chunk)
    ensures buffer.ring.shown == old(buffer.ring.shown) + out
    ensures forall w :: w in watchers ==> w.State() == OfferAll(old(w.State()), out)
    ensures forall w :: w in jobWatchers ==> w.State() == OfferAll(old(w.State()), Tagged(tag, out))
  {
    var lines := buffer.Feed(stream, chunk);
    OfferLines(watchers, jobWatchers, tag, lines);
    out := lines;
  }
}
