/**
  The file inbox of a sheet (core/mailbox.py): senders append one JSON line each, a sender may be killed in the
  middle of its write, and readers poll with the id they saw last.

  The advisory lock makes every send and every read one atomic step. A write stores the whole record unless
  its sender is killed. JSON is a parameter: a `Codec` prints a message without raw newlines and reads its own
  output back. Sheet numbers are taken as already checked.
 */
module Mailbox {
  import opened ByteStrings
  import opened Sequences

  /** The block size of the backward scan. */
  const CHUNK := 4096

  datatype Message = Message(id: int, timestamp: string, sender: int, recipient: int, body: string)
  datatype Draft = Draft(timestamp: string, sender: int, body: string)

  datatype Codec = Codec(dump: Message -> Bytes, load: Bytes -> Option<Message>)

  ghost predicate Faithful(c: Codec) {
    && (forall m :: Clean(c.dump(m), 0, |c.dump(m)|))
    && (forall m :: c.load(c.dump(m) + [LF]) == Some(m))
  }

  datatype Result<+T> = Ok(value: T) | Error(error: Failure)
  datatype Failure = NegativeCursor | InvalidRecord(line: nat)

  // ---- lines of a file ------------------------------------------------------------------------------------

  /** No newline in f[lo..hi]. */
  predicate Clean(f: Bytes, lo: int, hi: int)
    requires 0 <= lo && hi <= |f|
  {
    forall i :: lo <= i < hi ==> f[i] != LF
  }

  /** The size of the file up to and including its last newline. */
  function Whole(f: Bytes): (n: nat)
    ensures n <= |f| && (n == 0 || f[n - 1] == LF) && Clean(f, n, |f|)
  {
    if f == [] then 0
    else if f[|f| - 1] == LF then |f|
    else
      var front := f[..|f| - 1];
      var n := Whole(front);
      assert forall i :: 0 <= i < |front| ==> f[i] == front[i];
      n
  }

  /** The complete lines, each with its newline. */
  function Lines(f: Bytes): seq<Bytes> {
    if f == [] then []
    else if f[|f| - 1] == LF then Lines(f[..|f| - 1]) + [f[Whole(f[..|f| - 1])..]]
    else Lines(f[..|f| - 1])
  }

  /** The last newline is the only one with nothing but other bytes behind it. */
  lemma WholeIs(f: Bytes, n: nat)
    requires n <= |f| && (n == 0 || f[n - 1] == LF) && Clean(f, n, |f|)
    ensures Whole(f) == n
  {
  }

  lemma {:induction false} TailAddsNoLine(f: Bytes, tail: Bytes)
    requires Clean(tail, 0, |tail|)
    ensures Whole(f + tail) == Whole(f) && Lines(f + tail) == Lines(f)
  {
    if tail == [] {
      assert f + tail == f;
    } else {
      var front := tail[..|tail| - 1];
      assert (f + tail)[..|f + tail| - 1] == f + front;
      TailAddsNoLine(f, front);
    }
  }

  lemma RecordAddsItsLine(f: Bytes, text: Bytes)
    requires Whole(f) == |f| && Clean(text, 0, |text|)
    ensures Whole(f + text + [LF]) == |f + text + [LF]|
    ensures Lines(f + text + [LF]) == Lines(f) + [text + [LF]]
  {
    TailAddsNoLine(f, text);
    var g := f + text + [LF];
    assert g[..|g| - 1] == f + text;
    assert g[|f|..] == text + [LF];
  }

  lemma {:induction false} LinesOfPrefix(f: Bytes, n: nat)
    requires n <= |f|
    ensures Lines(f[..n]) <= Lines(f)
  {
    if n == |f| {
      assert f[..n] == f;
    } else {
      assert f[..|f| - 1][..n] == f[..n];
      LinesOfPrefix(f[..|f| - 1], n);
    }
  }

  lemma NextLineIsLast(f: Bytes, pos: nat, end: nat)
    requires pos < end <= |f| && Whole(f[..pos]) == pos && Clean(f, pos, end - 1) && f[end - 1] == LF
    ensures Whole(f[..end]) == end && Lines(f[..end]) == Lines(f[..pos]) + [f[pos..end]]
  {
    var text := f[pos..end - 1];
    assert f[..end] == f[..pos] + text + [LF] && text + [LF] == f[pos..end];
    RecordAddsItsLine(f[..pos], text);
  }

  lemma RestHasNoLine(f: Bytes, pos: nat)
    requires pos <= |f| && Clean(f, pos, |f|)
    ensures Lines(f[..pos]) == Lines(f)
  {
    assert f == f[..pos] + f[pos..];
    TailAddsNoLine(f[..pos], f[pos..]);
  }

  // ---- sending --------------------------------------------------------------------------------------------

  function Record(c: Codec, m: Message): Bytes {
    c.dump(m) + [LF]
  }

  /** The message a send writes: its id is the cursor behind what is already stored. */
  function Stamp(draft: Draft, recipient: int, f: Bytes): Message {
    Message(Whole(f) + 1, draft.timestamp, draft.sender, recipient, draft.body)
  }

  /** bytes.rfind of a newline. */
  function FindLast(block: Bytes): (cut: int)
    ensures -1 <= cut < |block| && Clean(block, cut + 1, |block|)
    ensures cut >= 0 ==> block[cut] == LF
  {
    if block == [] then -1
    else if block[|block| - 1] == LF then |block| - 1
    else
      var front := block[..|block| - 1];
      var cut := FindLast(front);
      assert forall i :: 0 <= i < |front| ==> block[i] == front[i];
      cut
  }

  // ---- reading --------------------------------------------------------------------------------------------

  predicate Fresh(since: Option<int>, m: Message) {
    since.None? || m.id > since.value
  }

  /** What a read makes of the complete lines: the first bad one fails it, the others are filtered by the cursor. */
  function Deliver(c: Codec, sheet: int, since: Option<int>, lines: seq<Bytes>): Result<seq<Message>> {
    if lines == [] then Ok([])
    else
      var before := Deliver(c, sheet, since, lines[..|lines| - 1]);
      if before.Error? then before
      else
        var m := c.load(lines[|lines| - 1]);
        if m.None? || m.value.recipient != sheet then Error(InvalidRecord(|lines|))
        else if Fresh(since, m.value) then Ok(before.value + [m.value])
        else before
  }

  lemma OneMoreLine(c: Codec, sheet: int, since: Option<int>, lines: seq<Bytes>, line: Bytes)
    requires Deliver(c, sheet, since, lines).Ok?
    ensures
      var messages, m := Deliver(c, sheet, since, lines).value, c.load(line);
      Deliver(c, sheet, since, lines + [line]) ==
      if m.None? || m.value.recipient != sheet then Error(InvalidRecord(|lines| + 1))
      else if Fresh(since, m.value) then Ok(messages + [m.value])
      else Ok(messages)
  {
    assert (lines + [line])[..|lines|] == lines;
  }

  lemma {:induction false} ErrorStays(c: Codec, sheet: int, since: Option<int>, lines: seq<Bytes>, n: nat)
    requires n <= |lines| && Deliver(c, sheet, since, lines[..n]).Error?
    ensures Deliver(c, sheet, since, lines) == Deliver(c, sheet, since, lines[..n])
  {
    if n == |lines| {
      assert lines[..n] == lines;
    } else {
      assert lines[..|lines| - 1][..n] == lines[..n];
      ErrorStays(c, sheet, since, lines[..|lines| - 1], n);
    }
  }

  lemma ErrorOfPrefix(c: Codec, sheet: int, since: Option<int>, f: Bytes, n: nat)
    requires n <= |f| && Deliver(c, sheet, since, Lines(f[..n])).Error?
    ensures Deliver(c, sheet, since, Lines(f)) == Deliver(c, sheet, since, Lines(f[..n]))
  {
    LinesOfPrefix(f, n);
    assert Lines(f)[..|Lines(f[..n])|] == Lines(f[..n]);
    ErrorStays(c, sheet, since, Lines(f), |Lines(f[..n])|);
  }

  function Read(c: Codec, sheet: int, since: Option<int>, f: Bytes): Result<seq<Message>> {
    if since.Some? && since.value < 0 then Error(NegativeCursor) else Deliver(c, sheet, since, Lines(f))
  }

  predicate BadLine(c: Codec, sheet: int, line: Bytes) {
    c.load(line).None? || c.load(line).value.recipient != sheet
  }

  predicate AllGood(c: Codec, sheet: int, lines: seq<Bytes>) {
    forall i :: 0 <= i < |lines| ==> !BadLine(c, sheet, lines[i])
  }

  predicate FirstBad(c: Codec, sheet: int, lines: seq<Bytes>, k: int) {
    0 <= k < |lines| && BadLine(c, sheet, lines[k]) && forall i :: 0 <= i < k ==> !BadLine(c, sheet, lines[i])
  }

  /** m is what a line holds, and its id is past the cursor. */
  predicate Wanted(c: Codec, since: Option<int>, line: Bytes, m: Message) {
    c.load(line) == Some(m) && (since == None || since.value < m.id)
  }

  /** The messages are those of the lines past the cursor, in the order of the lines. */
  predicate PicksOut(c: Codec, since: Option<int>, lines: seq<Bytes>, messages: seq<Message>) {
    if lines == [] then messages == []
    else
      var front, m := lines[..|lines| - 1], c.load(lines[|lines| - 1]);
      if m.Some? && Wanted(c, since, lines[|lines| - 1], m.value) then
        messages != [] && messages[|messages| - 1] == m.value
        && PicksOut(c, since, front, messages[..|messages| - 1])
      else PicksOut(c, since, front, messages)
  }

  lemma OneMorePick(c: Codec, sheet: int, since: Option<int>, lines: seq<Bytes>, line: Bytes, messages: seq<Message>)
    requires Deliver(c, sheet, since, lines) == Ok(messages) && PicksOut(c, since, lines, messages)
    requires !BadLine(c, sheet, line)
    ensures
      var r := Deliver(c, sheet, since, lines + [line]);
      r.Ok? && PicksOut(c, since, lines + [line], r.value)
  {
    OneMoreLine(c, sheet, since, lines, line);
    assert (lines + [line])[..|lines|] == lines;
    var m := c.load(line).value;
    assert (messages + [m])[..|messages|] == messages;
  }

  lemma {:induction false} GoodLinesAreDelivered(c: Codec, sheet: int, since: Option<int>, lines: seq<Bytes>)
    requires AllGood(c, sheet, lines)
    ensures Deliver(c, sheet, since, lines).Ok? && PicksOut(c, since, lines, Deliver(c, sheet, since, lines).value)
  {
    if lines != [] {
      var front, last := lines[..|lines| - 1], lines[|lines| - 1];
      GoodLinesAreDelivered(c, sheet, since, front);
      assert !BadLine(c, sheet, last) && front + [last] == lines;
      OneMorePick(c, sheet, since, front, last, Deliver(c, sheet, since, front).value);
    }
  }

  lemma {:induction false} FirstBadFails(c: Codec, sheet: int, since: Option<int>, lines: seq<Bytes>, k: nat)
    requires FirstBad(c, sheet, lines, k)
    ensures Deliver(c, sheet, since, lines) == Error(InvalidRecord(k + 1))
  {
    var front := lines[..|lines| - 1];
    if k == |front| {
      GoodLinesAreDelivered(c, sheet, since, front);
    } else {
      FirstBadFails(c, sheet, since, front, k);
    }
  }

  lemma {:induction false} DeliveredLinesAreGood(c: Codec, sheet: int, since: Option<int>, lines: seq<Bytes>)
    ensures Deliver(c, sheet, since, lines) != Error(NegativeCursor)
    ensures Deliver(c, sheet, since, lines).Ok? ==> AllGood(c, sheet, lines)
  {
    if lines != [] {
      DeliveredLinesAreGood(c, sheet, since, lines[..|lines| - 1]);
    }
  }

  /**
    A read of any file: a negative cursor is an error; otherwise the first complete line that is no message for the
    sheet is one, with its number; and if there is none, the messages past the cursor are returned in their order.
   */
  lemma ReadOfAnyFile(c: Codec, sheet: int, since: Option<int>, f: Bytes)
    ensures
      var r, negative := Read(c, sheet, since, f), since.Some? && since.value < 0;
      && (r == Error(NegativeCursor) <==> negative)
      && (forall k: nat :: !negative && FirstBad(c, sheet, Lines(f), k) ==> r == Error(InvalidRecord(k + 1)))
    ensures
      var r, lines := Read(c, sheet, since, f), Lines(f);
      && (r.Ok? <==> !(since.Some? && since.value < 0) && AllGood(c, sheet, lines))
      && (r.Ok? ==> PicksOut(c, since, lines, r.value))
  {
    var lines := Lines(f);
    DeliveredLinesAreGood(c, sheet, since, lines);
    forall k: nat | FirstBad(c, sheet, lines, k)
      ensures Deliver(c, sheet, since, lines) == Error(InvalidRecord(k + 1))
    {
      FirstBadFails(c, sheet, since, lines, k);
    }
    if AllGood(c, sheet, lines) {
      GoodLinesAreDelivered(c, sheet, since, lines);
    }
  }

  /** inbox.jsonl of one recipient, with its readers and writers. */
  class Inbox {
    const codec: Codec
    const recipient: int
    var file: Bytes

    constructor (codec: Codec, recipient: int)
      ensures this.codec == codec && this.recipient == recipient && file == []
    {
      this.codec, this.recipient, file := codec, recipient, [];
    }

    /** _truncate_torn_tail: whatever the file holds, it is cut exactly behind its last newline. */
    method TruncateTornTail() returns (size: nat)
      modifies this`file
      ensures size == Whole(old(file)) && file == old(file)[..size]
    {
      var end := |file|;
      if end == 0 {
        return 0;
      }
      if file[end - 1] == LF {
        return end;
      }
      size := end;
      while size > 0
        invariant 0 <= size <= |file| && file == old(file)
        invariant Clean(file, size, |file|)
      {
        var start := if size > CHUNK then size - CHUNK else 0;
        var block := file[start..size];
        var cut := FindLast(block);
        assert forall i :: start <= i < size ==> file[i] == block[i - start];
        if cut >= 0 {
          size := start + cut + 1;
          WholeIs(file, size);
          file := file[..size];
          return;
        }
        size := start;
      }
      WholeIs(file, 0);
      file := [];
    }

    /** send_message, up to the write: it is killed after n bytes of its record, or stores all of it. */
    method Write(draft: Draft, n: nat) returns (m: Message)
      requires n <= |Record(codec, Stamp(draft, recipient, file))|
      modifies this`file
      ensures m == Stamp(draft, recipient, old(file))
      ensures file == AfterWrite(codec, recipient, old(file), draft, n)
    {
      var end := TruncateTornTail();
      m := Message(end + 1, draft.timestamp, draft.sender, recipient, draft.body);
      file := file + Record(codec, m)[..n];
    }

    /** send_message that is not killed. */
    method SendMessage(draft: Draft) returns (m: Message)
      modifies this`file
      ensures m == Stamp(draft, recipient, old(file))
      ensures file == old(file)[..Whole(old(file))] + Record(codec, m)
    {
      m := Write(draft, |Record(codec, Stamp(draft, recipient, file))|);
      assert Record(codec, m)[..|Record(codec, m)|] == Record(codec, m);
    }

    /** read_messages: the loop over the lines of the file. */
    method ReadMessages(since: Option<int>) returns (r: Result<seq<Message>>)
      ensures r == Read(codec, recipient, since, file)
    {
      if since.Some? && since.value < 0 {
        return Error(NegativeCursor);
      }
      var messages: seq<Message> := [];
      var number, pos := 0, 0;
      while pos < |file|
        invariant 0 <= pos <= |file| && Whole(file[..pos]) == pos && number == |Lines(file[..pos])|
        invariant Deliver(codec, recipient, since, Lines(file[..pos])) == Ok(messages)
        decreases |file| - pos
      {
        var end := NextLine(pos);
        if file[end - 1] != LF {
          break;
        }
        number := number + 1;
        NextLineIsLast(file, pos, end);
        OneMoreLine(codec, recipient, since, Lines(file[..pos]), file[pos..end]);
        var m := codec.load(file[pos..end]);
        if m.None? || m.value.recipient != recipient {
          ErrorOfPrefix(codec, recipient, since, file, end);
          return Error(InvalidRecord(number));
        }
        if Fresh(since, m.value) {
          messages := messages + [m.value];
        }
        pos := end;
      }
      r := Ok(messages);
      RestHasNoLine(file, pos);
    }

    /** The end of the line that starts at pos: behind its newline, or the end of the file. */
    method NextLine(pos: nat) returns (end: nat)
      requires pos < |file|
      ensures pos < end <= |file| && Clean(file, pos, end - 1)
      ensures file[end - 1] == LF || (end == |file| && Clean(file, pos, |file|))
    {
      end := pos + 1;
      while end < |file| && file[end - 1] != LF
        invariant pos < end <= |file| && Clean(file, pos, end - 1)
      {
        end := end + 1;
      }
    }
  }

  function AfterWrite(c: Codec, recipient: int, f: Bytes, draft: Draft, n: nat): Bytes
    requires n <= |Record(c, Stamp(draft, recipient, f))|
  {
    f[..Whole(f)] + Record(c, Stamp(draft, recipient, f))[..n]
  }

  // ---- runs -----------------------------------------------------------------------------------------------

  datatype Event = Send(draft: Draft) | KilledSend(draft: Draft, written: nat) | Poll

  /**
    The inbox and one reader, which polls with the last id it was given. `stored` and `acknowledged` are the
    history: the messages whose record is complete, and those whose sender returned.
   */
  datatype State = State(file: Bytes, stored: seq<Message>, acknowledged: seq<Message>, reader: Reader)
  datatype Reader = Reader(since: Option<int>, got: seq<Message>)

  const EMPTY := State([], [], [], Reader(None, []))

  /** A killed sender has written some part of its record, all of it at most. */
  predicate Possible(c: Codec, recipient: int, st: State, e: Event) {
    e.KilledSend? ==> e.written <= |Record(c, Stamp(e.draft, recipient, st.file))|
  }

  function StoredAfter(c: Codec, recipient: int, st: State, draft: Draft, n: nat): seq<Message> {
    var m := Stamp(draft, recipient, st.file);
    if n < |Record(c, m)| then st.stored else st.stored + [m]
  }

  function ReaderAfter(c: Codec, recipient: int, st: State): Reader {
    var read := Read(c, recipient, st.reader.since, st.file);
    if read.Error? || read.value == [] then st.reader
    else Reader(Some(read.value[|read.value| - 1].id), st.reader.got + read.value)
  }

  function Step(c: Codec, recipient: int, st: State, e: Event): State
    requires Possible(c, recipient, st, e)
  {
    match e
    case Send(draft) =>
      var m := Stamp(draft, recipient, st.file);
      State(st.file[..Whole(st.file)] + Record(c, m), st.stored + [m], st.acknowledged + [m], st.reader)
    case KilledSend(draft, n) =>
      State(AfterWrite(c, recipient, st.file, draft, n), StoredAfter(c, recipient, st, draft, n), st.acknowledged,
            st.reader)
    case Poll => st.(reader := ReaderAfter(c, recipient, st))
  }

  predicate Valid(c: Codec, recipient: int, es: seq<Event>)
    decreases |es|, 0
  {
    es == [] ||
    (Valid(c, recipient, es[..|es| - 1]) && Possible(c, recipient, Run(c, recipient, es[..|es| - 1]), es[|es| - 1]))
  }

  function Run(c: Codec, recipient: int, es: seq<Event>): State
    requires Valid(c, recipient, es)
    decreases |es|, 1
  {
    if es == [] then EMPTY
    else Step(c, recipient, Run(c, recipient, es[..|es| - 1]), es[|es| - 1])
  }

  function FileOf(c: Codec, stored: seq<Message>): Bytes {
    if stored == [] then [] else FileOf(c, stored[..|stored| - 1]) + Record(c, stored[|stored| - 1])
  }

  /** Every message carries the cursor behind the records before its own. */
  predicate Stamped(c: Codec, recipient: int, stored: seq<Message>) {
    stored == [] ||
    (&& Stamped(c, recipient, stored[..|stored| - 1])
     && stored[|stored| - 1].id == |FileOf(c, stored[..|stored| - 1])| + 1
     && stored[|stored| - 1].recipient == recipient)
  }

  /** The file is the records of the stored messages and a tail without newline. */
  predicate FileOk(c: Codec, recipient: int, file: Bytes, stored: seq<Message>) {
    Whole(file) == |FileOf(c, stored)| && file[..Whole(file)] == FileOf(c, stored) && Stamped(c, recipient, stored)
  }

  /** The reader was given a prefix of the stored messages and holds the last id of it. */
  predicate ReaderOk(reader: Reader, stored: seq<Message>) {
    && reader.got <= stored
    && reader.since == if reader.got == [] then None else Some(reader.got[|reader.got| - 1].id)
  }

  predicate Inv(c: Codec, recipient: int, st: State) {
    && FileOk(c, recipient, st.file, st.stored)
    && Subsequence(st.acknowledged, st.stored)
    && ReaderOk(st.reader, st.stored)
  }

  // ---- what is stored -------------------------------------------------------------------------------------

  lemma {:induction false} FileOfIsWhole(c: Codec, stored: seq<Message>)
    requires Faithful(c)
    ensures Whole(FileOf(c, stored)) == |FileOf(c, stored)|
  {
    if stored != [] {
      var front := stored[..|stored| - 1];
      FileOfIsWhole(c, front);
      RecordAddsItsLine(FileOf(c, front), c.dump(stored[|stored| - 1]));
      assert FileOf(c, stored) == FileOf(c, front) + c.dump(stored[|stored| - 1]) + [LF];
    }
  }

  /** The ids are positive and increase strictly. */
  lemma {:induction false} IdsIncrease(c: Codec, recipient: int, stored: seq<Message>)
    requires Stamped(c, recipient, stored)
    ensures forall i :: 0 <= i < |stored| ==> 0 < stored[i].id <= |FileOf(c, stored)|
    ensures forall i, j :: 0 <= i < j < |stored| ==> stored[i].id < stored[j].id
  {
    if stored != [] {
      var front := stored[..|stored| - 1];
      IdsIncrease(c, recipient, front);
      assert forall i :: 0 <= i < |front| ==> stored[i] == front[i];
    }
  }

  lemma LinesOfFile(c: Codec, stored: seq<Message>)
    requires Faithful(c) && stored != []
    ensures
      var front, m := stored[..|stored| - 1], stored[|stored| - 1];
      Lines(FileOf(c, stored)) == Lines(FileOf(c, front)) + [Record(c, m)]
  {
    var front, m := stored[..|stored| - 1], stored[|stored| - 1];
    FileOfIsWhole(c, front);
    RecordAddsItsLine(FileOf(c, front), c.dump(m));
    assert FileOf(c, stored) == FileOf(c, front) + c.dump(m) + [LF];
  }

  function Newer(stored: seq<Message>, since: Option<int>): seq<Message> {
    if stored == [] then []
    else
      var before, m := Newer(stored[..|stored| - 1], since), stored[|stored| - 1];
      if Fresh(since, m) then before + [m] else before
  }

  /** Reading the records back gives the messages behind the cursor. */
  lemma {:induction false} ReadBack(c: Codec, recipient: int, since: Option<int>, stored: seq<Message>)
    requires Faithful(c) && Stamped(c, recipient, stored)
    ensures Deliver(c, recipient, since, Lines(FileOf(c, stored))) == Ok(Newer(stored, since))
  {
    if stored != [] {
      var front, m := stored[..|stored| - 1], stored[|stored| - 1];
      ReadBack(c, recipient, since, front);
      LinesOfFile(c, stored);
      OneMoreLine(c, recipient, since, Lines(FileOf(c, front)), Record(c, m));
    }
  }

  /** A read of a sound inbox never fails: it gives the stored messages with a greater id, in their order. */
  lemma ReadIsExact(c: Codec, recipient: int, file: Bytes, stored: seq<Message>, since: Option<int>)
    requires Faithful(c) && FileOk(c, recipient, file, stored) && (since.Some? ==> since.value >= 0)
    ensures Read(c, recipient, since, file) == Ok(Newer(stored, since))
  {
    var n := Whole(file);
    assert file == file[..n] + file[n..];
    TailAddsNoLine(file[..n], file[n..]);
    ReadBack(c, recipient, since, stored);
  }

  ghost predicate Rising(ms: seq<Message>) {
    forall i, j :: 0 <= i < j < |ms| ==> ms[i].id < ms[j].id
  }

  lemma RisingFront(ms: seq<Message>)
    requires Rising(ms) && ms != []
    ensures Rising(ms[..|ms| - 1])
    ensures forall i :: 0 <= i < |ms| ==> ms[i].id <= ms[|ms| - 1].id
  {
  }

  /** With the last id of a prefix as its cursor, a read gives exactly the rest. */
  lemma {:induction false} NewerThanPrefix(stored: seq<Message>, n: nat, since: Option<int>)
    requires n <= |stored| && Rising(stored)
    requires since == if n == 0 then None else Some(stored[n - 1].id)
    ensures Newer(stored, since) == stored[n..]
  {
    if stored != [] {
      var front, last := stored[..|stored| - 1], stored[|stored| - 1];
      RisingFront(stored);
      if n == |stored| {
        NothingNewer(front, since.value);
      } else {
        NewerThanPrefix(front, n, since);
        assert n > 0 ==> stored[n - 1].id < last.id;
        assert stored[n..] == front[n..] + [last];
      }
    }
  }

  lemma {:induction false} NothingNewer(stored: seq<Message>, id: int)
    requires forall i :: 0 <= i < |stored| ==> stored[i].id <= id
    ensures Newer(stored, Some(id)) == []
  {
    if stored != [] {
      NothingNewer(stored[..|stored| - 1], id);
    }
  }

  // ---- every run ------------------------------------------------------------------------------------------

  lemma WriteKeepsFile(c: Codec, recipient: int, st: State, draft: Draft, n: nat)
    requires Faithful(c) && FileOk(c, recipient, st.file, st.stored)
    requires n <= |Record(c, Stamp(draft, recipient, st.file))|
    ensures FileOk(c, recipient, AfterWrite(c, recipient, st.file, draft, n), StoredAfter(c, recipient, st, draft, n))
  {
    var m := Stamp(draft, recipient, st.file);
    var record := Record(c, m);
    var old_, file := FileOf(c, st.stored), AfterWrite(c, recipient, st.file, draft, n);
    FileOfIsWhole(c, st.stored);
    if n < |record| {
      assert record[..n] == c.dump(m)[..n];
      TailAddsNoLine(old_, c.dump(m)[..n]);
      assert file == old_ + c.dump(m)[..n];
      assert file[..|old_|] == old_;
    } else {
      var stored := st.stored + [m];
      assert stored[..|stored| - 1] == st.stored;
      assert record[..n] == record;
      assert file == FileOf(c, stored);
      FileOfIsWhole(c, stored);
      assert file[..|file|] == file;
    }
  }

  lemma PollReadsRest(c: Codec, recipient: int, st: State)
    requires Faithful(c) && Inv(c, recipient, st)
    ensures Read(c, recipient, st.reader.since, st.file) == Ok(st.stored[|st.reader.got|..])
  {
    var got, stored := st.reader.got, st.stored;
    IdsIncrease(c, recipient, stored);
    assert got != [] ==> stored[|got| - 1] == got[|got| - 1];
    ReadIsExact(c, recipient, st.file, stored, st.reader.since);
    assert Rising(stored);
    NewerThanPrefix(stored, |got|, st.reader.since);
  }

  /** The reader after it was given some more messages. */
  function Advanced(reader: Reader, more: seq<Message>): Reader {
    if more == [] then reader else Reader(Some(more[|more| - 1].id), reader.got + more)
  }

  lemma AdvancedIsOk(reader: Reader, stored: seq<Message>)
    requires ReaderOk(reader, stored)
    ensures
      var after := Advanced(reader, stored[|reader.got|..]);
      ReaderOk(after, stored) && after.got == stored
  {
    assert stored == reader.got + stored[|reader.got|..];
  }

  lemma PollCatchesUp(c: Codec, recipient: int, st: State)
    requires Faithful(c) && Inv(c, recipient, st)
    ensures ReaderOk(ReaderAfter(c, recipient, st), st.stored) && ReaderAfter(c, recipient, st).got == st.stored
  {
    var more := st.stored[|st.reader.got|..];
    PollReadsRest(c, recipient, st);
    AdvancedIsOk(st.reader, st.stored);
    assert ReaderAfter(c, recipient, st) == Advanced(st.reader, more);
  }

  lemma SendKeepsInv(c: Codec, recipient: int, st: State, draft: Draft)
    requires Faithful(c) && Inv(c, recipient, st)
    ensures Inv(c, recipient, Step(c, recipient, st, Send(draft)))
  {
    var m := Stamp(draft, recipient, st.file);
    var n := |Record(c, m)|;
    WriteKeepsFile(c, recipient, st, draft, n);
    assert Record(c, m)[..n] == Record(c, m);
    SubsequenceBothGrow(st.acknowledged, st.stored, m);
  }

  lemma KilledSendKeepsInv(c: Codec, recipient: int, st: State, draft: Draft, n: nat)
    requires Faithful(c) && Inv(c, recipient, st) && Possible(c, recipient, st, KilledSend(draft, n))
    ensures Inv(c, recipient, Step(c, recipient, st, KilledSend(draft, n)))
  {
    WriteKeepsFile(c, recipient, st, draft, n);
    SubsequenceGrow(st.acknowledged, st.stored, Stamp(draft, recipient, st.file));
  }

  lemma StepKeepsInv(c: Codec, recipient: int, st: State, e: Event)
    requires Faithful(c) && Inv(c, recipient, st) && Possible(c, recipient, st, e)
    ensures Inv(c, recipient, Step(c, recipient, st, e))
  {
    match e
    case Send(draft) => SendKeepsInv(c, recipient, st, draft);
    case KilledSend(draft, n) => KilledSendKeepsInv(c, recipient, st, draft, n);
    case Poll => PollCatchesUp(c, recipient, st);
  }

  /** In every run the file is complete records and a tail without newline, and the reader lags by a suffix. */
  lemma {:induction false} RunKeepsInv(c: Codec, recipient: int, es: seq<Event>)
    requires Faithful(c) && Valid(c, recipient, es)
    ensures Inv(c, recipient, Run(c, recipient, es))
    decreases |es|
  {
    if es == [] {
      assert Whole([]) == 0;
    } else {
      RunKeepsInv(c, recipient, es[..|es| - 1]);
      StepKeepsInv(c, recipient, Run(c, recipient, es[..|es| - 1]), es[|es| - 1]);
    }
  }

  /**
    After any run that ends with a poll, the reader holds every stored message exactly once, in the order of the
    ids; the acknowledged ones are among them, in the order in which they were sent.
   */
  lemma EveryMessageOnce(c: Codec, recipient: int, es: seq<Event>)
    requires Faithful(c) && Valid(c, recipient, es) && es != [] && es[|es| - 1] == Poll
    ensures
      var st := Run(c, recipient, es);
      && st.reader.got == st.stored
      && Subsequence(st.acknowledged, st.reader.got)
      && forall i, j :: 0 <= i < j < |st.reader.got| ==> st.reader.got[i].id < st.reader.got[j].id
  {
    RunKeepsInv(c, recipient, es[..|es| - 1]);
    RunKeepsInv(c, recipient, es);
    PollCatchesUp(c, recipient, Run(c, recipient, es[..|es| - 1]));
    IdsIncrease(c, recipient, Run(c, recipient, es).stored);
  }

  // ---- what was sent --------------------------------------------------------------------------------------

  /** The message a draft becomes behind the earlier ones. */
  function MessageOf(c: Codec, recipient: int, earlier: seq<Message>, draft: Draft): Message {
    Message(|FileOf(c, earlier)| + 1, draft.timestamp, draft.sender, recipient, draft.body)
  }

  /** The draft whose record the last event completes: a killed sender may have come as far as its newline. */
  function Completed(c: Codec, recipient: int, earlier: seq<Message>, e: Event): Option<Draft> {
    match e
    case Send(draft) => Some(draft)
    case KilledSend(draft, n) =>
      if n == |c.dump(MessageOf(c, recipient, earlier, draft))| + 1 then Some(draft) else None
    case Poll => None
  }

  /** The messages of a run, read off its sends. */
  function SentOf(c: Codec, recipient: int, es: seq<Event>): seq<Message> {
    if es == [] then []
    else
      var earlier := SentOf(c, recipient, es[..|es| - 1]);
      var draft := Completed(c, recipient, earlier, es[|es| - 1]);
      if draft.Some? then earlier + [MessageOf(c, recipient, earlier, draft.value)] else earlier
  }

  /** The drafts of the sends whose record was completed. */
  function DraftsOf(c: Codec, recipient: int, es: seq<Event>): seq<Draft> {
    if es == [] then []
    else
      var front := es[..|es| - 1];
      var draft := Completed(c, recipient, SentOf(c, recipient, front), es[|es| - 1]);
      if draft.Some? then DraftsOf(c, recipient, front) + [draft.value] else DraftsOf(c, recipient, front)
  }

  /** The drafts of the sends that returned. */
  function ReturnedOf(es: seq<Event>): seq<Draft> {
    if es == [] then []
    else
      var before := ReturnedOf(es[..|es| - 1]);
      if es[|es| - 1].Send? then before + [es[|es| - 1].draft] else before
  }

  ghost predicate Carry(recipient: int, messages: seq<Message>, drafts: seq<Draft>) {
    |messages| == |drafts| &&
    forall i :: 0 <= i < |drafts| ==>
      && messages[i].timestamp == drafts[i].timestamp && messages[i].sender == drafts[i].sender
      && messages[i].body == drafts[i].body && messages[i].recipient == recipient
  }

  lemma StoredStep(c: Codec, recipient: int, st: State, e: Event)
    requires Possible(c, recipient, st, e) && Whole(st.file) == |FileOf(c, st.stored)|
    ensures
      var draft, after := Completed(c, recipient, st.stored, e), Step(c, recipient, st, e);
      && after.stored == (if draft.Some? then st.stored + [MessageOf(c, recipient, st.stored, draft.value)]
                          else st.stored)
      && after.acknowledged == (if e.Send? then st.acknowledged + [MessageOf(c, recipient, st.stored, e.draft)]
                                else st.acknowledged)
  {
  }

  /** What is stored, and what was acknowledged, carries exactly what the senders handed in. */
  lemma {:induction false} StoredIsSent(c: Codec, recipient: int, es: seq<Event>)
    requires Faithful(c) && Valid(c, recipient, es)
    ensures
      var st := Run(c, recipient, es);
      && st.stored == SentOf(c, recipient, es) && Carry(recipient, st.stored, DraftsOf(c, recipient, es))
      && Carry(recipient, st.acknowledged, ReturnedOf(es))
  {
    if es != [] {
      var front := es[..|es| - 1];
      StoredIsSent(c, recipient, front);
      RunKeepsInv(c, recipient, front);
      StoredStep(c, recipient, Run(c, recipient, front), es[|es| - 1]);
      CarryStep(c, recipient, SentOf(c, recipient, front), es[|es| - 1], DraftsOf(c, recipient, front));
      if es[|es| - 1].Send? {
        CarryMore(c, recipient, Run(c, recipient, front).acknowledged, ReturnedOf(front),
                  SentOf(c, recipient, front), es[|es| - 1].draft);
      }
    }
  }

  lemma CarryMore(c: Codec, recipient: int, messages: seq<Message>, drafts: seq<Draft>,
                  earlier: seq<Message>, draft: Draft)
    requires Carry(recipient, messages, drafts)
    ensures Carry(recipient, messages + [MessageOf(c, recipient, earlier, draft)], drafts + [draft])
  {
  }

  lemma CarryStep(c: Codec, recipient: int, sent: seq<Message>, e: Event, drafts: seq<Draft>)
    requires Carry(recipient, sent, drafts)
    ensures
      var draft := Completed(c, recipient, sent, e);
      draft.Some? ==> Carry(recipient, sent + [MessageOf(c, recipient, sent, draft.value)], drafts + [draft.value])
  {
    if Completed(c, recipient, sent, e).Some? {
      CarryMore(c, recipient, sent, drafts, sent, Completed(c, recipient, sent, e).value);
    }
  }

  /** After a final poll the reader holds what was sent: every completed send, once, in order, as it was handed in. */
  lemma DeliveredIsSent(c: Codec, recipient: int, es: seq<Event>)
    requires Faithful(c) && Valid(c, recipient, es) && es != [] && es[|es| - 1] == Poll
    ensures Carry(recipient, Run(c, recipient, es).reader.got, DraftsOf(c, recipient, es))
  {
    EveryMessageOnce(c, recipient, es);
    StoredIsSent(c, recipient, es);
  }
}
