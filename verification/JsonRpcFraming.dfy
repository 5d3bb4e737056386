/**
  The two framings of the bridge (daemon/mcp_socket_bridge.py): one JSON text per line, or a body behind a
  Content-Length header (Header Part of the Base Protocol, Language Server Protocol 3.17).

  JSON itself is a parameter: a `Codec` prints a message without raw newlines and starting with a brace, and
  reads its own output back, also with the newline that ends a line.
 */
module JsonRpcFraming {
  import opened ByteStrings
  import opened Sequences

  datatype Framing = Newline | ContentLength

  const CR: byte := 13
  const BRACE: byte := 123

  /** The line limit of an asyncio stream that is opened without a limit of its own. */
  const STREAM_LIMIT := 65536
  /** The limit the bridge checks itself. */
  const READ_CHUNK_LIMIT := 1048576
  /** Python refuses to convert longer decimal texts to an int. */
  const MAX_INT_DIGITS := 4300

  /** "Content-Length: " and, in lower case and without the blank, the name that is recognised. */
  const HEADER: Bytes := [67, 111, 110, 116, 101, 110, 116, 45, 76, 101, 110, 103, 116, 104, 58, 32]
  const NAME: Bytes := [99, 111, 110, 116, 101, 110, 116, 45, 108, 101, 110, 103, 116, 104, 58]
  const BLANK_LINE: Bytes := [CR, LF]

  // ---- bytes ----------------------------------------------------------------------------------------------

  predicate IsSpace(b: byte) {
    b == 32 || 9 <= b <= 13
  }

  predicate IsDigit(b: byte) {
    48 <= b <= 57
  }

  function Lower(b: byte): byte {
    if 65 <= b <= 90 then b + 32 else b
  }

  predicate Blank(s: Bytes) {
    forall i :: 0 <= i < |s| ==> IsSpace(s[i])
  }

  predicate IsLengthHeader(line: Bytes) {
    |line| >= |NAME| && forall i :: 0 <= i < |NAME| ==> Lower(line[i]) == NAME[i]
  }

  function TrimLeft(s: Bytes): Bytes {
    if s != [] && IsSpace(s[0]) then TrimLeft(s[1..]) else s
  }

  function TrimRight(s: Bytes): Bytes {
    if s != [] && IsSpace(s[|s| - 1]) then TrimRight(s[..|s| - 1]) else s
  }

  function Trim(s: Bytes): Bytes {
    TrimRight(TrimLeft(s))
  }

  // ---- decimal numbers ------------------------------------------------------------------------------------

  function Digit(n: nat): byte
    requires n < 10
  {
    48 + n
  }

  function Decimal(n: nat): (s: Bytes)
    ensures s != [] && forall i :: 0 <= i < |s| ==> IsDigit(s[i])
  {
    if n < 10 then [Digit(n)] else Decimal(n / 10) + [Digit(n % 10)]
  }

  /** Digits, with single underscores allowed between them. */
  function ParseDigits(s: Bytes): Option<nat> {
    if s == [] || !IsDigit(s[|s| - 1]) then None
    else
      var last: nat := s[|s| - 1] - 48;
      if |s| == 1 then Some(last)
      else
        var front := if s[|s| - 2] == 95 then s[..|s| - 2] else s[..|s| - 1];
        var high := ParseDigits(front);
        if high.None? then None else Some(10 * high.value + last)
  }

  function CountDigits(s: Bytes): nat {
    if s == [] then 0 else CountDigits(s[..|s| - 1]) + if IsDigit(s[|s| - 1]) then 1 else 0
  }

  /** int() of a byte string: surrounding blanks, a sign, digits. */
  function ParseInt(text: Bytes): Option<int> {
    var s := Trim(text);
    if s == [] then None
    else
      var signed := s[0] == 43 || s[0] == 45;
      var digits := if signed then s[1..] else s;
      var n := ParseDigits(digits);
      if n.None? || CountDigits(digits) > MAX_INT_DIGITS then None
      else
        var value: int := n.value;
        Some(if s[0] == 45 then -value else value)
  }

  // ---- printing -------------------------------------------------------------------------------------------

  function Encode(body: Bytes, framing: Framing): Bytes {
    match framing
    case ContentLength => HEADER + Decimal(|body|) + BLANK_LINE + BLANK_LINE + body
    case Newline => body + [LF]
  }

  // ---- reading --------------------------------------------------------------------------------------------

  /** Length of the first line with its newline; the rest of the stream if there is none. */
  function LineLength(s: Bytes): (n: nat)
    ensures n <= |s| && (s != [] ==> n > 0)
    ensures forall i :: 0 <= i < n - 1 ==> s[i] != LF
    ensures n > 0 && s[n - 1] != LF ==> n == |s|
  {
    if s == [] then 0 else if s[0] == LF then 1 else 1 + LineLength(s[1..])
  }

  /** readline raises when the line without its newline is over the limit of the stream. */
  predicate LineFits(s: Bytes) {
    var n := LineLength(s);
    n == 0 || (if s[n - 1] == LF then n - 1 else n) <= STREAM_LIMIT
  }

  datatype ReadResult =
    | Got(text: Bytes, framing: Framing, rest: Bytes)
    | EndOfStream
    | Malformed              // a ValueError or an IncompleteReadError

  /** The headers after the first one are skipped up to the empty line. */
  function SkipHeaders(s: Bytes, length: int): (r: ReadResult)
    ensures r.Got? ==> |r.rest| < |s|
    decreases |s|
  {
    if s == [] then EndOfStream
    else if !LineFits(s) then Malformed
    else
      var n := LineLength(s);
      if s[..n] == BLANK_LINE || s[..n] == [LF] then ReadExactly(s[n..], length)
      else SkipHeaders(s[n..], length)
  }

  function ReadExactly(s: Bytes, length: int): ReadResult {
    if 0 <= length <= |s| then Got(s[..length], ContentLength, s[length..]) else Malformed
  }

  function ReadMessage(s: Bytes): (r: ReadResult)
    ensures r.Got? ==> |r.rest| < |s|
    decreases |s|
  {
    if s == [] then EndOfStream
    else if !LineFits(s) then Malformed
    else
      var n := LineLength(s);
      var line := s[..n];
      if Blank(line) then ReadMessage(s[n..])
      else if IsLengthHeader(line) then
        var length := ParseInt(line[|NAME|..]);
        if length.None? then Malformed else SkipHeaders(s[n..], length.value)
      else if |line| > READ_CHUNK_LIMIT then Malformed
      else Got(line, Newline, s[n..])
  }

  // ---- the reader object ----------------------------------------------------------------------------------

  /** A stream reader over a byte string that ends at its last byte. */
  class StreamReader {
    const data: Bytes
    var pos: nat

    ghost predicate Valid()
      reads this
    {
      pos <= |data|
    }

    ghost function Rest(): Bytes
      requires Valid()
      reads this
    {
      data[pos..]
    }

    constructor (data: Bytes)
      ensures Valid() && Rest() == data && this.data == data
    {
      this.data, pos := data, 0;
    }

    /** The next line with its newline; empty at the end of the stream. `ok` is false for the ValueError. */
    method ReadLine() returns (line: Bytes, ok: bool)
      requires Valid()
      modifies this
      ensures Valid() && ok == LineFits(old(Rest()))
      ensures line == old(Rest())[..LineLength(old(Rest()))]
      ensures Rest() == old(Rest())[LineLength(old(Rest()))..]
    {
      ghost var before := Rest();
      var end := pos;
      while end < |data| && data[end] != LF
        invariant pos == old(pos) <= end <= |data|
        invariant LineLength(before) == end - pos + LineLength(data[end..])
        invariant forall i :: pos <= i < end ==> data[i] != LF
      {
        assert data[end..][1..] == data[end + 1..];
        end := end + 1;
      }
      ok := end - pos <= STREAM_LIMIT;
      if end < |data| {
        end := end + 1;
      }
      line := data[pos..end];
      assert line == before[..LineLength(before)];
      pos := end;
    }

    method ReadBody(length: int) returns (r: ReadResult)
      requires Valid()
      modifies this
      ensures Valid() && r == ReadExactly(old(Rest()), length)
      ensures r.Got? ==> Rest() == r.rest
    {
      if length < 0 || |data| - pos < length {
        return Malformed;
      }
      var text := data[pos..pos + length];
      pos := pos + length;
      assert old(Rest())[..length] == text && old(Rest())[length..] == data[pos..];
      return Got(text, ContentLength, data[pos..]);
    }

    /** _read_jsonrpc_message. */
    method ReadJsonRpcMessage() returns (r: ReadResult)
      requires Valid()
      modifies this
      ensures Valid() && r == ReadMessage(old(Rest()))
      ensures r.Got? ==> Rest() == r.rest
    {
      ghost var start := Rest();
      var line, ok := [], true;
      while true
        invariant Valid() && ReadMessage(Rest()) == ReadMessage(start)
        decreases |data| - pos
      {
        ghost var before := Rest();
        line, ok := ReadLine();
        if line == [] {
          return EndOfStream;
        }
        if !ok {
          return Malformed;
        }
        if !Blank(line) {
          assert ReadMessage(before) == ReadMessage(start);
          break;
        }
      }
      if !IsLengthHeader(line) {
        return if |line| > READ_CHUNK_LIMIT then Malformed else Got(line, Newline, data[pos..]);
      }
      var length := ParseInt(line[|NAME|..]);
      if length.None? {
        return Malformed;
      }
      ghost var headers := Rest();
      while true
        invariant Valid() && SkipHeaders(Rest(), length.value) == SkipHeaders(headers, length.value)
        invariant SkipHeaders(headers, length.value) == ReadMessage(start)
        decreases |data| - pos
      {
        var header, fits := ReadLine();
        if header == [] {
          return EndOfStream;
        }
        if !fits {
          return Malformed;
        }
        if header == BLANK_LINE || header == [LF] {
          break;
        }
      }
      r := ReadBody(length.value);
    }
  }

  // ---- the decimal length survives ------------------------------------------------------------------------

  lemma {:induction false} ParseDecimal(n: nat)
    ensures ParseDigits(Decimal(n)) == Some(n)
  {
    if n >= 10 {
      ParseDecimal(n / 10);
      var high, s := Decimal(n / 10), Decimal(n);
      assert s[..|s| - 1] == high && s[|s| - 2] == high[|high| - 1];
    }
  }

  lemma {:induction false} AllDigits(s: Bytes)
    requires forall i :: 0 <= i < |s| ==> IsDigit(s[i])
    ensures CountDigits(s) == |s|
  {
    if s != [] {
      AllDigits(s[..|s| - 1]);
    }
  }

  lemma {:induction false} TrimSpaces(s: Bytes, core: Bytes, tail: Bytes)
    requires s == core + tail && Blank(tail)
    requires core != [] && !IsSpace(core[|core| - 1])
    ensures TrimRight(s) == core
  {
    if tail == [] {
      assert s == core;
    } else {
      assert s[|s| - 1] == tail[|tail| - 1];
      assert s[..|s| - 1] == core + tail[..|tail| - 1];
      TrimSpaces(s[..|s| - 1], core, tail[..|tail| - 1]);
    }
  }

  /** int() reads back a decimal length between a blank and the end of its line. */
  lemma ParseLength(n: nat)
    requires |Decimal(n)| <= MAX_INT_DIGITS
    ensures ParseInt([32] + Decimal(n) + BLANK_LINE) == Some(n)
  {
    var d := Decimal(n);
    var text := [32] + d + BLANK_LINE;
    assert text[1..] == d + BLANK_LINE;
    assert TrimLeft(text[1..]) == text[1..];
    TrimSpaces(text[1..], d, BLANK_LINE);
    ParseDecimal(n);
    AllDigits(d);
  }

  // ---- printing and reading back --------------------------------------------------------------------------

  /** When the stream holds a line first, that is the line read. */
  lemma {:induction false} FirstLine(line: Bytes, rest: Bytes)
    requires line != [] && line[|line| - 1] == LF && forall i :: 0 <= i < |line| - 1 ==> line[i] != LF
    ensures LineLength(line + rest) == |line|
    ensures (line + rest)[..|line|] == line && (line + rest)[|line|..] == rest
  {
    if |line| > 1 {
      assert (line + rest)[1..] == line[1..] + rest;
      FirstLine(line[1..], rest);
    }
  }

  /** A body the way json.dumps prints an object: it starts with a brace and has no raw newline. */
  predicate ObjectText(body: Bytes) {
    body != [] && body[0] == BRACE && forall i :: 0 <= i < |body| ==> body[i] != LF
  }

  lemma ReadNewline(body: Bytes, rest: Bytes)
    requires ObjectText(body)
    ensures ReadMessage(Encode(body, Newline) + rest) ==
            if |body| <= STREAM_LIMIT then Got(body + [LF], Newline, rest) else Malformed
  {
    var line := body + [LF];
    FirstLine(line, rest);
    assert line[0] == BRACE && !IsSpace(line[0]);
    assert Lower(line[0]) != NAME[0];
  }

  function HeaderLine(n: nat): Bytes {
    HEADER + Decimal(n) + BLANK_LINE
  }

  lemma HeaderRecognised(n: nat)
    ensures IsLengthHeader(HeaderLine(n)) && !Blank(HeaderLine(n))
    ensures HeaderLine(n)[|NAME|..] == [32] + Decimal(n) + BLANK_LINE
  {
    var line := HeaderLine(n);
    assert forall i :: 0 <= i < |NAME| ==> line[i] == HEADER[i];
    assert HEADER[|NAME|..] == [32];
    assert !IsSpace(line[0]);
  }

  lemma HeaderIsALine(n: nat, rest: Bytes)
    ensures LineLength(HeaderLine(n) + rest) == |HeaderLine(n)|
    ensures (HeaderLine(n) + rest)[..|HeaderLine(n)|] == HeaderLine(n)
    ensures (HeaderLine(n) + rest)[|HeaderLine(n)|..] == rest
  {
    var line := HeaderLine(n);
    assert forall i :: 0 <= i < |HEADER| ==> HEADER[i] != LF;
    assert line[|line| - 1] == LF;
    forall i | 0 <= i < |line| - 1 ensures line[i] != LF {
      if i < |HEADER| {
        assert line[i] == HEADER[i];
      } else if i < |HEADER| + |Decimal(n)| {
        assert line[i] == Decimal(n)[i - |HEADER|];
      }
    }
    FirstLine(line, rest);
  }

  /** The body length has few enough digits for int(). */
  predicate Countable(body: Bytes) {
    |Decimal(|body|)| <= MAX_INT_DIGITS
  }

  lemma ReadContentLength(body: Bytes, rest: Bytes)
    requires Countable(body)
    ensures ReadMessage(Encode(body, ContentLength) + rest) == Got(body, ContentLength, rest)
  {
    var line := HeaderLine(|body|);
    var after := BLANK_LINE + (body + rest);
    assert Encode(body, ContentLength) + rest == line + after;
    HeaderIsALine(|body|, after);
    HeaderRecognised(|body|);
    ParseLength(|body|);
    FirstLine(BLANK_LINE, body + rest);
    assert (body + rest)[..|body|] == body && (body + rest)[|body|..] == rest;
  }

  // ---- any line and any headers ---------------------------------------------------------------------------

  /** One line with its newline, within the limit of the stream. */
  predicate FittingLine(line: Bytes) {
    line != [] && line[|line| - 1] == 10 && (forall i :: 0 <= i < |line| - 1 ==> line[i] != 10) && |line| - 1 <= 65536
  }

  /** The line names the length of a body, in whatever case. */
  predicate NamesLength(line: Bytes) {
    |line| >= 15 &&
    var name: Bytes := [99, 111, 110, 116, 101, 110, 116, 45, 108, 101, 110, 103, 116, 104, 58];
    forall i :: 0 <= i < 15 ==> line[i] == name[i] || (65 <= line[i] <= 90 && line[i] + 32 == name[i])
  }

  lemma NamesLengthIsHeader(line: Bytes)
    ensures NamesLength(line) <==> IsLengthHeader(line)
  {
    assert |NAME| == 15;
    assert forall i :: 0 <= i < |NAME| ==> !(65 <= NAME[i] <= 90);
  }

  /** A line that is neither blank nor names a length is a message, whatever it holds. */
  lemma AnyOtherLineIsRead(line: Bytes, rest: Bytes)
    requires FittingLine(line) && !NamesLength(line)
    requires exists i :: 0 <= i < |line| && line[i] != 32 && !(9 <= line[i] <= 13)
    ensures ReadMessage(line + rest) == Got(line, Newline, rest)
  {
    FirstLine(line, rest);
    NamesLengthIsHeader(line);
    var i :| 0 <= i < |line| && line[i] != 32 && !(9 <= line[i] <= 13);
    assert !IsSpace(line[i]);
  }

  predicate EmptyLine(line: Bytes) {
    line == [13, 10] || line == [10]
  }

  function Join(lines: seq<Bytes>): Bytes {
    if lines == [] then [] else lines[0] + Join(lines[1..])
  }

  /** Headers behind the first one are skipped up to the empty line; then the length decides. */
  lemma {:induction false} FurtherHeadersAreSkipped(headers: seq<Bytes>, empty: Bytes, tail: Bytes, length: int)
    requires forall i :: 0 <= i < |headers| ==> FittingLine(headers[i]) && !EmptyLine(headers[i])
    requires EmptyLine(empty)
    ensures SkipHeaders(Join(headers) + empty + tail, length) ==
            if 0 <= length <= |tail| then Got(tail[..length], ContentLength, tail[length..]) else Malformed
  {
    if headers == [] {
      assert [] + empty + tail == empty + tail;
      FirstLine(empty, tail);
    } else {
      var later := Join(headers[1..]) + empty + tail;
      assert Join(headers) + empty + tail == headers[0] + later;
      FirstLine(headers[0], later);
      FurtherHeadersAreSkipped(headers[1..], empty, tail, length);
    }
  }

  /**
    A message behind headers is what follows the empty line, as long as the first header says; no further header
    changes anything, a length that is no number or more than there is fails.
   */
  lemma MessageBehindHeaders(first: Bytes, headers: seq<Bytes>, empty: Bytes, tail: Bytes)
    requires FittingLine(first) && NamesLength(first)
    requires forall i :: 0 <= i < |headers| ==> FittingLine(headers[i]) && !EmptyLine(headers[i])
    requires EmptyLine(empty)
    ensures
      var length := ParseInt(first[15..]);
      ReadMessage(first + (Join(headers) + empty + tail)) ==
        if length.Some? && 0 <= length.value <= |tail|
        then Got(tail[..length.value], ContentLength, tail[length.value..])
        else Malformed
  {
    var behind := Join(headers) + empty + tail;
    FirstLine(first, behind);
    NamesLengthIsHeader(first);
    assert |NAME| == 15 && !IsSpace(first[0]) && first[0] == (first + behind)[0];
    var length := ParseInt(first[15..]);
    if length.Some? {
      FurtherHeadersAreSkipped(headers, empty, tail, length.value);
    }
  }

  /** A stream that ends among the headers ends without a message. */
  lemma {:induction false} HeadersCutOff(headers: seq<Bytes>, length: int)
    requires forall i :: 0 <= i < |headers| ==> FittingLine(headers[i]) && !EmptyLine(headers[i])
    ensures SkipHeaders(Join(headers), length) == EndOfStream
  {
    if headers != [] {
      FirstLine(headers[0], Join(headers[1..]));
      HeadersCutOff(headers[1..], length);
    }
  }

  /** int() takes a sign, and blanks on both sides. */
  lemma ParseSigned(front: Bytes, sign: byte, n: nat, tail: Bytes)
    requires forall i :: 0 <= i < |front| ==> front[i] == 32 || 9 <= front[i] <= 13
    requires forall i :: 0 <= i < |tail| ==> tail[i] == 32 || 9 <= tail[i] <= 13
    requires (sign == 43 || sign == 45) && |Decimal(n)| <= 4300
    ensures
      var value: int := if sign == 45 then -(n as int) else n;
      ParseInt(front + ([sign] + Decimal(n) + tail)) == Some(value)
  {
    var core := [sign] + Decimal(n);
    TrimFront(front, core + tail);
    TrimSpaces(core + tail, core, tail);
    assert core[1..] == Decimal(n);
    ParseDecimal(n);
    AllDigits(Decimal(n));
  }

  lemma {:induction false} TrimFront(front: Bytes, rest: Bytes)
    requires Blank(front) && rest != [] && !IsSpace(rest[0])
    ensures TrimLeft(front + rest) == rest
  {
    if front == [] {
      assert front + rest == rest;
    } else {
      assert (front + rest)[1..] == front[1..] + rest;
      TrimFront(front[1..], rest);
    }
  }

  // ---- whole streams --------------------------------------------------------------------------------------

  datatype Codec<!T> = Codec(dumps: T -> Bytes, loads: Bytes -> Option<T>)

  /** What is assumed of JSON: objects print without raw newlines and read back, also with a newline behind. */
  ghost predicate Sound<T(!new)>(c: Codec<T>) {
    forall m: T ::
      && ObjectText(c.dumps(m))
      && c.loads(c.dumps(m)) == Some(m)
      && c.loads(c.dumps(m) + [LF]) == Some(m)
  }

  datatype Framed<+T> = Framed(message: T, framing: Framing)

  function PrintAll<T>(c: Codec<T>, items: seq<Framed<T>>): Bytes {
    if items == [] then [] else Encode(c.dumps(items[0].message), items[0].framing) + PrintAll(c, items[1..])
  }

  /** The messages read until the end of the stream; None when reading fails before it. */
  function ReadAll<T>(c: Codec<T>, s: Bytes): Option<seq<Framed<T>>>
    decreases |s|
  {
    match ReadMessage(s)
    case EndOfStream => Some([])
    case Malformed => None
    case Got(text, framing, rest) =>
      var m := c.loads(text);
      if m.None? then None
      else
        var later := ReadAll(c, rest);
        if later.None? then None else Some([Framed(m.value, framing)] + later.value)
  }

  /** A message fits its framing: a line fits the stream limit, a length fits int(). */
  predicate Fits<T>(c: Codec<T>, item: Framed<T>) {
    match item.framing
    case Newline => |c.dumps(item.message)| <= STREAM_LIMIT
    case ContentLength => Countable(c.dumps(item.message))
  }

  /**
    Any sequence of messages, printed with any mix of the two framings, reads back as exactly that sequence
    and uses up the whole stream if and only if every newline-framed text fits the stream's line limit.
   */
  lemma {:induction false} StreamRoundTrip<T(!new)>(c: Codec<T>, items: seq<Framed<T>>)
    requires Sound(c)
    requires forall i :: 0 <= i < |items| && items[i].framing.ContentLength? ==> Fits(c, items[i])
    ensures ReadAll(c, PrintAll(c, items)) == Some(items) <==> forall i :: 0 <= i < |items| ==> Fits(c, items[i])
    ensures (exists i :: 0 <= i < |items| && !Fits(c, items[i])) ==> ReadAll(c, PrintAll(c, items)) == None
  {
    if items != [] {
      var first, later := items[0], items[1..];
      var body, tail := c.dumps(first.message), PrintAll(c, later);
      StreamRoundTrip(c, later);
      match first.framing {
        case Newline => ReadNewline(body, tail);
        case ContentLength => ReadContentLength(body, tail);
      }
      assert [Framed(first.message, first.framing)] + later == items;
      assert forall i :: 0 < i < |items| ==> items[i] == later[i - 1];
    }
  }

  /** Printing is injective: a byte stream belongs to at most one sequence of messages. */
  lemma PrintingIsInjective<T(!new)>(c: Codec<T>, a: seq<Framed<T>>, b: seq<Framed<T>>)
    requires Sound(c)
    requires forall i :: 0 <= i < |a| ==> Fits(c, a[i])
    requires forall i :: 0 <= i < |b| ==> Fits(c, b[i])
    requires PrintAll(c, a) == PrintAll(c, b)
    ensures a == b
  {
    StreamRoundTrip(c, a);
    StreamRoundTrip(c, b);
  }

  /** Blank lines between messages are invisible. */
  lemma BlankLinesIgnored(pad: Bytes, s: Bytes)
    requires FittingLine(pad) && forall i :: 0 <= i < |pad| ==> pad[i] == 32 || 9 <= pad[i] <= 13
    ensures ReadMessage(pad + s) == ReadMessage(s)
  {
    FirstLine(pad, s);
  }

  /** The bridge's own limit never decides anything: a line that long has already been refused by the stream. */
  lemma OwnLimitIsDead(s: Bytes)
    requires s != [] && LineFits(s)
    ensures LineLength(s) <= STREAM_LIMIT + 1 < READ_CHUNK_LIMIT
  {
  }
}
