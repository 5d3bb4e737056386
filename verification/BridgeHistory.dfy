/**
  The multiplexing bridge read off the events of a run (daemon/mcp_socket_bridge.py): every message that goes to a
  client or upstream, who is registered, and what becomes of the bridge's own requests. No definition here looks at
  the state of the bridge, and messages are described key by key.
 */
module BridgeHistory {
  import opened Sequences
  import opened McpSocketBridge

  // ---- requests -------------------------------------------------------------------------------------------

  predicate AsksInitialize(m: Message) {
    "method" in m && m["method"] == JText("initialize") && "id" in m
  }

  predicate SaysInitialized(m: Message) {
    "method" in m && m["method"] == JText("notifications/initialized") && "id" !in m
  }

  /** The message as it is, but under another id. */
  function Under(m: Message, id: Json): Message {
    map k | k in m.Keys + {"id"} :: if k == "id" then id else m[k]
  }

  /** The last event is a request that goes upstream under a number of its own. */
  predicate IsNumbered(es: seq<Event>) {
    es != [] &&
    match es[|es| - 1]
    case FromClient(_, m, _, _) => "id" in m && !AsksInitialize(m)
    case BridgeRequest(_) => true
    case _ => false
  }

  /** How many requests have been numbered; the last one has this number. */
  function Numbered(es: seq<Event>): nat {
    if es == [] then 0 else Numbered(es[..|es| - 1]) + if IsNumbered(es) then 1 else 0
  }

  /** The number an upstream message refers to; a boolean is an integer too. */
  function Reference(m: Message): Option<int> {
    if "id" !in m then None
    else match m["id"]
      case JInt(n) => Some(n)
      case JBool(b) => Some(if b then 1 else 0)
      case _ => None
  }

  /** The request numbered k, as long as it is neither answered nor given up. */
  function EntryOf(es: seq<Event>, k: int): Option<Pending> {
    if es == [] then None
    else
      var before := EntryOf(es[..|es| - 1], k);
      if IsNumbered(es) && Numbered(es) == k then Some(Asker(es[|es| - 1]))
      else match es[|es| - 1]
        case FromUpstream(m, _, _) => if Reference(m) == Some(k) then None else before
        case HandlerEnds(c) => if before.Some? && IsOf(before.value, c) then None else before
        case _ => before
  }

  predicate IsOf(p: Pending, c: ClientId) {
    p.ForClient? && p.client == c
  }

  function Asker(e: Event): Pending {
    if e.FromClient? && "id" in e.message then ForClient(e.client, e.message["id"]) else ForBridge
  }

  /** The pending table holds exactly the requests that are still open. */
  lemma {:induction false} EntriesAreExact(hello: Json, es: seq<Event>, k: int)
    requires Valid(hello, es)
    ensures Run(hello, es).table.requestId == Numbered(es)
    ensures KnownAs(Run(hello, es).table.pending, k, EntryOf(es, k))
  {
    if es != [] {
      var front := es[..|es| - 1];
      EntriesAreExact(hello, front, k);
      NumberStep(Run(hello, front), es);
      EntryStep(Run(hello, front), es[|es| - 1], k);
    }
  }

  lemma NumberStep(s: State, es: seq<Event>)
    requires es != []
    ensures IsNumbered(es) <==> Allocates(es[|es| - 1])
    ensures TableAfter(s, es[|es| - 1]).requestId == s.table.requestId + if IsNumbered(es) then 1 else 0
  {
  }

  lemma EntryStep(s: State, e: Event, k: int)
    ensures
      var before := s.table.pending;
      var answered := e.FromUpstream? && Reference(e.message) == Some(k);
      var left := e.HandlerEnds? && k in before && IsOf(before[k], e.client);
      KnownAs(TableAfter(s, e).pending, k,
        if Allocates(e) && k == s.table.requestId + 1 then Some(Asker(e))
        else if k in before && !answered && !left then Some(before[k])
        else None)
  {
  }

  /** What the bridge's own request numbered k came to: its first answer, or a time-out before that. */
  function FutureOf(es: seq<Event>, k: int): Option<Future> {
    if es == [] then None
    else
      var before := FutureOf(es[..|es| - 1], k);
      if es[|es| - 1].BridgeRequest? && Numbered(es) == k then Some(Waiting)
      else if before != Some(Waiting) then before
      else match es[|es| - 1]
        case FromUpstream(m, _, _) => if Reference(m) == Some(k) then Some(Done(m)) else before
        case BridgeTimeout(n) => if n == k then Some(TimedOut) else before
        case _ => before
  }

  lemma {:induction false} FuturesAreExact(hello: Json, es: seq<Event>, k: int)
    requires Valid(hello, es)
    ensures KnownAs(Run(hello, es).table.futures, k, FutureOf(es, k))
    ensures FutureOf(es, k) == Some(Waiting) ==> EntryOf(es, k) == Some(ForBridge)
  {
    if es != [] {
      var front := es[..|es| - 1];
      FuturesAreExact(hello, front, k);
      EntriesAreExact(hello, front, k);
      NumbersInUse(front, k);
      FutureStep(Run(hello, front), es[|es| - 1], k);
    }
  }

  lemma FutureStep(s: State, e: Event, k: int)
    ensures
      var before := s.table.futures;
      var waits := k in before && before[k].Waiting?;
      var answered := e.FromUpstream? && Reference(e.message) == Some(k) && PendingAs(s.table, k, ForBridge);
      KnownAs(TableAfter(s, e).futures, k,
        if e.BridgeRequest? && k == s.table.requestId + 1 then Some(Waiting)
        else if waits && answered then Some(Done(e.message))
        else if waits && e == BridgeTimeout(k) then Some(TimedOut)
        else if k in before then Some(before[k])
        else None)
  {
  }

  lemma {:induction false} NumbersInUse(es: seq<Event>, k: int)
    ensures EntryOf(es, k).Some? || FutureOf(es, k).Some? ==> 1 <= k <= Numbered(es)
  {
    if es != [] {
      NumbersInUse(es[..|es| - 1], k);
    }
  }

  // ---- messages to the clients ----------------------------------------------------------------------------

  /** A client is answered in the framing of its first message. */
  function FirstFraming(es: seq<Event>, c: ClientId): Option<Framing> {
    if es == [] then None
    else
      var before, e := FirstFraming(es[..|es| - 1], c), es[|es| - 1];
      if before.None? && e.FromClient? && e.client == c then Some(e.framing) else before
  }

  function AnswerFraming(es: seq<Event>, c: ClientId): Framing {
    if FirstFraming(es, c).Some? then FirstFraming(es, c).value else ContentLength
  }

  lemma {:induction false} FramingsAreExact(hello: Json, es: seq<Event>, c: ClientId)
    requires Valid(hello, es)
    ensures KnownAs(Run(hello, es).clients.framing, c, FirstFraming(es, c))
  {
    if es != [] {
      FramingsAreExact(hello, es[..|es| - 1], c);
    }
  }

  datatype Notice = Notice(message: Message, rest: seq<ClientId>)

  /** The notification that is being passed on, and the clients it still has to reach. */
  function NoticeOf(es: seq<Event>): Option<Notice> {
    if es == [] then None
    else
      var before := NoticeOf(es[..|es| - 1]);
      match es[|es| - 1]
      case FromUpstream(m, order, _) => if "id" !in m then Some(Notice(m, order)) else before
      case NoticeNext(_) =>
        if before.None? || before.value.rest == [] then None
        else Some(Notice(before.value.message, before.value.rest[1..]))
      case _ => before
  }

  lemma {:induction false} NoticeIsExact(hello: Json, es: seq<Event>)
    requires Valid(hello, es)
    ensures
      var w, notice := Run(hello, es).wires, NoticeOf(es);
      && (w.notice.Some? <==> notice.Some?)
      && (notice.Some? ==> w.notice.value == notice.value.message && w.remaining == notice.value.rest)
  {
    if es != [] {
      NoticeIsExact(hello, es[..|es| - 1]);
    }
  }

  /** The message the last event writes to a client: a greeting, a response under the client's own id, or a notice. */
  function Written(hello: Json, es: seq<Event>): Option<Write> {
    if es == [] then None
    else
      var front := es[..|es| - 1];
      match es[|es| - 1]
      case FromClient(c, m, _, ok) =>
        if !AsksInitialize(m) then None
        else
          var greeting := map["jsonrpc" := JText("2.0"), "id" := m["id"], "result" := hello];
          Some(Write(c, greeting, AnswerFraming(es, c), None, ok))
      case FromUpstream(m, _, ok) =>
        var entry := if Reference(m).Some? then EntryOf(front, Reference(m).value) else None;
        if entry.None? || entry.value.ForBridge? then None
        else
          var c := entry.value.client;
          Some(Write(c, Under(m, entry.value.originalId), AnswerFraming(front, c), Reference(m), ok))
      case NoticeNext(ok) =>
        var notice := NoticeOf(front);
        if notice.None? || notice.value.rest == [] then None
        else
          var c := notice.value.rest[0];
          Some(Write(c, notice.value.message, AnswerFraming(front, c), None, ok))
      case _ => None
  }

  function WritesOf(hello: Json, es: seq<Event>): seq<Write> {
    if es == [] then []
    else
      var before := WritesOf(hello, es[..|es| - 1]);
      if Written(hello, es).Some? then before + [Written(hello, es).value] else before
  }

  /** Clients are sent exactly what the events call for: nothing is withheld and nothing is added. */
  lemma {:induction false} WritesAreExact(hello: Json, es: seq<Event>)
    requires Valid(hello, es)
    ensures Run(hello, es).wires.toClients == WritesOf(hello, es)
  {
    if es != [] {
      WritesAreExact(hello, es[..|es| - 1]);
      LastWriteIsExact(hello, es);
    }
  }

  lemma LastWriteIsExact(hello: Json, es: seq<Event>)
    requires Valid(hello, es) && es != []
    ensures
      var before, after := Run(hello, es[..|es| - 1]).wires.toClients, Run(hello, es).wires.toClients;
      after == before + if Written(hello, es).Some? then [Written(hello, es).value] else []
  {
    var front := es[..|es| - 1];
    match es[|es| - 1]
    case FromClient(c, _, _, _) => FramingsAreExact(hello, es, c);
    case FromUpstream(m, _, _) => ResponseIsWritten(hello, es);
    case NoticeNext(_) =>
      NoticeIsExact(hello, front);
      if NoticeOf(front).Some? && NoticeOf(front).value.rest != [] {
        FramingsAreExact(hello, front, NoticeOf(front).value.rest[0]);
      }
    case _ =>
  }

  lemma ResponseIsWritten(hello: Json, es: seq<Event>)
    requires Valid(hello, es) && es != [] && es[|es| - 1].FromUpstream?
    ensures
      var before, after := Run(hello, es[..|es| - 1]).wires.toClients, Run(hello, es).wires.toClients;
      after == before + if Written(hello, es).Some? then [Written(hello, es).value] else []
  {
    var front, m := es[..|es| - 1], es[|es| - 1].message;
    if Reference(m).Some? {
      EntriesAreExact(hello, front, Reference(m).value);
      var entry := EntryOf(front, Reference(m).value);
      if entry.Some? && entry.value.ForClient? {
        FramingsAreExact(hello, front, entry.value.client);
        WithIdIsUnder(m, entry.value.originalId);
      }
    }
  }

  /** An initialize request is answered at once, to the client that sent it and under its id. */
  lemma InitializeIsAnswered(hello: Json, es: seq<Event>)
    requires Valid(hello, es) && es != []
    requires es[|es| - 1].FromClient? && AsksInitialize(es[|es| - 1].message)
    ensures
      var before, after, e := Run(hello, es[..|es| - 1]).wires, Run(hello, es).wires, es[|es| - 1];
      && |after.toClients| == |before.toClients| + 1
      && after.toClients[..|before.toClients|] == before.toClients
      && after.lock == before.lock && after.upstream == before.upstream
      && var w := after.toClients[|before.toClients|];
         && w.client == e.client && w.message.Keys == {"jsonrpc", "id", "result"}
         && w.message["jsonrpc"] == JText("2.0") && w.message["id"] == e.message["id"] && w.message["result"] == hello
         && FirstFraming(es, e.client) == Some(w.framing)
  {
    LastWriteIsExact(hello, es);
  }

  // ---- who is registered ----------------------------------------------------------------------------------

  function Connects(es: seq<Event>): nat {
    if es == [] then 0 else Connects(es[..|es| - 1]) + if es[|es| - 1].Connect? then 1 else 0
  }

  predicate HandlerEnded(es: seq<Event>, c: ClientId) {
    es != [] && (es[|es| - 1] == HandlerEnds(c) || HandlerEnded(es[..|es| - 1], c))
  }

  /** A client has a handler from its connection until that ends. */
  lemma {:induction false} HandlersAreExact(hello: Json, es: seq<Event>, c: ClientId)
    requires Valid(hello, es)
    ensures Run(hello, es).clients.lastId == Connects(es)
    ensures c in Run(hello, es).clients.handlers <==> 1 <= c <= Connects(es) && !HandlerEnded(es, c)
    ensures HandlerEnded(es, c) ==> c <= Connects(es)
  {
    if es != [] {
      HandlersAreExact(hello, es[..|es| - 1], c);
    }
  }

  /** The last event fails to write to the client. */
  predicate WriteFails(hello: Json, es: seq<Event>, c: ClientId) {
    var w := Written(hello, es);
    w.Some? && w.value.client == c && !w.value.ok
  }

  /** The client has connected, and since then its handler has not ended and no write to it has failed. */
  predicate IsRegistered(hello: Json, es: seq<Event>, c: ClientId) {
    es != [] &&
    if es[|es| - 1].Connect? && c == Connects(es) then true
    else es[|es| - 1] != HandlerEnds(c) && !WriteFails(hello, es, c) && IsRegistered(hello, es[..|es| - 1], c)
  }

  lemma {:induction false} RegisteredIff(hello: Json, es: seq<Event>, c: ClientId)
    requires Valid(hello, es)
    ensures c in Run(hello, es).clients.registered <==> IsRegistered(hello, es, c)
  {
    if es != [] {
      var front := es[..|es| - 1];
      RegisteredIff(hello, front, c);
      HandlersAreExact(hello, front, c);
      LastWriteIsExact(hello, es);
      RegisteredStep(hello, Run(hello, front), es[|es| - 1], c);
    }
  }

  /** Besides connecting and leaving, only a write that fails changes who is registered. */
  lemma RegisteredStep(hello: Json, s: State, e: Event, c: ClientId)
    requires Enabled(s, e)
    ensures
      var before, after := s.wires.toClients, WiresAfter(hello, s, e).toClients;
      var failed := |after| > |before| && after[|before|].client == c && !after[|before|].ok;
      c in ClientsAfter(s, e).registered <==>
        (e.Connect? && c == s.clients.lastId + 1)
        || (c in s.clients.registered && e != HandlerEnds(c) && !failed)
  {
  }

  // ---- the way upstream -----------------------------------------------------------------------------------

  /** What e sends on its way upstream; a request carries the number n. */
  function SentBy(e: Event, n: int): Option<Waiter> {
    match e
    case FromClient(c, m, _, _) =>
      if AsksInitialize(m) || SaysInitialized(m) then None
      else Some(Waiter(Some(c), if "id" in m then Under(m, JInt(n)) else m))
    case BridgeRequest(m) => Some(Waiter(None, Under(m, JInt(n))))
    case BridgeNotification(m) => Some(Waiter(None, m))
    case _ => None
  }

  function SentUp(es: seq<Event>): Option<Waiter>
    requires es != []
  {
    SentBy(es[|es| - 1], Numbered(es))
  }

  function NotOwned(lock: seq<Waiter>, c: ClientId): seq<Waiter> {
    if lock == [] then []
    else if lock[0].owner == Some(c) then NotOwned(lock[1..], c)
    else [lock[0]] + NotOwned(lock[1..], c)
  }

  /** What is still waiting for its turn to be written: a handler that ends takes what is its own. */
  function LockOf(es: seq<Event>): seq<Waiter> {
    if es == [] then []
    else
      var before := LockOf(es[..|es| - 1]);
      match es[|es| - 1]
      case UpstreamWrite => if before == [] then [] else before[1..]
      case HandlerEnds(c) => NotOwned(before, c)
      case _ => if SentUp(es).Some? then before + [SentUp(es).value] else before
  }

  function UpstreamOf(es: seq<Event>): seq<Message> {
    if es == [] then []
    else
      var front := es[..|es| - 1];
      if es[|es| - 1].UpstreamWrite? && LockOf(front) != [] then UpstreamOf(front) + [LockOf(front)[0].message]
      else UpstreamOf(front)
  }

  lemma {:induction false} NotOwnedSnoc(lock: seq<Waiter>, x: Waiter, c: ClientId)
    ensures NotOwned(lock + [x], c) == NotOwned(lock, c) + if x.owner == Some(c) then [] else [x]
  {
    if lock == [] {
      assert [x][1..] == [] && lock + [x] == [x];
    } else {
      assert (lock + [x])[1..] == lock[1..] + [x];
      NotOwnedSnoc(lock[1..], x, c);
    }
  }

  lemma {:induction false} AbandonIsNotOwned(lock: seq<Waiter>, c: ClientId)
    ensures Abandon(lock, c) == NotOwned(lock, c)
  {
    if lock != [] {
      AbandonIsNotOwned(lock[..|lock| - 1], c);
      NotOwnedSnoc(lock[..|lock| - 1], lock[|lock| - 1], c);
      assert lock == lock[..|lock| - 1] + [lock[|lock| - 1]];
    }
  }

  lemma WithIdIsUnder(m: Message, id: Json)
    ensures WithId(m, id) == Under(m, id)
  {
  }

  lemma SentIsQueued(hello: Json, s: State, e: Event)
    requires Enabled(s, e) && !e.UpstreamWrite? && !e.HandlerEnds?
    ensures
      var w, sent := WiresAfter(hello, s, e), SentBy(e, s.table.requestId + 1);
      w.lock == s.wires.lock + (if sent.Some? then [sent.value] else []) && w.upstream == s.wires.upstream
  {
    match e
    case FromClient(_, m, _, _) => WithIdIsUnder(m, JInt(s.table.requestId + 1));
    case BridgeRequest(m) => WithIdIsUnder(m, JInt(s.table.requestId + 1));
    case _ =>
  }

  lemma NumberIsFresh(es: seq<Event>)
    requires es != []
    ensures SentUp(es) == SentBy(es[|es| - 1], Numbered(es[..|es| - 1]) + 1)
  {
  }

  /** Whatever is asked for goes upstream in its turn, as it is but for its number, unless its client leaves first. */
  lemma {:induction false} UpstreamIsExact(hello: Json, es: seq<Event>)
    requires Valid(hello, es)
    ensures Run(hello, es).wires.lock == LockOf(es) && Run(hello, es).wires.upstream == UpstreamOf(es)
  {
    if es != [] {
      var front, e := es[..|es| - 1], es[|es| - 1];
      UpstreamIsExact(hello, front);
      if e.HandlerEnds? {
        AbandonIsNotOwned(LockOf(front), e.client);
      } else if !e.UpstreamWrite? {
        EntriesAreExact(hello, front, 0);
        SentIsQueued(hello, Run(hello, front), e);
        NumberIsFresh(es);
      }
    }
  }

  // ---- notifications reach everybody ----------------------------------------------------------------------

  /** After step n the client was written the message, whether or not that succeeded. */
  predicate WrittenSince(hello: Json, es: seq<Event>, n: nat, c: ClientId, m: Message)
    requires n <= |es|
  {
    n < |es| &&
    var w := Written(hello, es);
    (w.Some? && w.value.client == c && w.value.message == m) || WrittenSince(hello, es[..|es| - 1], n, c, m)
  }

  predicate StillToReach(es: seq<Event>, c: ClientId, m: Message) {
    NoticeOf(es).Some? && NoticeOf(es).value.message == m && c in NoticeOf(es).value.rest
  }

  /**
    An upstream notification is written to every client that was registered when it came, at the latest by the time
    the bridge has done with it.
   */
  lemma {:induction false} NoticeReachesAll(hello: Json, es: seq<Event>, n: nat, c: ClientId)
    requires Valid(hello, es) && n < |es| && es[n].FromUpstream? && "id" !in es[n].message
    requires IsRegistered(hello, es[..n], c)
    ensures WrittenSince(hello, es, n + 1, c, es[n].message) || StillToReach(es, c, es[n].message)
  {
    var front, e := es[..|es| - 1], es[|es| - 1];
    if n == |front| {
      assert es[..n] == front;
      RegisteredIff(hello, front, c);
      EnumeratedIsListed(e.order, Run(hello, front).clients.registered, c);
    } else {
      assert front[..n] == es[..n];
      NoticeReachesAll(hello, front, n, c);
      NoticeIsExact(hello, front);
    }
  }

  lemma EnumeratedIsListed(order: seq<ClientId>, s: set<ClientId>, c: ClientId)
    requires Enumerates(order, s) && c in s
    ensures c in order
  {
    DistinctElements(order);
    SubsetOfEqualSize(Elements(order), s);
  }
}
