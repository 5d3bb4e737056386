/**
  The multiplexing bridge (daemon/mcp_socket_bridge.py): many clients share one upstream MCP server.

  A request of a client gets a bridge-wide id on the way up and its own id back on the way down. Client
  handlers and the upstream reader interleave at suspension points only, so each method of `Bridge` is one
  atomic step and a run is a sequence of `Event`s. The upstream server is unconstrained: it may send any
  message at any time, with unknown, repeated or malformed ids.
 */
module McpSocketBridge {
  import opened Sequences

  type ClientId = nat

  /** A JSON value as far as the bridge looks at it. */
  datatype Json = JNull | JBool(b: bool) | JInt(n: int) | JText(text: string) | JOther(code: nat)

  type Message = map<string, Json>

  datatype Framing = Newline | ContentLength

  datatype Pending = ForClient(client: ClientId, originalId: Json) | ForBridge

  datatype Future = Waiting | Done(message: Message) | TimedOut

  /** A message handed to a client's writer; `via` is the upstream id it answers. */
  datatype Write = Write(client: ClientId, message: Message, framing: Framing, via: Option<int>, ok: bool)

  /** A task queued on the lock of the upstream writer. */
  datatype Waiter = Waiter(owner: Option<ClientId>, message: Message)

  datatype Table = Table(requestId: int, pending: map<int, Pending>, futures: map<int, Future>)

  datatype Clients = Clients(
    lastId: nat,
    registered: set<ClientId>,
    handlers: set<ClientId>,
    framing: map<ClientId, Framing>)

  datatype Wires = Wires(
    lock: seq<Waiter>,
    upstream: seq<Message>,
    toClients: seq<Write>,
    notice: Option<Message>,
    remaining: seq<ClientId>)

  datatype State = State(table: Table, clients: Clients, wires: Wires)

  datatype Event =
    | Connect
    | FromClient(client: ClientId, message: Message, framing: Framing, ok: bool)
    | HandlerEnds(client: ClientId)
    | UpstreamWrite                                       // the task at the head of the lock queue writes
    | FromUpstream(message: Message, order: seq<ClientId>, ok: bool)
    | NoticeNext(ok: bool)                                // the broadcast loop serves its next client
    | BridgeRequest(message: Message)                     // _send_upstream_request
    | BridgeNotification(message: Message)                // _send_upstream_notification
    | BridgeTimeout(id: int)

  const INIT := State(Table(0, map[], map[]), Clients(0, {}, {}, map[]), Wires([], [], [], None, []))

  // ---- messages -------------------------------------------------------------------------------------------

  const INITIALIZE := JText("initialize")
  const INITIALIZED := JText("notifications/initialized")

  predicate HasMethod(m: Message, name: Json) {
    "method" in m && m["method"] == name
  }

  predicate IsInitialize(m: Message) {
    HasMethod(m, INITIALIZE) && "id" in m
  }

  predicate IsInitialized(m: Message) {
    HasMethod(m, INITIALIZED) && "id" !in m
  }

  /** A request that is forwarded under a fresh upstream id. */
  predicate IsForwarded(m: Message) {
    "id" in m && !IsInitialize(m)
  }

  /** The integer key an id stands for; in Python a boolean is an integer too. */
  function KeyOf(m: Message): Option<int> {
    if "id" !in m then None
    else match m["id"]
      case JInt(n) => Some(n)
      case JBool(b) => Some(if b then 1 else 0)
      case _ => None
  }

  function WithId(m: Message, id: Json): Message {
    m["id" := id]
  }

  function InitializeReply(hello: Json, id: Json): Message {
    map["jsonrpc" := JText("2.0"), "id" := id, "result" := hello]
  }

  // ---- steps ----------------------------------------------------------------------------------------------

  function FramingOf(c: Clients, id: ClientId): Framing {
    if id in c.framing then c.framing[id] else ContentLength
  }

  predicate Busy(w: Wires, c: ClientId) {
    exists i :: 0 <= i < |w.lock| && w.lock[i].owner == Some(c)
  }

  predicate Enumerates(order: seq<ClientId>, s: set<ClientId>) {
    && |order| == |s|
    && (forall i :: 0 <= i < |order| ==> order[i] in s)
    && (forall i, j :: 0 <= i < j < |order| ==> order[i] != order[j])
  }

  predicate Enabled(s: State, e: Event) {
    match e
    case FromClient(c, _, _, _) => c in s.clients.handlers && !Busy(s.wires, c)
    case HandlerEnds(c) => c in s.clients.handlers
    case UpstreamWrite => s.wires.lock != []
    case FromUpstream(m, order, _) =>
      s.wires.notice.None? && ("id" !in m ==> Enumerates(order, s.clients.registered))
    case NoticeNext(_) => s.wires.notice.Some?
    case BridgeNotification(m) => "id" !in m
    case _ => true
  }

  function Allocate(t: Table, p: Pending): Table {
    Table(t.requestId + 1, t.pending[t.requestId + 1 := p],
          if p.ForBridge? then t.futures[t.requestId + 1 := Waiting] else t.futures)
  }

  predicate NotOf(p: Pending, c: ClientId) {
    p.ForBridge? || p.client != c
  }

  function Forget(t: Table, c: ClientId): Table {
    t.(pending := map k | k in t.pending && NotOf(t.pending[k], c) :: t.pending[k])
  }

  function Resolve(t: Table, m: Message): Table {
    var key := KeyOf(m);
    if key.None? || key.value !in t.pending then t
    else
      var k := key.value;
      t.(pending := t.pending - {k},
         futures := if t.pending[k].ForBridge? && k in t.futures && t.futures[k].Waiting?
                    then t.futures[k := Done(m)] else t.futures)
  }

  function TableAfter(s: State, e: Event): Table {
    match e
    case FromClient(c, m, _, _) => if IsForwarded(m) then Allocate(s.table, ForClient(c, m["id"])) else s.table
    case HandlerEnds(c) => Forget(s.table, c)
    case FromUpstream(m, _, _) => Resolve(s.table, m)
    case BridgeRequest(_) => Allocate(s.table, ForBridge)
    case BridgeTimeout(k) =>
      if k in s.table.futures && s.table.futures[k].Waiting?
      then s.table.(futures := s.table.futures[k := TimedOut]) else s.table
    case _ => s.table
  }

  function Unregister(c: Clients, id: ClientId, ok: bool): Clients {
    if ok then c else c.(registered := c.registered - {id})
  }

  function Greet(c: Clients, id: ClientId, f: Framing): Clients {
    if id in c.framing then c else c.(framing := c.framing[id := f])
  }

  /** Whom an upstream message answers. */
  function Addressee(t: Table, m: Message): Option<Pending> {
    var key := KeyOf(m);
    if key.Some? && key.value in t.pending then Some(t.pending[key.value]) else None
  }

  function ClientsAfter(s: State, e: Event): Clients
    requires Enabled(s, e)
  {
    match e
    case Connect =>
      var id := s.clients.lastId + 1;
      Clients(id, s.clients.registered + {id}, s.clients.handlers + {id}, s.clients.framing)
    case FromClient(c, m, f, ok) =>
      var greeted := Greet(s.clients, c, f);
      if IsInitialize(m) then Unregister(greeted, c, ok) else greeted
    case HandlerEnds(c) =>
      s.clients.(registered := s.clients.registered - {c}, handlers := s.clients.handlers - {c})
    case FromUpstream(m, _, ok) =>
      var to := Addressee(s.table, m);
      if to.Some? && to.value.ForClient? then Unregister(s.clients, to.value.client, ok) else s.clients
    case NoticeNext(ok) =>
      if s.wires.remaining == [] then s.clients else Unregister(s.clients, s.wires.remaining[0], ok)
    case _ => s.clients
  }

  function Queue(w: Wires, owner: Option<ClientId>, m: Message): Wires {
    w.(lock := w.lock + [Waiter(owner, m)])
  }

  function Send(w: Wires, x: Write): Wires {
    w.(toClients := w.toClients + [x])
  }

  function Abandon(lock: seq<Waiter>, c: ClientId): seq<Waiter> {
    if lock == [] then []
    else if lock[|lock| - 1].owner == Some(c) then Abandon(lock[..|lock| - 1], c)
    else Abandon(lock[..|lock| - 1], c) + [lock[|lock| - 1]]
  }

  function WiresAfter(hello: Json, s: State, e: Event): Wires
    requires Enabled(s, e)
  {
    var w := s.wires;
    match e
    case FromClient(c, m, f, ok) =>
      if IsInitialize(m) then
        Send(w, Write(c, InitializeReply(hello, m["id"]), FramingOf(Greet(s.clients, c, f), c), None, ok))
      else if IsInitialized(m) then w
      else if "id" in m then Queue(w, Some(c), WithId(m, JInt(s.table.requestId + 1)))
      else Queue(w, Some(c), m)
    case HandlerEnds(c) => w.(lock := Abandon(w.lock, c))
    case UpstreamWrite => w.(upstream := w.upstream + [w.lock[0].message], lock := w.lock[1..])
    case FromUpstream(m, order, ok) =>
      if "id" !in m then w.(notice := Some(m), remaining := order)
      else
        var to := Addressee(s.table, m);
        if to.Some? && to.value.ForClient? then
          Send(w, Write(to.value.client, WithId(m, to.value.originalId),
                        FramingOf(s.clients, to.value.client), Some(KeyOf(m).value), ok))
        else w
    case NoticeNext(ok) =>
      if w.remaining == [] then w.(notice := None)
      else
        Send(w, Write(w.remaining[0], w.notice.value, FramingOf(s.clients, w.remaining[0]), None, ok))
          .(remaining := w.remaining[1..])
    case BridgeRequest(m) => Queue(w, None, WithId(m, JInt(s.table.requestId + 1)))
    case BridgeNotification(m) => Queue(w, None, m)
    case _ => w
  }

  function Step(hello: Json, s: State, e: Event): State
    requires Enabled(s, e)
  {
    State(TableAfter(s, e), ClientsAfter(s, e), WiresAfter(hello, s, e))
  }

  predicate Valid(hello: Json, es: seq<Event>)
    decreases |es|, 0
  {
    es != [] ==> Valid(hello, es[..|es| - 1]) && Enabled(Run(hello, es[..|es| - 1]), es[|es| - 1])
  }

  function Run(hello: Json, es: seq<Event>): State
    requires Valid(hello, es)
    decreases |es|, 1
  {
    if es == [] then INIT else Step(hello, Run(hello, es[..|es| - 1]), es[|es| - 1])
  }

  // ---- the bridge object ----------------------------------------------------------------------------------

  /**
    The bridge with the fields of the source. `notice` and `remaining` are the locals of the
    broadcast loop in progress. The ghost fields are the client handlers, the queue of the write lock and what has
    been written to each side.
   */
  class Bridge {
    const hello: Json
    var requestId: int
    var pending: map<int, Pending>
    var futures: map<int, Future>
    var clientId: nat
    var clients: set<ClientId>
    var framing: map<ClientId, Framing>
    ghost var handlers: set<ClientId>
    ghost var lock: seq<Waiter>
    ghost var upstream: seq<Message>
    ghost var toClients: seq<Write>
    var notice: Option<Message>
    var remaining: seq<ClientId>

    ghost function View(): State
      reads this
    {
      State(Table(requestId, pending, futures), Clients(clientId, clients, handlers, framing),
            Wires(lock, upstream, toClients, notice, remaining))
    }

    constructor (hello: Json)
      ensures View() == INIT && this.hello == hello
    {
      this.hello := hello;
      requestId, pending, futures := 0, map[], map[];
      clientId, clients, handlers, framing := 0, {}, {}, map[];
      lock, upstream, toClients, notice, remaining := [], [], [], None, [];
    }

    method NextRequestId() returns (id: int)
      modifies this`requestId
      ensures id == requestId == old(requestId) + 1
    {
      requestId := requestId + 1;
      return requestId;
    }

    /** A failed write unregisters the client; `via` is the upstream id the message answers. */
    method WriteClientMessage(client: ClientId, message: Message, ghost via: Option<int>, ok: bool)
      modifies this`toClients, this`clients
      ensures View().wires ==
              Send(old(View()).wires, Write(client, message, FramingOf(old(View()).clients, client), via, ok))
      ensures View().clients == Unregister(old(View()).clients, client, ok)
    {
      var f := if client in framing then framing[client] else ContentLength;
      toClients := toClients + [Write(client, message, f, via, ok)];
      if !ok {
        clients := clients - {client};
      }
    }

    method Accept() returns (client: ClientId)
      modifies this
      ensures View() == Step(hello, old(View()), Connect) && client == clientId
    {
      clientId := clientId + 1;
      client := clientId;
      clients := clients + {client};
      handlers := handlers + {client};
    }

    /** A handler has read a message: everything up to the lock of the upstream writer. */
    method HandleClientMessage(client: ClientId, message: Message, f: Framing, ok: bool)
      requires Enabled(View(), FromClient(client, message, f, ok))
      modifies this
      ensures View() == Step(hello, old(View()), FromClient(client, message, f, ok))
    {
      if client !in framing {
        framing := framing[client := f];
      }
      if "method" in message && message["method"] == INITIALIZE && "id" in message {
        WriteClientMessage(client, InitializeReply(hello, message["id"]), None, ok);
        return;
      }
      if "method" in message && message["method"] == INITIALIZED && "id" !in message {
        return;
      }
      var forwarded := message;
      if "id" in forwarded {
        var upstreamId := NextRequestId();
        forwarded := forwarded["id" := JInt(upstreamId)];
        pending := pending[upstreamId := ForClient(client, message["id"])];
      }
      lock := lock + [Waiter(Some(client), forwarded)];
    }

    /** The finally block of a client handler: every pending entry of the client is dropped. */
    method EndHandler(client: ClientId)
      requires Enabled(View(), HandlerEnds(client))
      modifies this
      ensures View() == Step(hello, old(View()), HandlerEnds(client))
    {
      clients := clients - {client};
      handlers := handlers - {client};
      lock := Abandon(lock, client);
      DropPending(client);
    }

    method DropPending(client: ClientId)
      modifies this`pending
      ensures pending == map k | k in old(pending) && NotOf(old(pending)[k], client) :: old(pending)[k]
    {
      var entries := pending;
      var keys := entries.Keys;
      while keys != {}
        invariant keys <= entries.Keys
        invariant pending == map k | k in entries && (k in keys || NotOf(entries[k], client)) :: entries[k]
        decreases keys
      {
        var key := Pick(keys);
        keys := keys - {key};
        if entries[key].ForClient? && entries[key].client == client {
          pending := pending - {key};
        }
      }
      assert pending == map k | k in entries && NotOf(entries[k], client) :: entries[k];
    }

    method WriteUpstreamMessage()
      requires Enabled(View(), UpstreamWrite)
      modifies this`lock, this`upstream
      ensures View() == Step(hello, old(View()), UpstreamWrite)
    {
      upstream := upstream + [lock[0].message];
      lock := lock[1..];
    }

    method RouteUpstreamMessage(message: Message, order: seq<ClientId>, ok: bool)
      requires Enabled(View(), FromUpstream(message, order, ok))
      modifies this
      ensures View() == Step(hello, old(View()), FromUpstream(message, order, ok))
    {
      if "id" !in message {
        notice, remaining := Some(message), order;
        return;
      }
      var key := KeyOf(message);
      if key.None? || key.value !in pending {
        return;
      }
      var entry := pending[key.value];
      pending := pending - {key.value};
      match entry {
        case ForBridge =>
          if key.value in futures && futures[key.value].Waiting? {
            futures := futures[key.value := Done(message)];
          }
        case ForClient(client, originalId) =>
          WriteClientMessage(client, message["id" := originalId], key, ok);
      }
    }

    /** One turn of the broadcast loop: the next client, or the end of the loop. */
    method ServeNotice(ok: bool)
      requires Enabled(View(), NoticeNext(ok))
      modifies this
      ensures View() == Step(hello, old(View()), NoticeNext(ok))
    {
      if remaining == [] {
        notice := None;
        return;
      }
      var client := remaining[0];
      remaining := remaining[1..];
      WriteClientMessage(client, notice.value, None, ok);
    }

    /** The caller of _send_upstream_request gives up waiting; the pending entry stays. */
    method TimeOut(id: int)
      modifies this`futures
      ensures View() == Step(hello, old(View()), BridgeTimeout(id))
    {
      if id in futures && futures[id].Waiting? {
        futures := futures[id := TimedOut];
      }
    }

    /** _send_upstream_request up to the lock of the upstream writer. */
    method SendUpstreamRequest(message: Message) returns (id: int)
      modifies this
      ensures View() == Step(hello, old(View()), BridgeRequest(message)) && id == requestId
    {
      id := NextRequestId();
      futures := futures[id := Waiting];
      pending := pending[id := ForBridge];
      lock := lock + [Waiter(None, message["id" := JInt(id)])];
    }

    /** _send_upstream_notification up to the lock of the upstream writer. */
    method SendUpstreamNotification(message: Message)
      requires Enabled(View(), BridgeNotification(message))
      modifies this
      ensures View() == Step(hello, old(View()), BridgeNotification(message))
    {
      lock := lock + [Waiter(None, message)];
    }
  }

  // ---- what a run says about an upstream id, read off the events alone ------------------------------------

  predicate Allocates(e: Event) {
    (e.FromClient? && IsForwarded(e.message)) || e.BridgeRequest?
  }

  function EntryOf(e: Event): Pending
    requires Allocates(e)
  {
    if e.FromClient? then ForClient(e.client, e.message["id"]) else ForBridge
  }

  function Allocs(es: seq<Event>): nat {
    if es == [] then 0 else Allocs(es[..|es| - 1]) + if Allocates(es[|es| - 1]) then 1 else 0
  }

  /** The request that made event j got the upstream id k. */
  predicate IssuedAt(es: seq<Event>, j: int, k: int) {
    0 <= j < |es| && Allocates(es[j]) && k == Allocs(es[..j]) + 1
  }

  /** After e the entry p of id k is gone: it was answered, or the handler of its client ended. */
  predicate Closes(e: Event, k: int, p: Pending) {
    || (e.FromUpstream? && KeyOf(e.message) == Some(k))
    || (e.HandlerEnds? && p.ForClient? && p.client == e.client)
  }

  ghost predicate OpenAt(es: seq<Event>, j: int, k: int, p: Pending) {
    IssuedAt(es, j, k) && EntryOf(es[j]) == p && forall t :: j < t < |es| ==> !Closes(es[t], k, p)
  }

  /** Id k was given to a request with entry p, and nothing has closed it since. */
  ghost predicate Open(es: seq<Event>, k: int, p: Pending) {
    exists j :: OpenAt(es, j, k, p)
  }

  lemma {:induction false} AllocsMonotone(es: seq<Event>, n: nat)
    requires n <= |es|
    ensures Allocs(es[..n]) <= Allocs(es)
    ensures n < |es| && Allocates(es[n]) ==> Allocs(es[..n]) < Allocs(es)
  {
    if n == |es| {
      assert es[..n] == es;
    } else {
      assert es[..|es| - 1][..n] == es[..n];
      AllocsMonotone(es[..|es| - 1], n);
    }
  }

  lemma OpenIsIssued(es: seq<Event>, k: int, p: Pending)
    requires Open(es, k, p)
    ensures 1 <= k <= Allocs(es)
  {
    var j :| OpenAt(es, j, k, p);
    AllocsMonotone(es, j);
  }

  lemma OpenStep(es: seq<Event>, k: int, p: Pending)
    requires es != []
    ensures var pre, e := es[..|es| - 1], es[|es| - 1];
      Open(es, k, p) <==>
        || (Open(pre, k, p) && !Closes(e, k, p))
        || (Allocates(e) && k == Allocs(pre) + 1 && p == EntryOf(e))
  {
    var pre, e := es[..|es| - 1], es[|es| - 1];
    if Open(es, k, p) {
      OpenBefore(es, k, p);
    }
    if Open(pre, k, p) && !Closes(e, k, p) {
      var j :| OpenAt(pre, j, k, p);
      assert pre[..j] == es[..j];
      assert OpenAt(es, j, k, p);
    }
    if Allocates(e) && k == Allocs(pre) + 1 && p == EntryOf(e) {
      assert OpenAt(es, |pre|, k, p);
    }
  }

  lemma OpenBefore(es: seq<Event>, k: int, p: Pending)
    requires es != [] && Open(es, k, p)
    ensures var pre, e := es[..|es| - 1], es[|es| - 1];
      || (Open(pre, k, p) && !Closes(e, k, p))
      || (Allocates(e) && k == Allocs(pre) + 1 && p == EntryOf(e))
  {
    var pre := es[..|es| - 1];
    var j :| OpenAt(es, j, k, p);
    if j < |pre| {
      assert pre[..j] == es[..j];
      assert OpenAt(pre, j, k, p);
    }
  }

  ghost predicate PendingAs(t: Table, k: int, p: Pending) {
    k in t.pending && t.pending[k] == p
  }

  lemma PendingStep(s: State, e: Event, k: int, p: Pending)
    requires s.table.requestId + 1 !in s.table.pending
    ensures
      PendingAs(TableAfter(s, e), k, p) <==>
        || (PendingAs(s.table, k, p) && !Closes(e, k, p))
        || (Allocates(e) && k == s.table.requestId + 1 && p == EntryOf(e))
  {
  }

  /** The pending table is exactly the set of open requests of the run: no leak, no loss, no mix-up. */
  lemma {:induction false} PendingIsExact(hello: Json, es: seq<Event>)
    requires Valid(hello, es)
    ensures Run(hello, es).table.requestId == Allocs(es)
    ensures forall k, p :: PendingAs(Run(hello, es).table, k, p) <==> Open(es, k, p)
  {
    if es != [] {
      var pre, e := es[..|es| - 1], es[|es| - 1];
      PendingIsExact(hello, pre);
      var s := Run(hello, pre);
      if s.table.requestId + 1 in s.table.pending {
        assert PendingAs(s.table, s.table.requestId + 1, s.table.pending[s.table.requestId + 1]);
        OpenIsIssued(pre, s.table.requestId + 1, s.table.pending[s.table.requestId + 1]);
        assert false;
      }
      forall k, p ensures PendingAs(Run(hello, es).table, k, p) <==> Open(es, k, p) {
        PendingStep(s, e, k, p);
        OpenStep(es, k, p);
      }
    }
  }

  // ---- responses ------------------------------------------------------------------------------------------

  /**
    An upstream message with an integer id is passed on exactly when a client request is open under that
    id: to that client, under the id the client chose, and otherwise unchanged.
   */
  lemma ResponseIsExact(hello: Json, es: seq<Event>, k: int)
    requires Valid(hello, es) && es != []
    requires es[|es| - 1].FromUpstream? && KeyOf(es[|es| - 1].message) == Some(k)
    ensures
      var pre, e := es[..|es| - 1], es[|es| - 1];
      var before, after := Run(hello, pre), Run(hello, es);
      && (forall c, id :: Open(pre, k, ForClient(c, id)) ==>
            after.wires.toClients == before.wires.toClients
              + [Write(c, WithId(e.message, id), FramingOf(before.clients, c), Some(k), e.ok)])
      && ((forall c, id :: !Open(pre, k, ForClient(c, id))) ==> after.wires.toClients == before.wires.toClients)
  {
    var pre, e := es[..|es| - 1], es[|es| - 1];
    var before := Run(hello, pre);
    PendingIsExact(hello, pre);
    if k in before.table.pending {
      assert PendingAs(before.table, k, before.table.pending[k]);
    }
    forall c, id | Open(pre, k, ForClient(c, id)) ensures PendingAs(before.table, k, ForClient(c, id)) {
    }
  }

  lemma IssuedUnique(es: seq<Event>, i: int, j: int, k: int)
    requires IssuedAt(es, i, k) && IssuedAt(es, j, k)
    ensures i == j
  {
    if i < j {
      assert es[..j][..i] == es[..i];
      AllocsMonotone(es[..j], i);
    } else if j < i {
      assert es[..i][..j] == es[..j];
      AllocsMonotone(es[..i], j);
    }
  }

  /** The write w answers the client request made at step j with the upstream message of step i. */
  ghost predicate Answers(es: seq<Event>, j: int, i: int, w: Write) {
    && w.via.Some?
    && j < i < |es|
    && IssuedAt(es, j, w.via.value) && es[j].FromClient?
    && es[j].client == w.client
    && es[i].FromUpstream? && KeyOf(es[i].message) == w.via
    && w.message == WithId(es[i].message, es[j].message["id"])
    && forall t :: j < t < i ==> !Closes(es[t], w.via.value, ForClient(w.client, es[j].message["id"]))
  }

  /** The write w is the bridge's own answer to an initialize request, or a notification passed on as it is. */
  ghost predicate OwnOrNotice(hello: Json, es: seq<Event>, i: int, w: Write) {
    && w.via.None? && 0 <= i < |es|
    && (|| (es[i].FromClient? && es[i].client == w.client && IsInitialize(es[i].message)
            && w.message == InitializeReply(hello, es[i].message["id"]))
        || (es[i].FromUpstream? && "id" !in es[i].message && w.message == es[i].message))
  }

  ghost predicate Explained(hello: Json, es: seq<Event>, w: Write) {
    if w.via.Some? then exists j, i :: Answers(es, j, i, w) else exists i :: OwnOrNotice(hello, es, i, w)
  }

  lemma ExplainedLonger(hello: Json, es: seq<Event>, w: Write)
    requires es != [] && Explained(hello, es[..|es| - 1], w)
    ensures Explained(hello, es, w)
  {
    var pre := es[..|es| - 1];
    if w.via.Some? {
      var j, i :| Answers(pre, j, i, w);
      assert pre[..j] == es[..j];
      assert Answers(es, j, i, w);
    } else {
      var i :| OwnOrNotice(hello, pre, i, w);
      assert OwnOrNotice(hello, es, i, w);
    }
  }

  ghost predicate NoticeKnown(es: seq<Event>, w: Wires) {
    w.notice.Some? ==>
      "id" !in w.notice.value &&
      exists i :: 0 <= i < |es| && es[i].FromUpstream? && es[i].message == w.notice.value
  }

  ghost predicate AnswersNow(es: seq<Event>, j: int, w: Write) {
    Answers(es, j, |es| - 1, w)
  }

  /** A response is written in the very step in which the upstream message is routed. */
  lemma ResponseIsWrittenAtOnce(hello: Json, es: seq<Event>)
    requires Valid(hello, es) && es != [] && es[|es| - 1].FromUpstream?
    ensures var before, after := Run(hello, es[..|es| - 1]).wires.toClients, Run(hello, es).wires.toClients;
      after == before
      || (|after| == |before| + 1 && after[..|before|] == before && exists j :: AnswersNow(es, j, after[|before|]))
  {
    var pre, e := es[..|es| - 1], es[|es| - 1];
    var s := Run(hello, pre);
    var after := Run(hello, es).wires.toClients;
    if |after| > |s.wires.toClients| {
      var w := after[|s.wires.toClients|];
      var k := KeyOf(e.message).value;
      PendingIsExact(hello, pre);
      assert PendingAs(s.table, k, s.table.pending[k]);
      var j :| OpenAt(pre, j, k, s.table.pending[k]);
      assert pre[..j] == es[..j];
      assert AnswersNow(es, j, w);
    }
  }

  /** The write that the last step of the run adds, if any, is explained, and a response by that step. */
  lemma NewWriteExplained(hello: Json, es: seq<Event>)
    requires Valid(hello, es) && es != [] && NoticeKnown(es[..|es| - 1], Run(hello, es[..|es| - 1]).wires)
    ensures var before, after := Run(hello, es[..|es| - 1]).wires.toClients, Run(hello, es).wires.toClients;
      after == before
      || (|after| == |before| + 1 && after[..|before|] == before && Explained(hello, es, after[|before|])
          && (after[|before|].via.Some? ==> exists j :: AnswersNow(es, j, after[|before|])))
  {
    var pre, e := es[..|es| - 1], es[|es| - 1];
    var s := Run(hello, pre);
    var after := Run(hello, es).wires.toClients;
    if e.FromUpstream? {
      ResponseIsWrittenAtOnce(hello, es);
    } else if |after| > |s.wires.toClients| {
      var w := after[|s.wires.toClients|];
      if e.FromClient? {
        assert OwnOrNotice(hello, es, |pre|, w);
      } else {
        var i :| 0 <= i < |pre| && pre[i].FromUpstream? && pre[i].message == s.wires.notice.value;
        assert OwnOrNotice(hello, es, i, w);
      }
    }
  }

  lemma NoticeStep(hello: Json, es: seq<Event>)
    requires Valid(hello, es) && es != [] && NoticeKnown(es[..|es| - 1], Run(hello, es[..|es| - 1]).wires)
    ensures NoticeKnown(es, Run(hello, es).wires)
  {
    var pre, e := es[..|es| - 1], es[|es| - 1];
    var w := Run(hello, pre).wires;
    if w.notice.Some? {
      var i :| 0 <= i < |pre| && pre[i].FromUpstream? && pre[i].message == w.notice.value;
      assert es[i] == pre[i];
    }
    assert es[|pre|] == e;
  }

  ghost predicate AllExplained(hello: Json, es: seq<Event>, log: seq<Write>) {
    forall p :: 0 <= p < |log| ==> Explained(hello, es, log[p])
  }

  lemma ExplainedStep(hello: Json, es: seq<Event>, before: seq<Write>, after: seq<Write>)
    requires es != [] && AllExplained(hello, es[..|es| - 1], before)
    requires after == before
             || (|after| == |before| + 1 && after[..|before|] == before && Explained(hello, es, after[|before|]))
    ensures AllExplained(hello, es, after)
  {
    forall p | 0 <= p < |after| ensures Explained(hello, es, after[p]) {
      if p < |before| {
        assert after[p] == before[p];
        ExplainedLonger(hello, es, before[p]);
      }
    }
  }

  ghost predicate AnsweredOnce(log: seq<Write>) {
    forall p, q :: 0 <= p < q < |log| && log[p].via.Some? ==> log[p].via != log[q].via
  }

  /** A second answer to the same request is impossible: the first one closed it. */
  lemma NoSecondAnswer(es: seq<Event>, w: Write, x: Write, j: int, i: int, j': int)
    requires es != [] && w.via.Some?
    requires Answers(es[..|es| - 1], j, i, w) && AnswersNow(es, j', x)
    ensures x.via != w.via
  {
    var pre := es[..|es| - 1];
    assert pre[..j] == es[..j] && pre[i] == es[i];
    assert forall p :: Closes(es[i], w.via.value, p);
    if x.via == w.via {
      IssuedUnique(es, j, j', w.via.value);
      assert false;
    }
  }

  lemma AnsweredOnceStep(hello: Json, es: seq<Event>, before: seq<Write>, w: Write)
    requires es != [] && AllExplained(hello, es[..|es| - 1], before) && AnsweredOnce(before)
    requires w.via.Some? ==> exists j :: AnswersNow(es, j, w)
    ensures AnsweredOnce(before + [w])
  {
    forall p | 0 <= p < |before| && before[p].via.Some? ensures before[p].via != w.via {
      if w.via.Some? {
        assert Explained(hello, es[..|es| - 1], before[p]);
        var j, i :| Answers(es[..|es| - 1], j, i, before[p]);
        var j' :| AnswersNow(es, j', w);
        NoSecondAnswer(es, before[p], w, j, i, j');
      }
    }
  }

  /**
    In every run, whatever the clients, the upstream server and the scheduler do: each response a client is
    sent answers one earlier request of that same client that was still open, under that client's own id and
    with nothing else changed; no request is answered twice; and every other message to a client is the
    bridge's own initialize reply to it or an unchanged upstream notification.
   */
  lemma {:induction false} EveryWriteIsExplained(hello: Json, es: seq<Event>)
    requires Valid(hello, es)
    ensures NoticeKnown(es, Run(hello, es).wires)
    ensures AllExplained(hello, es, Run(hello, es).wires.toClients)
    ensures AnsweredOnce(Run(hello, es).wires.toClients)
  {
    if es != [] {
      var pre := es[..|es| - 1];
      var before, after := Run(hello, pre).wires.toClients, Run(hello, es).wires.toClients;
      EveryWriteIsExplained(hello, pre);
      NoticeStep(hello, es);
      NewWriteExplained(hello, es);
      ExplainedStep(hello, es, before, after);
      if after != before {
        AnsweredOnceStep(hello, es, before, after[|before|]);
        assert after == before + [after[|before|]];
      }
    }
  }

  // ---- a client that is gone ------------------------------------------------------------------------------

  /** The handler of c has ended: nothing in the bridge refers to it any more. */
  ghost predicate Gone(s: State, c: ClientId) {
    && c <= s.clients.lastId && c !in s.clients.handlers && c !in s.clients.registered
    && (forall k, p :: PendingAs(s.table, k, p) ==> NotOf(p, c))
  }

  lemma GoneStep(hello: Json, s: State, e: Event, c: ClientId)
    requires Enabled(s, e) && Gone(s, c)
    ensures Gone(Step(hello, s, e), c)
  {
    forall k, p | PendingAs(TableAfter(s, e), k, p) ensures NotOf(p, c) {
      assert k in s.table.pending && s.table.pending[k] == p ==> PendingAs(s.table, k, p);
    }
  }

  lemma ForgetStep(hello: Json, s: State, c: ClientId)
    requires c in s.clients.handlers && c <= s.clients.lastId
    ensures Gone(Step(hello, s, HandlerEnds(c)), c)
  {
  }

  lemma {:induction false} HandlersAreKnown(hello: Json, es: seq<Event>)
    requires Valid(hello, es)
    ensures forall c :: c in Run(hello, es).clients.handlers ==> c <= Run(hello, es).clients.lastId
  {
    if es != [] {
      HandlersAreKnown(hello, es[..|es| - 1]);
    }
  }

  /** After a client's handler has ended no pending entry ever names the client again. */
  lemma {:induction false} GoneForGood(hello: Json, es: seq<Event>, t: nat)
    requires Valid(hello, es) && t < |es| && es[t].HandlerEnds?
    ensures Gone(Run(hello, es), es[t].client)
  {
    var pre := es[..|es| - 1];
    if t < |pre| {
      GoneForGood(hello, pre, t);
      GoneStep(hello, Run(hello, pre), es[|es| - 1], es[t].client);
    } else {
      HandlersAreKnown(hello, pre);
      ForgetStep(hello, Run(hello, pre), es[t].client);
    }
  }

  // ---- the upstream wire ----------------------------------------------------------------------------------

  function Messages(lock: seq<Waiter>): seq<Message> {
    if lock == [] then [] else Messages(lock[..|lock| - 1]) + [lock[|lock| - 1].message]
  }

  /** What has been written upstream followed by what waits for the lock, in the order of writing. */
  function OnWire(w: Wires): seq<Message> {
    w.upstream + Messages(w.lock)
  }

  predicate HasId(m: Message, k: int) {
    "id" in m && m["id"] == JInt(k)
  }

  /** Every id on the wire is an integer up to n. */
  ghost predicate IdsUpTo(ms: seq<Message>, n: int) {
    forall i :: 0 <= i < |ms| && "id" in ms[i] ==> ms[i]["id"].JInt? && ms[i]["id"].n <= n
  }

  ghost predicate IdsIncrease(ms: seq<Message>) {
    forall i, j, k, l :: 0 <= i < j < |ms| && HasId(ms[i], k) && HasId(ms[j], l) ==> k < l
  }

  lemma {:induction false} MessagesFront(lock: seq<Waiter>)
    requires lock != []
    ensures Messages(lock) == [lock[0].message] + Messages(lock[1..])
  {
    if |lock| > 1 {
      assert lock[1..][..|lock| - 2] == lock[..|lock| - 1][1..];
      MessagesFront(lock[..|lock| - 1]);
    }
  }

  lemma {:induction false} AbandonedMessages(lock: seq<Waiter>, c: ClientId)
    ensures Subsequence(Messages(Abandon(lock, c)), Messages(lock))
  {
    if lock != [] {
      var init := lock[..|lock| - 1];
      var last := lock[|lock| - 1];
      AbandonedMessages(init, c);
      if last.owner == Some(c) {
        SubsequenceGrow(Messages(Abandon(init, c)), Messages(init), last.message);
      } else {
        assert (Abandon(init, c) + [last])[..|Abandon(init, c)|] == Abandon(init, c);
        SubsequenceBothGrow(Messages(Abandon(init, c)), Messages(init), last.message);
      }
    }
  }

  lemma {:induction false} SubsequenceKeepsIds(a: seq<Message>, b: seq<Message>, n: int)
    requires Subsequence(a, b) && IdsUpTo(b, n) && IdsIncrease(b)
    ensures IdsUpTo(a, n) && IdsIncrease(a)
    ensures forall m :: m in a ==> m in b
  {
    if a != [] {
      var b' := b[..|b| - 1];
      if a[|a| - 1] == b[|b| - 1] && Subsequence(a[..|a| - 1], b') {
        var a' := a[..|a| - 1];
        SubsequenceKeepsIds(a', b', n);
        forall i, j, k, l | 0 <= i < j < |a| && HasId(a[i], k) && HasId(a[j], l) ensures k < l {
          assert a'[i] == a[i] && a'[i] in b';
          if j < |a'| {
            assert a'[j] == a[j];
          }
        }
        forall i | 0 <= i < |a| && "id" in a[i] ensures a[i]["id"].JInt? && a[i]["id"].n <= n {
          if i < |a'| { assert a'[i] == a[i]; }
        }
        assert a == a' + [a[|a| - 1]];
      } else {
        SubsequenceKeepsIds(a, b', n);
      }
    }
  }

  ghost predicate WireOk(s: State) {
    IdsUpTo(OnWire(s.wires), s.table.requestId) && IdsIncrease(OnWire(s.wires))
  }

  /** The message e puts on the wire. */
  function Forwarded(s: State, e: Event): Option<Message> {
    match e
    case FromClient(_, m, _, _) =>
      if IsForwarded(m) then Some(WithId(m, JInt(s.table.requestId + 1)))
      else if IsInitialize(m) || IsInitialized(m) then None
      else Some(m)
    case BridgeRequest(m) => Some(WithId(m, JInt(s.table.requestId + 1)))
    case BridgeNotification(m) => Some(m)
    case _ => None
  }

  lemma WireStep(hello: Json, s: State, e: Event)
    requires Enabled(s, e) && !e.HandlerEnds?
    ensures OnWire(WiresAfter(hello, s, e)) ==
            OnWire(s.wires) + if Forwarded(s, e).Some? then [Forwarded(s, e).value] else []
  {
    var w := WiresAfter(hello, s, e);
    if e.UpstreamWrite? {
      MessagesFront(s.wires.lock);
    } else if Forwarded(s, e).Some? {
      assert w.lock[..|w.lock| - 1] == s.wires.lock;
    }
  }

  lemma StepKeepsWire(hello: Json, s: State, e: Event)
    requires Enabled(s, e) && WireOk(s)
    ensures WireOk(Step(hello, s, e))
  {
    if e.HandlerEnds? {
      AbandonedMessages(s.wires.lock, e.client);
      SubsequenceBehind(s.wires.upstream, Messages(Abandon(s.wires.lock, e.client)), Messages(s.wires.lock));
      SubsequenceKeepsIds(OnWire(WiresAfter(hello, s, e)), OnWire(s.wires), s.table.requestId);
    } else {
      WireStep(hello, s, e);
    }
  }

  /** No two requests on the upstream wire share an id: along the wire the ids strictly increase. */
  lemma {:induction false} UpstreamIdsIncrease(hello: Json, es: seq<Event>)
    requires Valid(hello, es)
    ensures WireOk(Run(hello, es))
  {
    if es != [] {
      UpstreamIdsIncrease(hello, es[..|es| - 1]);
      StepKeepsWire(hello, Run(hello, es[..|es| - 1]), es[|es| - 1]);
    }
  }

  /** m is what step j sent on its way upstream: its own message, at most with the id replaced. */
  predicate Carries(es: seq<Event>, j: int, m: Message) {
    0 <= j < |es| &&
    if Allocates(es[j]) then m == WithId(es[j].message, JInt(Allocs(es[..j]) + 1))
    else
      && (es[j].BridgeNotification? || (es[j].FromClient? && !IsInitialized(es[j].message)))
      && "id" !in es[j].message && m == es[j].message
  }

  lemma CarriesLonger(es: seq<Event>, j: int, m: Message)
    requires es != [] && Carries(es[..|es| - 1], j, m)
    ensures Carries(es, j, m)
  {
    assert es[..|es| - 1][..j] == es[..j];
  }

  lemma AbandonKeepsMessages(w: Wires, c: ClientId, m: Message)
    requires m in OnWire(w.(lock := Abandon(w.lock, c)))
    ensures m in OnWire(w)
  {
    AbandonedMessages(w.lock, c);
    if m !in w.upstream {
      SubsequenceMember(Messages(Abandon(w.lock, c)), Messages(w.lock), m);
    }
  }

  /** Everything on the upstream wire is a client's or the bridge's own message, unchanged but for a fresh id. */
  lemma {:induction false} WireCarriesWhatWasAsked(hello: Json, es: seq<Event>, m: Message)
    requires Valid(hello, es) && m in OnWire(Run(hello, es).wires)
    ensures exists j :: Carries(es, j, m)
  {
    if es != [] {
      var pre, e := es[..|es| - 1], es[|es| - 1];
      var s := Run(hello, pre);
      PendingIsExact(hello, pre);
      if e.HandlerEnds? {
        AbandonKeepsMessages(s.wires, e.client, m);
      } else {
        WireStep(hello, s, e);
      }
      if m in OnWire(s.wires) {
        WireCarriesWhatWasAsked(hello, pre, m);
        var j :| Carries(pre, j, m);
        CarriesLonger(es, j, m);
      } else {
        assert Carries(es, |pre|, m);
      }
    }
  }
}