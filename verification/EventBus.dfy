/**
  The publish/subscribe bus of the daemon (daemon/event_bus.py).

  Publishers fill a bounded central queue; one drain loop filters each event into a bounded queue per
  subscriber; each subscriber has its own worker. Every method of `Bus` is one atomic step between two
  suspension points. Filters are functions of the event, and callbacks do not call back into the bus.
  `delivered` counts an event from the moment the worker hands it to the callback.
 */
module EventBus {
  import opened Sequences

  type Ev = nat
  type SubId = nat

  const MAX_CONSECUTIVE_FAILURES := 10

  datatype Verdict = Match | NoMatch | Raises

  datatype Config = Config(maxPending: nat, maxQueue: nat, verdict: (SubId, Ev) -> Verdict)

  datatype Worker = NotStarted | Parked | Running(ev: Ev) | Ended

  /**
    How a callback ends. `Cancelled` is a CancelledError: the one that its removed subscriber is sent, or one of its
    own, for instance from a task it awaits. A callback that swallows the one it is sent ends in another way.
   */
  datatype Outcome = Ok | Error | Timeout | Cancelled

  /** The central queue, with the events accepted and the events drained so far. */
  datatype Central = Central(running: bool, pending: seq<Ev>, dropped: nat, published: seq<Ev>, drained: seq<Ev>)

  datatype Sub = Sub(
    registered: bool,
    worker: Worker,
    wakeup: bool,
    queue: seq<Ev>,
    dropped: nat,
    failures: nat,
    since: nat,             // how many events had been drained when it subscribed
    seen: seq<Ev>,          // what was drained while it was subscribed
    matched: seq<Ev>,
    delivered: seq<Ev>)

  datatype State = State(central: Central, subs: map<SubId, Sub>)

  datatype Event =
    | Start
    | Publish(ev: Ev)
    | Subscribe(id: SubId)
    | Unsubscribe(id: SubId)
    | Drain                               // the drain loop gets one event and distributes it
    | Wake(id: SubId)                     // the worker passes its wait
    | Done(id: SubId, outcome: Outcome)   // the callback returns, raises or times out
    | Shutdown

  const INIT := State(Central(false, [], 0, [], []), map[])

  // ---- the central queue ----------------------------------------------------------------------------------

  /** Append to a bounded queue, giving up the oldest entry when it is full. */
  function Push(queue: seq<Ev>, ev: Ev, bound: nat): seq<Ev> {
    if bound == 0 then []
    else if |queue| >= bound then queue[1..] + [ev]
    else queue + [ev]
  }

  function CentralAfter(cfg: Config, c: Central, e: Event): Central {
    match e
    case Start => c.(running := true)
    case Shutdown => c.(running := false)
    case Publish(ev) =>
      if !c.running then c
      else
        c.(pending := Push(c.pending, ev, cfg.maxPending),
           dropped := if |c.pending| >= cfg.maxPending then c.dropped + 1 else c.dropped,
           published := c.published + [ev])
    case Drain =>
      if c.pending == [] then c else c.(pending := c.pending[1..], drained := c.drained + [c.pending[0]])
    case _ => c
  }

  // ---- one subscriber -------------------------------------------------------------------------------------

  function NewSub(c: Central): Sub {
    Sub(true, if c.running then Parked else NotStarted, false, [], 0, 0, |c.drained|, [], [], [])
  }

  /** Removed from the table, its task cancelled: a worker in a callback ends only if the callback lets it. */
  function Evicted(sub: Sub): Sub {
    sub.(registered := false, worker := if sub.worker.Running? then sub.worker else Ended)
  }

  /** _distribute for one subscriber. */
  function Offer(cfg: Config, id: SubId, sub: Sub, ev: Ev): Sub {
    match cfg.verdict(id, ev)
    case NoMatch => sub
    case Raises =>
      var failed := sub.(failures := sub.failures + 1);
      if failed.failures >= MAX_CONSECUTIVE_FAILURES then Evicted(failed) else failed
    case Match =>
      sub.(queue := Push(sub.queue, ev, cfg.maxQueue),
           dropped := if |sub.queue| >= cfg.maxQueue then sub.dropped + 1 else sub.dropped,
           wakeup := true,
           matched := sub.matched + [ev])
  }

  /** The inner loop of the worker: the next event, or back to waiting, or the end if the subscriber is removed. */
  function NextEvent(sub: Sub): Sub {
    if sub.queue == [] then sub.(worker := if sub.registered then Parked else Ended)
    else
      sub.(worker := Running(sub.queue[0]), queue := sub.queue[1..], delivered := sub.delivered + [sub.queue[0]])
  }

  function AfterCallback(sub: Sub, o: Outcome): Sub {
    if o.Ok? then NextEvent(sub.(failures := 0))
    else if o.Cancelled? then sub.(worker := Ended)
    else
      var failed := sub.(failures := sub.failures + 1);
      if failed.failures >= MAX_CONSECUTIVE_FAILURES then failed.(registered := false, worker := Ended)
      else NextEvent(failed)
  }

  /** What step e does to subscriber id. */
  function SubAfter(cfg: Config, id: SubId, c: Central, sub: Sub, e: Event): Sub {
    match e
    case Start => if !c.running && sub.registered && sub.worker.NotStarted? then sub.(worker := Parked) else sub
    case Unsubscribe(i) => if i == id && sub.registered then Evicted(sub) else sub
    case Drain =>
      if c.pending != [] && sub.registered then
        Offer(cfg, id, sub.(seen := sub.seen + [c.pending[0]]), c.pending[0])
      else sub
    case Wake(i) => if i == id then NextEvent(sub.(wakeup := false)) else sub
    case Done(i, o) => if i == id then AfterCallback(sub, o) else sub
    case Shutdown => Evicted(sub)
    case _ => sub
  }

  // ---- runs -----------------------------------------------------------------------------------------------

  predicate Enabled(s: State, e: Event) {
    match e
    case Subscribe(id) => id !in s.subs
    case Drain => s.central.running && s.central.pending != []
    case Wake(id) => id in s.subs && s.subs[id].worker.Parked? && s.subs[id].wakeup
    case Done(id, _) => id in s.subs && s.subs[id].worker.Running?
    case _ => true
  }

  function Step(cfg: Config, s: State, e: Event): State {
    var subs := if e.Subscribe? then s.subs[e.id := NewSub(s.central)] else s.subs;
    State(CentralAfter(cfg, s.central, e), map id | id in subs :: SubAfter(cfg, id, s.central, subs[id], e))
  }

  predicate Valid(cfg: Config, es: seq<Event>) {
    es != [] ==> Valid(cfg, es[..|es| - 1]) && Enabled(Run(cfg, es[..|es| - 1]), es[|es| - 1])
  }

  function Run(cfg: Config, es: seq<Event>): State {
    if es == [] then INIT else Step(cfg, Run(cfg, es[..|es| - 1]), es[|es| - 1])
  }

  /** _distribute for one subscriber before the evictions: filter, count failures, enqueue. */
  function Filtered(cfg: Config, id: SubId, sub: Sub, ev: Ev): Sub {
    if !sub.registered then sub
    else
      var shown := sub.(seen := sub.seen + [ev]);
      match cfg.verdict(id, ev)
      case NoMatch => shown
      case Raises => shown.(failures := shown.failures + 1)
      case Match => Offer(cfg, id, shown, ev)
  }

  predicate MustGo(cfg: Config, id: SubId, sub: Sub, ev: Ev) {
    sub.registered && cfg.verdict(id, ev).Raises? && sub.failures + 1 >= MAX_CONSECUTIVE_FAILURES
  }

  function Distributed(cfg: Config, id: SubId, sub: Sub, ev: Ev): Sub {
    if MustGo(cfg, id, sub, ev) then Evicted(Filtered(cfg, id, sub, ev)) else Filtered(cfg, id, sub, ev)
  }

  /** Evicting after the walk over the snapshot comes to the same as evicting on the spot. */
  lemma LateEviction(cfg: Config, id: SubId, c: Central, sub: Sub)
    requires c.pending != []
    ensures Distributed(cfg, id, sub, c.pending[0]) == SubAfter(cfg, id, c, sub, Drain)
  {
  }

  lemma LateEvictions(cfg: Config, s: State)
    requires s.central.pending != []
    ensures Step(cfg, s, Drain).subs == map id | id in s.subs :: Distributed(cfg, id, s.subs[id], s.central.pending[0])
  {
    forall id | id in s.subs
      ensures Distributed(cfg, id, s.subs[id], s.central.pending[0]) == SubAfter(cfg, id, s.central, s.subs[id], Drain)
    {
      LateEviction(cfg, id, s.central, s.subs[id]);
    }
  }

  // ---- the bus object -------------------------------------------------------------------------------------

  /** The bus; the table keeps removed subscribers with `registered` false, as part of the history. */
  class Bus {
    const cfg: Config
    var running: bool
    var pending: seq<Ev>
    var pendingDropped: nat
    var subscribers: map<SubId, Sub>
    var published: seq<Ev>    // history
    var drained: seq<Ev>      // history

    ghost function View(): State
      reads this
    {
      State(Central(running, pending, pendingDropped, published, drained), subscribers)
    }

    /** A bound below one is the ValueError of the source. */
    constructor (cfg: Config)
      requires cfg.maxPending >= 1
      ensures View() == INIT && this.cfg == cfg
    {
      this.cfg := cfg;
      running, pending, pendingDropped, subscribers := false, [], 0, map[];
      published, drained := [], [];
    }

    /** Never blocks: a full queue gives up its oldest event. */
    method PublishEvent(ev: Ev)
      requires |pending| <= cfg.maxPending && cfg.maxPending >= 1
      modifies this
      ensures View().central == CentralAfter(cfg, old(View()).central, Publish(ev))
      ensures subscribers == old(subscribers)
    {
      if !running {
        return;
      }
      if |pending| < cfg.maxPending {
        pending := pending + [ev];
      } else {
        pending := pending[1..];
        pending := pending + [ev];
        pendingDropped := pendingDropped + 1;
      }
      published := published + [ev];
    }

    /** The body of the loop of _distribute: a failing filter is counted, a matching event enqueued. */
    method OfferEvent(id: SubId, before: Sub, ev: Ev) returns (sub: Sub, evict: bool)
      requires |before.queue| <= cfg.maxQueue
      ensures sub == Filtered(cfg, id, before, ev) && evict == MustGo(cfg, id, before, ev)
    {
      sub, evict := before, false;
      if !sub.registered {
        return;
      }
      sub := sub.(seen := sub.seen + [ev]);
      match cfg.verdict(id, ev) {
        case Raises =>
          sub := sub.(failures := sub.failures + 1);
          evict := sub.failures >= MAX_CONSECUTIVE_FAILURES;
        case NoMatch =>
        case Match =>
          if |sub.queue| == cfg.maxQueue {
            sub := sub.(dropped := sub.dropped + 1);
          }
          var queue := sub.queue + [ev];
          if |queue| > cfg.maxQueue {
            queue := queue[1..];
          }
          sub := sub.(queue := queue, wakeup := true, matched := sub.matched + [ev]);
      }
    }

    /** The loop of _distribute. */
    method FilterAndEnqueue(ev: Ev) returns (toEvict: set<SubId>)
      requires forall id :: id in subscribers ==> |subscribers[id].queue| <= cfg.maxQueue
      modifies this`subscribers
      ensures toEvict == set id | id in old(subscribers) && MustGo(cfg, id, old(subscribers)[id], ev)
      ensures subscribers == map id | id in old(subscribers) :: Filtered(cfg, id, old(subscribers)[id], ev)
    {
      var snapshot := subscribers;
      var todo := snapshot.Keys;
      toEvict := {};
      while todo != {}
        invariant todo <= snapshot.Keys
        invariant subscribers ==
                  map id | id in snapshot :: if id in todo then snapshot[id] else Filtered(cfg, id, snapshot[id], ev)
        invariant toEvict == set id | id in snapshot && id !in todo && MustGo(cfg, id, snapshot[id], ev)
        decreases todo
      {
        var id := Pick(todo);
        var sub, evict := OfferEvent(id, snapshot[id], ev);
        if evict {
          toEvict := toEvict + {id};
        }
        subscribers := subscribers[id := sub];
        todo := todo - {id};
      }
    }

    /** Evictions happen after the walk over the snapshot. */
    method EvictAll(ids: set<SubId>)
      requires ids <= subscribers.Keys
      modifies this`subscribers
      ensures
        var before := old(subscribers);
        subscribers == map id | id in before :: if id in ids then Evicted(before[id]) else before[id]
    {
      var before := subscribers;
      var todo := ids;
      while todo != {}
        invariant todo <= ids
        invariant subscribers ==
                  map id | id in before :: if id in ids && id !in todo then Evicted(before[id]) else before[id]
        decreases todo
      {
        var id := Pick(todo);
        subscribers := subscribers[id := Evicted(subscribers[id])];
        todo := todo - {id};
      }
    }

    method DrainOne()
      requires Enabled(View(), Drain)
      requires forall id :: id in subscribers ==> |subscribers[id].queue| <= cfg.maxQueue
      modifies this
      ensures View() == Step(cfg, old(View()), Drain)
    {
      ghost var before := View();
      var ev := pending[0];
      pending := pending[1..];
      drained := drained + [ev];
      var toEvict := FilterAndEnqueue(ev);
      EvictAll(toEvict);
      assert subscribers == map id | id in before.subs :: Distributed(cfg, id, before.subs[id], ev);
      LateEvictions(cfg, before);
    }

    /** The worker of id passes its wait and takes its first event, or goes back to waiting. */
    method WakeWorker(id: SubId)
      requires Enabled(View(), Wake(id))
      modifies this`subscribers
      ensures View() == Step(cfg, old(View()), Wake(id))
    {
      subscribers := subscribers[id := NextEvent(subscribers[id].(wakeup := false))];
    }

    /**
      The callback of id has ended. On the tenth failure in a row the worker removes its own subscriber; a
      CancelledError ends the worker and leaves the subscriber in the table.
     */
    method CallbackEnded(id: SubId, outcome: Outcome)
      requires Enabled(View(), Done(id, outcome))
      modifies this`subscribers
      ensures View() == Step(cfg, old(View()), Done(id, outcome))
    {
      var sub := subscribers[id];
      if outcome.Cancelled? {
        subscribers := subscribers[id := sub.(worker := Ended)];
        return;
      }
      if outcome.Ok? {
        sub := sub.(failures := 0);
      } else {
        sub := sub.(failures := sub.failures + 1);
        if sub.failures >= MAX_CONSECUTIVE_FAILURES {
          subscribers := subscribers[id := sub.(registered := false, worker := Ended)];
          return;
        }
      }
      subscribers := subscribers[id := NextEvent(sub)];
    }

    method AddSubscriber(id: SubId)
      requires Enabled(View(), Subscribe(id))
      modifies this`subscribers
      ensures View() == Step(cfg, old(View()), Subscribe(id))
    {
      var worker := if running then Parked else NotStarted;
      subscribers := subscribers[id := Sub(true, worker, false, [], 0, 0, |drained|, [], [], [])];
    }

    method RemoveSubscriber(id: SubId) returns (found: bool)
      modifies this`subscribers
      ensures View() == Step(cfg, old(View()), Unsubscribe(id))
      ensures found <==> id in old(subscribers) && old(subscribers)[id].registered
    {
      found := id in subscribers && subscribers[id].registered;
      if found {
        subscribers := subscribers[id := subscribers[id].(registered := false)];
        if !subscribers[id].worker.Running? {
          subscribers := subscribers[id := subscribers[id].(worker := Ended)];
        }
      }
    }
  }

  // ---- isolation ------------------------------------------------------------------------------------------

  /** What subscriber id can see of the bus: the central queue and itself. */
  datatype Local = Local(central: Central, sub: Option<Sub>)

  function LocalView(s: State, id: SubId): Local {
    Local(s.central, if id in s.subs then Some(s.subs[id]) else None)
  }

  predicate Concerns(e: Event, id: SubId) {
    match e
    case Subscribe(i) => i == id
    case Unsubscribe(i) => i == id
    case Wake(i) => i == id
    case Done(i, _) => i == id
    case _ => true
  }

  function LocalStep(cfg: Config, id: SubId, l: Local, e: Event): Local {
    var sub := if e == Subscribe(id) then Some(NewSub(l.central)) else l.sub;
    Local(CentralAfter(cfg, l.central, e),
          if sub.Some? then Some(SubAfter(cfg, id, l.central, sub.value, e)) else None)
  }

  function LocalRun(cfg: Config, id: SubId, es: seq<Event>): Local {
    if es == [] then LocalView(INIT, id) else LocalStep(cfg, id, LocalRun(cfg, id, es[..|es| - 1]), es[|es| - 1])
  }

  /** The publish/drain schedule and the steps of id itself. */
  function Project(es: seq<Event>, id: SubId): seq<Event> {
    if es == [] then []
    else
      var earlier := Project(es[..|es| - 1], id);
      if Concerns(es[|es| - 1], id) then earlier + [es[|es| - 1]] else earlier
  }

  lemma StepIsLocal(cfg: Config, s: State, e: Event, id: SubId)
    ensures Concerns(e, id) ==> LocalView(Step(cfg, s, e), id) == LocalStep(cfg, id, LocalView(s, id), e)
    ensures !Concerns(e, id) ==> LocalView(Step(cfg, s, e), id) == LocalView(s, id)
  {
  }

  lemma {:induction false} RunIsLocal(cfg: Config, es: seq<Event>, id: SubId)
    ensures LocalView(Run(cfg, es), id) == LocalRun(cfg, id, Project(es, id))
  {
    if es != [] {
      var pre, e := es[..|es| - 1], es[|es| - 1];
      RunIsLocal(cfg, pre, id);
      StepIsLocal(cfg, Run(cfg, pre), e, id);
      if Concerns(e, id) {
        assert Project(es, id)[..|Project(es, id)| - 1] == Project(pre, id);
      }
    }
  }

  /**
    Isolation: two runs with the same publish/drain schedule and the same steps of subscriber id leave it, and
    everything it received, the same, however slow, failing or short-lived the other subscribers are.
   */
  lemma Isolation(cfg: Config, es: seq<Event>, fs: seq<Event>, id: SubId)
    requires Project(es, id) == Project(fs, id)
    ensures LocalView(Run(cfg, es), id) == LocalView(Run(cfg, fs), id)
  {
    RunIsLocal(cfg, es, id);
    RunIsLocal(cfg, fs, id);
  }

  // ---- bounds, order and conservation ---------------------------------------------------------------------

  ghost predicate SuffixOf(a: seq<Ev>, b: seq<Ev>) {
    |a| <= |b| && forall i :: 0 <= i < |a| ==> a[i] == b[|b| - |a| + i]
  }

  ghost predicate CentralOk(cfg: Config, c: Central) {
    && |c.pending| <= cfg.maxPending
    && SuffixOf(c.pending, c.published)
    && Subsequence(c.drained + c.pending, c.published)
    && |c.published| == |c.drained| + c.dropped + |c.pending|
  }

  lemma PushSuffix(queue: seq<Ev>, ev: Ev, bound: nat, all: seq<Ev>)
    requires SuffixOf(queue, all) && |queue| <= bound
    ensures SuffixOf(Push(queue, ev, bound), all + [ev])
    ensures |Push(queue, ev, bound)| == (if |queue| >= bound then |queue| else |queue| + 1)
  {
  }

  /** Whether or not the oldest entry is given up, order is kept. */
  lemma PushOrder(front: seq<Ev>, queue: seq<Ev>, ev: Ev, bound: nat, all: seq<Ev>)
    requires Subsequence(front + queue, all)
    ensures Subsequence(front + Push(queue, ev, bound), all + [ev])
  {
    SubsequenceBothGrow(front + queue, all, ev);
    assert front + queue + [ev] == front + (queue + [ev]);
    if bound == 0 {
      SubsequencePrefix(front + queue, all, |front|);
      assert (front + queue)[..|front|] == front == front + [];
      SubsequenceGrow(front, all, ev);
    } else if |queue| >= bound {
      assert front + queue + [ev] == front + ([queue[0]] + (queue[1..] + [ev]));
      DropOne(front, queue[0], queue[1..] + [ev], all + [ev]);
    }
  }

  lemma {:induction false} DropOne(front: seq<Ev>, x: Ev, back: seq<Ev>, all: seq<Ev>)
    requires Subsequence(front + ([x] + back), all)
    ensures Subsequence(front + back, all)
  {
    var whole := front + ([x] + back);
    if back == [] {
      SubsequencePrefix(whole, all, |front|);
      assert whole[..|front|] == front == front + back;
    } else {
      var all' := all[..|all| - 1];
      var back' := back[..|back| - 1];
      assert whole[..|whole| - 1] == front + ([x] + back');
      assert front + back == (front + back') + [back[|back| - 1]];
      assert all == all' + [all[|all| - 1]];
      if whole[|whole| - 1] == all[|all| - 1] && Subsequence(whole[..|whole| - 1], all') {
        DropOne(front, x, back', all');
        SubsequenceBothGrow(front + back', all', all[|all| - 1]);
      } else {
        DropOne(front, x, back, all');
        SubsequenceGrow(front + back, all', all[|all| - 1]);
      }
    }
  }

  lemma CentralStep(cfg: Config, c: Central, e: Event)
    requires cfg.maxPending >= 1 && CentralOk(cfg, c)
    ensures CentralOk(cfg, CentralAfter(cfg, c, e))
  {
    if e.Publish? && c.running {
      PublishOk(cfg, c, e.ev);
    } else if e.Drain? && c.pending != [] {
      assert c.drained + [c.pending[0]] + c.pending[1..] == c.drained + c.pending;
    }
  }

  lemma PublishOk(cfg: Config, c: Central, ev: Ev)
    requires cfg.maxPending >= 1 && c.running && CentralOk(cfg, c)
    ensures CentralOk(cfg, CentralAfter(cfg, c, Publish(ev)))
  {
    PushSuffix(c.pending, ev, cfg.maxPending, c.published);
    PushOrder(c.drained, c.pending, ev, cfg.maxPending, c.published);
  }

  /** What holds of every subscriber at every point of every run. */
  ghost predicate SubOk(cfg: Config, sub: Sub) {
    && |sub.queue| <= cfg.maxQueue
    && SuffixOf(sub.queue, sub.matched)
    && Subsequence(sub.delivered + sub.queue, sub.matched)
    && |sub.matched| == |sub.delivered| + sub.dropped + |sub.queue|
    && ((sub.worker.Parked? || sub.worker.NotStarted?) && sub.queue != [] ==> sub.wakeup)
    && (sub.registered ==> sub.failures < MAX_CONSECUTIVE_FAILURES)
    && (!sub.registered ==> sub.worker.Ended? || sub.worker.Running?)
    && (sub.worker.Running? ==> sub.delivered != [] && sub.delivered[|sub.delivered| - 1] == sub.worker.ev)
  }

  lemma NextEventOk(cfg: Config, sub: Sub)
    requires |sub.queue| <= cfg.maxQueue && SuffixOf(sub.queue, sub.matched)
    requires Subsequence(sub.delivered + sub.queue, sub.matched)
    requires |sub.matched| == |sub.delivered| + sub.dropped + |sub.queue|
    requires sub.registered ==> sub.failures < MAX_CONSECUTIVE_FAILURES
    ensures SubOk(cfg, NextEvent(sub))
  {
    if sub.queue != [] {
      assert sub.delivered + [sub.queue[0]] + sub.queue[1..] == sub.delivered + sub.queue;
    }
  }

  lemma OfferOk(cfg: Config, id: SubId, sub: Sub, ev: Ev)
    requires SubOk(cfg, sub)
    ensures SubOk(cfg, Offer(cfg, id, sub, ev))
  {
    if cfg.verdict(id, ev).Match? {
      PushSuffix(sub.queue, ev, cfg.maxQueue, sub.matched);
      PushOrder(sub.delivered, sub.queue, ev, cfg.maxQueue, sub.matched);
    }
  }

  lemma EvictedOk(cfg: Config, sub: Sub)
    requires SubOk(cfg, sub)
    ensures forall failures :: SubOk(cfg, Evicted(sub.(failures := failures)))
  {
  }

  lemma CallbackOk(cfg: Config, sub: Sub, o: Outcome)
    requires SubOk(cfg, sub) && sub.worker.Running?
    ensures SubOk(cfg, AfterCallback(sub, o))
  {
    if o.Ok? {
      NextEventOk(cfg, sub.(failures := 0));
    } else if !o.Cancelled? {
      if sub.failures + 1 < MAX_CONSECUTIVE_FAILURES {
        NextEventOk(cfg, sub.(failures := sub.failures + 1));
      }
    }
  }

  lemma SubStep(cfg: Config, id: SubId, c: Central, sub: Sub, e: Event)
    requires SubOk(cfg, sub)
    requires e == Wake(id) ==> sub.worker.Parked?
    requires e.Done? && e.id == id ==> sub.worker.Running?
    ensures SubOk(cfg, SubAfter(cfg, id, c, sub, e))
  {
    if e.Drain? {
      if c.pending != [] && sub.registered {
        OfferOk(cfg, id, sub.(seen := sub.seen + [c.pending[0]]), c.pending[0]);
      }
    } else if e == Wake(id) {
      NextEventOk(cfg, sub.(wakeup := false));
    } else if e.Done? {
      if e.id == id {
        CallbackOk(cfg, sub, e.outcome);
      }
    } else {
      EvictedOk(cfg, sub);
      assert sub == sub.(failures := sub.failures);
    }
  }

  // ---- what a subscriber is sent --------------------------------------------------------------------------

  /** The events among evs that the filter of id lets through. */
  function Matches(cfg: Config, id: SubId, evs: seq<Ev>): seq<Ev> {
    if evs == [] then []
    else
      var earlier := Matches(cfg, id, evs[..|evs| - 1]);
      if cfg.verdict(id, evs[|evs| - 1]).Match? then earlier + [evs[|evs| - 1]] else earlier
  }

  /** A subscriber has seen a contiguous part of what was drained, and has matched exactly what its filter accepts. */
  ghost predicate SeenOk(cfg: Config, id: SubId, c: Central, sub: Sub) {
    && sub.since + |sub.seen| <= |c.drained|
    && (forall i :: 0 <= i < |sub.seen| ==> sub.seen[i] == c.drained[sub.since + i])
    && (sub.registered ==> sub.since + |sub.seen| == |c.drained|)
    && sub.matched == Matches(cfg, id, sub.seen)
  }

  lemma SeenMore(cfg: Config, id: SubId, c: Central, sub: Sub, ev: Ev, c': Central)
    requires SeenOk(cfg, id, c, sub) && sub.registered && c'.drained == c.drained + [ev]
    ensures SeenOk(cfg, id, c', Offer(cfg, id, sub.(seen := sub.seen + [ev]), ev))
  {
    MatchesSnoc(cfg, id, sub.seen, ev);
    OfferKeepsHistory(cfg, id, sub.(seen := sub.seen + [ev]), ev);
    SeenGrows(sub.seen, sub.since, c.drained, ev);
  }

  lemma OfferKeepsHistory(cfg: Config, id: SubId, sub: Sub, ev: Ev)
    ensures
      var after := Offer(cfg, id, sub, ev);
      && after.seen == sub.seen && after.since == sub.since
      && after.matched == if cfg.verdict(id, ev).Match? then sub.matched + [ev] else sub.matched
  {
  }

  lemma SeenGrows(seen: seq<Ev>, since: nat, drained: seq<Ev>, ev: Ev)
    requires since + |seen| == |drained| && forall i :: 0 <= i < |seen| ==> seen[i] == drained[since + i]
    ensures forall i :: 0 <= i < |seen + [ev]| ==> (seen + [ev])[i] == (drained + [ev])[since + i]
  {
  }

  lemma MatchesSnoc(cfg: Config, id: SubId, evs: seq<Ev>, ev: Ev)
    ensures Matches(cfg, id, evs + [ev]) ==
            if cfg.verdict(id, ev).Match? then Matches(cfg, id, evs) + [ev] else Matches(cfg, id, evs)
  {
    assert (evs + [ev])[..|evs|] == evs;
  }

  lemma SeenStep(cfg: Config, id: SubId, c: Central, sub: Sub, e: Event)
    requires SeenOk(cfg, id, c, sub)
    ensures SeenOk(cfg, id, CentralAfter(cfg, c, e), SubAfter(cfg, id, c, sub, e))
  {
    if e.Drain? {
      if c.pending != [] && sub.registered {
        SeenMore(cfg, id, c, sub, c.pending[0], CentralAfter(cfg, c, e));
      }
    } else {
      OthersShowNothing(cfg, id, c, sub, e);
    }
  }

  lemma OthersShowNothing(cfg: Config, id: SubId, c: Central, sub: Sub, e: Event)
    requires !e.Drain?
    ensures CentralAfter(cfg, c, e).drained == c.drained
    ensures
      var after := SubAfter(cfg, id, c, sub, e);
      && after.seen == sub.seen && after.since == sub.since && after.matched == sub.matched
      && (after.registered ==> sub.registered)
  {
  }

  ghost predicate Inv(cfg: Config, s: State) {
    && CentralOk(cfg, s.central)
    && forall id :: id in s.subs ==> SubOk(cfg, s.subs[id]) && SeenOk(cfg, id, s.central, s.subs[id])
  }

  lemma StepKeepsInv(cfg: Config, s: State, e: Event)
    requires cfg.maxPending >= 1 && Inv(cfg, s) && Enabled(s, e)
    ensures Inv(cfg, Step(cfg, s, e))
  {
    CentralStep(cfg, s.central, e);
    var s' := Step(cfg, s, e);
    forall id | id in s'.subs ensures SubOk(cfg, s'.subs[id]) && SeenOk(cfg, id, s'.central, s'.subs[id]) {
      if id in s.subs {
        SubStep(cfg, id, s.central, s.subs[id], e);
        SeenStep(cfg, id, s.central, s.subs[id], e);
      }
    }
  }

  /**
    In every run: queues stay within their bounds and hold the most recent undelivered events; every event
    is handed over, queued or counted as dropped; no worker sleeps on a non-empty queue without a wake-up;
    a subscriber is removed at its tenth failure in a row, and a removed one has a worker only as long as that is in a
    callback. What a removed one is still handed, and when one in the table has lost its worker, is said by
    `RemovedKeepsBacklog`, `RemovedIsHanded` and `WorkerDiesIff`.
   */
  lemma {:induction false} BusInvariant(cfg: Config, es: seq<Event>)
    requires cfg.maxPending >= 1 && Valid(cfg, es)
    ensures Inv(cfg, Run(cfg, es))
  {
    if es != [] {
      BusInvariant(cfg, es[..|es| - 1]);
      StepKeepsInv(cfg, Run(cfg, es[..|es| - 1]), es[|es| - 1]);
    }
  }

  lemma {:induction false} MatchesInOrder(cfg: Config, id: SubId, evs: seq<Ev>)
    ensures Subsequence(Matches(cfg, id, evs), evs)
  {
    if evs != [] {
      var init, last := evs[..|evs| - 1], evs[|evs| - 1];
      MatchesInOrder(cfg, id, init);
      assert init + [last] == evs;
      if cfg.verdict(id, last).Match? {
        SubsequenceBothGrow(Matches(cfg, id, init), init, last);
      } else {
        SubsequenceGrow(Matches(cfg, id, init), init, last);
      }
    }
  }

  lemma {:induction false} MatchesMatch(cfg: Config, id: SubId, evs: seq<Ev>, ev: Ev)
    requires ev in Matches(cfg, id, evs)
    ensures cfg.verdict(id, ev).Match?
  {
    if !(cfg.verdict(id, evs[|evs| - 1]).Match? && ev == evs[|evs| - 1]) {
      MatchesMatch(cfg, id, evs[..|evs| - 1], ev);
    }
  }

  lemma DeliveredFromDrained(cfg: Config, id: SubId, c: Central, sub: Sub)
    requires SubOk(cfg, sub) && SeenOk(cfg, id, c, sub)
    ensures Subsequence(sub.delivered, sub.matched) && Subsequence(sub.delivered, c.drained)
  {
    SubsequencePrefix(sub.delivered + sub.queue, sub.matched, |sub.delivered|);
    assert (sub.delivered + sub.queue)[..|sub.delivered|] == sub.delivered;
    MatchesInOrder(cfg, id, sub.seen);
    SubsequenceTransitive(sub.delivered, sub.matched, sub.seen);
    assert c.drained[sub.since..sub.since + |sub.seen|] == sub.seen;
    SubsequenceSlice(c.drained, sub.since, sub.since + |sub.seen|);
    SubsequenceTransitive(sub.delivered, sub.seen, c.drained);
  }

  lemma DrainedFromPublished(cfg: Config, c: Central)
    requires CentralOk(cfg, c)
    ensures Subsequence(c.drained, c.published)
  {
    SubsequencePrefix(c.drained + c.pending, c.published, |c.drained|);
    assert (c.drained + c.pending)[..|c.drained|] == c.drained;
  }

  /** What a subscriber's callback is handed is an in-order part of the matching events that were published. */
  lemma ReceivedInOrder(cfg: Config, es: seq<Event>, id: SubId)
    requires cfg.maxPending >= 1 && Valid(cfg, es) && id in Run(cfg, es).subs
    ensures var s := Run(cfg, es);
      && Subsequence(s.subs[id].delivered, s.central.published)
      && (forall ev :: ev in s.subs[id].delivered ==> cfg.verdict(id, ev).Match?)
  {
    BusInvariant(cfg, es);
    var c, sub := Run(cfg, es).central, Run(cfg, es).subs[id];
    DeliveredFromDrained(cfg, id, c, sub);
    DrainedFromPublished(cfg, c);
    SubsequenceTransitive(sub.delivered, c.drained, c.published);
    forall ev | ev in sub.delivered ensures cfg.verdict(id, ev).Match? {
      SubsequenceMember(sub.delivered, sub.matched, ev);
      MatchesMatch(cfg, id, sub.seen, ev);
    }
  }

  /** A subscriber leaves by request, by shutdown, or at its tenth failure in a row: never otherwise. */
  lemma RemovalHasACause(cfg: Config, id: SubId, c: Central, sub: Sub, e: Event)
    requires SubOk(cfg, sub) && sub.registered
    ensures !SubAfter(cfg, id, c, sub, e).registered <==>
              || e == Unsubscribe(id) || e.Shutdown?
              || SubAfter(cfg, id, c, sub, e).failures == MAX_CONSECUTIVE_FAILURES
  {
    assert sub.failures < MAX_CONSECUTIVE_FAILURES;
  }

  // ---- removed subscribers --------------------------------------------------------------------------------

  /** Subscriber id is known and removed. */
  predicate Removed(s: State, id: SubId) {
    id in s.subs && !s.subs[id].registered
  }

  /** What was and will be handed to a removed subscriber is settled, and it sees nothing new. */
  predicate KeepsBacklog(before: Sub, after: Sub) {
    && after.delivered + after.queue == before.delivered + before.queue
    && after.matched == before.matched && after.seen == before.seen
  }

  /** The callback ends without the cancellation it was sent, not on its tenth failure, and more is queued. */
  predicate Swallows(sub: Sub, id: SubId, e: Event) {
    && e.Done? && e.id == id && sub.queue != [] && !e.outcome.Cancelled?
    && (e.outcome.Ok? || sub.failures + 1 < MAX_CONSECUTIVE_FAILURES)
  }

  lemma RemovedStep(cfg: Config, id: SubId, s: State, e: Event)
    requires Removed(s, id) && SubOk(cfg, s.subs[id]) && Enabled(s, e)
    ensures Removed(Step(cfg, s, e), id) && KeepsBacklog(s.subs[id], Step(cfg, s, e).subs[id])
    ensures |Step(cfg, s, e).subs[id].delivered| ==
            |s.subs[id].delivered| + if Swallows(s.subs[id], id, e) then 1 else 0
  {
    var sub := s.subs[id];
    if e.Done? && e.id == id && sub.queue != [] {
      assert sub.delivered + [sub.queue[0]] + sub.queue[1..] == sub.delivered + sub.queue;
    }
  }

  lemma RemovedInRun(cfg: Config, es: seq<Event>, id: SubId)
    requires cfg.maxPending >= 1 && Valid(cfg, es) && es != [] && Removed(Run(cfg, es[..|es| - 1]), id)
    ensures
      var before, after, e := Run(cfg, es[..|es| - 1]), Run(cfg, es), es[|es| - 1];
      && Removed(after, id) && KeepsBacklog(before.subs[id], after.subs[id])
      && |after.subs[id].delivered| == |before.subs[id].delivered| + if Swallows(before.subs[id], id, e) then 1 else 0
  {
    BusInvariant(cfg, es[..|es| - 1]);
    RemovedStep(cfg, id, Run(cfg, es[..|es| - 1]), es[|es| - 1]);
  }

  /** A removed subscriber gets nothing new: it is handed no more than the queue it had, in its order. */
  lemma {:induction false} RemovedKeepsBacklog(cfg: Config, es: seq<Event>, n: nat, id: SubId)
    requires cfg.maxPending >= 1 && Valid(cfg, es) && n <= |es| && Removed(Run(cfg, es[..n]), id)
    ensures Removed(Run(cfg, es), id) && KeepsBacklog(Run(cfg, es[..n]).subs[id], Run(cfg, es).subs[id])
  {
    if n == |es| {
      assert es[..n] == es;
    } else {
      assert es[..|es| - 1][..n] == es[..n];
      RemovedKeepsBacklog(cfg, es[..|es| - 1], n, id);
      RemovedInRun(cfg, es, id);
    }
  }

  /** How often a callback of id did so after the first n events. */
  function Swallowed(cfg: Config, es: seq<Event>, n: nat, id: SubId): nat
    requires n <= |es|
  {
    if n == |es| then 0
    else
      var pre, e := es[..|es| - 1], es[|es| - 1];
      var swallowed := id in Run(cfg, pre).subs && Swallows(Run(cfg, pre).subs[id], id, e);
      Swallowed(cfg, pre, n, id) + if swallowed then 1 else 0
  }

  /** A removed subscriber is handed exactly one more event for every cancellation its callback swallows. */
  lemma {:induction false} RemovedIsHanded(cfg: Config, es: seq<Event>, n: nat, id: SubId)
    requires cfg.maxPending >= 1 && Valid(cfg, es) && n <= |es| && Removed(Run(cfg, es[..n]), id)
    ensures
      && Removed(Run(cfg, es), id)
      && |Run(cfg, es).subs[id].delivered| == |Run(cfg, es[..n]).subs[id].delivered| + Swallowed(cfg, es, n, id)
  {
    if n == |es| {
      assert es[..n] == es;
    } else {
      assert es[..|es| - 1][..n] == es[..n];
      RemovedIsHanded(cfg, es[..|es| - 1], n, id);
      RemovedInRun(cfg, es, id);
    }
  }

  // ---- subscribers without a worker -----------------------------------------------------------------------

  /** Some callback of id ended in a CancelledError of its own. */
  predicate CallbackCancelled(es: seq<Event>, id: SubId) {
    es != [] && (es[|es| - 1] == Done(id, Cancelled) || CallbackCancelled(es[..|es| - 1], id))
  }

  lemma {:induction false} OnlySubscribersCancel(cfg: Config, es: seq<Event>, id: SubId)
    requires Valid(cfg, es) && CallbackCancelled(es, id)
    ensures id in Run(cfg, es).subs
  {
    if es[|es| - 1] != Done(id, Cancelled) {
      OnlySubscribersCancel(cfg, es[..|es| - 1], id);
    }
  }

  lemma WorkerStep(cfg: Config, id: SubId, c: Central, sub: Sub, e: Event)
    requires SubAfter(cfg, id, c, sub, e).registered
    requires e == Wake(id) ==> sub.worker.Parked?
    requires e.Done? && e.id == id ==> sub.worker.Running?
    ensures sub.registered
    ensures SubAfter(cfg, id, c, sub, e).worker.Ended? <==> sub.worker.Ended? || e == Done(id, Cancelled)
  {
  }

  /** A subscriber in the table has lost its worker if and only if one of its callbacks ended in a CancelledError. */
  lemma {:induction false} WorkerDiesIff(cfg: Config, es: seq<Event>, id: SubId)
    requires Valid(cfg, es) && id in Run(cfg, es).subs && Run(cfg, es).subs[id].registered
    ensures Run(cfg, es).subs[id].worker.Ended? <==> CallbackCancelled(es, id)
  {
    var pre, e := es[..|es| - 1], es[|es| - 1];
    var s := Run(cfg, pre);
    if id in s.subs {
      WorkerStep(cfg, id, s.central, s.subs[id], e);
      WorkerDiesIff(cfg, pre, id);
    } else if CallbackCancelled(pre, id) {
      OnlySubscribersCancel(cfg, pre, id);
      assert false;
    }
  }

  /** From then on nothing is handed to it any more. */
  lemma {:induction false} DeadWorkerDeliversNothing(cfg: Config, es: seq<Event>, n: nat, id: SubId)
    requires Valid(cfg, es) && n <= |es| && Valid(cfg, es[..n])
    requires id in Run(cfg, es[..n]).subs && Run(cfg, es[..n]).subs[id].worker.Ended?
    ensures
      var subs := Run(cfg, es).subs;
      id in subs && subs[id].worker.Ended? && subs[id].delivered == Run(cfg, es[..n]).subs[id].delivered
  {
    if n == |es| {
      assert es[..n] == es;
    } else {
      assert es[..|es| - 1][..n] == es[..n];
      DeadWorkerDeliversNothing(cfg, es[..|es| - 1], n, id);
      DeadStep(cfg, id, Run(cfg, es[..|es| - 1]), es[|es| - 1]);
    }
  }

  lemma DeadStep(cfg: Config, id: SubId, s: State, e: Event)
    requires id in s.subs && s.subs[id].worker.Ended? && Enabled(s, e)
    ensures
      var subs := Step(cfg, s, e).subs;
      id in subs && subs[id].worker.Ended? && subs[id].delivered == s.subs[id].delivered
  {
  }

  const PUBLISHED := [Start, Subscribe(0), Publish(7)]
  const CANCELLING := PUBLISHED + [Drain] + [Wake(0)] + [Done(0, Cancelled)]

  lemma Snoc(cfg: Config, es: seq<Event>, e: Event)
    ensures Run(cfg, es + [e]) == Step(cfg, Run(cfg, es), e)
    ensures Valid(cfg, es + [e]) <==> Valid(cfg, es) && Enabled(Run(cfg, es), e)
  {
    assert (es + [e])[..|es|] == es;
  }

  lemma AfterPublished(cfg: Config)
    requires cfg.maxPending >= 1
    ensures
      var s := Run(cfg, PUBLISHED);
      && Valid(cfg, PUBLISHED) && s.central.running && s.central.pending == [7]
      && 0 in s.subs && s.subs[0] == Sub(true, Parked, false, [], 0, 0, 0, [], [], [])
  {
    Snoc(cfg, [], Start);
    Snoc(cfg, [Start], Subscribe(0));
    Snoc(cfg, [Start, Subscribe(0)], Publish(7));
    assert [] + [Start] == [Start] && [Start] + [Subscribe(0)] == [Start, Subscribe(0)];
    assert [Start, Subscribe(0)] + [Publish(7)] == PUBLISHED;
  }

  lemma AfterOffered(cfg: Config)
    requires cfg.maxPending >= 1 && cfg.maxQueue >= 1 && cfg.verdict(0, 7).Match?
    ensures
      var s := Run(cfg, PUBLISHED + [Drain]);
      && Valid(cfg, PUBLISHED + [Drain]) && 0 in s.subs
      && s.subs[0].registered && s.subs[0].worker.Parked? && s.subs[0].wakeup && s.subs[0].queue == [7]
  {
    AfterPublished(cfg);
    Snoc(cfg, PUBLISHED, Drain);
  }

  /** The run that shows it: the only callback is cancelled, and its subscriber stays in the table without a worker. */
  lemma CancelledCallbackStrandsSubscriber(cfg: Config)
    requires cfg.maxPending >= 1 && cfg.maxQueue >= 1 && cfg.verdict(0, 7).Match?
    ensures
      var s := Run(cfg, CANCELLING);
      Valid(cfg, CANCELLING) && 0 in s.subs && s.subs[0].registered && s.subs[0].worker.Ended?
  {
    AfterOffered(cfg);
    Snoc(cfg, PUBLISHED + [Drain], Wake(0));
    Snoc(cfg, PUBLISHED + [Drain] + [Wake(0)], Done(0, Cancelled));
  }
}
