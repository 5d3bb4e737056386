/**
  The event bus read off the events of a run (daemon/event_bus.py): what is published and drained, which failures
  stand in a row, who is removed for them, and what every subscriber is handed. No definition here looks at the state
  of the bus.
 */
module BusHistory {
  import opened Sequences
  import opened EventBus

  /** The last n entries: what a bounded queue keeps that gives up its oldest. */
  function Newest(n: nat, s: seq<Ev>): seq<Ev> {
    if |s| > n then s[|s| - n..] else s
  }

  lemma PushKeepsNewest(queue: seq<Ev>, ev: Ev, bound: nat)
    requires |queue| <= bound
    ensures Push(queue, ev, bound) == Newest(bound, queue + [ev])
  {
  }

  // ---- the central queue ----------------------------------------------------------------------------------

  /** The bus has been started and not been shut down since. */
  predicate Up(es: seq<Event>) {
    es != [] && (es[|es| - 1].Start? || (!es[|es| - 1].Shutdown? && Up(es[..|es| - 1])))
  }

  function PublishedOf(es: seq<Event>): seq<Ev> {
    if es == [] then []
    else
      var front, e := es[..|es| - 1], es[|es| - 1];
      if e.Publish? && Up(front) then PublishedOf(front) + [e.ev] else PublishedOf(front)
  }

  function PendingOf(cfg: Config, es: seq<Event>): seq<Ev> {
    if es == [] then []
    else
      var front, e := es[..|es| - 1], es[|es| - 1];
      var before := PendingOf(cfg, front);
      if e.Publish? && Up(front) then Newest(cfg.maxPending, before + [e.ev])
      else if e.Drain? && before != [] then before[1..]
      else before
  }

  /** The event that the last step drains. */
  function DrainedNow(cfg: Config, es: seq<Event>): Option<Ev> {
    if es == [] || !es[|es| - 1].Drain? then None
    else
      var pending := PendingOf(cfg, es[..|es| - 1]);
      if pending == [] then None else Some(pending[0])
  }

  function DrainedOf(cfg: Config, es: seq<Event>): seq<Ev> {
    if es == [] then []
    else
      var before, now := DrainedOf(cfg, es[..|es| - 1]), DrainedNow(cfg, es);
      if now.Some? then before + [now.value] else before
  }

  lemma {:induction false} QueueIsExact(cfg: Config, es: seq<Event>)
    requires cfg.maxPending >= 1 && Valid(cfg, es)
    ensures
      var c := Run(cfg, es).central;
      && (c.running <==> Up(es)) && c.published == PublishedOf(es)
      && c.pending == PendingOf(cfg, es) && c.drained == DrainedOf(cfg, es)
  {
    if es != [] {
      var front := es[..|es| - 1];
      QueueIsExact(cfg, front);
      BusInvariant(cfg, front);
      QueueStep(cfg, Run(cfg, front).central, es[|es| - 1]);
    }
  }

  /** What was published while the bus was up is drained in order, but for the oldest of a full queue. */
  lemma CentralIsExact(cfg: Config, es: seq<Event>)
    requires cfg.maxPending >= 1 && Valid(cfg, es)
    ensures
      var c := Run(cfg, es).central;
      && (c.running <==> Up(es)) && c.published == PublishedOf(es)
      && c.pending == PendingOf(cfg, es) && c.drained == DrainedOf(cfg, es)
      && c.dropped == |PublishedOf(es)| - |DrainedOf(cfg, es)| - |PendingOf(cfg, es)|
  {
    BusInvariant(cfg, es);
    QueueIsExact(cfg, es);
  }

  lemma QueueStep(cfg: Config, c: Central, e: Event)
    requires |c.pending| <= cfg.maxPending
    ensures
      var after, taken := CentralAfter(cfg, c, e), e.Drain? && c.pending != [];
      && (after.running <==> e.Start? || (!e.Shutdown? && c.running))
      && after.published == (if e.Publish? && c.running then c.published + [e.ev] else c.published)
      && after.pending == (if e.Publish? && c.running then Newest(cfg.maxPending, c.pending + [e.ev])
                           else if taken then c.pending[1..] else c.pending)
      && after.drained == (if taken then c.drained + [c.pending[0]] else c.drained)
  {
    if e.Publish? {
      PushKeepsNewest(c.pending, e.ev, cfg.maxPending);
    }
  }

  // ---- failures in a row ----------------------------------------------------------------------------------

  /** The filter of a subscriber in the table raises on the event that is drained. */
  predicate FilterRaises(cfg: Config, es: seq<Event>, id: SubId)
    decreases |es|, 0
  {
    es != [] && DrainedNow(cfg, es).Some? && Member(cfg, es[..|es| - 1], id)
    && cfg.verdict(id, DrainedNow(cfg, es).value).Raises?
  }

  predicate CallbackFails(es: seq<Event>, id: SubId) {
    es != [] && (es[|es| - 1] == Done(id, Error) || es[|es| - 1] == Done(id, Timeout))
  }

  /** The failing callbacks and filters of id since its last callback that returned. */
  function FailuresInRow(cfg: Config, es: seq<Event>, id: SubId): nat
    decreases |es|, 1
  {
    if es == [] then 0
    else
      var e := es[|es| - 1];
      if e == Subscribe(id) || e == Done(id, Ok) then 0
      else
        FailuresInRow(cfg, es[..|es| - 1], id)
        + if CallbackFails(es, id) || FilterRaises(cfg, es, id) then 1 else 0
  }

  /** The last event is a failure of id, and at least the tenth in a row. */
  predicate FailsTooOften(cfg: Config, es: seq<Event>, id: SubId)
    decreases |es|, 2
  {
    (CallbackFails(es, id) || FilterRaises(cfg, es, id)) && FailuresInRow(cfg, es, id) >= 10
  }

  /** The subscriber is in the table. */
  predicate Member(cfg: Config, es: seq<Event>, id: SubId)
    decreases |es|, 3
  {
    es != [] &&
    var e := es[|es| - 1];
    if e == Subscribe(id) then true
    else
      e != Unsubscribe(id) && !e.Shutdown? && !FailsTooOften(cfg, es, id) && Member(cfg, es[..|es| - 1], id)
  }

  lemma FailureStep(cfg: Config, id: SubId, c: Central, sub: Sub, e: Event)
    ensures
      var after := SubAfter(cfg, id, c, sub, e);
      var raises := e.Drain? && c.pending != [] && sub.registered && cfg.verdict(id, c.pending[0]).Raises?;
      var fails := e == Done(id, Error) || e == Done(id, Timeout) || raises;
      && after.failures == (if e == Done(id, Ok) then 0 else sub.failures + if fails then 1 else 0)
      && (after.registered <==>
            sub.registered && e != Unsubscribe(id) && !e.Shutdown? && !(fails && after.failures >= 10))
  {
  }

  lemma RaisesIsExact(cfg: Config, es: seq<Event>, id: SubId, sub: Sub)
    requires cfg.maxPending >= 1 && Valid(cfg, es) && es != []
    requires sub.registered <==> Member(cfg, es[..|es| - 1], id)
    ensures
      var c := Run(cfg, es[..|es| - 1]).central;
      FilterRaises(cfg, es, id) <==>
        es[|es| - 1].Drain? && c.pending != [] && sub.registered && cfg.verdict(id, c.pending[0]).Raises?
  {
    CentralIsExact(cfg, es[..|es| - 1]);
  }

  lemma InRowStep(cfg: Config, es: seq<Event>, id: SubId)
    requires es != [] && es[|es| - 1] != Subscribe(id)
    ensures
      var front, e, fails := es[..|es| - 1], es[|es| - 1], CallbackFails(es, id) || FilterRaises(cfg, es, id);
      var now := if e == Done(id, Ok) then 0 else FailuresInRow(cfg, front, id) + if fails then 1 else 0;
      && FailuresInRow(cfg, es, id) == now
      && (Member(cfg, es, id) <==>
            e != Unsubscribe(id) && !e.Shutdown? && !(fails && now >= 10) && Member(cfg, front, id))
  {
  }

  /** The count a subscriber is judged by is the number of its failures in a row, and it is in the table accordingly. */
  lemma {:induction false} FailuresAreInRow(cfg: Config, es: seq<Event>, id: SubId)
    requires cfg.maxPending >= 1 && Valid(cfg, es) && id in Run(cfg, es).subs
    ensures Run(cfg, es).subs[id].failures == FailuresInRow(cfg, es, id)
    ensures Run(cfg, es).subs[id].registered <==> Member(cfg, es, id)
  {
    var front, e := es[..|es| - 1], es[|es| - 1];
    var s := Run(cfg, front);
    if id in s.subs {
      FailuresAreInRow(cfg, front, id);
      RaisesIsExact(cfg, es, id, s.subs[id]);
      InRowStep(cfg, es, id);
      FailureStep(cfg, id, s.central, s.subs[id], e);
    }
  }

  /** A subscriber is removed for its failures if and only if ten of them stand with no success in between. */
  lemma RemovedForFailuresIff(cfg: Config, es: seq<Event>, id: SubId)
    requires cfg.maxPending >= 1 && Valid(cfg, es) && es != [] && !es[|es| - 1].Shutdown?
    requires es[|es| - 1] != Unsubscribe(id)
    requires id in Run(cfg, es[..|es| - 1]).subs && Run(cfg, es[..|es| - 1]).subs[id].registered
    ensures id in Run(cfg, es).subs
    ensures !Run(cfg, es).subs[id].registered <==> FailuresInRow(cfg, es, id) == 10
  {
    var front := es[..|es| - 1];
    FailuresAreInRow(cfg, front, id);
    FailuresAreInRow(cfg, es, id);
    BusInvariant(cfg, front);
  }

  // ---- what a subscriber is handed ------------------------------------------------------------------------

  /** The event that the last step puts into the queue of id. */
  function MatchedNow(cfg: Config, es: seq<Event>, id: SubId): Option<Ev> {
    if es == [] then None
    else
      var now := DrainedNow(cfg, es);
      if now.Some? && Member(cfg, es[..|es| - 1], id) && cfg.verdict(id, now.value).Match? then now else None
  }

  /** The worker of id looks for its next event: it wakes up, or its callback has ended and it is not done with. */
  predicate GoesOn(cfg: Config, es: seq<Event>, id: SubId) {
    es != [] &&
    (es[|es| - 1] == Wake(id) || es[|es| - 1] == Done(id, Ok)
     || (CallbackFails(es, id) && FailuresInRow(cfg, es, id) < 10))
  }

  function BacklogOf(cfg: Config, es: seq<Event>, id: SubId): seq<Ev> {
    if es == [] || es[|es| - 1] == Subscribe(id) then []
    else
      var before := BacklogOf(cfg, es[..|es| - 1], id);
      if MatchedNow(cfg, es, id).Some? then Newest(cfg.maxQueue, before + [MatchedNow(cfg, es, id).value])
      else if GoesOn(cfg, es, id) && before != [] then before[1..]
      else before
  }

  /** The event that the last step hands to the callback of id. */
  function HandedNow(cfg: Config, es: seq<Event>, id: SubId): Option<Ev> {
    if !GoesOn(cfg, es, id) || BacklogOf(cfg, es[..|es| - 1], id) == [] then None
    else Some(BacklogOf(cfg, es[..|es| - 1], id)[0])
  }

  function HandedOf(cfg: Config, es: seq<Event>, id: SubId): seq<Ev> {
    if es == [] || es[|es| - 1] == Subscribe(id) then []
    else
      var before := HandedOf(cfg, es[..|es| - 1], id);
      if HandedNow(cfg, es, id).Some? then before + [HandedNow(cfg, es, id).value] else before
  }

  /** The event the callback of id is busy with. */
  function InCallback(cfg: Config, es: seq<Event>, id: SubId): Option<Ev> {
    if es == [] || es[|es| - 1] == Subscribe(id) then None
    else
      var e := es[|es| - 1];
      if e == Wake(id) || (e.Done? && e.id == id) then HandedNow(cfg, es, id)
      else InCallback(cfg, es[..|es| - 1], id)
  }

  function BusyWith(w: Worker): Option<Ev> {
    if w.Running? then Some(w.ev) else None
  }

  function MatchIn(cfg: Config, id: SubId, c: Central, sub: Sub, e: Event): Option<Ev> {
    if e.Drain? && c.pending != [] && sub.registered && cfg.verdict(id, c.pending[0]).Match? then Some(c.pending[0])
    else None
  }

  lemma HandStep(cfg: Config, id: SubId, c: Central, sub: Sub, e: Event, matched: Option<Ev>, goesOn: bool)
    requires |sub.queue| <= cfg.maxQueue && matched == MatchIn(cfg, id, c, sub, e)
    requires e == Wake(id) ==> sub.worker.Parked?
    requires e.Done? && e.id == id ==> sub.worker.Running?
    requires goesOn <==> e == Wake(id) || e == Done(id, Ok)
                         || ((e == Done(id, Error) || e == Done(id, Timeout)) && sub.failures + 1 < 10)
    ensures
      var after := SubAfter(cfg, id, c, sub, e);
      var handed := if goesOn && sub.queue != [] then Some(sub.queue[0]) else None;
      && after.queue == (if matched.Some? then Newest(cfg.maxQueue, sub.queue + [matched.value])
                         else if handed.Some? then sub.queue[1..] else sub.queue)
      && after.delivered == sub.delivered + (if handed.Some? then [handed.value] else [])
      && BusyWith(after.worker) == (if e == Wake(id) || (e.Done? && e.id == id) then handed else BusyWith(sub.worker))
  {
    if e.Drain? && c.pending != [] {
      PushKeepsNewest(sub.queue, c.pending[0], cfg.maxQueue);
    }
  }

  lemma MatchIsExact(cfg: Config, es: seq<Event>, id: SubId, sub: Sub)
    requires cfg.maxPending >= 1 && Valid(cfg, es) && es != []
    requires sub.registered <==> Member(cfg, es[..|es| - 1], id)
    ensures MatchedNow(cfg, es, id) == MatchIn(cfg, id, Run(cfg, es[..|es| - 1]).central, sub, es[|es| - 1])
  {
    CentralIsExact(cfg, es[..|es| - 1]);
  }

  lemma GoesOnIsExact(cfg: Config, es: seq<Event>, id: SubId, failures: nat)
    requires es != [] && failures == FailuresInRow(cfg, es[..|es| - 1], id)
    ensures
      var e := es[|es| - 1];
      GoesOn(cfg, es, id) <==> e == Wake(id) || e == Done(id, Ok)
                               || ((e == Done(id, Error) || e == Done(id, Timeout)) && failures + 1 < 10)
  {
    if CallbackFails(es, id) {
      InRowStep(cfg, es, id);
    }
  }

  /** The three readings after a step, given those before it. */
  lemma ReadingStep(cfg: Config, es: seq<Event>, id: SubId)
    requires es != [] && es[|es| - 1] != Subscribe(id)
    ensures
      var front, e, matched := es[..|es| - 1], es[|es| - 1], MatchedNow(cfg, es, id);
      var queue := BacklogOf(cfg, front, id);
      var handed := if GoesOn(cfg, es, id) && queue != [] then Some(queue[0]) else None;
      && BacklogOf(cfg, es, id) == (if matched.Some? then Newest(cfg.maxQueue, queue + [matched.value])
                                    else if handed.Some? then queue[1..] else queue)
      && HandedOf(cfg, es, id) == HandedOf(cfg, front, id) + (if handed.Some? then [handed.value] else [])
      && InCallback(cfg, es, id) ==
           (if e == Wake(id) || (e.Done? && e.id == id) then handed else InCallback(cfg, front, id))
  {
  }

  ghost predicate HandedAs(sub: Sub, cfg: Config, es: seq<Event>, id: SubId) {
    && sub.queue == BacklogOf(cfg, es, id) && sub.delivered == HandedOf(cfg, es, id)
    && BusyWith(sub.worker) == InCallback(cfg, es, id)
  }

  /** Every subscriber is handed exactly what the events call for, and nothing of it is held back. */
  lemma {:induction false} HandedIsExact(cfg: Config, es: seq<Event>, id: SubId)
    requires cfg.maxPending >= 1 && Valid(cfg, es) && id in Run(cfg, es).subs
    ensures HandedAs(Run(cfg, es).subs[id], cfg, es, id)
  {
    var front, e := es[..|es| - 1], es[|es| - 1];
    var s := Run(cfg, front);
    if id in s.subs {
      HandedIsExact(cfg, front, id);
      HandedInStep(cfg, es, id);
    }
  }

  lemma HandedInStep(cfg: Config, es: seq<Event>, id: SubId)
    requires cfg.maxPending >= 1 && Valid(cfg, es) && es != []
    requires id in Run(cfg, es[..|es| - 1]).subs
    requires HandedAs(Run(cfg, es[..|es| - 1]).subs[id], cfg, es[..|es| - 1], id)
    ensures id in Run(cfg, es).subs && HandedAs(Run(cfg, es).subs[id], cfg, es, id)
  {
    var front, e := es[..|es| - 1], es[|es| - 1];
    var s := Run(cfg, front);
    FailuresAreInRow(cfg, front, id);
    BusInvariant(cfg, front);
    MatchIsExact(cfg, es, id, s.subs[id]);
    GoesOnIsExact(cfg, es, id, s.subs[id].failures);
    HandedBySteps(cfg, es, id, s.central, s.subs[id]);
  }

  lemma HandedBySteps(cfg: Config, es: seq<Event>, id: SubId, c: Central, sub: Sub)
    requires es != [] && es[|es| - 1] != Subscribe(id) && HandedAs(sub, cfg, es[..|es| - 1], id)
    requires |sub.queue| <= cfg.maxQueue && MatchedNow(cfg, es, id) == MatchIn(cfg, id, c, sub, es[|es| - 1])
    requires es[|es| - 1] == Wake(id) ==> sub.worker.Parked?
    requires es[|es| - 1].Done? && es[|es| - 1].id == id ==> sub.worker.Running?
    requires
      var e := es[|es| - 1];
      GoesOn(cfg, es, id) <==> e == Wake(id) || e == Done(id, Ok)
                               || ((e == Done(id, Error) || e == Done(id, Timeout)) && sub.failures + 1 < 10)
    ensures HandedAs(SubAfter(cfg, id, c, sub, es[|es| - 1]), cfg, es, id)
  {
    ReadingStep(cfg, es, id);
    HandStep(cfg, id, c, sub, es[|es| - 1], MatchedNow(cfg, es, id), GoesOn(cfg, es, id));
  }

  /** Nothing of what id matched has come since its worker last looked. */
  predicate WakeupOf(cfg: Config, es: seq<Event>, id: SubId) {
    es != [] && es[|es| - 1] != Subscribe(id) && es[|es| - 1] != Wake(id)
    && (MatchedNow(cfg, es, id).Some? || WakeupOf(cfg, es[..|es| - 1], id))
  }

  /** The bus was down when id subscribed and has not been started since. */
  predicate Unstarted(es: seq<Event>, id: SubId) {
    es != [] && !es[|es| - 1].Start? &&
    if es[|es| - 1] == Subscribe(id) then !Up(es[..|es| - 1]) else Unstarted(es[..|es| - 1], id)
  }

  lemma WakeupStep(cfg: Config, id: SubId, c: Central, sub: Sub, e: Event)
    requires (e == Wake(id) ==> sub.worker.Parked?) && (e.Done? && e.id == id ==> sub.worker.Running?)
    ensures
      var after := SubAfter(cfg, id, c, sub, e);
      && (after.wakeup <==> e != Wake(id) && (MatchIn(cfg, id, c, sub, e).Some? || sub.wakeup))
      && (after.registered ==> (after.worker.NotStarted? <==> sub.worker.NotStarted? && !(e.Start? && !c.running)))
  {
  }

  /** A wake-up is pending exactly when something has matched since the worker last looked. */
  lemma {:induction false} WakeupsAreExact(cfg: Config, es: seq<Event>, id: SubId)
    requires cfg.maxPending >= 1 && Valid(cfg, es) && id in Run(cfg, es).subs
    ensures Run(cfg, es).subs[id].wakeup <==> WakeupOf(cfg, es, id)
  {
    var front, e := es[..|es| - 1], es[|es| - 1];
    var s := Run(cfg, front);
    if id in s.subs {
      WakeupsAreExact(cfg, front, id);
      FailuresAreInRow(cfg, front, id);
      MatchIsExact(cfg, es, id, s.subs[id]);
      WakeupStep(cfg, id, s.central, s.subs[id], e);
    }
  }

  /** A subscriber in the table has no worker yet exactly as long as the bus has not been up since it subscribed. */
  lemma {:induction false} WorkersAreStarted(cfg: Config, es: seq<Event>, id: SubId)
    requires cfg.maxPending >= 1 && Valid(cfg, es) && id in Run(cfg, es).subs
    ensures
      Run(cfg, es).subs[id].registered ==>
        && (Run(cfg, es).subs[id].worker.NotStarted? <==> Unstarted(es, id))
        && (Unstarted(es, id) ==> !Up(es))
  {
    var front, e := es[..|es| - 1], es[|es| - 1];
    var s := Run(cfg, front);
    CentralIsExact(cfg, front);
    if id in s.subs {
      WorkersAreStarted(cfg, front, id);
      WakeupStep(cfg, id, s.central, s.subs[id], e);
      FailureStep(cfg, id, s.central, s.subs[id], e);
    }
  }
}
