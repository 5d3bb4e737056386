/**
  The ordered, acknowledged checkpoint writer (daemon/checkpoint_writer.py).

  A payload is a full snapshot of a job and is represented by its version number. Producers, the helper
  tasks of `write_and_wait`, the single consumer and `stop` interleave only at suspension points, so each
  method of `Writer` is one atomic step and a run is a sequence of `Event`s. The state keeps a history next
  to the fields of the source: what was handed to the registry, what the registry stores, and in which
  order acknowledged requests entered the queue.
 */
module CheckpointWriter {
  import opened Sequences

  type JobId = nat
  type Ticket = nat    // one call of write_and_wait
  type Version = nat

  datatype Item =
    | Token(job: JobId)                                      // write the latest snapshot of job
    | Ack(ticket: Ticket, job: JobId, version: Version)      // write exactly this snapshot

  datatype Outcome = Pending | Saved | Failed | Cancelled    // the future of a ticket

  datatype PutTask = InFlight | Landed | Dropped               // the helper task putting the request

  /** A write_and_wait call before it awaits its future; `collecting` once it is in its finally block. */
  datatype Admission = Admission(put: PutTask, collecting: bool)

  datatype Consumer = Off | Idle | Saving(job: JobId, version: Version, ticket: Option<Ticket>)

  datatype StopPhase = NotStopping | AwaitingIdle | AwaitingDrain

  datatype Save = Save(job: JobId, version: Version, ticket: Option<Ticket>)

  /** The queue, the coalescing table and the consumer, with the history of what they wrote. */
  datatype Line = Line(
    queue: seq<Item>,
    unfinished: int,
    latest: map<JobId, Version>,
    consumer: Consumer,
    entered: seq<Ticket>,
    handed: seq<Save>,
    saved: seq<Save>)

  /** The calls of write_and_wait: helper tasks, futures and what each call asked for. */
  datatype Calls = Calls(
    active: int,
    idle: bool,
    admissions: map<Ticket, Admission>,
    futures: map<Ticket, Outcome>,
    requests: map<Ticket, Item>)

  datatype Mode = Mode(accepting: bool, stop: StopPhase, stopRequested: bool)

  /** `newest` is the version of the last snapshot accepted for each job. */
  datatype State = State(line: Line, calls: Calls, mode: Mode, newest: map<JobId, Version>)

  datatype Event =
    | Start
    | Enqueue(job: JobId, version: Version)
    | WriteAndWait(ticket: Ticket, job: JobId, version: Version)
    | Put(ticket: Ticket)                     // the helper task of ticket puts its request
    | Resume(ticket: Ticket, sawStop: bool)   // asyncio.wait returns in write_and_wait
    | Collected(ticket: Ticket)               // the finally block of write_and_wait ends
    | CancelCaller(ticket: Ticket)
    | Take                                    // the consumer gets an item and calls save_checkpoint
    | SaveDone(ok: bool)
    | Stop
    | AbortStop                               // stop() is cancelled while waiting for admissions
    | StopConsumer
    | FinishStop

  const EMPTY_LINE := Line([], 0, map[], Off, [], [], [])
  const NO_CALLS := Calls(0, true, map[], map[], map[])
  const INIT := State(EMPTY_LINE, NO_CALLS, Mode(false, NotStopping, false), map[])

  // ---- the queue and its consumer -------------------------------------------------------------------------

  /** asyncio.Queue treats a bound that is not positive as no bound. */
  predicate Full(line: Line, maxQueue: int) {
    maxQueue > 0 && |line.queue| >= maxQueue
  }

  function Append(line: Line, item: Item): Line {
    line.(queue := line.queue + [item], unfinished := line.unfinished + 1)
  }

  function Record(line: Line, maxQueue: int, j: JobId, v: Version): Line {
    var recorded := line.(latest := line.latest[j := v]);
    if Full(line, maxQueue) then recorded else Append(recorded, Token(j))
  }

  function TakeItem(line: Line): Line
    requires line.queue != []
  {
    var rest := line.(queue := line.queue[1..]);
    match line.queue[0]
    case Token(j) =>
      if j in line.latest then
        rest.(latest := line.latest - {j},
              consumer := Saving(j, line.latest[j], None),
              handed := line.handed + [Save(j, line.latest[j], None)])
      else
        rest.(unfinished := line.unfinished - 1)
    case Ack(t, j, v) =>
      rest.(consumer := Saving(j, v, Some(t)), handed := line.handed + [Save(j, v, Some(t))])
  }

  function InHand(c: Consumer): Save
    requires c.Saving?
  {
    Save(c.job, c.version, c.ticket)
  }

  function FinishSave(line: Line, ok: bool): Line
    requires line.consumer.Saving?
  {
    line.(consumer := Idle,
          unfinished := line.unfinished - 1,
          saved := if ok then line.saved + [InHand(line.consumer)] else line.saved)
  }

  function CancelConsumer(line: Line): Line {
    line.(consumer := Off, unfinished := if line.consumer.Saving? then line.unfinished - 1 else line.unfinished)
  }

  function Discard(line: Line): Line {
    line.(queue := [], unfinished := line.unfinished - |line.queue|)
  }

  // ---- the calls of write_and_wait ------------------------------------------------------------------------

  predicate Flying(calls: Calls, t: Ticket) {
    t in calls.admissions && calls.admissions[t].put.InFlight?
  }

  function Open(calls: Calls, t: Ticket, item: Item): Calls {
    Calls(calls.active + 1, false, calls.admissions[t := Admission(InFlight, false)],
          calls.futures[t := Pending], calls.requests[t := item])
  }

  function Advance(calls: Calls, t: Ticket, a: Admission): Calls {
    calls.(admissions := calls.admissions[t := a])
  }

  function Settle(calls: Calls, t: Ticket, o: Outcome): Calls {
    if t in calls.futures && calls.futures[t].Pending? then calls.(futures := calls.futures[t := o]) else calls
  }

  function SettleAll(calls: Calls, items: seq<Item>): Calls {
    if items == [] then calls
    else
      var rest := SettleAll(calls, items[..|items| - 1]);
      var last := items[|items| - 1];
      if last.Ack? then Settle(rest, last.ticket, Cancelled) else rest
  }

  lemma SettleAllSnoc(calls: Calls, items: seq<Item>, i: nat)
    requires i < |items|
    ensures
      var before := SettleAll(calls, items[..i]);
      SettleAll(calls, items[..i + 1]) == if items[i].Ack? then Settle(before, items[i].ticket, Cancelled) else before
  {
    assert items[..i + 1][..i] == items[..i];
  }

  function SettleTaken(calls: Calls, consumer: Consumer, o: Outcome): Calls {
    if consumer.Saving? && consumer.ticket.Some? then Settle(calls, consumer.ticket.value, o) else calls
  }

  /** The caller is cancelled or sees the stop: the put is abandoned unless it landed, the future cancelled. */
  function GiveUp(calls: Calls, t: Ticket): Calls
    requires t in calls.admissions
  {
    var put := calls.admissions[t].put;
    Settle(Advance(calls, t, Admission(if put.InFlight? then Dropped else put, true)), t, Cancelled)
  }

  function Close(calls: Calls, t: Ticket): Calls {
    calls.(admissions := calls.admissions - {t},
           active := calls.active - 1,
           idle := calls.idle || calls.active - 1 == 0)
  }

  // ---- runs -----------------------------------------------------------------------------------------------

  predicate Enabled(maxQueue: int, s: State, e: Event) {
    match e
    case WriteAndWait(t, _, _) => t !in s.calls.futures
    case Put(t) => Flying(s.calls, t) && t in s.calls.requests && !Full(s.line, maxQueue)
    case Resume(t, sawStop) =>
      && t in s.calls.admissions && !s.calls.admissions[t].collecting
      && (if sawStop then s.mode.stopRequested else s.calls.admissions[t].put.Landed?)
    case Collected(t) => t in s.calls.admissions && s.calls.admissions[t].collecting
    case CancelCaller(t) => t in s.calls.futures
    case Take => s.line.consumer.Idle? && s.line.queue != []
    case SaveDone(_) => s.line.consumer.Saving?
    case AbortStop => s.mode.stop.AwaitingIdle?
    case StopConsumer => s.mode.stop.AwaitingIdle? && s.calls.idle
    case FinishStop => s.mode.stop.AwaitingDrain?
    case _ => true
  }

  predicate Starts(s: State) {
    s.mode.stop.NotStopping? && s.line.consumer.Off?
  }

  predicate Admits(s: State) {
    s.mode.accepting && !s.line.consumer.Off?
  }

  function LineAfter(maxQueue: int, s: State, e: Event): Line
    requires Enabled(maxQueue, s, e)
  {
    match e
    case Start => if Starts(s) then s.line.(consumer := Idle) else s.line
    case Enqueue(j, v) => Record(s.line, maxQueue, j, v)
    case Put(t) => Append(s.line, s.calls.requests[t]).(entered := s.line.entered + [t])
    case Take => TakeItem(s.line)
    case SaveDone(ok) => FinishSave(s.line, ok)
    case StopConsumer => CancelConsumer(s.line)
    case FinishStop => Discard(s.line)
    case _ => s.line
  }

  function CallsAfter(maxQueue: int, s: State, e: Event): Calls
    requires Enabled(maxQueue, s, e)
  {
    match e
    case WriteAndWait(t, j, v) => if Admits(s) then Open(s.calls, t, Ack(t, j, v)) else s.calls
    case Put(t) => Advance(s.calls, t, s.calls.admissions[t].(put := Landed))
    case Resume(t, sawStop) =>
      if sawStop then GiveUp(s.calls, t)
      else Advance(s.calls, t, s.calls.admissions[t].(collecting := true))
    case Collected(t) => Close(s.calls, t)
    case CancelCaller(t) =>
      if t !in s.calls.admissions then Settle(s.calls, t, Cancelled)
      else if !s.calls.admissions[t].collecting then GiveUp(s.calls, t)
      else Close(s.calls, t)
    case SaveDone(ok) => SettleTaken(s.calls, s.line.consumer, if ok then Saved else Failed)
    case StopConsumer => SettleTaken(s.calls, s.line.consumer, Cancelled)
    case FinishStop => SettleAll(s.calls, s.line.queue)
    case _ => s.calls
  }

  function ModeAfter(maxQueue: int, s: State, e: Event): Mode
    requires Enabled(maxQueue, s, e)
  {
    match e
    case Start => if Starts(s) then Mode(true, NotStopping, false) else s.mode
    case Stop => if s.mode.stop.NotStopping? then Mode(false, AwaitingIdle, true) else s.mode
    case AbortStop => s.mode.(stop := NotStopping)
    case StopConsumer => s.mode.(stop := AwaitingDrain)
    case FinishStop => s.mode.(stop := NotStopping)
    case _ => s.mode
  }

  function NewestAfter(s: State, e: Event): map<JobId, Version> {
    match e
    case Enqueue(j, v) => s.newest[j := v]
    case WriteAndWait(_, j, v) => if Admits(s) then s.newest[j := v] else s.newest
    case _ => s.newest
  }

  function Step(maxQueue: int, s: State, e: Event): State
    requires Enabled(maxQueue, s, e)
  {
    State(LineAfter(maxQueue, s, e), CallsAfter(maxQueue, s, e), ModeAfter(maxQueue, s, e), NewestAfter(s, e))
  }

  predicate Valid(maxQueue: int, es: seq<Event>)
    decreases |es|, 0
  {
    es != [] ==>
      && Valid(maxQueue, es[..|es| - 1])
      && Enabled(maxQueue, Run(maxQueue, es[..|es| - 1]), es[|es| - 1])
  }

  function Run(maxQueue: int, es: seq<Event>): State
    requires Valid(maxQueue, es)
    decreases |es|, 1
  {
    if es == [] then INIT else Step(maxQueue, Run(maxQueue, es[..|es| - 1]), es[|es| - 1])
  }

  // ---- the writer object ----------------------------------------------------------------------------------

  /**
    The writer with the fields of the source. `consumer` stands for its task: `Off` when there is none.
    The ghost fields are the helper tasks of write_and_wait and the history.
   */
  class Writer {
    const maxQueue: int
    var queue: seq<Item>
    var unfinished: int
    var latest: map<JobId, Version>
    var consumer: Consumer
    var accepting: bool
    var stop: StopPhase
    var stopRequested: bool
    var active: int
    var idle: bool
    var futures: map<Ticket, Outcome>
    ghost var admissions: map<Ticket, Admission>
    ghost var requests: map<Ticket, Item>
    ghost var entered: seq<Ticket>
    ghost var handed: seq<Save>
    ghost var saved: seq<Save>
    ghost var newest: map<JobId, Version>

    ghost function View(): State
      reads this
    {
      State(Line(queue, unfinished, latest, consumer, entered, handed, saved),
            Calls(active, idle, admissions, futures, requests),
            Mode(accepting, stop, stopRequested), newest)
    }

    constructor (maxQueue: int)
      ensures View() == INIT && this.maxQueue == maxQueue
    {
      this.maxQueue := maxQueue;
      queue, unfinished, latest, consumer := [], 0, map[], Off;
      accepting, stop, stopRequested := false, NotStopping, false;
      active, idle, futures := 0, true, map[];
      admissions, requests, entered, handed, saved, newest := map[], map[], [], [], [], map[];
    }

    /** False stands for the RuntimeError of a start while the writer is stopping. */
    method StartConsumer() returns (ok: bool)
      modifies this
      ensures ok <==> old(stop).NotStopping?
      ensures View() == Step(maxQueue, old(View()), Start)
    {
      if !stop.NotStopping? {
        return false;
      }
      if consumer.Off? {
        stopRequested := false;
        consumer := Idle;
        accepting := true;
      }
      return true;
    }

    /** Never blocks; false means the queue was full and only the latest snapshot was recorded. */
    method EnqueueSnapshot(job: JobId, version: Version) returns (queued: bool)
      modifies this
      ensures queued <==> !Full(old(View()).line, maxQueue)
      ensures View() == Step(maxQueue, old(View()), Enqueue(job, version))
    {
      latest := latest[job := version];
      newest := newest[job := version];
      if maxQueue > 0 && |queue| >= maxQueue {
        return false;
      }
      queue := queue + [Token(job)];
      unfinished := unfinished + 1;
      return true;
    }

    /** write_and_wait up to its first suspension; false stands for its RuntimeError. */
    method BeginWrite(ticket: Ticket, job: JobId, version: Version) returns (admitted: bool)
      requires ticket !in futures
      modifies this
      ensures admitted <==> Admits(old(View()))
      ensures View() == Step(maxQueue, old(View()), WriteAndWait(ticket, job, version))
    {
      if !accepting || consumer.Off? {
        return false;
      }
      futures := futures[ticket := Pending];
      requests := requests[ticket := Ack(ticket, job, version)];
      newest := newest[job := version];
      active := active + 1;
      idle := false;
      admissions := admissions[ticket := Admission(InFlight, false)];
      return true;
    }

    method LandPut(ticket: Ticket, request: Item)
      requires Enabled(maxQueue, View(), Put(ticket)) && request == requests[ticket]
      modifies this
      ensures View() == Step(maxQueue, old(View()), Put(ticket))
    {
      queue := queue + [request];
      unfinished := unfinished + 1;
      entered := entered + [ticket];
      admissions := admissions[ticket := admissions[ticket].(put := Landed)];
    }

    /** A future that is done keeps its outcome. */
    method SettleFuture(ticket: Ticket, outcome: Outcome)
      modifies this`futures
      ensures View().calls == Settle(old(View()).calls, ticket, outcome)
    {
      if ticket in futures && futures[ticket].Pending? {
        futures := futures[ticket := outcome];
      }
    }

    method CancelFuture(ticket: Ticket)
      modifies this`futures
      ensures View().calls == Settle(old(View()).calls, ticket, Cancelled)
    {
      SettleFuture(ticket, Cancelled);
    }

    /** asyncio.wait returns in write_and_wait, with or without having seen the stop event. */
    method ResumeWrite(ticket: Ticket, sawStop: bool)
      requires Enabled(maxQueue, View(), Resume(ticket, sawStop))
      modifies this
      ensures View() == Step(maxQueue, old(View()), Resume(ticket, sawStop))
    {
      ghost var put := admissions[ticket].put;
      if sawStop {
        admissions := admissions[ticket := Admission(if put.InFlight? then Dropped else put, true)];
        CancelFuture(ticket);
      } else {
        admissions := admissions[ticket := Admission(put, true)];
      }
    }

    /** The finally block of write_and_wait has collected the helper tasks. */
    method EndAdmission(ticket: Ticket)
      requires Enabled(maxQueue, View(), Collected(ticket))
      modifies this
      ensures View() == Step(maxQueue, old(View()), Collected(ticket))
    {
      admissions := admissions - {ticket};
      active := active - 1;
      if active == 0 {
        idle := true;
      }
    }

    /** One turn of the consumer up to its call of save_checkpoint; `save` is what it passes on, if anything. */
    method TakeNext() returns (save: Option<Save>)
      requires Enabled(maxQueue, View(), Take)
      modifies this
      ensures View() == Step(maxQueue, old(View()), Take)
      ensures handed == old(handed) + if save.Some? then [save.value] else []
    {
      var item := queue[0];
      queue := queue[1..];
      match item {
        case Ack(ticket, job, version) =>
          save := Some(Save(job, version, Some(ticket)));
        case Token(job) =>
          if job in latest {
            save := Some(Save(job, latest[job], None));
            latest := latest - {job};
          } else {
            save := None;
          }
      }
      if save.Some? {
        consumer := Saving(save.value.job, save.value.version, save.value.ticket);
        handed := handed + [save.value];
      } else {
        unfinished := unfinished - 1;
      }
    }

    /** save_checkpoint has returned or raised; an acknowledged caller gets exactly that outcome. */
    method EndSave(ok: bool)
      requires Enabled(maxQueue, View(), SaveDone(ok))
      modifies this
      ensures View() == Step(maxQueue, old(View()), SaveDone(ok))
    {
      if consumer.ticket.Some? {
        SettleFuture(consumer.ticket.value, if ok then Saved else Failed);
      }
      saved := if ok then saved + [InHand(consumer)] else saved;
      unfinished := unfinished - 1;
      consumer := Idle;
    }

    method RequestStop() returns (first: bool)
      modifies this
      ensures first <==> old(stop).NotStopping?
      ensures View() == Step(maxQueue, old(View()), Stop)
    {
      if !stop.NotStopping? {
        return false;
      }
      stop := AwaitingIdle;
      accepting := false;
      stopRequested := true;
      return true;
    }

    /** No admission is left: the consumer task is cancelled and has ended. */
    method StopTask()
      requires Enabled(maxQueue, View(), StopConsumer)
      modifies this
      ensures View() == Step(maxQueue, old(View()), StopConsumer)
    {
      if consumer.Saving? {
        if consumer.ticket.Some? {
          CancelFuture(consumer.ticket.value);
        }
        unfinished := unfinished - 1;
      }
      consumer := Off;
      stop := AwaitingDrain;
    }

    /** One item of the visible queue is dropped. */
    method DropFront()
      requires queue != []
      modifies this`queue, this`unfinished, this`futures
      ensures View().line == old(View()).line.(queue := old(queue)[1..], unfinished := old(unfinished) - 1)
      ensures
        var item, calls := old(queue)[0], old(View()).calls;
        View().calls == if item.Ack? then Settle(calls, item.ticket, Cancelled) else calls
    {
      var item := queue[0];
      queue := queue[1..];
      if item.Ack? {
        CancelFuture(item.ticket);
      }
      unfinished := unfinished - 1;
    }

    /** The visible queue is emptied and every caller still in it gets its cancellation. */
    method DrainVisibleQueue()
      requires Enabled(maxQueue, View(), FinishStop)
      modifies this
      ensures View() == Step(maxQueue, old(View()), FinishStop)
    {
      ghost var before := View();
      ghost var gone := 0;
      while queue != []
        invariant 0 <= gone <= |before.line.queue|
        invariant queue == before.line.queue[gone..]
        invariant View() == before.(line := before.line.(queue := queue, unfinished := before.line.unfinished - gone),
                                    calls := SettleAll(before.calls, before.line.queue[..gone]))
        decreases |queue|
      {
        SettleAllSnoc(before.calls, before.line.queue, gone);
        DropFront();
        gone := gone + 1;
      }
      assert before.line.queue[..gone] == before.line.queue;
      stop := NotStopping;
    }
  }
}
