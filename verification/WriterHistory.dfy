/**
  The checkpoint writer read off the events of a run (daemon/checkpoint_writer.py): when it accepts, what waits in its
  queue, and what every caller of `write_and_wait` is told. No definition here looks at the state of the writer.
 */
module WriterHistory {
  import opened Sequences
  import opened CheckpointWriter
  import opened AcknowledgedWrites

  // ---- the life of the writer -----------------------------------------------------------------------------

  /** A stop has begun and has neither ended nor been cancelled. */
  predicate Stopping(es: seq<Event>) {
    es != [] &&
    match es[|es| - 1]
    case Stop => true
    case AbortStop => false
    case FinishStop => false
    case _ => Stopping(es[..|es| - 1])
  }

  /** There is a consumer task. */
  predicate HasTask(es: seq<Event>) {
    es != [] &&
    match es[|es| - 1]
    case Start => HasTask(es[..|es| - 1]) || !Stopping(es[..|es| - 1])
    case StopConsumer => false
    case _ => HasTask(es[..|es| - 1])
  }

  /** The consumer is stopped, and its queue has not been emptied yet. */
  predicate Draining(es: seq<Event>) {
    es != [] && (es[|es| - 1].StopConsumer? || (!es[|es| - 1].FinishStop? && Draining(es[..|es| - 1])))
  }

  /** The last event is a start that takes effect. */
  predicate Begins(es: seq<Event>) {
    es != [] && es[|es| - 1].Start? && !HasTask(es[..|es| - 1]) && !Stopping(es[..|es| - 1])
  }

  /** A start has taken effect, and no stop has been asked for since. */
  predicate Accepting(es: seq<Event>) {
    es != [] && (Begins(es) || (!es[|es| - 1].Stop? && Accepting(es[..|es| - 1])))
  }

  predicate StopSeen(es: seq<Event>) {
    es != [] && (es[|es| - 1].Stop? || (!Begins(es) && StopSeen(es[..|es| - 1])))
  }

  lemma LifeStep(maxQueue: int, s: State, e: Event)
    requires Enabled(maxQueue, s, e) && ModeOk(s)
    ensures
      var line, mode, after := LineAfter(maxQueue, s, e), s.mode, ModeAfter(maxQueue, s, e);
      var begins := e.Start? && s.line.consumer.Off? && mode.stop.NotStopping?;
      && (line.consumer.Off? <==> !begins && (e.StopConsumer? || s.line.consumer.Off?))
      && (after.stop.NotStopping? <==> !e.Stop? && (e.AbortStop? || e.FinishStop? || mode.stop.NotStopping?))
      && (after.stop.AwaitingDrain? <==> e.StopConsumer? || (!e.FinishStop? && mode.stop.AwaitingDrain?))
      && (after.accepting <==> begins || (!e.Stop? && mode.accepting))
      && (after.stopRequested <==>
            !begins && (mode.stopRequested || (e.Stop? && mode.stop.NotStopping?)))
  {
  }

  ghost predicate LivesAs(s: State, es: seq<Event>) {
    && (s.line.consumer.Off? <==> !HasTask(es)) && (s.mode.stop.NotStopping? <==> !Stopping(es))
    && (s.mode.stop.AwaitingDrain? <==> Draining(es))
    && (s.mode.accepting <==> Accepting(es))
    && (s.mode.stopRequested <==> StopSeen(es)) && (Stopping(es) ==> StopSeen(es))
  }

  /** When the writer runs, stops and accepts, as the events say; a start after an aborted stop has no effect. */
  lemma {:induction false} LifecycleIsExact(maxQueue: int, es: seq<Event>)
    requires Valid(maxQueue, es)
    ensures LivesAs(Run(maxQueue, es), es)
    ensures Admits(Run(maxQueue, es)) <==> Accepting(es)
  {
    HeldInExactlyOnePlace(maxQueue, es);
    if es != [] {
      var front := es[..|es| - 1];
      LifecycleIsExact(maxQueue, front);
      HeldInExactlyOnePlace(maxQueue, front);
      LifeStep(maxQueue, Run(maxQueue, front), es[|es| - 1]);
    }
  }

  // ---- the calls ------------------------------------------------------------------------------------------

  /** What the admitted call t asked for. */
  function RequestOf(es: seq<Event>, t: Ticket): Option<Item> {
    if es == [] then None
    else
      var front, e := es[..|es| - 1], es[|es| - 1];
      if e.WriteAndWait? && e.ticket == t && Accepting(front) then Some(Ack(t, e.job, e.version))
      else RequestOf(front, t)
  }

  /** The newest snapshot that was accepted for job j. */
  function NewestOf(es: seq<Event>, j: JobId): Option<Version> {
    if es == [] then None
    else
      var front, e := es[..|es| - 1], es[|es| - 1];
      if (e.Enqueue? || (e.WriteAndWait? && Accepting(front))) && e.job == j then Some(e.version)
      else NewestOf(front, j)
  }

  /** A call that still has helpers, after e; it is cancelled, or sees a stop, while they run. */
  function AdmissionAfter(a: Admission, e: Event): Option<Admission> {
    match e
    case Put(_) => Some(a.(put := Landed))
    case Resume(_, sawStop) => Some(Admission(if sawStop && a.put.InFlight? then Dropped else a.put, true))
    case Collected(_) => None
    case CancelCaller(_) =>
      if a.collecting then None else Some(Admission(if a.put.InFlight? then Dropped else a.put, true))
    case _ => Some(a)
  }

  predicate About(e: Event, t: Ticket) {
    (e.WriteAndWait? || e.Put? || e.Resume? || e.Collected? || e.CancelCaller?) && e.ticket == t
  }

  /** Where the call t stands in its `finally` protocol, from its own events alone. */
  function AdmissionOf(es: seq<Event>, t: Ticket): Option<Admission> {
    if es == [] then None
    else
      var front, e := es[..|es| - 1], es[|es| - 1];
      var before := AdmissionOf(front, t);
      if !About(e, t) then before
      else if e.WriteAndWait? then if Accepting(front) then Some(Admission(InFlight, false)) else before
      else if before.Some? then AdmissionAfter(before.value, e)
      else None
  }

  /** Requests, futures and admissions of the writer are what the events of the run say. */
  lemma {:induction false} CallsAreExact(maxQueue: int, es: seq<Event>, t: Ticket)
    requires Valid(maxQueue, es)
    ensures
      var c := Run(maxQueue, es).calls;
      && KnownAs(c.requests, t, RequestOf(es, t)) && (t in c.futures <==> RequestOf(es, t).Some?)
      && KnownAs(c.admissions, t, AdmissionOf(es, t))
  {
    if es != [] {
      var front, e := es[..|es| - 1], es[|es| - 1];
      CallsAreExact(maxQueue, front, t);
      LifecycleIsExact(maxQueue, front);
      HeldInExactlyOnePlace(maxQueue, front);
      RequestStep(maxQueue, Run(maxQueue, front), e, t);
      AdmissionStep(maxQueue, Run(maxQueue, front), e, t);
    }
  }

  predicate Opens(s: State, e: Event, t: Ticket) {
    e.WriteAndWait? && e.ticket == t && Admits(s)
  }

  lemma RequestStep(maxQueue: int, s: State, e: Event, t: Ticket)
    requires CallsOk(s.calls) && Enabled(maxQueue, s, e)
    ensures
      var c, c' := s.calls, CallsAfter(maxQueue, s, e);
      && KnownAs(c'.requests, t, if Opens(s, e, t) then Some(Ack(t, e.job, e.version))
                                 else if t in c.requests then Some(c.requests[t]) else None)
      && (t in c'.futures <==> t in c'.requests)
  {
    if e.FinishStop? {
      SettleAllEffect(s.calls, s.line.queue);
    }
  }

  lemma AdmissionStep(maxQueue: int, s: State, e: Event, t: Ticket)
    requires CallsOk(s.calls) && Enabled(maxQueue, s, e)
    ensures
      var c := s.calls;
      KnownAs(CallsAfter(maxQueue, s, e).admissions, t,
           if Opens(s, e, t) then Some(Admission(InFlight, false))
           else if t !in c.admissions then None
           else if About(e, t) && !e.WriteAndWait? then AdmissionAfter(c.admissions[t], e)
           else Some(c.admissions[t]))
  {
    if !About(e, t) {
      OthersLeaveAdmission(maxQueue, s, e, t);
    }
  }

  lemma OthersLeaveAdmission(maxQueue: int, s: State, e: Event, t: Ticket)
    requires Enabled(maxQueue, s, e) && !About(e, t)
    ensures
      var c, c' := s.calls, CallsAfter(maxQueue, s, e);
      KnownAs(c'.admissions, t, if t in c.admissions then Some(c.admissions[t]) else None)
  {
    if e.FinishStop? {
      SettleAllEffect(s.calls, s.line.queue);
    }
  }

  /** The newest accepted snapshot of every job is the one the events say. */
  lemma {:induction false} NewestIsExact(maxQueue: int, es: seq<Event>, j: JobId)
    requires Valid(maxQueue, es)
    ensures KnownAs(Run(maxQueue, es).newest, j, NewestOf(es, j))
  {
    if es != [] {
      NewestIsExact(maxQueue, es[..|es| - 1], j);
      LifecycleIsExact(maxQueue, es[..|es| - 1]);
    }
  }

  // ---- the queue ------------------------------------------------------------------------------------------

  /** The items of the queue: requests whose put has landed, and a token for every enqueue that found room. */
  function QueueOf(maxQueue: int, es: seq<Event>): seq<Item> {
    if es == [] then []
    else
      var front := es[..|es| - 1];
      var before := QueueOf(maxQueue, front);
      match es[|es| - 1]
      case Put(t) => if RequestOf(front, t).Some? then before + [RequestOf(front, t).value] else before
      case Enqueue(j, _) => if 0 < maxQueue <= |before| then before else before + [Token(j)]
      case Take => if before == [] then [] else before[1..]
      case FinishStop => []
      case _ => before
  }

  /** The last event takes the front item of the queue. */
  function TakenOf(maxQueue: int, es: seq<Event>): Option<Item> {
    if es == [] || !es[|es| - 1].Take? then None
    else
      var queue := QueueOf(maxQueue, es[..|es| - 1]);
      if queue == [] then None else Some(queue[0])
  }

  /** The snapshot of j that no token has been resolved to yet. */
  function LatestOf(maxQueue: int, es: seq<Event>, j: JobId): Option<Version> {
    if es == [] then None
    else
      var e := es[|es| - 1];
      if e.Enqueue? && e.job == j then Some(e.version)
      else if TakenOf(maxQueue, es) == Some(Token(j)) then None
      else LatestOf(maxQueue, es[..|es| - 1], j)
  }

  /** What the last event passes to the registry. */
  function PassedOn(maxQueue: int, es: seq<Event>): Option<Save> {
    match TakenOf(maxQueue, es)
    case None => None
    case Some(Ack(t, j, v)) => Some(Save(j, v, Some(t)))
    case Some(Token(j)) =>
      var latest := LatestOf(maxQueue, es[..|es| - 1], j);
      if latest.Some? then Some(Save(j, latest.value, None)) else None
  }

  /** The call of save_checkpoint that has not ended. */
  function SavingOf(maxQueue: int, es: seq<Event>): Option<Save> {
    if es == [] then None
    else
      match es[|es| - 1]
      case Take => PassedOn(maxQueue, es)
      case SaveDone(_) => None
      case StopConsumer => None
      case _ => SavingOf(maxQueue, es[..|es| - 1])
  }

  /** The saves that have succeeded. */
  function StoredOf(maxQueue: int, es: seq<Event>): seq<Save> {
    if es == [] then []
    else
      var front := es[..|es| - 1];
      var saving := SavingOf(maxQueue, front);
      if es[|es| - 1] == SaveDone(true) && saving.Some? then StoredOf(maxQueue, front) + [saving.value]
      else StoredOf(maxQueue, front)
  }

  /** All calls of save_checkpoint. */
  function CallsOfSave(maxQueue: int, es: seq<Event>): seq<Save> {
    if es == [] then []
    else
      var before := CallsOfSave(maxQueue, es[..|es| - 1]);
      if PassedOn(maxQueue, es).Some? then before + [PassedOn(maxQueue, es).value] else before
  }

  ghost predicate LineReadsAs(maxQueue: int, line: Line, es: seq<Event>) {
    && line.queue == QueueOf(maxQueue, es)
    && (line.consumer.Saving? <==> SavingOf(maxQueue, es).Some?)
    && (line.consumer.Saving? ==> InHand(line.consumer) == SavingOf(maxQueue, es).value)
    && line.saved == StoredOf(maxQueue, es) && line.handed == CallsOfSave(maxQueue, es)
  }

  /** The queue, the save in hand and what the registry was given and stores are what the events say. */
  lemma {:induction false} LineIsExact(maxQueue: int, es: seq<Event>)
    requires Valid(maxQueue, es)
    ensures LineReadsAs(maxQueue, Run(maxQueue, es).line, es)
  {
    if es != [] {
      var front, e := es[..|es| - 1], es[|es| - 1];
      var s := Run(maxQueue, front);
      LineIsExact(maxQueue, front);
      LifecycleIsExact(maxQueue, front);
      if e.Put? {
        CallsAreExact(maxQueue, front, e.ticket);
      }
      if e.Take? && s.line.queue[0].Token? {
        LatestIsExact(maxQueue, front, s.line.queue[0].job);
      }
    }
  }

  lemma {:induction false} LatestIsExact(maxQueue: int, es: seq<Event>, j: JobId)
    requires Valid(maxQueue, es)
    ensures KnownAs(Run(maxQueue, es).line.latest, j, LatestOf(maxQueue, es, j))
  {
    if es != [] {
      LatestIsExact(maxQueue, es[..|es| - 1], j);
      LineIsExact(maxQueue, es[..|es| - 1]);
    }
  }

  // ---- what a caller is told ------------------------------------------------------------------------------

  predicate OwnSave(saving: Option<Save>, t: Ticket) {
    saving.Some? && saving.value.ticket == Some(t)
  }

  /** What e decides about the future of t, given the save in hand, the queue and the state of its call. */
  function AnswerTo(e: Event, t: Ticket, saving: Option<Save>, queue: seq<Item>, a: Option<Admission>): Outcome {
    match e
    case SaveDone(ok) => if !OwnSave(saving, t) then Pending else if ok then Saved else Failed
    case StopConsumer => if OwnSave(saving, t) then Cancelled else Pending
    case FinishStop => if InQueue(queue, t) then Cancelled else Pending
    case Resume(u, sawStop) => if u == t && sawStop then Cancelled else Pending
    case CancelCaller(u) => if u == t && (a.None? || !a.value.collecting) then Cancelled else Pending
    case _ => Pending
  }

  function Answer(maxQueue: int, es: seq<Event>, t: Ticket): Outcome
    requires es != []
  {
    var front := es[..|es| - 1];
    AnswerTo(es[|es| - 1], t, SavingOf(maxQueue, front), QueueOf(maxQueue, front), AdmissionOf(front, t))
  }

  predicate InQueue(items: seq<Item>, t: Ticket) {
    exists i :: 0 <= i < |items| && items[i].Ack? && items[i].ticket == t
  }

  /** A future keeps the first answer it gets. */
  function FirstAnswer(maxQueue: int, es: seq<Event>, t: Ticket): Outcome {
    if es == [] then Pending
    else
      var before := FirstAnswer(maxQueue, es[..|es| - 1], t);
      if before.Pending? then Answer(maxQueue, es, t) else before
  }

  lemma {:induction false} SettleAllCancels(c: Calls, items: seq<Item>, t: Ticket)
    requires t in c.futures
    ensures
      var c' := SettleAll(c, items);
      t in c'.futures &&
      c'.futures[t] == if c.futures[t].Pending? && InQueue(items, t) then Cancelled else c.futures[t]
  {
    if items != [] {
      var front, last := items[..|items| - 1], items[|items| - 1];
      SettleAllCancels(c, front, t);
      assert items == front + [last];
      if InQueue(front, t) {
        var i :| 0 <= i < |front| && front[i].Ack? && front[i].ticket == t;
        assert items[i] == front[i];
      }
    }
  }

  lemma TakenIsOwnSave(line: Line, saving: Option<Save>, t: Ticket)
    requires line.consumer.Saving? <==> saving.Some?
    requires line.consumer.Saving? ==> InHand(line.consumer) == saving.value
    ensures AtConsumer(line, t) <==> OwnSave(saving, t)
  {
  }

  lemma InQueueIsQueued(line: Line, t: Ticket)
    ensures InQueue(line.queue, t) <==> Queued(line, t)
  {
    forall i | 0 <= i < |line.queue| ensures QueuedAt(line, i, t) <==> line.queue[i].Ack? && line.queue[i].ticket == t {
    }
  }

  lemma AnswerStep(maxQueue: int, s: State, e: Event, t: Ticket, saving: Option<Save>, a: Option<Admission>)
    requires CallsOk(s.calls) && Enabled(maxQueue, s, e) && t in s.calls.futures
    requires AtConsumer(s.line, t) <==> OwnSave(saving, t)
    requires KnownAs(s.calls.admissions, t, a)
    ensures t in CallsAfter(maxQueue, s, e).futures
    ensures CallsAfter(maxQueue, s, e).futures[t] ==
            if s.calls.futures[t].Pending? then AnswerTo(e, t, saving, s.line.queue, a) else s.calls.futures[t]
  {
    if e.FinishStop? {
      SettleAllCancels(s.calls, s.line.queue, t);
    } else if About(e, t) {
      CallerStep(maxQueue, s, e, t, a);
    } else if e.SaveDone? || e.StopConsumer? {
      ConsumerStep(maxQueue, s, e, t, saving);
    } else {
      OthersTellNothing(maxQueue, s, e, t);
    }
  }

  lemma ConsumerStep(maxQueue: int, s: State, e: Event, t: Ticket, saving: Option<Save>)
    requires Enabled(maxQueue, s, e) && t in s.calls.futures && (e.SaveDone? || e.StopConsumer?)
    requires AtConsumer(s.line, t) <==> OwnSave(saving, t)
    ensures t in CallsAfter(maxQueue, s, e).futures
    ensures CallsAfter(maxQueue, s, e).futures[t] ==
            if s.calls.futures[t].Pending? then AnswerTo(e, t, saving, [], None) else s.calls.futures[t]
  {
  }

  lemma OthersTellNothing(maxQueue: int, s: State, e: Event, t: Ticket)
    requires CallsOk(s.calls) && Enabled(maxQueue, s, e) && t in s.calls.futures
    requires !About(e, t) && !e.FinishStop? && !e.SaveDone? && !e.StopConsumer?
    ensures t in CallsAfter(maxQueue, s, e).futures
    ensures CallsAfter(maxQueue, s, e).futures[t] == s.calls.futures[t]
  {
  }

  lemma CallerStep(maxQueue: int, s: State, e: Event, t: Ticket, a: Option<Admission>)
    requires Enabled(maxQueue, s, e) && t in s.calls.futures && About(e, t)
    requires KnownAs(s.calls.admissions, t, a)
    ensures t in CallsAfter(maxQueue, s, e).futures
    ensures CallsAfter(maxQueue, s, e).futures[t] ==
            if s.calls.futures[t].Pending? then AnswerTo(e, t, None, [], a) else s.calls.futures[t]
  {
  }

  /** Before its call is admitted there is nothing to tell. */
  lemma {:induction false} NothingToTell(maxQueue: int, es: seq<Event>, t: Ticket)
    requires Valid(maxQueue, es) && RequestOf(es, t).None?
    ensures FirstAnswer(maxQueue, es, t) == Pending
  {
    if es != [] {
      var front := es[..|es| - 1];
      var s := Run(maxQueue, front);
      NothingToTell(maxQueue, front, t);
      CallsAreExact(maxQueue, front, t);
      LineIsExact(maxQueue, front);
      HeldInExactlyOnePlace(maxQueue, front);
      InQueueIsQueued(s.line, t);
      TakenIsOwnSave(s.line, SavingOf(maxQueue, front), t);
      NotHeld(s.line, s.calls, t);
    }
  }

  lemma NotHeld(line: Line, c: Calls, t: Ticket)
    requires Placed(line, c) && t !in c.requests
    ensures !Queued(line, t) && !AtConsumer(line, t)
  {
  }

  /**
    Every caller of `write_and_wait` is told exactly the first thing that happened to its request: that its own save
    succeeded, that it failed, or that the caller or the writer gave it up.
   */
  lemma {:induction false} CallerIsToldFirstAnswer(maxQueue: int, es: seq<Event>, t: Ticket)
    requires Valid(maxQueue, es) && RequestOf(es, t).Some?
    ensures t in Run(maxQueue, es).calls.futures
    ensures Run(maxQueue, es).calls.futures[t] == FirstAnswer(maxQueue, es, t)
  {
    var front, e := es[..|es| - 1], es[|es| - 1];
    var s, saving := Run(maxQueue, front), SavingOf(maxQueue, front);
    CallsAreExact(maxQueue, front, t);
    LineIsExact(maxQueue, front);
    LifecycleIsExact(maxQueue, front);
    HeldInExactlyOnePlace(maxQueue, front);
    if RequestOf(front, t).Some? {
      CallerIsToldFirstAnswer(maxQueue, front, t);
      TakenIsOwnSave(s.line, saving, t);
      AnswerStep(maxQueue, s, e, t, saving, AdmissionOf(front, t));
    } else {
      NothingToTell(maxQueue, front, t);
    }
  }

  lemma {:induction false} FirstAnswerStays(maxQueue: int, es: seq<Event>, n: nat, t: Ticket)
    requires n <= |es| && FirstAnswer(maxQueue, es[..n], t) != Pending
    ensures FirstAnswer(maxQueue, es, t) == FirstAnswer(maxQueue, es[..n], t)
  {
    if n == |es| {
      assert es[..n] == es;
    } else {
      assert es[..|es| - 1][..n] == es[..n];
      FirstAnswerStays(maxQueue, es[..|es| - 1], n, t);
    }
  }

  /** At step n the save of t itself ends, and nothing has been told to its caller before. */
  predicate SaveEndsAt(maxQueue: int, es: seq<Event>, n: nat, t: Ticket) {
    && n < |es| && es[n].SaveDone? && OwnSave(SavingOf(maxQueue, es[..n]), t)
    && FirstAnswer(maxQueue, es[..n], t).Pending?
  }

  /** A save that ends is reported to its caller as what it was, for good. */
  lemma SaveIsReported(maxQueue: int, es: seq<Event>, n: nat, t: Ticket)
    requires Valid(maxQueue, es) && RequestOf(es, t).Some? && SaveEndsAt(maxQueue, es, n, t)
    ensures t in Run(maxQueue, es).calls.futures
    ensures Run(maxQueue, es).calls.futures[t] == if es[n].ok then Saved else Failed
  {
    assert es[..n + 1][..n] == es[..n];
    FirstAnswerStays(maxQueue, es, n + 1, t);
    CallerIsToldFirstAnswer(maxQueue, es, t);
  }

  /** And a caller is told of a save, good or bad, only if its own has ended so. */
  lemma {:induction false} ReportedIffSaved(maxQueue: int, es: seq<Event>, t: Ticket, ok: bool)
    requires Valid(maxQueue, es) && RequestOf(es, t).Some?
    ensures
      var futures := Run(maxQueue, es).calls.futures;
      t in futures &&
      (futures[t] == (if ok then Saved else Failed)
       <==> exists n: nat :: SaveEndsAt(maxQueue, es, n, t) && es[n].ok == ok)
  {
    CallerIsToldFirstAnswer(maxQueue, es, t);
    if FirstAnswer(maxQueue, es, t) == (if ok then Saved else Failed) {
      var n := WhenTold(maxQueue, es, t, ok);
    }
    forall n: nat | SaveEndsAt(maxQueue, es, n, t)
      ensures Run(maxQueue, es).calls.futures[t] == if es[n].ok then Saved else Failed
    {
      SaveIsReported(maxQueue, es, n, t);
    }
  }

  lemma {:induction false} WhenTold(maxQueue: int, es: seq<Event>, t: Ticket, ok: bool) returns (n: nat)
    requires FirstAnswer(maxQueue, es, t) == (if ok then Saved else Failed)
    ensures SaveEndsAt(maxQueue, es, n, t) && es[n].ok == ok
  {
    var front := es[..|es| - 1];
    if FirstAnswer(maxQueue, front, t).Pending? {
      n := |front|;
    } else {
      n := WhenTold(maxQueue, front, t, ok);
      assert front[..n] == es[..n];
    }
  }
}
