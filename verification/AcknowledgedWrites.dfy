/**
  What the callers of `write_and_wait` can rely on (daemon/checkpoint_writer.py): every request is held in exactly
  one place until it is settled, `stop` strands nobody, a normal return means saved, and first in is first out.
 */
module AcknowledgedWrites {
  import opened Sequences
  import opened CheckpointWriter

  // ---- the calls keep their books -------------------------------------------------------------------------

  ghost predicate CallsOk(c: Calls) {
    && c.active == |c.admissions|
    && (c.idle <==> c.active == 0)
    && (forall t :: t in c.futures <==> t in c.requests)
    && (forall t :: t in c.admissions ==> t in c.requests)
    && (forall t :: Flying(c, t) ==> !c.admissions[t].collecting)
    && (forall t :: t in c.requests ==> c.requests[t].Ack? && c.requests[t].ticket == t)
  }

  lemma OpenOk(c: Calls, t: Ticket, j: JobId, v: Version)
    requires CallsOk(c) && t !in c.futures
    ensures CallsOk(Open(c, t, Ack(t, j, v)))
  {
  }

  lemma AdvanceOk(c: Calls, t: Ticket, a: Admission)
    requires CallsOk(c) && t in c.admissions && (a.put.InFlight? ==> !a.collecting)
    ensures CallsOk(Advance(c, t, a))
  {
    assert Advance(c, t, a).admissions.Keys == c.admissions.Keys;
  }

  lemma SettleAllOk(c: Calls, items: seq<Item>)
    requires CallsOk(c)
    ensures CallsOk(SettleAll(c, items))
  {
  }

  lemma CloseOk(c: Calls, t: Ticket)
    requires CallsOk(c) && t in c.admissions
    ensures CallsOk(Close(c, t))
  {
    assert Close(c, t).admissions.Keys == c.admissions.Keys - {t};
  }

  lemma StepKeepsCalls(maxQueue: int, s: State, e: Event)
    requires CallsOk(s.calls) && Enabled(maxQueue, s, e)
    ensures CallsOk(CallsAfter(maxQueue, s, e))
  {
    var c := s.calls;
    match e
    case WriteAndWait(t, j, v) => OpenOk(c, t, j, v);
    case Put(t) => AdvanceOk(c, t, c.admissions[t].(put := Landed));
    case Resume(t, sawStop) =>
      if sawStop { GiveUpOk(c, t); } else { AdvanceOk(c, t, c.admissions[t].(collecting := true)); }
    case Collected(t) => CloseOk(c, t);
    case CancelCaller(t) =>
      if t in c.admissions {
        if c.admissions[t].collecting { CloseOk(c, t); } else { GiveUpOk(c, t); }
      }
    case FinishStop => SettleAllOk(c, s.line.queue);
    case _ =>
  }

  lemma GiveUpOk(c: Calls, t: Ticket)
    requires CallsOk(c) && t in c.admissions
    ensures CallsOk(GiveUp(c, t))
  {
    AdvanceOk(c, t, Admission(if c.admissions[t].put.InFlight? then Dropped else c.admissions[t].put, true));
  }

  // ---- an unsettled request is held in exactly one place --------------------------------------------------

  predicate Unsettled(c: Calls, t: Ticket) {
    t in c.futures && c.futures[t].Pending?
  }

  predicate QueuedAt(line: Line, i: int, t: Ticket) {
    0 <= i < |line.queue| && line.queue[i].Ack? && line.queue[i].ticket == t
  }

  ghost predicate Queued(line: Line, t: Ticket) {
    exists i :: QueuedAt(line, i, t)
  }

  predicate AtConsumer(line: Line, t: Ticket) {
    line.consumer.Saving? && line.consumer.ticket == Some(t)
  }

  /** The put of item has landed, and item is what the caller asked for. */
  predicate LandedAs(c: Calls, t: Ticket, item: Item) {
    t in c.requests && c.requests[t] == item && !Flying(c, t)
  }

  ghost predicate QueueOk(line: Line, c: Calls) {
    && (forall i, t :: QueuedAt(line, i, t) ==> LandedAs(c, t, line.queue[i]) && !AtConsumer(line, t))
    && (forall i, j, t :: QueuedAt(line, i, t) && QueuedAt(line, j, t) ==> i == j)
  }

  ghost predicate ConsumerOk(line: Line, c: Calls) {
    forall t :: AtConsumer(line, t) ==> LandedAs(c, t, Ack(t, line.consumer.job, line.consumer.version))
  }

  ghost predicate NothingLost(line: Line, c: Calls) {
    forall t :: Unsettled(c, t) ==> Flying(c, t) || Queued(line, t) || AtConsumer(line, t)
  }

  ghost predicate Placed(line: Line, c: Calls) {
    QueueOk(line, c) && ConsumerOk(line, c) && NothingLost(line, c)
  }

  /** c' differs from c by opening calls, settling futures and abandoning puts together with their futures. */
  ghost predicate Narrows(c: Calls, c': Calls) {
    && (forall t :: t in c.requests ==> t in c'.requests && c'.requests[t] == c.requests[t])
    && (forall t :: Flying(c', t) ==> Flying(c, t) || t !in c.requests)
    && (forall t :: Unsettled(c', t) ==> Flying(c', t) || (Unsettled(c, t) && !Flying(c, t)))
  }

  lemma NarrowingKeepsPlaces(line: Line, c: Calls, c': Calls)
    requires Placed(line, c) && Narrows(c, c')
    ensures Placed(line, c')
  {
  }

  lemma GivingUpNarrows(c: Calls, t: Ticket)
    requires CallsOk(c) && t in c.admissions
    ensures Narrows(c, GiveUp(c, t))
  {
  }

  lemma CallStepsNarrow(maxQueue: int, s: State, e: Event)
    requires CallsOk(s.calls) && Enabled(maxQueue, s, e)
    requires e.WriteAndWait? || e.Resume? || e.Collected? || e.CancelCaller?
    ensures Narrows(s.calls, CallsAfter(maxQueue, s, e))
  {
    if e.WriteAndWait? {
      if Admits(s) {
        OpeningNarrows(s.calls, e.ticket, Ack(e.ticket, e.job, e.version));
      }
      return;
    }
    if e.ticket in s.calls.admissions {
      GivingUpNarrows(s.calls, e.ticket);
      ClosingNarrows(s.calls, e.ticket);
    }
  }

  lemma OpeningNarrows(c: Calls, t: Ticket, item: Item)
    requires CallsOk(c) && t !in c.futures
    ensures Narrows(c, Open(c, t, item))
  {
  }

  /** A call ends only after its put has landed or was abandoned. */
  lemma ClosingNarrows(c: Calls, t: Ticket)
    requires CallsOk(c) && t in c.admissions
    ensures c.admissions[t].collecting ==> Narrows(c, Close(c, t))
  {
  }

  lemma PutKeepsPlaces(line: Line, c: Calls, t: Ticket)
    requires CallsOk(c) && Placed(line, c) && Flying(c, t)
    ensures Placed(Append(line, c.requests[t]).(entered := line.entered + [t]),
                   Advance(c, t, c.admissions[t].(put := Landed)))
  {
    var line' := Append(line, c.requests[t]).(entered := line.entered + [t]);
    assert QueuedAt(line', |line.queue|, t);
    assert Queued(line', t);
    forall k | Queued(line, k) ensures Queued(line', k) {
      var i :| QueuedAt(line, i, k);
      assert QueuedAt(line', i, k);
    }
    var c' := Advance(c, t, c.admissions[t].(put := Landed));
    forall i, k | QueuedAt(line', i, k) ensures LandedAs(c', k, line'.queue[i]) && !AtConsumer(line', k) {
      assert AtConsumer(line', k) ==> AtConsumer(line, k);
      if i < |line.queue| {
        assert QueuedAt(line, i, k);
      }
    }
    forall i, k | QueuedAt(line', i, k) ensures QueuedAt(line, i, k) || (i == |line.queue| && k == t) {
    }
    forall k | Unsettled(c', k) ensures Flying(c', k) || Queued(line', k) || AtConsumer(line', k) {
      assert Unsettled(c, k);
      assert AtConsumer(line, k) ==> AtConsumer(line', k);
    }
  }

  lemma RecordKeepsPlaces(line: Line, c: Calls, maxQueue: int, j: JobId, v: Version)
    requires Placed(line, c)
    ensures Placed(Record(line, maxQueue, j, v), c)
  {
    var line' := Record(line, maxQueue, j, v);
    forall i, k ensures QueuedAt(line, i, k) <==> QueuedAt(line', i, k) {
    }
  }

  lemma TakeKeepsPlaces(line: Line, c: Calls)
    requires Placed(line, c) && line.consumer.Idle? && line.queue != []
    ensures Placed(TakeItem(line), c)
  {
    var line' := TakeItem(line);
    forall i, k ensures QueuedAt(line', i, k) <==> i >= 0 && QueuedAt(line, i + 1, k) {
    }
    forall k | Queued(line, k) ensures Queued(line', k) || AtConsumer(line', k) {
      var i :| QueuedAt(line, i, k);
      assert i > 0 ==> QueuedAt(line', i - 1, k);
    }
    forall k | AtConsumer(line', k) ensures QueuedAt(line, 0, k) {
    }
  }

  lemma SettleTakenKeepsPlaces(line: Line, c: Calls, line': Line, o: Outcome)
    requires CallsOk(c) && Placed(line, c) && o != Pending
    requires line'.queue == line.queue && !line'.consumer.Saving?
    ensures Placed(line', SettleTaken(c, line.consumer, o))
  {
    forall i, k ensures QueuedAt(line', i, k) <==> QueuedAt(line, i, k) {
    }
    forall t | Queued(line, t) ensures Queued(line', t) {
      var i :| QueuedAt(line, i, t);
      assert QueuedAt(line', i, t);
    }
  }

  lemma {:induction false} SettleAllEffect(c: Calls, items: seq<Item>)
    ensures
      var c' := SettleAll(c, items);
      && c'.requests == c.requests && c'.admissions == c.admissions && c'.futures.Keys == c.futures.Keys
      && c'.active == c.active && c'.idle == c.idle
      && (forall t :: Unsettled(c', t) ==>
            Unsettled(c, t) && forall i :: 0 <= i < |items| && items[i].Ack? ==> items[i].ticket != t)
  {
    if items != [] {
      SettleAllEffect(c, items[..|items| - 1]);
    }
  }

  lemma DiscardKeepsPlaces(line: Line, c: Calls)
    requires CallsOk(c) && Placed(line, c)
    ensures Placed(Discard(line), SettleAll(c, line.queue))
  {
    SettleAllEffect(c, line.queue);
  }

  ghost predicate ModeOk(s: State) {
    && (s.mode.accepting ==> s.mode.stop.NotStopping? && !s.line.consumer.Off?)
    && (s.mode.stop.AwaitingDrain? ==> s.line.consumer.Off? && s.calls.active == 0)
  }

  ghost predicate Inv(s: State) {
    CallsOk(s.calls) && Placed(s.line, s.calls) && ModeOk(s)
  }

  lemma StepKeepsMode(maxQueue: int, s: State, e: Event)
    requires CallsOk(s.calls) && ModeOk(s) && Enabled(maxQueue, s, e)
    ensures ModeOk(Step(maxQueue, s, e))
  {
  }

  lemma StepKeepsPlaces(maxQueue: int, s: State, e: Event)
    requires Inv(s) && Enabled(maxQueue, s, e)
    ensures Placed(LineAfter(maxQueue, s, e), CallsAfter(maxQueue, s, e))
  {
    if e.WriteAndWait? || e.Resume? || e.Collected? || e.CancelCaller? {
      CallStepsNarrow(maxQueue, s, e);
      NarrowingKeepsPlaces(s.line, s.calls, CallsAfter(maxQueue, s, e));
      return;
    }
    match e
    case Enqueue(j, v) => RecordKeepsPlaces(s.line, s.calls, maxQueue, j, v);
    case Put(t) => PutKeepsPlaces(s.line, s.calls, t);
    case Take => TakeKeepsPlaces(s.line, s.calls);
    case SaveDone(ok) => SettleTakenKeepsPlaces(s.line, s.calls, FinishSave(s.line, ok), if ok then Saved else Failed);
    case StopConsumer => SettleTakenKeepsPlaces(s.line, s.calls, CancelConsumer(s.line), Cancelled);
    case FinishStop => DiscardKeepsPlaces(s.line, s.calls);
    case Start =>
      SettleTakenKeepsPlaces(s.line, s.calls, s.line.(consumer := Idle), Cancelled);
    case _ =>
  }

  lemma StepKeepsInv(maxQueue: int, s: State, e: Event)
    requires Inv(s) && Enabled(maxQueue, s, e)
    ensures Inv(Step(maxQueue, s, e))
  {
    StepKeepsCalls(maxQueue, s, e);
    StepKeepsPlaces(maxQueue, s, e);
    StepKeepsMode(maxQueue, s, e);
  }

  /**
    In every run an unsettled acknowledged request is held in exactly one place: by its helper task, at one
    position of the queue, or by the consumer.
   */
  lemma {:induction false} HeldInExactlyOnePlace(maxQueue: int, es: seq<Event>)
    requires Valid(maxQueue, es)
    ensures var s := Run(maxQueue, es);
      && Inv(s)
      && (forall t :: Unsettled(s.calls, t) ==>
            && (Flying(s.calls, t) || Queued(s.line, t) || AtConsumer(s.line, t))
            && !(Flying(s.calls, t) && Queued(s.line, t))
            && !(Flying(s.calls, t) && AtConsumer(s.line, t))
            && !(Queued(s.line, t) && AtConsumer(s.line, t)))
      && (forall i, j, t :: QueuedAt(s.line, i, t) && QueuedAt(s.line, j, t) ==> i == j)
      && s.calls.active == |s.calls.admissions|
  {
    if es != [] {
      HeldInExactlyOnePlace(maxQueue, es[..|es| - 1]);
      StepKeepsInv(maxQueue, Run(maxQueue, es[..|es| - 1]), es[|es| - 1]);
    }
  }

  // ---- stop strands nobody --------------------------------------------------------------------------------

  /** The writer is stopped and every caller has its answer. */
  ghost predicate Stopped(s: State) {
    && !s.mode.accepting && s.line.consumer.Off? && s.calls.active == 0
    && (forall t :: t !in s.calls.admissions)
    && (forall t :: t in s.calls.futures ==> !s.calls.futures[t].Pending?)
  }

  lemma FinishStopSettlesAll(maxQueue: int, s: State)
    requires Inv(s) && Enabled(maxQueue, s, FinishStop)
    ensures Stopped(Step(maxQueue, s, FinishStop)) && LineAfter(maxQueue, s, FinishStop).queue == []
  {
    SettleAllEffect(s.calls, s.line.queue);
    DiscardKeepsPlaces(s.line, s.calls);
    assert s.calls.admissions == map[];
    var c := CallsAfter(maxQueue, s, FinishStop);
    forall t | t in c.futures ensures !c.futures[t].Pending? {
      if Unsettled(c, t) {
        assert false;
      }
    }
  }

  lemma StoppedStays(maxQueue: int, s: State, e: Event)
    requires Stopped(s) && Enabled(maxQueue, s, e) && !e.Start? && !e.FinishStop?
    ensures Stopped(Step(maxQueue, s, e))
    ensures CallsAfter(maxQueue, s, e).futures == s.calls.futures
  {
  }

  /**
    When `stop` has returned every future is settled, and until the writer is started again no further call
    of write_and_wait is admitted, so no caller can be stranded.
   */
  lemma {:induction false} StopStrandsNobody(maxQueue: int, es: seq<Event>, n: nat)
    requires Valid(maxQueue, es) && 0 < n <= |es| && es[n - 1].FinishStop?
    requires forall k :: n <= k < |es| ==> !es[k].Start?
    ensures Valid(maxQueue, es[..n])
    ensures Stopped(Run(maxQueue, es))
    ensures Run(maxQueue, es).calls.futures == Run(maxQueue, es[..n]).calls.futures
  {
    var pre := es[..|es| - 1];
    HeldInExactlyOnePlace(maxQueue, pre);
    if n == |es| {
      assert es[..n] == es;
      FinishStopSettlesAll(maxQueue, Run(maxQueue, pre));
    } else {
      assert pre[..n] == es[..n];
      StopStrandsNobody(maxQueue, pre, n);
      var s := Run(maxQueue, pre);
      if es[|es| - 1].FinishStop? {
        FinishStopSettlesAll(maxQueue, s);
        NothingToSettle(s.calls, s.line.queue);
      } else {
        StoppedStays(maxQueue, s, es[|es| - 1]);
      }
    }
  }

  lemma NothingToSettle(c: Calls, items: seq<Item>)
    requires forall t :: t in c.futures ==> !c.futures[t].Pending?
    ensures SettleAll(c, items) == c
  {
  }

  // ---- what an acknowledgement means ----------------------------------------------------------------------

  ghost predicate SavedMeansSaved(line: Line, c: Calls) {
    forall t :: t in c.futures && c.futures[t].Saved? ==>
      t in c.requests && c.requests[t].Ack? && Save(c.requests[t].job, c.requests[t].version, Some(t)) in line.saved
  }

  lemma SaveKeepsSavedMeansSaved(line: Line, c: Calls, ok: bool)
    requires line.consumer.Saving? && ConsumerOk(line, c) && SavedMeansSaved(line, c)
    ensures SavedMeansSaved(FinishSave(line, ok), SettleTaken(c, line.consumer, if ok then Saved else Failed))
  {
    var c' := SettleTaken(c, line.consumer, if ok then Saved else Failed);
    forall t | t in c'.futures && c'.futures[t].Saved?
      ensures t in c.requests && c.requests[t].Ack?
      ensures Save(c.requests[t].job, c.requests[t].version, Some(t)) in FinishSave(line, ok).saved
    {
      if c.futures[t].Saved? {
        assert Save(c.requests[t].job, c.requests[t].version, Some(t)) in line.saved;
      } else {
        assert AtConsumer(line, t) && ok;
        assert FinishSave(line, ok).saved[|line.saved|] == InHand(line.consumer);
      }
    }
  }

  lemma StepKeepsSavedMeansSaved(maxQueue: int, s: State, e: Event)
    requires Inv(s) && Enabled(maxQueue, s, e) && SavedMeansSaved(s.line, s.calls)
    ensures SavedMeansSaved(LineAfter(maxQueue, s, e), CallsAfter(maxQueue, s, e))
  {
    if e.SaveDone? {
      SaveKeepsSavedMeansSaved(s.line, s.calls, e.ok);
      return;
    }
    if e.FinishStop? {
      SettleAllSaved(s.calls, s.line.queue);
      return;
    }
    OthersSaveNothing(maxQueue, s, e);
  }

  lemma OthersSaveNothing(maxQueue: int, s: State, e: Event)
    requires Inv(s) && Enabled(maxQueue, s, e) && !e.SaveDone? && !e.FinishStop?
    ensures LineAfter(maxQueue, s, e).saved == s.line.saved
    ensures
      var c, c' := s.calls, CallsAfter(maxQueue, s, e);
      && (forall t :: t in c.requests ==> t in c'.requests && c'.requests[t] == c.requests[t])
      && (forall t :: t in c'.futures && c'.futures[t].Saved? ==> t in c.futures && c.futures[t].Saved?)
  {
  }

  lemma {:induction false} SettleAllSaved(c: Calls, items: seq<Item>)
    ensures var c' := SettleAll(c, items);
      && c'.requests == c.requests && c'.futures.Keys == c.futures.Keys
      && (forall t :: t in c'.futures && c'.futures[t].Saved? ==> c.futures[t].Saved?)
  {
    if items != [] {
      SettleAllSaved(c, items[..|items| - 1]);
    }
  }

  /** A caller returns normally only if the registry saved exactly the payload it handed in. */
  lemma {:induction false} AcknowledgedMeansSaved(maxQueue: int, es: seq<Event>)
    requires Valid(maxQueue, es)
    ensures SavedMeansSaved(Run(maxQueue, es).line, Run(maxQueue, es).calls)
  {
    if es != [] {
      AcknowledgedMeansSaved(maxQueue, es[..|es| - 1]);
      HeldInExactlyOnePlace(maxQueue, es[..|es| - 1]);
      StepKeepsSavedMeansSaved(maxQueue, Run(maxQueue, es[..|es| - 1]), es[|es| - 1]);
    }
  }

  // ---- acknowledged writes are first in, first out --------------------------------------------------------

  function QueueTickets(items: seq<Item>): seq<Ticket> {
    if items == [] then []
    else if items[0].Ack? then [items[0].ticket] + QueueTickets(items[1..])
    else QueueTickets(items[1..])
  }

  function HandedTickets(saves: seq<Save>): seq<Ticket> {
    if saves == [] then []
    else
      var earlier := HandedTickets(saves[..|saves| - 1]);
      var last := saves[|saves| - 1];
      if last.ticket.Some? then earlier + [last.ticket.value] else earlier
  }

  /** The acknowledged requests in the order they were, or will be, handed to the registry. */
  function ServiceOrder(line: Line): seq<Ticket> {
    HandedTickets(line.handed) + QueueTickets(line.queue)
  }

  lemma {:induction false} QueueTicketsAppend(items: seq<Item>, x: Item)
    ensures QueueTickets(items + [x]) == QueueTickets(items) + if x.Ack? then [x.ticket] else []
  {
    if items == [] {
      assert ([x] + [])[1..] == [];
      assert items + [x] == [x];
    } else {
      assert (items + [x])[1..] == items[1..] + [x];
      QueueTicketsAppend(items[1..], x);
    }
  }

  lemma TakeKeepsServiceOrder(line: Line)
    requires line.queue != []
    ensures ServiceOrder(TakeItem(line)) == ServiceOrder(line)
  {
    var line' := TakeItem(line);
    if |line'.handed| > |line.handed| {
      assert line'.handed[..|line'.handed| - 1] == line.handed;
    }
  }

  lemma RecordKeepsServiceOrder(line: Line, maxQueue: int, j: JobId, v: Version)
    ensures ServiceOrder(Record(line, maxQueue, j, v)) == ServiceOrder(line)
  {
    QueueTicketsAppend(line.queue, Token(j));
  }

  lemma AppendExtendsServiceOrder(line: Line, item: Item)
    requires item.Ack?
    ensures ServiceOrder(Append(line, item)) == ServiceOrder(line) + [item.ticket]
  {
    QueueTicketsAppend(line.queue, item);
  }

  lemma DiscardCutsServiceOrder(line: Line)
    requires Subsequence(ServiceOrder(line), line.entered)
    ensures Subsequence(ServiceOrder(Discard(line)), line.entered)
  {
    var order, n := ServiceOrder(line), |HandedTickets(line.handed)|;
    SubsequencePrefix(order, line.entered, n);
    assert ServiceOrder(Discard(line)) == order[..n];
  }

  lemma StepKeepsServiceOrder(maxQueue: int, s: State, e: Event)
    requires CallsOk(s.calls) && Enabled(maxQueue, s, e)
    requires Subsequence(ServiceOrder(s.line), s.line.entered)
    ensures Subsequence(ServiceOrder(LineAfter(maxQueue, s, e)), LineAfter(maxQueue, s, e).entered)
  {
    match e
    case Enqueue(j, v) => RecordKeepsServiceOrder(s.line, maxQueue, j, v);
    case Put(t) =>
      AppendExtendsServiceOrder(s.line, s.calls.requests[t]);
      assert ServiceOrder(LineAfter(maxQueue, s, e)) == ServiceOrder(s.line) + [t];
      SubsequenceBothGrow(ServiceOrder(s.line), s.line.entered, t);
    case Take => TakeKeepsServiceOrder(s.line);
    case FinishStop => DiscardCutsServiceOrder(s.line);
    case _ =>
  }

  /** What is saved is part of what was handed over, in the same order and without the save in hand. */
  predicate SavedInOrder(line: Line) {
    if line.consumer.Saving? then
      && line.handed != [] && line.handed[|line.handed| - 1] == InHand(line.consumer)
      && Subsequence(line.saved, line.handed[..|line.handed| - 1])
    else Subsequence(line.saved, line.handed)
  }

  lemma SaveEndsInOrder(line: Line)
    requires line.consumer.Saving? && SavedInOrder(line)
    ensures Subsequence(line.saved, line.handed)
    ensures Subsequence(line.saved + [InHand(line.consumer)], line.handed)
  {
    var earlier, last := line.handed[..|line.handed| - 1], line.handed[|line.handed| - 1];
    assert earlier + [last] == line.handed;
    SubsequenceBothGrow(line.saved, earlier, last);
    SubsequenceGrow(line.saved, earlier, last);
  }

  lemma TakeIsInOrder(line: Line)
    requires line.consumer.Idle? && line.queue != [] && SavedInOrder(line)
    ensures SavedInOrder(TakeItem(line))
  {
    var line' := TakeItem(line);
    assert line'.consumer.Saving? ==> line'.handed[..|line'.handed| - 1] == line.handed;
  }

  lemma StepKeepsSavedInOrder(maxQueue: int, s: State, e: Event)
    requires Enabled(maxQueue, s, e) && SavedInOrder(s.line)
    ensures SavedInOrder(LineAfter(maxQueue, s, e))
  {
    if s.line.consumer.Saving? {
      SaveEndsInOrder(s.line);
    } else if e.Take? {
      TakeIsInOrder(s.line);
    }
  }

  lemma {:induction false} SavesGiveTickets(a: seq<Save>, b: seq<Save>)
    requires Subsequence(a, b)
    ensures Subsequence(HandedTickets(a), HandedTickets(b))
  {
    if a != [] {
      var b', last := b[..|b| - 1], b[|b| - 1];
      if a[|a| - 1] == last && Subsequence(a[..|a| - 1], b') {
        SavesGiveTickets(a[..|a| - 1], b');
        if last.ticket.Some? {
          SubsequenceBothGrow(HandedTickets(a[..|a| - 1]), HandedTickets(b'), last.ticket.value);
        }
      } else {
        SavesGiveTickets(a, b');
        if last.ticket.Some? {
          SubsequenceGrow(HandedTickets(a), HandedTickets(b'), last.ticket.value);
        }
      }
    }
  }

  lemma {:induction false} RunKeepsOrder(maxQueue: int, es: seq<Event>)
    requires Valid(maxQueue, es)
    ensures
      var line := Run(maxQueue, es).line;
      Subsequence(ServiceOrder(line), line.entered) && SavedInOrder(line)
  {
    if es != [] {
      var s := Run(maxQueue, es[..|es| - 1]);
      RunKeepsOrder(maxQueue, es[..|es| - 1]);
      HeldInExactlyOnePlace(maxQueue, es[..|es| - 1]);
      StepKeepsServiceOrder(maxQueue, s, es[|es| - 1]);
      StepKeepsSavedInOrder(maxQueue, s, es[|es| - 1]);
    }
  }

  lemma HandedInOrder(line: Line)
    requires Subsequence(ServiceOrder(line), line.entered)
    ensures Subsequence(HandedTickets(line.handed), line.entered)
  {
    SubsequencePrefix(ServiceOrder(line), line.entered, |HandedTickets(line.handed)|);
    assert ServiceOrder(line)[..|HandedTickets(line.handed)|] == HandedTickets(line.handed);
  }

  lemma SavedIsHanded(line: Line)
    requires SavedInOrder(line)
    ensures Subsequence(line.saved, line.handed)
  {
    if line.consumer.Saving? {
      var earlier, last := line.handed[..|line.handed| - 1], line.handed[|line.handed| - 1];
      assert earlier + [last] == line.handed;
      SubsequenceGrow(line.saved, earlier, last);
    }
  }

  /**
    Acknowledged writes are handed to the registry, and those whose save succeeds are saved, in the order in which
    they entered the queue.
   */
  lemma AcknowledgedWritesAreFifo(maxQueue: int, es: seq<Event>)
    requires Valid(maxQueue, es)
    ensures
      var line := Run(maxQueue, es).line;
      && Subsequence(ServiceOrder(line), line.entered)
      && Subsequence(HandedTickets(line.handed), line.entered)
      && Subsequence(HandedTickets(line.saved), line.entered)
  {
    var line := Run(maxQueue, es).line;
    RunKeepsOrder(maxQueue, es);
    HandedInOrder(line);
    SavedIsHanded(line);
    SavesGiveTickets(line.saved, line.handed);
    SubsequenceTransitive(HandedTickets(line.saved), HandedTickets(line.handed), line.entered);
  }
}
