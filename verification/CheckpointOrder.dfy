/**
  In which order the checkpoint writer hands the versions of one job to the registry.

  The order promised by the writer (an older snapshot never overwrites a newer one) is exact only under a
  condition on the callers. This module gives the condition both ways at the level of single steps, and the
  calling discipline that implies it.
 */
module CheckpointOrder {
  import opened Sequences
  import opened CheckpointWriter
  import opened AcknowledgedWrites

  /** The versions of job j among saves. */
  function VersionsOf(saves: seq<Save>, j: JobId): seq<Version> {
    if saves == [] then []
    else
      var earlier := VersionsOf(saves[..|saves| - 1], j);
      if saves[|saves| - 1].job == j then earlier + [saves[|saves| - 1].version] else earlier
  }

  /** The versions of the acknowledged requests for job j among items. */
  function AckVersions(items: seq<Item>, j: JobId): seq<Version> {
    if items == [] then []
    else if items[0].Ack? && items[0].job == j then [items[0].version] + AckVersions(items[1..], j)
    else AckVersions(items[1..], j)
  }

  predicate HasToken(items: seq<Item>, j: JobId) {
    items != [] && (items[0] == Token(j) || HasToken(items[1..], j))
  }

  /** The acknowledged versions of j that stand before its first coalescing token. */
  function Before(items: seq<Item>, j: JobId): seq<Version> {
    if items == [] || items[0] == Token(j) then []
    else if items[0].Ack? && items[0].job == j then [items[0].version] + Before(items[1..], j)
    else Before(items[1..], j)
  }

  /** The acknowledged versions of j that stand behind its first coalescing token. */
  function Behind(items: seq<Item>, j: JobId): seq<Version> {
    if items == [] then []
    else if items[0] == Token(j) then AckVersions(items[1..], j)
    else Behind(items[1..], j)
  }

  /** The first token of j stands for the latest snapshot of j, later ones for nothing. */
  function Coalesced(items: seq<Item>, latest: map<JobId, Version>, j: JobId): seq<Version> {
    if HasToken(items, j) && j in latest then [latest[j]] else []
  }

  /** What the queue still holds for job j, in service order. */
  function Waiting(items: seq<Item>, latest: map<JobId, Version>, j: JobId): seq<Version> {
    Before(items, j) + Coalesced(items, latest, j) + Behind(items, j)
  }

  /** Everything handed to the registry for job j followed by everything the queue holds for it. */
  function Chain(line: Line, j: JobId): seq<Version> {
    VersionsOf(line.handed, j) + Waiting(line.queue, line.latest, j)
  }

  lemma BeforeAndBehind(items: seq<Item>, j: JobId)
    ensures Before(items, j) + Behind(items, j) == AckVersions(items, j)
  {
  }

  /** Taking an item of another job changes nothing for j. */
  lemma TakeOther(items: seq<Item>, latest: map<JobId, Version>, j: JobId)
    requires items != [] && items[0].job != j
    ensures Waiting(items, latest, j) == Waiting(items[1..], latest, j)
    ensures Waiting(items[1..], latest - {items[0].job}, j) == Waiting(items[1..], latest, j)
  {
  }

  /** Taking the front item of j moves the version it stands for, if any, out of the queue. */
  lemma TakeOwn(items: seq<Item>, latest: map<JobId, Version>, j: JobId)
    requires items != [] && items[0].job == j
    ensures items[0].Ack? ==> Waiting(items, latest, j) == [items[0].version] + Waiting(items[1..], latest, j)
    ensures items[0].Token? && j in latest ==>
              Waiting(items, latest, j) == [latest[j]] + Waiting(items[1..], latest - {j}, j)
    ensures items[0].Token? && j !in latest ==> Waiting(items, latest, j) == Waiting(items[1..], latest, j)
  {
    var rest := items[1..];
    if items[0].Token? {
      BeforeAndBehind(rest, j);
      assert Before(rest, j) + [] == Before(rest, j);
      assert Before(items, j) == [] && Behind(items, j) == AckVersions(rest, j);
    } else {
      Reassociate([items[0].version], Before(rest, j), Coalesced(rest, latest, j));
      Reassociate([items[0].version], Before(rest, j) + Coalesced(rest, latest, j), Behind(rest, j));
    }
  }

  lemma HandOver(saves: seq<Save>, x: Save, j: JobId)
    ensures VersionsOf(saves + [x], j) ==
            if x.job == j then VersionsOf(saves, j) + [x.version] else VersionsOf(saves, j)
  {
    assert (saves + [x])[..|saves|] == saves;
  }

  lemma TakeKeepsChain(line: Line, j: JobId)
    requires line.queue != []
    ensures Chain(TakeItem(line), j) == Chain(line, j)
  {
    var line' := TakeItem(line);
    if |line'.handed| > |line.handed| {
      HandOver(line.handed, line'.handed[|line.handed|], j);
    }
    if line.queue[0].job != j {
      TakeOther(line.queue, line.latest, j);
    } else {
      TakeOwn(line.queue, line.latest, j);
      Reassociate(VersionsOf(line.handed, j),
              if line.queue[0].Ack? then [line.queue[0].version] else if j in line.latest then [line.latest[j]] else [],
              Waiting(line'.queue, line'.latest, j));
    }
  }

  function IfAbout(item: Item, j: JobId): seq<Version> {
    if item.Ack? && item.job == j then [item.version] else []
  }

  lemma {:induction false} AppendAcks(items: seq<Item>, x: Item, j: JobId)
    ensures AckVersions(items + [x], j) == AckVersions(items, j) + IfAbout(x, j)
  {
    if items == [] {
      assert AckVersions([x], j) == IfAbout(x, j) && items + [x] == [x];
    } else {
      assert (items + [x])[1..] == items[1..] + [x];
      AppendAcks(items[1..], x, j);
    }
  }

  lemma {:induction false} AppendToQueue(items: seq<Item>, x: Item, j: JobId)
    ensures HasToken(items + [x], j) <==> HasToken(items, j) || x == Token(j)
    ensures Before(items + [x], j) == Before(items, j) + if HasToken(items, j) then [] else IfAbout(x, j)
    ensures Behind(items + [x], j) == Behind(items, j) + if HasToken(items, j) then IfAbout(x, j) else []
  {
    if items == [] {
      assert items + [x] == [x];
    } else {
      assert (items + [x])[1..] == items[1..] + [x];
      AppendAcks(items[1..], x, j);
      AppendToQueue(items[1..], x, j);
    }
  }

  lemma BehindNeedsToken(items: seq<Item>, j: JobId)
    requires !HasToken(items, j)
    ensures Behind(items, j) == []
  {
  }

  /** An acknowledged request goes to the end of the chain of its job. */
  lemma PutExtendsChain(line: Line, item: Item, j: JobId)
    requires item.Ack?
    ensures Chain(Append(line, item), j) == Chain(line, j) + IfAbout(item, j)
  {
    AppendToQueue(line.queue, item, j);
    if !HasToken(line.queue, j) {
      BehindNeedsToken(line.queue, j);
    }
  }

  /** A snapshot of another job changes nothing for j. */
  lemma OtherJobRecorded(line: Line, maxQueue: int, i: JobId, v: Version, j: JobId)
    requires i != j
    ensures Chain(Record(line, maxQueue, i, v), j) == Chain(line, j)
  {
    AppendToQueue(line.queue, Token(i), j);
    assert Before(line.queue + [Token(i)], j) == Before(line.queue, j);
    assert Behind(line.queue + [Token(i)], j) == Behind(line.queue, j);
  }

  /** With a token of j in the queue, a new snapshot takes the place of the coalesced one. */
  lemma RecordedAtToken(line: Line, maxQueue: int, v: Version, j: JobId)
    requires HasToken(line.queue, j)
    ensures Chain(Record(line, maxQueue, j, v), j)
            == VersionsOf(line.handed, j) + (Before(line.queue, j) + [v] + Behind(line.queue, j))
  {
    AppendToQueue(line.queue, Token(j), j);
    var queue, line' := line.queue, Record(line, maxQueue, j, v);
    assert Before(line'.queue, j) == Before(queue, j) && Behind(line'.queue, j) == Behind(queue, j);
    assert Coalesced(line'.queue, line'.latest, j) == [v];
  }

  /** Without one it goes to the end, unless the queue is full. */
  lemma RecordedAtEnd(line: Line, maxQueue: int, v: Version, j: JobId)
    requires !HasToken(line.queue, j)
    ensures Full(line, maxQueue) ==> Chain(Record(line, maxQueue, j, v), j) == Chain(line, j)
    ensures !Full(line, maxQueue) ==> Chain(Record(line, maxQueue, j, v), j) == Chain(line, j) + [v]
  {
    AppendToQueue(line.queue, Token(j), j);
    BehindNeedsToken(line.queue, j);
  }

  // ---- the exact condition on one step --------------------------------------------------------------------

  ghost predicate Ordered(line: Line, j: JobId) {
    Increasing(Chain(line, j))
  }

  /** v is newer than everything handed over or queued for j. */
  ghost predicate Newer(line: Line, j: JobId, v: Version) {
    forall x :: x in Chain(line, j) ==> x < v
  }

  /** An acknowledged request of j stands behind a token of j. */
  ghost predicate AckBehindToken(items: seq<Item>, j: JobId) {
    exists a, b :: 0 <= a < b < |items| && items[a] == Token(j) && items[b].Ack? && items[b].job == j
  }

  /** The condition on a step: what an enqueue and a landing put must find. */
  ghost predicate Guard(s: State, e: Event, j: JobId) {
    match e
    case Enqueue(i, _) => i == j ==> !AckBehindToken(s.line.queue, j)
    case Put(t) => t in s.calls.requests && IfAbout(s.calls.requests[t], j) != [] ==>
                     Newer(s.line, j, s.calls.requests[t].version)
    case _ => true
  }

  lemma {:induction false} AcksPresent(items: seq<Item>, j: JobId)
    ensures AckVersions(items, j) != [] <==> exists b :: 0 <= b < |items| && items[b].Ack? && items[b].job == j
  {
    if items != [] {
      AcksPresent(items[1..], j);
      if AckVersions(items[1..], j) != [] {
        var b :| 0 <= b < |items[1..]| && items[1..][b].Ack? && items[1..][b].job == j;
        assert items[b + 1].Ack? && items[b + 1].job == j;
      } else {
        forall b | 1 <= b < |items| ensures !(items[b].Ack? && items[b].job == j) {
          assert items[1..][b - 1] == items[b];
        }
      }
    }
  }

  lemma {:induction false} BehindMeaning(items: seq<Item>, j: JobId)
    ensures Behind(items, j) != [] <==> AckBehindToken(items, j)
  {
    if items != [] {
      var rest := items[1..];
      assert forall k :: 1 <= k < |items| ==> rest[k - 1] == items[k];
      if items[0] == Token(j) {
        AcksPresent(rest, j);
        if b :| 0 <= b < |rest| && rest[b].Ack? && rest[b].job == j {
          assert items[b + 1].Ack? && items[b + 1].job == j;
        }
      } else {
        BehindMeaning(rest, j);
        if a, b :| 0 <= a < b < |rest| && rest[a] == Token(j) && rest[b].Ack? && rest[b].job == j {
          assert items[a + 1] == Token(j) && items[b + 1].Ack? && items[b + 1].job == j;
        }
        if a, b :| 0 <= a < b < |items| && items[a] == Token(j) && items[b].Ack? && items[b].job == j {
          assert rest[a - 1] == Token(j) && rest[b - 1].Ack? && rest[b - 1].job == j;
        }
      }
    }
  }

  lemma IncreasingSnoc(c: seq<int>, v: int)
    requires Increasing(c)
    ensures Increasing(c + [v]) <==> forall x :: x in c ==> x < v
  {
    var d := c + [v];
    if Increasing(d) {
      forall x | x in c ensures x < v {
        var i :| 0 <= i < |c| && c[i] == x;
        assert d[i] == x && d[|c|] == v;
      }
    } else {
      var i, k :| 0 <= i < k < |d| && d[i] >= d[k];
      assert d[i] in c;
    }
  }

  lemma IncreasingPrefix(a: seq<int>, b: seq<int>)
    requires Increasing(a + b)
    ensures Increasing(a)
  {
    forall i, k | 0 <= i < k < |a| ensures a[i] < a[k] {
      assert (a + b)[i] == a[i] && (a + b)[k] == a[k];
    }
  }

  /** Putting the largest element in the middle keeps the order exactly when nothing follows it. */
  lemma LargestInTheMiddle(a: seq<int>, o: seq<int>, c: seq<int>, v: int)
    requires Increasing(a + (o + c)) && forall x :: x in a + (o + c) ==> x < v
    ensures Increasing(a + ([v] + c)) <==> c == []
  {
    IncreasingPrefix(a, o + c);
    if c == [] {
      assert forall x :: x in a ==> x in a + (o + c);
      IncreasingSnoc(a, v);
      assert a + ([v] + c) == a + [v];
    } else {
      assert (a + (o + c))[|a| + |o|] == c[0];
      assert c[0] in a + (o + c);
      var d := a + ([v] + c);
      assert d[|a|] == v && d[|a| + 1] == c[0];
    }
  }

  /** An enqueue of a newer snapshot keeps the order exactly when no acknowledged request stands behind a token. */
  lemma EnqueueKeepsOrderIff(line: Line, maxQueue: int, v: Version, j: JobId)
    requires Ordered(line, j) && Newer(line, j, v)
    ensures Ordered(Record(line, maxQueue, j, v), j) <==> !AckBehindToken(line.queue, j)
  {
    BehindMeaning(line.queue, j);
    if HasToken(line.queue, j) {
      var h, b, c := VersionsOf(line.handed, j), Before(line.queue, j), Behind(line.queue, j);
      var o := Coalesced(line.queue, line.latest, j);
      Reassociate(b, o, c);
      Reassociate(h, b, o + c);
      RecordedAtToken(line, maxQueue, v, j);
      Reassociate(b, [v], c);
      Reassociate(h, b, [v] + c);
      LargestInTheMiddle(h + b, o, c, v);
    } else {
      RecordedAtEnd(line, maxQueue, v, j);
      BehindNeedsToken(line.queue, j);
      IncreasingSnoc(Chain(line, j), v);
    }
  }

  /** A landing put keeps the order exactly when its version is newer than all that is queued or handed over. */
  lemma PutKeepsOrderIff(line: Line, item: Item, j: JobId)
    requires Ordered(line, j) && item.Ack? && item.job == j
    ensures Ordered(Append(line, item), j) <==> Newer(line, j, item.version)
  {
    PutExtendsChain(line, item, j);
    IncreasingSnoc(Chain(line, j), item.version);
  }

  /** The consumer left alone: it finishes the save in hand and then works through the queue. */
  function Drain(maxQueue: int, s: State): State
    requires !s.line.consumer.Off?
    decreases |s.line.queue|, if s.line.consumer.Saving? then 1 else 0
  {
    if s.line.consumer.Saving? then Drain(maxQueue, Step(maxQueue, s, SaveDone(true)))
    else if s.line.queue != [] then Drain(maxQueue, Step(maxQueue, s, Take))
    else s
  }

  /** The chain is what the registry is handed if nobody interferes. */
  lemma {:induction false} DrainHandsOutTheChain(maxQueue: int, s: State, j: JobId)
    requires !s.line.consumer.Off?
    ensures VersionsOf(Drain(maxQueue, s).line.handed, j) == Chain(s.line, j)
    decreases |s.line.queue|, if s.line.consumer.Saving? then 1 else 0
  {
    if s.line.consumer.Saving? {
      var s' := Step(maxQueue, s, SaveDone(true));
      assert Chain(s'.line, j) == Chain(s.line, j);
      DrainHandsOutTheChain(maxQueue, s', j);
    } else if s.line.queue != [] {
      TakeKeepsChain(s.line, j);
      DrainHandsOutTheChain(maxQueue, Step(maxQueue, s, Take), j);
    } else {
      assert Waiting([], s.line.latest, j) == [];
    }
  }

  // ---- runs -----------------------------------------------------------------------------------------------

  /** Snapshots of a job carry growing versions when they are given to the writer. */
  predicate Fresh(s: State, e: Event, j: JobId) {
    match e
    case Enqueue(i, v) => i == j && j in s.newest ==> v > s.newest[j]
    case WriteAndWait(_, i, v) => i == j && j in s.newest ==> v > s.newest[j]
    case _ => true
  }

  ghost predicate Guarded(maxQueue: int, es: seq<Event>, j: JobId)
    requires Valid(maxQueue, es)
  {
    es != [] ==>
      var s, e := Run(maxQueue, es[..|es| - 1]), es[|es| - 1];
      Guarded(maxQueue, es[..|es| - 1], j) && Fresh(s, e, j) && Guard(s, e, j)
  }

  /** The events that can change the chain of j. */
  predicate Touches(s: State, e: Event, j: JobId) {
    || e.FinishStop?
    || (e.Enqueue? && e.job == j)
    || (e.Put? && e.ticket in s.calls.requests && IfAbout(s.calls.requests[e.ticket], j) != [])
  }

  lemma UntouchedChain(maxQueue: int, s: State, e: Event, j: JobId)
    requires CallsOk(s.calls) && Enabled(maxQueue, s, e) && !Touches(s, e, j)
    ensures Chain(LineAfter(maxQueue, s, e), j) == Chain(s.line, j)
  {
    match e
    case Enqueue(i, v) => OtherJobRecorded(s.line, maxQueue, i, v, j);
    case Put(t) => PutExtendsChain(s.line, s.calls.requests[t], j);
    case Take => TakeKeepsChain(s.line, j);
    case _ =>
  }

  lemma DiscardedChain(line: Line, j: JobId)
    ensures Chain(line, j) == Chain(Discard(line), j) + Waiting(line.queue, line.latest, j)
  {
    assert Waiting([], line.latest, j) == [];
  }

  lemma StepKeepsOrder(maxQueue: int, s: State, e: Event, j: JobId)
    requires CallsOk(s.calls) && Enabled(maxQueue, s, e) && Ordered(s.line, j) && Guard(s, e, j)
    requires e.Enqueue? && e.job == j ==> Newer(s.line, j, e.version)
    ensures Ordered(LineAfter(maxQueue, s, e), j)
  {
    if !Touches(s, e, j) {
      UntouchedChain(maxQueue, s, e, j);
    } else if e.Enqueue? {
      EnqueueKeepsOrderIff(s.line, maxQueue, e.version, j);
    } else if e.Put? {
      PutKeepsOrderIff(s.line, s.calls.requests[e.ticket], j);
      assert Chain(LineAfter(maxQueue, s, e), j) == Chain(Append(s.line, s.calls.requests[e.ticket]), j);
    } else {
      DiscardedChain(s.line, j);
      IncreasingPrefix(Chain(Discard(s.line), j), Waiting(s.line.queue, s.line.latest, j));
    }
  }

  /** Nothing handed over, queued or requested for j is newer than the newest version accepted for it. */
  ghost predicate Bounded(s: State, j: JobId) {
    && (forall x :: x in Chain(s.line, j) ==> j in s.newest && x <= s.newest[j])
    && (forall t :: t in s.calls.requests && IfAbout(s.calls.requests[t], j) != [] ==>
          j in s.newest && s.calls.requests[t].version <= s.newest[j])
  }

  lemma RecordedVersions(line: Line, maxQueue: int, v: Version, j: JobId)
    ensures forall x :: x in Chain(Record(line, maxQueue, j, v), j) ==> x in Chain(line, j) || x == v
  {
    if HasToken(line.queue, j) {
      RecordedAtToken(line, maxQueue, v, j);
      assert forall x :: x in Before(line.queue, j) || x in Behind(line.queue, j) || x in VersionsOf(line.handed, j) ==>
          x in Chain(line, j);
    } else {
      RecordedAtEnd(line, maxQueue, v, j);
    }
  }

  lemma ChainBounded(maxQueue: int, s: State, e: Event, j: JobId)
    requires CallsOk(s.calls) && Enabled(maxQueue, s, e) && Bounded(s, j) && Fresh(s, e, j)
    ensures forall x :: x in Chain(LineAfter(maxQueue, s, e), j) ==>
              j in NewestAfter(s, e) && x <= NewestAfter(s, e)[j]
  {
    if !Touches(s, e, j) {
      UntouchedChain(maxQueue, s, e, j);
    } else if e.Enqueue? {
      RecordedVersions(s.line, maxQueue, e.version, j);
    } else if e.Put? {
      PutExtendsChain(s.line, s.calls.requests[e.ticket], j);
      assert Chain(LineAfter(maxQueue, s, e), j) == Chain(Append(s.line, s.calls.requests[e.ticket]), j);
    } else {
      DiscardedChain(s.line, j);
      assert forall x :: x in Chain(Discard(s.line), j) ==> x in Chain(s.line, j);
    }
  }

  /** Requests are only added, and only by an admitted call. */
  lemma RequestsAfter(maxQueue: int, s: State, e: Event, t: Ticket)
    requires Enabled(maxQueue, s, e) && t in CallsAfter(maxQueue, s, e).requests
    ensures
      || (t in s.calls.requests && CallsAfter(maxQueue, s, e).requests[t] == s.calls.requests[t])
      || (e.WriteAndWait? && e.ticket == t && Admits(s)
          && CallsAfter(maxQueue, s, e).requests[t] == Ack(t, e.job, e.version))
  {
    if e.FinishStop? {
      SettleAllEffect(s.calls, s.line.queue);
    }
  }

  lemma StepKeepsBounded(maxQueue: int, s: State, e: Event, j: JobId)
    requires CallsOk(s.calls) && Enabled(maxQueue, s, e) && Bounded(s, j) && Fresh(s, e, j)
    ensures Bounded(Step(maxQueue, s, e), j)
  {
    ChainBounded(maxQueue, s, e, j);
    var c := CallsAfter(maxQueue, s, e);
    forall t | t in c.requests && IfAbout(c.requests[t], j) != []
      ensures j in NewestAfter(s, e) && c.requests[t].version <= NewestAfter(s, e)[j]
    {
      RequestsAfter(maxQueue, s, e, t);
    }
  }

  lemma {:induction false} GuardedRunInvariant(maxQueue: int, es: seq<Event>, j: JobId)
    requires Valid(maxQueue, es) && Guarded(maxQueue, es, j)
    ensures Ordered(Run(maxQueue, es).line, j) && Bounded(Run(maxQueue, es), j)
  {
    if es != [] {
      var pre, e := es[..|es| - 1], es[|es| - 1];
      GuardedRunInvariant(maxQueue, pre, j);
      HeldInExactlyOnePlace(maxQueue, pre);
      StepKeepsOrder(maxQueue, Run(maxQueue, pre), e, j);
      StepKeepsBounded(maxQueue, Run(maxQueue, pre), e, j);
    }
  }

  /**
    In every run whose steps meet the guard, full queues, failed saves, cancelled callers and restarts
    included, the versions of a job reach the registry in strictly increasing order.
   */
  lemma VersionsIncrease(maxQueue: int, es: seq<Event>, j: JobId)
    requires Valid(maxQueue, es) && Guarded(maxQueue, es, j)
    ensures Increasing(VersionsOf(Run(maxQueue, es).line.handed, j))
  {
    GuardedRunInvariant(maxQueue, es, j);
    var line := Run(maxQueue, es).line;
    IncreasingPrefix(VersionsOf(line.handed, j), Waiting(line.queue, line.latest, j));
  }

  /**
    The guard is exact: after a guarded run, a fresh next step meets it if and only if the consumer, left
    alone after that step, hands the versions of the job over in increasing order.
   */
  lemma GuardIsExact(maxQueue: int, es: seq<Event>, e: Event, j: JobId)
    requires Valid(maxQueue, es) && Guarded(maxQueue, es, j)
    requires Enabled(maxQueue, Run(maxQueue, es), e) && Fresh(Run(maxQueue, es), e, j)
    requires !Run(maxQueue, es).line.consumer.Off? && !e.StopConsumer?
    ensures
      var s := Run(maxQueue, es);
      Guard(s, e, j) <==> Increasing(VersionsOf(Drain(maxQueue, Step(maxQueue, s, e)).line.handed, j))
  {
    GuardedRunInvariant(maxQueue, es, j);
    HeldInExactlyOnePlace(maxQueue, es);
    var s := Run(maxQueue, es);
    DrainHandsOutTheChain(maxQueue, Step(maxQueue, s, e), j);
    if Guard(s, e, j) {
      StepKeepsOrder(maxQueue, s, e, j);
    } else if e.Enqueue? {
      EnqueueKeepsOrderIff(s.line, maxQueue, e.version, j);
    } else {
      PutKeepsOrderIff(s.line, s.calls.requests[e.ticket], j);
      assert Chain(LineAfter(maxQueue, s, e), j) == Chain(Append(s.line, s.calls.requests[e.ticket]), j);
    }
  }

  // ---- a calling discipline that implies the guard --------------------------------------------------------

  /** An acknowledged write for j has been started and has not reached the consumer yet. */
  ghost predicate HeldFor(s: State, t: Ticket, j: JobId) {
    t in s.calls.requests && IfAbout(s.calls.requests[t], j) != [] && (Flying(s.calls, t) || Queued(s.line, t))
  }

  /** No snapshot of j is given to the writer while an acknowledged write for j is on its way. */
  ghost predicate Calm(maxQueue: int, es: seq<Event>, j: JobId)
    requires Valid(maxQueue, es)
  {
    es != [] ==>
      var s, e := Run(maxQueue, es[..|es| - 1]), es[|es| - 1];
      Calm(maxQueue, es[..|es| - 1], j) && Fresh(s, e, j) && CalmStep(s, e, j)
  }

  ghost predicate CalmStep(s: State, e: Event, j: JobId) {
    (e.Enqueue? || e.WriteAndWait?) && e.job == j ==> forall t :: !HeldFor(s, t, j)
  }

  ghost predicate Alone(s: State, j: JobId) {
    && (forall t, u :: HeldFor(s, t, j) && HeldFor(s, u, j) ==> t == u)
    && (forall t :: HeldFor(s, t, j) && Flying(s.calls, t) ==> Newer(s.line, j, s.calls.requests[t].version))
  }

  lemma CalmMeetsGuard(maxQueue: int, s: State, e: Event, j: JobId)
    requires Inv(s) && Enabled(maxQueue, s, e) && CalmStep(s, e, j) && Alone(s, j)
    ensures Guard(s, e, j)
  {
    if e.Enqueue? && e.job == j && AckBehindToken(s.line.queue, j) {
      var a, b :| 0 <= a < b < |s.line.queue| && s.line.queue[a] == Token(j)
                  && s.line.queue[b].Ack? && s.line.queue[b].job == j;
      assert QueuedAt(s.line, b, s.line.queue[b].ticket);
      assert HeldFor(s, s.line.queue[b].ticket, j);
    }
    if e.Put? && IfAbout(s.calls.requests[e.ticket], j) != [] {
      assert HeldFor(s, e.ticket, j);
    }
  }

  lemma QueuedAfter(maxQueue: int, s: State, e: Event, t: Ticket)
    requires CallsOk(s.calls) && Enabled(maxQueue, s, e) && Queued(LineAfter(maxQueue, s, e), t)
    ensures Queued(s.line, t) || (e.Put? && e.ticket == t)
  {
    var line' := LineAfter(maxQueue, s, e);
    var i :| QueuedAt(line', i, t);
    if e.Take? {
      assert QueuedAt(s.line, i + 1, t);
    } else if i < |s.line.queue| {
      assert QueuedAt(s.line, i, t);
    }
  }

  lemma FlyingAfter(maxQueue: int, s: State, e: Event, t: Ticket)
    requires Enabled(maxQueue, s, e) && Flying(CallsAfter(maxQueue, s, e), t)
    ensures (Flying(s.calls, t) && !(e.Put? && e.ticket == t)) || (e.WriteAndWait? && e.ticket == t && Admits(s))
  {
    if e.FinishStop? {
      SettleAllEffect(s.calls, s.line.queue);
    }
  }

  lemma HeldAfter(maxQueue: int, s: State, e: Event, t: Ticket, j: JobId)
    requires Inv(s) && Enabled(maxQueue, s, e) && HeldFor(Step(maxQueue, s, e), t, j)
    ensures HeldFor(s, t, j) || (e.WriteAndWait? && e.ticket == t && e.job == j && Admits(s))
  {
    RequestsAfter(maxQueue, s, e, t);
    if Queued(LineAfter(maxQueue, s, e), t) {
      QueuedAfter(maxQueue, s, e, t);
      if Queued(s.line, t) {
        var i :| QueuedAt(s.line, i, t);
        assert LandedAs(s.calls, t, s.line.queue[i]);
      }
    } else {
      FlyingAfter(maxQueue, s, e, t);
    }
  }

  lemma FlyingStaysNewest(maxQueue: int, s: State, e: Event, t: Ticket, j: JobId)
    requires Inv(s) && Enabled(maxQueue, s, e) && CalmStep(s, e, j) && Fresh(s, e, j)
    requires Alone(s, j) && Bounded(s, j)
    requires HeldFor(Step(maxQueue, s, e), t, j) && Flying(CallsAfter(maxQueue, s, e), t)
    ensures Newer(LineAfter(maxQueue, s, e), j, CallsAfter(maxQueue, s, e).requests[t].version)
  {
    FlyingAfter(maxQueue, s, e, t);
    RequestsAfter(maxQueue, s, e, t);
    if e.WriteAndWait? && e.ticket == t && Admits(s) {
      UntouchedChain(maxQueue, s, e, j);
    } else {
      assert HeldFor(s, t, j);
      if Touches(s, e, j) {
        if e.Put? {
          assert HeldFor(s, e.ticket, j);
          assert false;
        } else if e.FinishStop? {
          assert false;
        }
      } else {
        UntouchedChain(maxQueue, s, e, j);
      }
    }
  }

  lemma StepKeepsAlone(maxQueue: int, s: State, e: Event, j: JobId)
    requires Inv(s) && Enabled(maxQueue, s, e) && CalmStep(s, e, j) && Fresh(s, e, j)
    requires Alone(s, j) && Bounded(s, j)
    ensures Alone(Step(maxQueue, s, e), j)
  {
    var s' := Step(maxQueue, s, e);
    forall t, u | HeldFor(s', t, j) && HeldFor(s', u, j) ensures t == u {
      HeldAfter(maxQueue, s, e, t, j);
      HeldAfter(maxQueue, s, e, u, j);
    }
    forall t | HeldFor(s', t, j) && Flying(s'.calls, t) ensures Newer(s'.line, j, s'.calls.requests[t].version) {
      FlyingStaysNewest(maxQueue, s, e, t, j);
    }
  }

  /** Callers that keep off a job while an acknowledged write for it is on its way meet the guard throughout. */
  lemma {:induction false} CalmCallersAreGuarded(maxQueue: int, es: seq<Event>, j: JobId)
    requires Valid(maxQueue, es) && Calm(maxQueue, es, j)
    ensures Guarded(maxQueue, es, j) && Alone(Run(maxQueue, es), j)
    ensures Increasing(VersionsOf(Run(maxQueue, es).line.handed, j))
  {
    if es != [] {
      var pre, e := es[..|es| - 1], es[|es| - 1];
      CalmCallersAreGuarded(maxQueue, pre, j);
      HeldInExactlyOnePlace(maxQueue, pre);
      GuardedRunInvariant(maxQueue, pre, j);
      CalmMeetsGuard(maxQueue, Run(maxQueue, pre), e, j);
      StepKeepsAlone(maxQueue, Run(maxQueue, pre), e, j);
    }
    VersionsIncrease(maxQueue, es, j);
  }

  // ---- after drain the stored version is the newest -------------------------------------------------------

  /** The count behind `drain`: it returns when nothing is queued and nothing is being saved. */
  lemma {:induction false} UnfinishedCounts(maxQueue: int, es: seq<Event>)
    requires Valid(maxQueue, es)
    ensures var line := Run(maxQueue, es).line;
      line.unfinished == |line.queue| + if line.consumer.Saving? then 1 else 0
  {
    if es != [] {
      UnfinishedCounts(maxQueue, es[..|es| - 1]);
      UnfinishedStep(maxQueue, Run(maxQueue, es[..|es| - 1]), es[|es| - 1]);
    }
  }

  lemma UnfinishedStep(maxQueue: int, s: State, e: Event)
    requires Enabled(maxQueue, s, e)
    requires s.line.unfinished == |s.line.queue| + if s.line.consumer.Saving? then 1 else 0
    ensures var line := LineAfter(maxQueue, s, e);
      line.unfinished == |line.queue| + if line.consumer.Saving? then 1 else 0
  {
  }

  /** No full queue and no abandoned put for j, no failed save, no stop. */
  predicate SmoothStep(maxQueue: int, s: State, e: Event, j: JobId) {
    && (e.Enqueue? && e.job == j ==> !Full(s.line, maxQueue))
    && (e.SaveDone? ==> e.ok)
    && (e.CancelCaller? && e.ticket in s.calls.requests && IfAbout(s.calls.requests[e.ticket], j) != [] ==>
          !Flying(s.calls, e.ticket))
    && !e.Stop?
  }

  ghost predicate Smooth(maxQueue: int, es: seq<Event>, j: JobId)
    requires Valid(maxQueue, es)
  {
    es != [] ==>
      && Smooth(maxQueue, es[..|es| - 1], j)
      && SmoothStep(maxQueue, Run(maxQueue, es[..|es| - 1]), es[|es| - 1], j)
  }

  ghost predicate FlyingFor(s: State, t: Ticket, j: JobId) {
    t in s.calls.requests && IfAbout(s.calls.requests[t], j) != [] && Flying(s.calls, t)
  }

  /** The newest version of j is on its way to the queue, or it closes the chain. */
  ghost predicate NewestOnItsWay(s: State, j: JobId) {
    && (forall t :: FlyingFor(s, t, j) ==> j in s.newest && s.calls.requests[t].version == s.newest[j])
    && (j in s.newest && (forall t :: !FlyingFor(s, t, j)) ==> ClosesChain(s.line, j, s.newest[j]))
  }

  /** The chain of j ends with version v. */
  predicate ClosesChain(line: Line, j: JobId, v: Version) {
    var c := Chain(line, j);
    c != [] && c[|c| - 1] == v
  }

  /** Without failures and stops the registry holds everything handed over but the save in hand. */
  predicate AllSaved(s: State) {
    && s.mode.stop.NotStopping? && !s.mode.stopRequested
    && s.line.handed == s.line.saved + if s.line.consumer.Saving? then [InHand(s.line.consumer)] else []
  }

  lemma StepKeepsAllSaved(maxQueue: int, s: State, e: Event, j: JobId)
    requires Enabled(maxQueue, s, e) && AllSaved(s) && SmoothStep(maxQueue, s, e, j)
    ensures AllSaved(Step(maxQueue, s, e))
  {
  }

  lemma FlyingForAfter(maxQueue: int, s: State, e: Event, t: Ticket, j: JobId)
    requires CallsOk(s.calls) && Enabled(maxQueue, s, e) && FlyingFor(Step(maxQueue, s, e), t, j)
    ensures || (FlyingFor(s, t, j) && CallsAfter(maxQueue, s, e).requests[t] == s.calls.requests[t])
            || (e.WriteAndWait? && e.ticket == t && e.job == j && Admits(s)
                && CallsAfter(maxQueue, s, e).requests[t].version == e.version)
  {
    FlyingAfter(maxQueue, s, e, t);
    RequestsAfter(maxQueue, s, e, t);
  }

  lemma FlightsContinue(maxQueue: int, s: State, e: Event, t: Ticket, j: JobId)
    requires CallsOk(s.calls) && Enabled(maxQueue, s, e) && AllSaved(s) && SmoothStep(maxQueue, s, e, j)
    requires FlyingFor(s, t, j) && !(e.Put? && e.ticket == t)
    ensures FlyingFor(Step(maxQueue, s, e), t, j)
  {
  }

  lemma EnqueueClosesChain(line: Line, maxQueue: int, v: Version, j: JobId)
    requires !AckBehindToken(line.queue, j) && !Full(line, maxQueue)
    ensures var c := Chain(Record(line, maxQueue, j, v), j); c != [] && c[|c| - 1] == v
  {
    BehindMeaning(line.queue, j);
    if HasToken(line.queue, j) {
      RecordedAtToken(line, maxQueue, v, j);
    } else {
      RecordedAtEnd(line, maxQueue, v, j);
    }
  }

  lemma NewestStaysInFlight(maxQueue: int, s: State, e: Event, t: Ticket, j: JobId)
    requires Inv(s) && Enabled(maxQueue, s, e) && CalmStep(s, e, j) && NewestOnItsWay(s, j)
    requires FlyingFor(Step(maxQueue, s, e), t, j)
    ensures j in NewestAfter(s, e) && CallsAfter(maxQueue, s, e).requests[t].version == NewestAfter(s, e)[j]
  {
    FlyingForAfter(maxQueue, s, e, t, j);
    if FlyingFor(s, t, j) {
      assert HeldFor(s, t, j);
    }
  }

  lemma NewestClosesChain(maxQueue: int, s: State, e: Event, j: JobId)
    requires Inv(s) && Enabled(maxQueue, s, e) && Guard(s, e, j)
    requires AllSaved(s) && SmoothStep(maxQueue, s, e, j) && NewestOnItsWay(s, j)
    requires j in NewestAfter(s, e) && forall t :: !FlyingFor(Step(maxQueue, s, e), t, j)
    ensures ClosesChain(LineAfter(maxQueue, s, e), j, NewestAfter(s, e)[j])
  {
    if e.Enqueue? && e.job == j {
      EnqueueClosesChain(s.line, maxQueue, e.version, j);
    } else if e.Put? && IfAbout(s.calls.requests[e.ticket], j) != [] {
      PutClosesChain(maxQueue, s, e, j);
    } else {
      OthersLeaveChain(maxQueue, s, e, j);
    }
  }

  lemma PutClosesChain(maxQueue: int, s: State, e: Event, j: JobId)
    requires Inv(s) && Enabled(maxQueue, s, e) && NewestOnItsWay(s, j) && j in s.newest
    requires e.Put? && IfAbout(s.calls.requests[e.ticket], j) != []
    ensures ClosesChain(LineAfter(maxQueue, s, e), j, s.newest[j])
  {
    assert FlyingFor(s, e.ticket, j);
    PutExtendsChain(s.line, s.calls.requests[e.ticket], j);
    assert Chain(LineAfter(maxQueue, s, e), j) == Chain(Append(s.line, s.calls.requests[e.ticket]), j);
  }

  lemma OthersLeaveChain(maxQueue: int, s: State, e: Event, j: JobId)
    requires Inv(s) && Enabled(maxQueue, s, e) && AllSaved(s) && SmoothStep(maxQueue, s, e, j) && NewestOnItsWay(s, j)
    requires !Touches(s, e, j)
    requires j in NewestAfter(s, e) && forall t :: !FlyingFor(Step(maxQueue, s, e), t, j)
    ensures ClosesChain(LineAfter(maxQueue, s, e), j, NewestAfter(s, e)[j])
  {
    NothingFlewBefore(maxQueue, s, e, j);
    UntouchedChain(maxQueue, s, e, j);
  }

  lemma NothingFlewBefore(maxQueue: int, s: State, e: Event, j: JobId)
    requires CallsOk(s.calls) && Enabled(maxQueue, s, e) && AllSaved(s) && SmoothStep(maxQueue, s, e, j)
    requires !Touches(s, e, j) && forall t :: !FlyingFor(Step(maxQueue, s, e), t, j)
    ensures (forall t :: !FlyingFor(s, t, j)) && (j in NewestAfter(s, e) ==> j in s.newest)
    ensures j in s.newest ==> NewestAfter(s, e)[j] == s.newest[j]
  {
    forall t ensures !FlyingFor(s, t, j) {
      if FlyingFor(s, t, j) {
        FlightsContinue(maxQueue, s, e, t, j);
      }
    }
    if e.WriteAndWait? && e.job == j && Admits(s) {
      AdmittedFlies(maxQueue, s, e, j);
      assert false;
    }
  }

  lemma AdmittedFlies(maxQueue: int, s: State, e: Event, j: JobId)
    requires Enabled(maxQueue, s, e) && e.WriteAndWait? && e.job == j && Admits(s)
    ensures FlyingFor(Step(maxQueue, s, e), e.ticket, j)
  {
  }

  lemma StepKeepsNewest(maxQueue: int, s: State, e: Event, j: JobId)
    requires Inv(s) && Enabled(maxQueue, s, e) && CalmStep(s, e, j) && Guard(s, e, j)
    requires AllSaved(s) && SmoothStep(maxQueue, s, e, j) && NewestOnItsWay(s, j)
    ensures NewestOnItsWay(Step(maxQueue, s, e), j)
  {
    var s' := Step(maxQueue, s, e);
    forall t | FlyingFor(s', t, j) ensures j in s'.newest && s'.calls.requests[t].version == s'.newest[j] {
      NewestStaysInFlight(maxQueue, s, e, t, j);
    }
    if j in s'.newest && forall t :: !FlyingFor(s', t, j) {
      NewestClosesChain(maxQueue, s, e, j);
    }
  }

  lemma {:induction false} SmoothRunInvariant(maxQueue: int, es: seq<Event>, j: JobId)
    requires Valid(maxQueue, es) && Calm(maxQueue, es, j) && Smooth(maxQueue, es, j)
    ensures AllSaved(Run(maxQueue, es)) && NewestOnItsWay(Run(maxQueue, es), j)
  {
    if es != [] {
      var pre, e := es[..|es| - 1], es[|es| - 1];
      var s := Run(maxQueue, pre);
      SmoothRunInvariant(maxQueue, pre, j);
      CalmCallersAreGuarded(maxQueue, pre, j);
      HeldInExactlyOnePlace(maxQueue, pre);
      CalmMeetsGuard(maxQueue, s, e, j);
      StepKeepsAllSaved(maxQueue, s, e, j);
      StepKeepsNewest(maxQueue, s, e, j);
    }
  }

  /**
    In a smooth run of calm callers, when `drain` may return and no acknowledged write of the job is still
    being admitted, the last version the registry stored for the job is the newest one given to the writer.
   */
  lemma DrainedMeansNewestStored(maxQueue: int, es: seq<Event>, j: JobId)
    requires Valid(maxQueue, es) && Calm(maxQueue, es, j) && Smooth(maxQueue, es, j)
    requires var s := Run(maxQueue, es);
      s.line.unfinished == 0 && j in s.newest && forall t :: !FlyingFor(s, t, j)
    ensures var s := Run(maxQueue, es);
      var stored := VersionsOf(s.line.saved, j);
      stored != [] && stored[|stored| - 1] == s.newest[j]
  {
    SmoothRunInvariant(maxQueue, es, j);
    UnfinishedCounts(maxQueue, es);
    var line := Run(maxQueue, es).line;
    assert line.queue == [] && Waiting([], line.latest, j) == [];
    assert line.handed == line.saved;
  }

  // ---- why the condition is needed ------------------------------------------------------------------------

  lemma Snoc(maxQueue: int, es: seq<Event>, e: Event)
    requires Valid(maxQueue, es) && Enabled(maxQueue, Run(maxQueue, es), e)
    ensures Valid(maxQueue, es + [e]) && Run(maxQueue, es + [e]) == Step(maxQueue, Run(maxQueue, es), e)
  {
    assert (es + [e])[..|es|] == es;
  }

  /**
    The consumer is inside save_checkpoint of another job. So what the callers do next is done before it looks at
    the queue again, and their helper tasks run before it is resumed.
   */
  const BUSY: seq<Event> := [Start, Enqueue(8, 1), Take]
  const BUSY_LINE := Line([], 1, map[], Saving(8, 1, None), [], [Save(8, 1, None)], [])
  const ACCEPTING := Mode(true, NotStopping, false)

  lemma AfterBusy(maxQueue: int)
    ensures Valid(maxQueue, BUSY)
    ensures Run(maxQueue, BUSY) == State(BUSY_LINE, NO_CALLS, ACCEPTING, map[8 := 1])
  {
    Snoc(maxQueue, [], Start);
    assert [] + [Start] == [Start];
    Snoc(maxQueue, [Start], Enqueue(8, 1));
    var es := [Start] + [Enqueue(8, 1)];
    var s := Run(maxQueue, es);
    assert s.line == EMPTY_LINE.(queue := [Token(8)], unfinished := 1, latest := map[8 := 1], consumer := Idle);
    Snoc(maxQueue, es, Take);
    assert es + [Take] == BUSY;
    assert Run(maxQueue, BUSY).line == BUSY_LINE;
  }

  /** During that save version 1 of job 0 is enqueued, and the acknowledged version 2 behind it. */
  const MIXED: seq<Event> := BUSY + [Enqueue(0, 1)] + [WriteAndWait(0, 0, 2)] + [Put(0)]

  lemma AfterMixed()
    ensures Valid(512, MIXED)
    ensures var s := Run(512, MIXED);
      && s.line.queue == [Token(0), Ack(0, 0, 2)] && s.line.latest == map[0 := 1]
      && s.line.handed == [Save(8, 1, None)] && s.line.consumer == Saving(8, 1, None)
      && s.calls.futures == map[0 := Pending] && 0 in s.calls.admissions
      && !s.calls.admissions[0].collecting && s.calls.admissions[0].put == Landed
  {
    AfterBusy(512);
    Snoc(512, BUSY, Enqueue(0, 1));
    var es := BUSY + [Enqueue(0, 1)];
    assert Run(512, es).line == BUSY_LINE.(queue := [Token(0)], unfinished := 2, latest := map[0 := 1]);
    Snoc(512, es, WriteAndWait(0, 0, 2));
    es := es + [WriteAndWait(0, 0, 2)];
    assert Run(512, es).calls == Open(NO_CALLS, 0, Ack(0, 0, 2));
    Snoc(512, es, Put(0));
  }

  /** An enqueue between the start and the completion of an acknowledged write: version 3 is saved before 2. */
  lemma EnqueueInsideWriteReorders()
    ensures Valid(512, MIXED + [Enqueue(0, 3)])
    ensures !Run(512, MIXED + [Enqueue(0, 3)]).line.consumer.Off?
    ensures VersionsOf(Drain(512, Run(512, MIXED + [Enqueue(0, 3)])).line.handed, 0) == [3, 2]
  {
    AfterMixed();
    Snoc(512, MIXED, Enqueue(0, 3));
    var s := Run(512, MIXED + [Enqueue(0, 3)]);
    assert s.line.queue == [Token(0), Ack(0, 0, 2), Token(0)] && s.line.latest == map[0 := 3];
    DrainHandsOutTheChain(512, s, 0);
    MixedChain(s.line);
  }

  lemma MixedChain(line: Line)
    requires line.queue == [Token(0), Ack(0, 0, 2), Token(0)] && line.latest == map[0 := 3]
    requires line.handed == [Save(8, 1, None)]
    ensures Chain(line, 0) == [3, 2]
  {
    var q1 := line.queue[1..];
    var q2 := q1[1..];
    assert q1 == [Ack(0, 0, 2), Token(0)] && q2 == [Token(0)] && q2[1..] == [];
    assert AckVersions(q2, 0) == [];
    assert AckVersions(q1, 0) == [2];
    assert Behind(line.queue, 0) == [2] && Before(line.queue, 0) == [] && HasToken(line.queue, 0);
    OtherJobHanded(line.handed, 8, 0);
  }

  lemma OtherJobHanded(handed: seq<Save>, i: JobId, j: JobId)
    requires |handed| == 1 && handed[0].job == i != j
    ensures VersionsOf(handed, j) == []
  {
    assert handed[..0] == [];
  }

  /**
    It is not enough to wait until the acknowledged write is settled: when its caller is cancelled its
    future is, but its request stays in the queue and is still saved after the newer snapshot.
   */
  lemma CancelledCallerReorders()
    ensures Valid(512, MIXED + [CancelCaller(0)] + [Enqueue(0, 3)])
    ensures Run(512, MIXED + [CancelCaller(0)]).calls.futures == map[0 := Cancelled]
    ensures !Run(512, MIXED + [CancelCaller(0)] + [Enqueue(0, 3)]).line.consumer.Off?
    ensures VersionsOf(Drain(512, Run(512, MIXED + [CancelCaller(0)] + [Enqueue(0, 3)])).line.handed, 0) == [3, 2]
  {
    AfterCancelled();
    var es := MIXED + [CancelCaller(0)];
    Snoc(512, es, Enqueue(0, 3));
    var s := Run(512, es + [Enqueue(0, 3)]);
    assert s.line.queue == [Token(0), Ack(0, 0, 2), Token(0)] && s.line.latest == map[0 := 3];
    DrainHandsOutTheChain(512, s, 0);
    MixedChain(s.line);
  }

  lemma AfterCancelled()
    ensures Valid(512, MIXED) && Valid(512, MIXED + [CancelCaller(0)])
    ensures
      var s := Run(512, MIXED + [CancelCaller(0)]);
      && s.calls.futures == map[0 := Cancelled]
      && s.line.queue == [Token(0), Ack(0, 0, 2)] && s.line.latest == map[0 := 1]
      && s.line.handed == [Save(8, 1, None)] && s.line.consumer == Saving(8, 1, None)
  {
    AfterMixed();
    Snoc(512, MIXED, CancelCaller(0));
  }

  /**
    A queue of one place. During the save of job 8 a snapshot of job 9 fills the queue and two acknowledged writes
    of job 0 arrive, the second just before the consumer is resumed.
   */
  const CROWDED: seq<Event> := BUSY + [Enqueue(9, 1)] + [WriteAndWait(0, 0, 1)] + [WriteAndWait(1, 0, 2)]

  lemma AfterCrowded()
    ensures Valid(1, CROWDED)
    ensures
      var s := Run(1, CROWDED);
      && s.line == BUSY_LINE.(queue := [Token(9)], unfinished := 2, latest := map[9 := 1])
      && s.calls == Open(Open(NO_CALLS, 0, Ack(0, 0, 1)), 1, Ack(1, 0, 2))
  {
    AfterBusy(1);
    Snoc(1, BUSY, Enqueue(9, 1));
    var es := BUSY + [Enqueue(9, 1)];
    assert Run(1, es).line == BUSY_LINE.(queue := [Token(9)], unfinished := 2, latest := map[9 := 1]);
    Snoc(1, es, WriteAndWait(0, 0, 1));
    es := es + [WriteAndWait(0, 0, 1)];
    assert Run(1, es).calls == Open(NO_CALLS, 0, Ack(0, 0, 1));
    Snoc(1, es, WriteAndWait(1, 0, 2));
  }

  /** The consumer ends its save and frees the place; the younger put takes it before the older one has woken up. */
  const FREED: seq<Event> := CROWDED + [SaveDone(true)] + [Take]
  const OVERTAKEN: seq<Event> := FREED + [Put(1)] + [SaveDone(true)] + [Take] + [Put(0)]

  lemma AfterFreed()
    ensures Valid(1, FREED)
    ensures
      var s := Run(1, FREED);
      && s.line == Line([], 1, map[], Saving(9, 1, None), [], [Save(8, 1, None), Save(9, 1, None)], [Save(8, 1, None)])
      && s.calls == Open(Open(NO_CALLS, 0, Ack(0, 0, 1)), 1, Ack(1, 0, 2))
  {
    AfterCrowded();
    Snoc(1, CROWDED, SaveDone(true));
    var es := CROWDED + [SaveDone(true)];
    assert Run(1, es).line == Line([Token(9)], 1, map[9 := 1], Idle, [], [Save(8, 1, None)], [Save(8, 1, None)]);
    Snoc(1, es, Take);
    assert [Save(8, 1, None)] + [Save(9, 1, None)] == [Save(8, 1, None), Save(9, 1, None)];
  }

  /** The younger request is in the queue, the older one still waits for a place. */
  lemma AfterYounger()
    ensures Valid(1, FREED + [Put(1)])
    ensures
      var s := Run(1, FREED + [Put(1)]);
      && s.line.queue == [Ack(1, 0, 2)] && s.line.latest == map[] && s.line.consumer == Saving(9, 1, None)
      && s.line.handed == [Save(8, 1, None), Save(9, 1, None)]
      && Flying(s.calls, 0) && 0 in s.calls.requests && s.calls.requests[0] == Ack(0, 0, 1)
  {
    AfterFreed();
    Snoc(1, FREED, Put(1));
  }

  lemma AfterOvertaken()
    ensures Valid(1, OVERTAKEN)
    ensures
      var line := Run(1, OVERTAKEN).line;
      && line.queue == [Ack(0, 0, 1)] && !line.consumer.Off?
      && line.handed == [Save(8, 1, None), Save(9, 1, None), Save(0, 2, Some(1))]
  {
    AfterYounger();
    var es := FREED + [Put(1)];
    Snoc(1, es, SaveDone(true));
    es := es + [SaveDone(true)];
    assert Run(1, es).line.queue == [Ack(1, 0, 2)];
    Snoc(1, es, Take);
    es := es + [Take];
    var s := Run(1, es);
    assert s.line.queue == [] && Flying(s.calls, 0) && s.calls.requests[0] == Ack(0, 0, 1);
    Snoc(1, es, Put(0));
  }

  /**
    Without a single enqueue for the job: a put woken by the consumer can be overtaken by a younger put that
    finds the place free, so overlapping acknowledged writes of one job at a full queue are saved as 2, then 1.
   */
  lemma OverlappingWritesReorder()
    ensures Valid(1, OVERTAKEN) && !Run(1, OVERTAKEN).line.consumer.Off?
    ensures VersionsOf(Drain(1, Run(1, OVERTAKEN)).line.handed, 0) == [2, 1]
  {
    AfterOvertaken();
    var s := Run(1, OVERTAKEN);
    DrainHandsOutTheChain(1, s, 0);
    OvertakenChain(s.line);
  }

  lemma OvertakenChain(line: Line)
    requires line.queue == [Ack(0, 0, 1)]
    requires line.handed == [Save(8, 1, None), Save(9, 1, None), Save(0, 2, Some(1))]
    ensures Chain(line, 0) == [2, 1]
  {
    AckAlone(0, 0, 1, line.latest);
    var earlier := [Save(8, 1, None), Save(9, 1, None)];
    VersionsOfSnoc([], Save(8, 1, None), 0);
    assert [] + [Save(8, 1, None)] == [Save(8, 1, None)];
    VersionsOfSnoc([Save(8, 1, None)], Save(9, 1, None), 0);
    assert [Save(8, 1, None)] + [Save(9, 1, None)] == earlier;
    VersionsOfSnoc(earlier, Save(0, 2, Some(1)), 0);
    assert earlier + [Save(0, 2, Some(1))] == line.handed;
  }

  lemma VersionsOfSnoc(saves: seq<Save>, save: Save, j: JobId)
    ensures VersionsOf(saves + [save], j) == VersionsOf(saves, j) + if save.job == j then [save.version] else []
  {
    assert (saves + [save])[..|saves|] == saves;
  }

  lemma AckAlone(t: Ticket, j: JobId, v: Version, latest: map<JobId, Version>)
    ensures Waiting([Ack(t, j, v)], latest, j) == [v]
  {
    var items := [Ack(t, j, v)];
    assert items[1..] == [] && !HasToken(items[1..], j) && Before(items[1..], j) == Behind(items[1..], j) == [];
    assert Before(items, j) == [v] && Behind(items, j) == [] && !HasToken(items, j);
  }
}
