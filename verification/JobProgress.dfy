/**
  The progress of a job over its sheets (core/checkpoint.py, CheckpointState): the status of every sheet, the
  watermark of the last completed one, and the sheet to run next. The manager (daemon/manager.py) also writes the
  watermark, as a count, when it persists a job, and puts interrupted sheets back when it recovers one.
 */
module JobProgress {
  import opened Sequences

  datatype SheetStatus = Pending | Ready | Dispatched | InProgress | Waiting | RetryScheduled | Fermata | Completed
    | Failed | Skipped | SheetCancelled

  datatype JobStatus = Created | Running | JobCompleted | JobFailed | Paused | PausedAtChain | Cancelled

  type Sheets = map<int, SheetStatus>

  datatype Job = Job(status: JobStatus, current: Option<int>, last: int, sheets: Sheets)

  datatype Event =
    | Start(n: int)
    | Complete(n: int)
    | Fail(n: int)
    | Skip(n: int)
    | Crash(saved: nat)   // the job is loaded again as it was after that many events of the run
    | Recover             // the interrupted sheets of a loaded job are pending again
    | Persist             // the watermark becomes the number of completed sheets

  predicate HasNumber(e: Event) {
    e.Start? || e.Complete? || e.Fail? || e.Skip?
  }

  /** The sheet can be picked up: it was never touched, or it is pending or failed. */
  predicate Open(sheets: Sheets, n: int) {
    n !in sheets || sheets[n] == Pending || sheets[n] == Failed
  }

  predicate Done(sheets: Sheets, n: int) {
    n in sheets && (sheets[n] == Completed || sheets[n] == Skipped)
  }

  /** The first open sheet of a range. */
  function FirstOpen(sheets: Sheets, from: int, total: int): (r: Option<int>)
    ensures r.Some? ==> from <= r.value <= total && Open(sheets, r.value)
    ensures forall n :: from <= n <= total && (r.Some? ==> n < r.value) ==> !Open(sheets, n)
    decreases total - from
  {
    if from > total then None
    else if Open(sheets, from) then Some(from)
    else FirstOpen(sheets, from + 1, total)
  }

  predicate Interrupted(j: Job) {
    j.current.Some? && j.current.value in j.sheets && j.sheets[j.current.value] == InProgress
  }

  function NextSheet(j: Job, total: int): Option<int> {
    if j.status == JobCompleted || j.status == Cancelled then None
    else if Interrupted(j) then j.current
    else FirstOpen(j.sheets, j.last + 1, total)
  }

  /** Every sheet of the job is completed. */
  predicate AllCompleted(sheets: Sheets, total: int) {
    forall n :: 1 <= n <= total ==> n in sheets && sheets[n] == Completed
  }

  /** What mark_sheet_completed asks: enough sheets, and none that is not completed. */
  predicate CountsAsCompleted(sheets: Sheets, total: int) {
    |sheets| >= total && forall n :: n in sheets ==> sheets[n] == Completed
  }

  function CompletedSheets(sheets: Sheets): set<int> {
    set n | n in sheets && sheets[n] == Completed
  }

  function Step(j: Job, total: int, e: Event): Job {
    match e
    case Start(n) => Job(Running, Some(n), j.last, j.sheets[n := InProgress])
    case Complete(n) =>
      var sheets := j.sheets[n := Completed];
      Job(if CountsAsCompleted(sheets, total) then JobCompleted else j.status, None,
          if n > j.last then n else j.last, sheets)
    case Fail(n) => Job(j.status, None, j.last, j.sheets[n := Failed])
    case Skip(n) => Job(j.status, None, j.last, j.sheets[n := Skipped])
    case Crash(_) => j
    case Recover =>
      j.(current := None, sheets := map n | n in j.sheets :: if j.sheets[n] == InProgress then Pending else j.sheets[n])
    case Persist => j.(last := |CompletedSheets(j.sheets)|)
  }

  /** The events that the last one builds on: a crash loses all that came after the state that was saved. */
  function Before(es: seq<Event>): (before: seq<Event>)
    requires es != []
    ensures |before| < |es| && before == es[..|before|]
  {
    var e, n := es[|es| - 1], |es| - 1;
    es[..if e.Crash? && e.saved < n then e.saved else n]
  }

  function Run(start: Job, total: int, es: seq<Event>): Job
    decreases |es|
  {
    if es == [] then start else Step(Run(start, total, Before(es)), total, es[|es| - 1])
  }

  // ---- completion in any order ----------------------------------------------------------------------------

  predicate InRange(sheets: Sheets, total: int) {
    forall n :: n in sheets ==> 1 <= n <= total
  }

  predicate EventInRange(total: int, e: Event) {
    HasNumber(e) ==> 1 <= e.n <= total
  }

  ghost function Numbers(total: nat): (s: set<int>)
    ensures forall n :: n in s <==> 1 <= n <= total
    ensures |s| == total
  {
    if total == 0 then {} else Numbers(total - 1) + {total}
  }

  /** As many sheets as the job has, all of them its own: that is every sheet of the job. */
  lemma CountingIsEnough(sheets: Sheets, total: nat)
    requires InRange(sheets, total)
    ensures CountsAsCompleted(sheets, total) <==> AllCompleted(sheets, total)
  {
    assert |sheets| == |sheets.Keys|;
    if CountsAsCompleted(sheets, total) {
      SubsetOfEqualSize(sheets.Keys, Numbers(total));
      forall n | 1 <= n <= total ensures n in sheets && sheets[n] == Completed {
        assert n in Numbers(total);
      }
    }
    if AllCompleted(sheets, total) {
      assert Numbers(total) == sheets.Keys;
    }
  }

  /**
    In any order of events: only persisting can lower the watermark, and completing a sheet completes the job
    exactly if no sheet of 1..total is left uncompleted.
   */
  lemma CompletionIsExact(j: Job, total: nat, e: Event)
    requires InRange(j.sheets, total) && EventInRange(total, e)
    ensures
      var j' := Step(j, total, e);
      && InRange(j'.sheets, total) && (!e.Persist? ==> j.last <= j'.last)
      && (j.status != JobCompleted ==> (j'.status == JobCompleted <==> e.Complete? && AllCompleted(j'.sheets, total)))
  {
    if e.Complete? {
      CountingIsEnough(j.sheets[e.n := Completed], total);
    }
  }

  lemma {:induction false} WatermarkNeverFalls(start: Job, total: nat, es: seq<Event>, n: nat)
    requires n <= |es| && forall i :: n <= i < |es| ==> !es[i].Persist? && !es[i].Crash?
    ensures Run(start, total, es[..n]).last <= Run(start, total, es).last
  {
    if n == |es| {
      assert es[..n] == es;
    } else {
      assert es[..|es| - 1][..n] == es[..n];
      WatermarkNeverFalls(start, total, es[..|es| - 1], n);
    }
  }

  /** No completed sheet lies behind the watermark. */
  predicate UpToWatermark(j: Job) {
    0 <= j.last && forall n :: n in j.sheets && j.sheets[n] == Completed ==> 1 <= n <= j.last
  }

  /** Persisting lowers the watermark if and only if it has passed a sheet that is not completed. */
  lemma PersistLowersIff(j: Job, total: nat)
    requires UpToWatermark(j)
    ensures Step(j, total, Persist).last < j.last <==>
              exists n :: 1 <= n <= j.last && n !in CompletedSheets(j.sheets)
    ensures Step(j, total, Persist).last <= j.last
  {
    var completed, passed := CompletedSheets(j.sheets), Numbers(j.last);
    assert completed <= passed;
    SubsetIsSmaller(completed, passed);
    if |completed| == |passed| {
      SubsetOfEqualSize(completed, passed);
      assert forall n :: 1 <= n <= j.last ==> n in passed;
    }
    if forall n :: 1 <= n <= j.last ==> n in completed {
      assert completed == passed;
    }
  }

  lemma {:induction false} RunStaysInRange(start: Job, total: nat, es: seq<Event>)
    requires InRange(start.sheets, total) && forall i :: 0 <= i < |es| ==> EventInRange(total, es[i])
    ensures InRange(Run(start, total, es).sheets, total)
    decreases |es|
  {
    if es != [] {
      RunStaysInRange(start, total, Before(es));
    }
  }

  /**
    Over every run of events in any order, crashes that lose events included: a job that was not complete becomes
    complete exactly by a completion after which all of its sheets are.
   */
  lemma JobCompletesExactly(start: Job, total: nat, es: seq<Event>)
    requires InRange(start.sheets, total) && forall i :: 0 <= i < |es| ==> EventInRange(total, es[i])
    requires es != [] && Run(start, total, Before(es)).status != JobCompleted
    ensures
      var j := Run(start, total, es);
      j.status == JobCompleted <==> es[|es| - 1].Complete? && AllCompleted(j.sheets, total)
  {
    RunStaysInRange(start, total, Before(es));
    CompletionIsExact(Run(start, total, Before(es)), total, es[|es| - 1]);
  }

  const NEW_JOB := Job(Created, None, 0, map[])

  // ---- sheet numbers out of range -------------------------------------------------------------------------

  predicate EventOver(numbers: set<int>, e: Event) {
    HasNumber(e) ==> e.n in numbers
  }

  ghost predicate RunOver(numbers: set<int>, es: seq<Event>) {
    forall i :: 0 <= i < |es| ==> EventOver(numbers, es[i])
  }

  /** In every run over these sheet numbers the counting rule says what it is meant to say. */
  ghost predicate CountIsExactOver(numbers: set<int>, total: nat) {
    forall es :: RunOver(numbers, es) ==>
      var sheets := Run(NEW_JOB, total, es).sheets;
      CountsAsCompleted(sheets, total) <==> AllCompleted(sheets, total)
  }

  /** The sheets of the list are completed one after the other. */
  function Completes(list: seq<int>): seq<Event> {
    if list == [] then [] else Completes(list[..|list| - 1]) + [Complete(list[|list| - 1])]
  }

  lemma {:induction false} CompletesOver(list: seq<int>, numbers: set<int>)
    requires forall n :: n in list ==> n in numbers
    ensures RunOver(numbers, Completes(list))
  {
    if list != [] {
      CompletesOver(list[..|list| - 1], numbers);
    }
  }

  /** Exactly the listed sheets are known, and all of them are completed. */
  lemma {:induction false} CompletesAll(list: seq<int>, total: nat)
    ensures
      var sheets := Run(NEW_JOB, total, Completes(list)).sheets;
      forall n :: (n in sheets <==> n in list) && (n in sheets ==> sheets[n] == Completed)
  {
    if list != [] {
      var front := list[..|list| - 1];
      CompletesAll(front, total);
      assert list == front + [list[|list| - 1]];
      assert Completes(list)[..|Completes(list)| - 1] == Completes(front);
    }
  }

  lemma {:induction false} Listing(numbers: set<int>) returns (list: seq<int>)
    ensures forall n :: n in list <==> n in numbers
    decreases |numbers|
  {
    if numbers == {} {
      list := [];
    } else {
      var n := SomeElement(numbers);
      list := Listing(numbers - {n});
      list := list + [n];
    }
  }

  /** As many sheets as the job has are completed, one of them foreign: the count is full and a sheet is missing. */
  lemma ForeignRun(chosen: set<int>, total: nat, n: int) returns (es: seq<Event>)
    requires |chosen| == total && n in chosen && !(1 <= n <= total)
    ensures RunOver(chosen, es)
    ensures
      var sheets := Run(NEW_JOB, total, es).sheets;
      sheets.Keys == chosen && CountsAsCompleted(sheets, total) && !AllCompleted(sheets, total)
  {
    var list := Listing(chosen);
    es := Completes(list);
    CompletesOver(list, chosen);
    CompletesAll(list, total);
    var sheets := Run(NEW_JOB, total, es).sheets;
    forall k ensures k in sheets <==> k in chosen {
      assert k in sheets <==> k in list;
    }
    assert sheets.Keys == chosen && |sheets| == |sheets.Keys|;
    if AllCompleted(sheets, total) {
      assert Numbers(total) <= chosen;
      SubsetOfEqualSize(Numbers(total), chosen);
      assert false;
    }
  }

  lemma {:induction false} Choose(numbers: set<int>, n: int, size: nat) returns (chosen: set<int>)
    requires n in numbers && 1 <= size <= |numbers|
    ensures chosen <= numbers && n in chosen && |chosen| == size
    decreases |numbers|
  {
    if size == |numbers| {
      chosen := numbers;
    } else {
      assert |numbers - {n}| == |numbers| - 1;
      var x := SomeElement(numbers - {n});
      chosen := Choose(numbers - {x}, n, size);
    }
  }

  /** A run over fewer numbers than the job has sheets knows fewer sheets. */
  lemma {:induction false} KnownSheets(numbers: set<int>, total: nat, es: seq<Event>)
    requires RunOver(numbers, es)
    ensures Run(NEW_JOB, total, es).sheets.Keys <= numbers
    decreases |es|
  {
    if es != [] {
      KnownSheets(numbers, total, Before(es));
    }
  }

  lemma FewAreNeverAll(numbers: set<int>, total: nat, es: seq<Event>)
    requires RunOver(numbers, es) && |numbers| < total
    ensures
      var sheets := Run(NEW_JOB, total, es).sheets;
      !CountsAsCompleted(sheets, total) && !AllCompleted(sheets, total)
  {
    KnownSheets(numbers, total, es);
    var sheets := Run(NEW_JOB, total, es).sheets;
    SubsetIsSmaller(sheets.Keys, numbers);
    assert |sheets| == |sheets.Keys|;
    if AllCompleted(sheets, total) {
      assert Numbers(total) <= sheets.Keys;
      SubsetIsSmaller(Numbers(total), sheets.Keys);
      assert false;
    }
  }

  /**
    The counting rule is exact in every run over a set of sheet numbers if and only if the numbers are the job's
    own, or too few to fill the count at all.
   */
  lemma CountIsExactIff(numbers: set<int>, total: nat)
    requires total >= 1
    ensures CountIsExactOver(numbers, total) <==> numbers <= Numbers(total) || |numbers| < total
  {
    if numbers <= Numbers(total) {
      forall es | RunOver(numbers, es)
        ensures
          var sheets := Run(NEW_JOB, total, es).sheets;
          CountsAsCompleted(sheets, total) <==> AllCompleted(sheets, total)
      {
        KnownSheets(numbers, total, es);
        CountingIsEnough(Run(NEW_JOB, total, es).sheets, total);
      }
    } else if |numbers| < total {
      forall es | RunOver(numbers, es)
        ensures
          var sheets := Run(NEW_JOB, total, es).sheets;
          CountsAsCompleted(sheets, total) <==> AllCompleted(sheets, total)
      {
        FewAreNeverAll(numbers, total, es);
      }
    } else {
      assert numbers - Numbers(total) != {};
      var n := SomeElement(numbers - Numbers(total));
      var chosen := Choose(numbers, n, total);
      var es := ForeignRun(chosen, total, n);
      assert RunOver(numbers, es);
    }
  }

  /** For a driver that can touch all sheets of the job: the rule is exact if and only if it touches no others. */
  lemma OwnSheetsIff(numbers: set<int>, total: nat)
    requires total >= 1 && Numbers(total) <= numbers
    ensures CountIsExactOver(numbers, total) <==> numbers == Numbers(total)
  {
    SubsetIsSmaller(Numbers(total), numbers);
    CountIsExactIff(numbers, total);
  }

  function UpFrom2(total: nat): (list: seq<int>)
    ensures forall n :: n in list <==> 2 <= n <= total
  {
    if total <= 1 then [] else UpFrom2(total - 1) + [total]
  }

  /**
    For every job and every foreign number: after its sheets 2 to total and then the foreign one have completed,
    the job is complete and its sheet 1 was never touched.
   */
  lemma ForeignSheetCompletesJob(total: nat, n: int)
    requires total >= 1 && !(1 <= n <= total)
    ensures
      var j := Run(NEW_JOB, total, Completes(UpFrom2(total)) + [Complete(n)]);
      j.status == JobCompleted && 1 !in j.sheets
  {
    var list, before := UpFrom2(total), Completes(UpFrom2(total));
    assert (list + [n])[..|list|] == list && Completes(list + [n]) == before + [Complete(n)];
    CompletesAll(list + [n], total);
    var sheets := Run(NEW_JOB, total, before + [Complete(n)]).sheets;
    forall k ensures k in list + [n] <==> 2 <= k <= total || k == n {
      assert k in list <==> 2 <= k <= total;
    }
    assert forall k :: k in sheets <==> k in list + [n];
    AllButTheFirst(sheets, total, n);
    LastOneCounts(before, total, n);
  }

  lemma AllButTheFirst(sheets: Sheets, total: nat, n: int)
    requires total >= 1 && !(1 <= n <= total)
    requires forall k :: (k in sheets <==> 2 <= k <= total || k == n) && (k in sheets ==> sheets[k] == Completed)
    ensures CountsAsCompleted(sheets, total)
  {
    var others := Numbers(total) - {1};
    assert 1 in Numbers(total);
    assert sheets.Keys == others + {n} && |sheets| == |sheets.Keys|;
  }

  lemma LastOneCounts(before: seq<Event>, total: nat, n: int)
    requires CountsAsCompleted(Run(NEW_JOB, total, before + [Complete(n)]).sheets, total)
    ensures Run(NEW_JOB, total, before + [Complete(n)]).status == JobCompleted
  {
    assert (before + [Complete(n)])[..|before|] == before;
  }

  /** The least of them: one sheet, and number 2. */
  lemma SecondSheetCompletesJobOfOne()
    ensures
      var j := Run(NEW_JOB, 1, [Complete(2)]);
      j.status == JobCompleted && !AllCompleted(j.sheets, 1)
  {
    ForeignSheetCompletesJob(1, 2);
    assert Completes(UpFrom2(1)) + [Complete(2)] == [Complete(2)];
  }

  // ---- the next sheet -------------------------------------------------------------------------------------

  /**
    Outside a crash, the sheet to run next is the first open one of the whole job exactly if the watermark has passed
    no open sheet.
   */
  lemma NextIsFirstOpenIff(j: Job, total: nat)
    requires j.status != JobCompleted && j.status != Cancelled && !Interrupted(j) && 0 <= j.last <= total
    ensures NextSheet(j, total) == FirstOpen(j.sheets, 1, total) <==>
              forall n :: 1 <= n <= j.last ==> !Open(j.sheets, n)
  {
  }

  /**
    For every job and every sheet but the first: completing that sheet first leaves all before it open and unnamed,
    what is named next lies behind it.
   */
  lemma OutOfOrderHidesSheets(total: nat, n: int)
    requires 2 <= n <= total
    ensures
      var j := Run(NEW_JOB, total, [Complete(n)]);
      && j.status != JobCompleted && (forall k :: 1 <= k < n ==> Open(j.sheets, k))
      && NextSheet(j, total) == if n < total then Some(n + 1) else None
  {
    assert [Complete(n)][..0] == [];
    var sheets := NEW_JOB.sheets[n := Completed];
    assert sheets.Keys == {n} && |sheets| == |sheets.Keys|;
    assert n < total ==> Open(sheets, n + 1);
  }

  /** In particular sheet 3 of 3: nothing is named, and sheets 1 and 2 are open. */
  lemma ThirdSheetFirst()
    ensures
      var j := Run(NEW_JOB, 3, [Complete(3)]);
      NextSheet(j, 3) == None && Open(j.sheets, 1) && Open(j.sheets, 2)
  {
    OutOfOrderHidesSheets(3, 3);
  }

  // ---- sequential runs ------------------------------------------------------------------------------------

  /** A driver that runs one sheet at a time: it starts the next one, and ends the one it runs. */
  predicate Sequential(j: Job, total: int, e: Event) {
    match e
    case Start(n) => NextSheet(j, total) == Some(n)
    case Complete(n) => j.current == Some(n)
    case Fail(n) => j.current == Some(n)
    case Skip(n) => j.current == Some(n) || NextSheet(j, total) == Some(n)
    case _ => true
  }

  predicate Valid(start: Job, total: int, es: seq<Event>) {
    es == [] ||
    (Valid(start, total, es[..|es| - 1]) && Sequential(Run(start, total, Before(es)), total, es[|es| - 1]))
  }

  /** A job that has not begun; its sheets may be listed already. */
  predicate IsNew(j: Job, total: int) {
    && j.status != JobCompleted && j.status != Cancelled && j.current == None && j.last == 0
    && forall n :: n in j.sheets ==> 1 <= n <= total && j.sheets[n] == Pending
  }

  /** f is the first sheet that is not done, and the only one that has been touched since. */
  predicate Frontier(j: Job, total: int, f: int) {
    && 1 <= f <= total + 1 && 0 <= j.last < f
    && (forall n :: 1 <= n < f ==> Done(j.sheets, n))
    && (forall n :: n in j.sheets ==> 1 <= n <= total)
    && (forall n :: n in j.sheets && n > f ==> j.sheets[n] == Pending)
    && (f in j.sheets ==> Open(j.sheets, f) || (j.sheets[f] == InProgress && j.current == Some(f)))
    && (j.current.Some? ==> j.current == Some(f) && f in j.sheets && j.sheets[f] == InProgress)
    && (j.status == JobCompleted ==> f == total + 1)
    && j.status != Cancelled
  }

  lemma NextIsFrontier(j: Job, total: nat, f: int)
    requires Frontier(j, total, f)
    ensures NextSheet(j, total) == if f <= total then Some(f) else None
  {
    if j.current == None && j.status != JobCompleted {
      var first := FirstOpen(j.sheets, j.last + 1, total);
      assert f <= total ==> Open(j.sheets, f);
      if first.Some? {
        assert first.value < f ==> Done(j.sheets, first.value);
      }
    }
  }

  function FrontierAfter(f: int, e: Event): int {
    if e.Complete? || e.Skip? then f + 1 else f
  }

  lemma EndKeepsFrontier(j: Job, total: nat, e: Event, f: int)
    requires Frontier(j, total, f) && (e == Complete(f) || e == Skip(f)) && f <= total
    ensures Frontier(Step(j, total, e), total, f + 1)
  {
    if e.Complete? {
      CountingIsEnough(j.sheets[f := Completed], total);
    }
    var sheets := Step(j, total, e).sheets;
    forall n | 1 <= n <= f ensures Done(sheets, n) {
      assert n < f ==> Done(j.sheets, n);
    }
  }

  lemma SaveKeepsFrontier(j: Job, total: nat, f: int)
    requires Frontier(j, total, f)
    ensures Frontier(Step(j, total, Persist), total, f)
  {
    assert CompletedSheets(j.sheets) <= Numbers(f - 1);
    SubsetIsSmaller(CompletedSheets(j.sheets), Numbers(f - 1));
  }

  lemma RecoverKeepsFrontier(j: Job, total: nat, f: int)
    requires Frontier(j, total, f)
    ensures Frontier(Step(j, total, Recover), total, f)
  {
    forall n | 1 <= n < f ensures Done(Step(j, total, Recover).sheets, n) {
      assert Done(j.sheets, n);
    }
  }

  lemma StepKeepsFrontier(j: Job, total: nat, e: Event, f: int)
    requires Frontier(j, total, f) && Sequential(j, total, e)
    ensures Frontier(Step(j, total, e), total, FrontierAfter(f, e))
  {
    NextIsFrontier(j, total, f);
    if e.Complete? || e.Skip? {
      EndKeepsFrontier(j, total, e, f);
    } else if e.Persist? {
      SaveKeepsFrontier(j, total, f);
    } else if e.Recover? {
      RecoverKeepsFrontier(j, total, f);
    } else {
      var sheets := Step(j, total, e).sheets;
      forall n | 1 <= n < f ensures Done(sheets, n) {
        assert Done(j.sheets, n);
      }
    }
  }

  function FrontierOf(es: seq<Event>): int
    decreases |es|
  {
    if es == [] then 1 else FrontierAfter(FrontierOf(Before(es)), es[|es| - 1])
  }

  lemma {:induction false} ValidPrefix(start: Job, total: int, es: seq<Event>, n: nat)
    requires n <= |es| && Valid(start, total, es)
    ensures Valid(start, total, es[..n])
  {
    if n == |es| {
      assert es[..n] == es;
    } else {
      assert es[..|es| - 1][..n] == es[..n];
      ValidPrefix(start, total, es[..|es| - 1], n);
    }
  }

  lemma {:induction false} RunKeepsFrontier(start: Job, total: nat, es: seq<Event>)
    requires IsNew(start, total) && Valid(start, total, es)
    ensures Frontier(Run(start, total, es), total, FrontierOf(es))
    decreases |es|
  {
    if es != [] {
      var before := Before(es);
      ValidPrefix(start, total, es, |before|);
      RunKeepsFrontier(start, total, before);
      StepKeepsFrontier(Run(start, total, before), total, es[|es| - 1], FrontierOf(before));
    }
  }

  /**
    In every sequential run with failures, skips, recoveries, saved counts and crashes that lose any number of the
    latest events: all sheets up to the watermark are done, and the next sheet is the first one that is not done, or
    none if there is no such sheet.
   */
  lemma SequentialRunMissesNothing(start: Job, total: nat, es: seq<Event>)
    requires IsNew(start, total) && Valid(start, total, es)
    ensures
      var j := Run(start, total, es);
      var next := NextSheet(j, total);
      && (forall n :: 1 <= n <= j.last ==> Done(j.sheets, n))
      && (next.None? ==> forall n :: 1 <= n <= total ==> Done(j.sheets, n))
      && (next.Some? ==> 1 <= next.value <= total && !Done(j.sheets, next.value)
                         && forall n :: 1 <= n < next.value ==> Done(j.sheets, n))
  {
    RunKeepsFrontier(start, total, es);
    NextIsFrontier(Run(start, total, es), total, FrontierOf(es));
  }

  // ---- the job, read off the events -----------------------------------------------------------------------

  /** What the last event about sheet n made of it; a recovery puts interrupted sheets back. */
  function SheetOf(start: Job, es: seq<Event>, n: int): Option<SheetStatus>
    decreases |es|
  {
    if es == [] then if n in start.sheets then Some(start.sheets[n]) else None
    else
      var before, e := SheetOf(start, Before(es), n), es[|es| - 1];
      if e == Start(n) then Some(InProgress)
      else if e == Complete(n) then Some(Completed)
      else if e == Fail(n) then Some(Failed)
      else if e == Skip(n) then Some(Skipped)
      else if e.Recover? && before == Some(InProgress) then Some(Pending)
      else before
  }

  /** The sheet that was started last, until one ends. */
  function CurrentOf(start: Job, es: seq<Event>): Option<int>
    decreases |es|
  {
    if es == [] then start.current
    else
      match es[|es| - 1]
      case Start(n) => Some(n)
      case Crash(_) => CurrentOf(start, Before(es))
      case Persist => CurrentOf(start, Before(es))
      case _ => None
  }

  /** The largest sheet number completed since the watermark was last counted. */
  function WatermarkOf(start: Job, total: int, es: seq<Event>): int
    decreases |es|
  {
    if es == [] then start.last
    else
      var before := WatermarkOf(start, total, Before(es));
      match es[|es| - 1]
      case Complete(n) => if n > before then n else before
      case Persist =>
        var sheets := Run(start, total, Before(es)).sheets;
        |set n | n in sheets && sheets[n].Completed?|
      case _ => before
  }

  lemma SheetStep(j: Job, total: int, e: Event, n: int, before: Option<SheetStatus>)
    requires KnownAs(j.sheets, n, before)
    ensures KnownAs(Step(j, total, e).sheets, n,
              if e == Start(n) then Some(InProgress)
              else if e == Complete(n) then Some(Completed)
              else if e == Fail(n) then Some(Failed)
              else if e == Skip(n) then Some(Skipped)
              else if e.Recover? && before == Some(InProgress) then Some(Pending)
              else before)
  {
  }

  /** Every sheet is what the last event about it made of it. */
  lemma {:induction false} SheetsAreExact(start: Job, total: int, es: seq<Event>, n: int)
    ensures KnownAs(Run(start, total, es).sheets, n, SheetOf(start, es, n))
    decreases |es|
  {
    if es != [] {
      SheetsAreExact(start, total, Before(es), n);
      SheetStep(Run(start, total, Before(es)), total, es[|es| - 1], n, SheetOf(start, Before(es), n));
    }
  }

  /** So are the current sheet and the watermark. */
  lemma {:induction false} PositionIsExact(start: Job, total: int, es: seq<Event>)
    ensures Run(start, total, es).current == CurrentOf(start, es)
    ensures Run(start, total, es).last == WatermarkOf(start, total, es)
    decreases |es|
  {
    if es != [] {
      var j := Run(start, total, Before(es));
      PositionIsExact(start, total, Before(es));
      assert CompletedSheets(j.sheets) == set k | k in j.sheets && j.sheets[k].Completed?;
    }
  }

  /** A start makes the job run; a completion that leaves as many sheets as the job has, all completed, ends it. */
  function JobStatusOf(start: Job, total: int, es: seq<Event>): JobStatus
    decreases |es|
  {
    if es == [] then start.status
    else
      var sheets := Run(start, total, es).sheets;
      var full := |sheets| >= total && forall n :: n in sheets ==> sheets[n].Completed?;
      if es[|es| - 1].Start? then Running
      else if es[|es| - 1].Complete? && full then JobCompleted
      else JobStatusOf(start, total, Before(es))
  }

  lemma {:induction false} JobStatusIsExact(start: Job, total: int, es: seq<Event>)
    ensures Run(start, total, es).status == JobStatusOf(start, total, es)
    decreases |es|
  {
    if es != [] {
      JobStatusIsExact(start, total, Before(es));
    }
  }

  predicate CanRun(j: Job, n: int) {
    n !in j.sheets || j.sheets[n].Pending? || j.sheets[n].Failed?
  }

  /** A finished job has no next sheet; an interrupted sheet is the next one, or else the first open one behind. */
  lemma NextSheetIs(j: Job, total: int)
    ensures j.status.JobCompleted? || j.status.Cancelled? ==> NextSheet(j, total) == None
    ensures
      var goesOn := j.current.Some? && j.current.value in j.sheets && j.sheets[j.current.value].InProgress?;
      !j.status.JobCompleted? && !j.status.Cancelled? ==>
        && (goesOn ==> NextSheet(j, total) == j.current)
        && (!goesOn ==>
              match NextSheet(j, total)
              case Some(n) => j.last < n <= total && CanRun(j, n) && forall k :: j.last < k < n ==> !CanRun(j, k)
              case None => forall k :: j.last < k <= total ==> !CanRun(j, k))
  {
    forall k ensures CanRun(j, k) <==> Open(j.sheets, k) {
    }
  }

  // ---- the object -----------------------------------------------------------------------------------------

  class Checkpoint {
    const total: nat
    var status: JobStatus
    var currentSheet: Option<int>
    var lastCompletedSheet: int
    var sheets: Sheets

    function State(): Job
      reads this
    {
      Job(status, currentSheet, lastCompletedSheet, sheets)
    }

    constructor (total: nat)
      ensures this.total == total && State() == NEW_JOB
    {
      this.total := total;
      status, currentSheet, lastCompletedSheet, sheets := Created, None, 0, map[];
    }

    /** get_next_sheet: the loop behind the watermark. */
    method GetNextSheet() returns (next: Option<int>)
      ensures next == NextSheet(State(), total)
    {
      if status == JobCompleted || status == Cancelled {
        return None;
      }
      if currentSheet.Some? {
        if currentSheet.value in sheets && sheets[currentSheet.value] == InProgress {
          return currentSheet;
        }
      }
      var n := lastCompletedSheet + 1;
      while n <= total
        invariant FirstOpen(sheets, n, total) == FirstOpen(sheets, lastCompletedSheet + 1, total)
      {
        if n !in sheets || sheets[n] in {Pending, Failed} {
          return Some(n);
        }
        n := n + 1;
      }
      return None;
    }

    method MarkSheetStarted(n: int)
      modifies this
      ensures State() == Step(old(State()), total, Start(n))
    {
      currentSheet := Some(n);
      status := Running;
      sheets := sheets[n := InProgress];
    }

    method MarkSheetCompleted(n: int)
      modifies this
      ensures State() == Step(old(State()), total, Complete(n))
    {
      sheets := sheets[n := Completed];
      if n > lastCompletedSheet {
        lastCompletedSheet := n;
      }
      currentSheet := None;
      if |sheets| >= total && forall s :: s in sheets ==> sheets[s] == Completed {
        status := JobCompleted;
      }
    }

    method MarkSheetFailed(n: int)
      modifies this
      ensures State() == Step(old(State()), total, Fail(n))
    {
      sheets := sheets[n := Failed];
      currentSheet := None;
    }

    /** The part of the persist callback that concerns the watermark. */
    method RefreshWatermark()
      modifies this`lastCompletedSheet
      ensures State() == Step(old(State()), total, Persist)
    {
      lastCompletedSheet := |CompletedSheets(sheets)|;
    }

    /** The reconciliation of a recovered job, sheet after sheet. */
    method ReconcileSheets()
      modifies this
      ensures State() == Step(old(State()), total, Recover)
    {
      var before, todo := sheets, sheets.Keys;
      while todo != {}
        invariant todo <= before.Keys
        invariant sheets == map n | n in before :: if n !in todo && before[n] == InProgress then Pending else before[n]
        invariant State() == old(State()).(sheets := sheets)
        decreases todo
      {
        var n := Pick(todo);
        if sheets[n] == InProgress {
          sheets := sheets[n := Pending];
        }
        todo := todo - {n};
      }
      currentSheet := None;
    }

    method MarkSheetSkipped(n: int)
      modifies this
      ensures State() == Step(old(State()), total, Skip(n))
    {
      sheets := sheets[n := Skipped];
      currentSheet := None;
    }
  }
}
