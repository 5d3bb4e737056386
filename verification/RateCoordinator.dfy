/**
  The daemon's mirror of instrument rate limits (daemon/rate_coordinator.py).

  The clock is an argument of every operation that reads it. No operation waits while it holds the lock, so each is
  one atomic step. Seconds are real numbers; a wait that is no finite number is a case of its own.
 */
module RateCoordinator {
  import opened Sequences

  type Instrument = nat

  const MAX_WAIT_SECONDS := 86400.0
  const EVENT_WINDOW := 3600.0

  datatype Wait = Finite(seconds: real) | NotFinite
  datatype Hit = Hit(instrument: Instrument, detectedAt: real, wait: real, job: int, sheet: int)
  datatype State = State(limits: map<Instrument, real>, hits: seq<Hit>)

  datatype Event =
    | Report(instrument: Instrument, wait: Wait, job: int, sheet: int, now: real)
    | Clear(only: Option<Instrument>)
    | Prune(now: real)

  function Min(a: real, b: real): real { if b < a then b else a }
  function Max(a: real, b: real): real { if b > a then b else a }

  function Clamped(w: Wait): (s: real)
    ensures 0.0 <= s <= MAX_WAIT_SECONDS
  {
    Max(0.0, Min(if w.Finite? then w.seconds else 0.0, MAX_WAIT_SECONDS))
  }

  /** The hits detected after the cutoff, in their order. */
  function After(hits: seq<Hit>, cutoff: real): seq<Hit> {
    if hits == [] then []
    else if hits[|hits| - 1].detectedAt > cutoff then After(hits[..|hits| - 1], cutoff) + [hits[|hits| - 1]]
    else After(hits[..|hits| - 1], cutoff)
  }

  function Get(limits: map<Instrument, real>, i: Instrument): real {
    if i in limits then limits[i] else 0.0
  }

  function HitOf(e: Event): Hit
    requires e.Report?
  {
    Hit(e.instrument, e.now, Clamped(e.wait), e.job, e.sheet)
  }

  function LimitsAfter(limits: map<Instrument, real>, e: Event): map<Instrument, real> {
    match e
    case Report(i, wait, _, _, now) => limits[i := Max(Get(limits, i), now + Clamped(wait))]
    case Clear(only) => if only.Some? then limits - {only.value} else map[]
    case Prune(now) => map i | i in limits && limits[i] > now :: limits[i]
  }

  function HitsAfter(hits: seq<Hit>, e: Event): seq<Hit> {
    match e
    case Report(_, _, _, _, now) => After(hits + [HitOf(e)], now - EVENT_WINDOW)
    case Clear(_) => hits
    case Prune(now) => After(hits, now - EVENT_WINDOW)
  }

  function Step(s: State, e: Event): State {
    State(LimitsAfter(s.limits, e), HitsAfter(s.hits, e))
  }

  function Run(es: seq<Event>): State {
    if es == [] then State(map[], []) else Step(Run(es[..|es| - 1]), es[|es| - 1])
  }

  /** The last reading of the clock. */
  function Clock(es: seq<Event>): real {
    if es == [] then 0.0
    else if es[|es| - 1].Clear? then Clock(es[..|es| - 1])
    else es[|es| - 1].now
  }

  predicate Monotone(es: seq<Event>) {
    es == [] ||
    (Monotone(es[..|es| - 1]) && (es[|es| - 1].Clear? || es[|es| - 1].now >= Clock(es[..|es| - 1])))
  }

  // ---- queries --------------------------------------------------------------------------------------------

  /** is_rate_limited: the seconds that remain, none if the instrument is free. */
  function Remaining(s: State, i: Instrument, now: real): Option<real> {
    if Get(s.limits, i) - now > 0.0 then Some(Get(s.limits, i) - now) else None
  }

  /** active_limits, without the rounding. */
  function Active(s: State, now: real): map<Instrument, real> {
    map i | i in s.limits && s.limits[i] > now :: s.limits[i] - now
  }

  /** One hit put into a list that is sorted from new to old, behind those of the same time. */
  function Insert(h: Hit, sorted: seq<Hit>): seq<Hit> {
    if sorted == [] then [h]
    else if sorted[|sorted| - 1].detectedAt >= h.detectedAt then sorted + [h]
    else Insert(h, sorted[..|sorted| - 1]) + [sorted[|sorted| - 1]]
  }

  function NewestFirst(hits: seq<Hit>): seq<Hit> {
    if hits == [] then [] else Insert(hits[|hits| - 1], NewestFirst(hits[..|hits| - 1]))
  }

  /** recent_events */
  function Recent(s: State, now: real): seq<Hit> {
    NewestFirst(After(s.hits, now - EVENT_WINDOW))
  }

  ghost predicate Descending(hits: seq<Hit>) {
    forall i, j :: 0 <= i < j < |hits| ==> hits[i].detectedAt >= hits[j].detectedAt
  }

  lemma {:induction false} InsertKeepsBound(h: Hit, sorted: seq<Hit>, bound: real)
    requires h.detectedAt >= bound && forall i :: 0 <= i < |sorted| ==> sorted[i].detectedAt >= bound
    ensures forall i :: 0 <= i < |Insert(h, sorted)| ==> Insert(h, sorted)[i].detectedAt >= bound
  {
    if sorted != [] {
      InsertKeepsBound(h, sorted[..|sorted| - 1], bound);
    }
  }

  lemma {:induction false} InsertSorts(h: Hit, sorted: seq<Hit>)
    requires Descending(sorted)
    ensures Descending(Insert(h, sorted))
  {
    if sorted != [] && sorted[|sorted| - 1].detectedAt < h.detectedAt {
      InsertSorts(h, sorted[..|sorted| - 1]);
      InsertKeepsBound(h, sorted[..|sorted| - 1], sorted[|sorted| - 1].detectedAt);
    }
  }

  lemma {:induction false} InsertKeepsAll(h: Hit, sorted: seq<Hit>)
    ensures multiset(Insert(h, sorted)) == multiset(sorted) + multiset{h}
  {
    if sorted != [] {
      assert sorted == sorted[..|sorted| - 1] + [sorted[|sorted| - 1]];
      InsertKeepsAll(h, sorted[..|sorted| - 1]);
    }
  }

  lemma {:induction false} NewestFirstKeepsAll(hits: seq<Hit>)
    ensures multiset(NewestFirst(hits)) == multiset(hits)
  {
    if hits != [] {
      var front, last := hits[..|hits| - 1], hits[|hits| - 1];
      NewestFirstKeepsAll(front);
      InsertKeepsAll(last, NewestFirst(front));
      assert hits == front + [last];
    }
  }

  lemma {:induction false} NewestFirstDescends(hits: seq<Hit>)
    ensures Descending(NewestFirst(hits))
  {
    if hits != [] {
      NewestFirstDescends(hits[..|hits| - 1]);
      InsertSorts(hits[|hits| - 1], NewestFirst(hits[..|hits| - 1]));
    }
  }

  // ---- what the history says ------------------------------------------------------------------------------

  /** The latest end of all waits reported for the instrument since its last clear. */
  function Until(es: seq<Event>, i: Instrument): real {
    if es == [] then 0.0
    else
      var before := Until(es[..|es| - 1], i);
      match es[|es| - 1]
      case Report(j, wait, _, _, now) => if j == i then Max(before, now + Clamped(wait)) else before
      case Clear(only) => if only.None? || only.value == i then 0.0 else before
      case Prune(_) => before
  }

  function AllHits(es: seq<Event>): seq<Hit> {
    if es == [] then []
    else if es[|es| - 1].Report? then AllHits(es[..|es| - 1]) + [HitOf(es[|es| - 1])]
    else AllHits(es[..|es| - 1])
  }

  /** The entry of an instrument is what its history says; a missing one has run out. */
  predicate EntryOk(es: seq<Event>, i: Instrument) {
    var limits := Run(es).limits;
    if i in limits then limits[i] == Until(es, i) else Until(es, i) <= Clock(es)
  }

  lemma {:induction false} ClockIsPositive(es: seq<Event>)
    requires Monotone(es)
    ensures Clock(es) >= 0.0
  {
    if es != [] {
      ClockIsPositive(es[..|es| - 1]);
    }
  }

  lemma {:induction false} EntriesFollowHistory(es: seq<Event>, i: Instrument)
    requires Monotone(es)
    ensures EntryOk(es, i) && 0.0 <= Until(es, i) <= Clock(es) + MAX_WAIT_SECONDS
  {
    ClockIsPositive(es);
    if es != [] {
      ClockIsPositive(es[..|es| - 1]);
      EntriesFollowHistory(es[..|es| - 1], i);
    }
  }

  /** Whatever was pruned, an instrument is limited exactly until the latest end reported since its last clear. */
  lemma LimitIsExact(es: seq<Event>, i: Instrument, now: real)
    requires Monotone(es) && now >= Clock(es)
    ensures Remaining(Run(es), i, now) == if Until(es, i) > now then Some(Until(es, i) - now) else None
    ensures Remaining(Run(es), i, now).Some? ==> Remaining(Run(es), i, now).value <= MAX_WAIT_SECONDS
  {
    EntriesFollowHistory(es, i);
    ClockIsPositive(es);
  }

  lemma ActiveIsExact(es: seq<Event>, now: real)
    requires Monotone(es) && now >= Clock(es)
    ensures forall i :: i in Active(Run(es), now) <==> Until(es, i) > now
    ensures forall i :: i in Active(Run(es), now) ==> Active(Run(es), now)[i] == Until(es, i) - now
  {
    forall i: Instrument ensures i in Active(Run(es), now) <==> Until(es, i) > now
      ensures i in Active(Run(es), now) ==> Active(Run(es), now)[i] == Until(es, i) - now
    {
      EntriesFollowHistory(es, i);
    }
  }

  lemma {:induction false} AfterAfter(hits: seq<Hit>, cutoff: real, later: real)
    requires cutoff <= later
    ensures After(After(hits, cutoff), later) == After(hits, later)
  {
    if hits != [] {
      AfterAfter(hits[..|hits| - 1], cutoff, later);
      if hits[|hits| - 1].detectedAt > cutoff {
        AfterSnoc(After(hits[..|hits| - 1], cutoff), hits[|hits| - 1], later);
      }
    }
  }

  lemma AfterSnoc(hits: seq<Hit>, h: Hit, cutoff: real)
    ensures After(hits + [h], cutoff) ==
            if h.detectedAt > cutoff then After(hits, cutoff) + [h] else After(hits, cutoff)
  {
    assert (hits + [h])[..|hits|] == hits;
  }

  /** A step leaves the hits after a cutoff alone that no prune of it can reach. */
  lemma StepKeepsLate(hits: seq<Hit>, e: Event, cutoff: real)
    requires e.Clear? || e.now - EVENT_WINDOW <= cutoff
    ensures After(HitsAfter(hits, e), cutoff) == After(if e.Report? then hits + [HitOf(e)] else hits, cutoff)
  {
    if !e.Clear? {
      AfterAfter(if e.Report? then hits + [HitOf(e)] else hits, e.now - EVENT_WINDOW, cutoff);
    }
  }

  lemma {:induction false} HitsFollowHistory(es: seq<Event>, cutoff: real)
    requires Monotone(es) && cutoff >= Clock(es) - EVENT_WINDOW
    ensures After(Run(es).hits, cutoff) == After(AllHits(es), cutoff)
  {
    if es != [] {
      var front, e := es[..|es| - 1], es[|es| - 1];
      HitsFollowHistory(front, cutoff);
      StepKeepsLate(Run(front).hits, e, cutoff);
      if e.Report? {
        AfterSnoc(Run(front).hits, HitOf(e), cutoff);
        AfterSnoc(AllHits(front), HitOf(e), cutoff);
      }
    }
  }

  /** The recent events are all hits of the last hour, whatever was pruned, sorted from new to old. */
  lemma RecentIsExact(es: seq<Event>, now: real)
    requires Monotone(es) && now >= Clock(es)
    ensures
      var hits := After(AllHits(es), now - EVENT_WINDOW);
      var recent := Recent(Run(es), now);
      recent == NewestFirst(hits) && Descending(recent) && multiset(recent) == multiset(hits)
  {
    HitsFollowHistory(es, now - EVENT_WINDOW);
    var hits := After(AllHits(es), now - EVENT_WINDOW);
    NewestFirstDescends(hits);
    NewestFirstKeepsAll(hits);
  }

  // ---- what was reported ----------------------------------------------------------------------------------

  /** A wait in seconds, between none and a day; one that is no finite number is none. */
  function Seconds(w: Wait): real {
    match w
    case NotFinite => 0.0
    case Finite(s) => if s < 0.0 then 0.0 else if s > 86400.0 then 86400.0 else s
  }

  lemma ClampedIsSeconds(w: Wait)
    ensures Clamped(w) == Seconds(w)
  {
  }

  /** The latest end of the waits reported for i since its last clear, in plain numbers. */
  function EndOf(es: seq<Event>, i: Instrument): real {
    if es == [] then 0.0
    else
      var e, before := es[|es| - 1], EndOf(es[..|es| - 1], i);
      if e.Report? && e.instrument == i && e.now + Seconds(e.wait) > before then e.now + Seconds(e.wait)
      else if e.Clear? && (e.only == None || e.only == Some(i)) then 0.0
      else before
  }

  lemma {:induction false} UntilIsEnd(es: seq<Event>, i: Instrument)
    ensures Until(es, i) == EndOf(es, i)
  {
    if es != [] {
      UntilIsEnd(es[..|es| - 1], i);
      if es[|es| - 1].Report? {
        ClampedIsSeconds(es[|es| - 1].wait);
      }
    }
  }

  /** An instrument is limited until the end that was reported, to the second, and free from then on. */
  lemma LimitIsAsReported(es: seq<Event>, i: Instrument, now: real)
    requires Monotone(es) && now >= Clock(es)
    ensures Remaining(Run(es), i, now) == if EndOf(es, i) > now then Some(EndOf(es, i) - now) else None
  {
    LimitIsExact(es, i, now);
    UntilIsEnd(es, i);
  }

  /** The reports of the hour before now, field by field. */
  function ReportsOf(es: seq<Event>, now: real): seq<Hit> {
    if es == [] then []
    else
      var before := ReportsOf(es[..|es| - 1], now);
      match es[|es| - 1]
      case Report(i, wait, job, sheet, at) =>
        if at > now - 3600.0 then
          before + [Hit(instrument := i, detectedAt := at, wait := Seconds(wait), job := job, sheet := sheet)]
        else before
      case _ => before
  }

  lemma {:induction false} LateHitsAreReports(es: seq<Event>, now: real)
    ensures After(AllHits(es), now - EVENT_WINDOW) == ReportsOf(es, now)
  {
    if es != [] {
      var front, e := es[..|es| - 1], es[|es| - 1];
      LateHitsAreReports(front, now);
      if e.Report? {
        ClampedIsSeconds(e.wait);
        AfterSnoc(AllHits(front), HitOf(e), now - EVENT_WINDOW);
      }
    }
  }

  /** The recent events are exactly the reports of the last hour, from new to old. */
  lemma RecentIsAsReported(es: seq<Event>, now: real)
    requires Monotone(es) && now >= Clock(es)
    ensures Descending(Recent(Run(es), now)) && multiset(Recent(Run(es), now)) == multiset(ReportsOf(es, now))
  {
    RecentIsExact(es, now);
    LateHitsAreReports(es, now);
  }

  // ---- pruning --------------------------------------------------------------------------------------------

  /** The run without its prunes. */
  function Unpruned(es: seq<Event>): seq<Event> {
    if es == [] then []
    else if es[|es| - 1].Prune? then Unpruned(es[..|es| - 1])
    else Unpruned(es[..|es| - 1]) + [es[|es| - 1]]
  }

  lemma {:induction false} HistoryIgnoresPrunes(es: seq<Event>, i: Instrument)
    ensures Until(Unpruned(es), i) == Until(es, i) && AllHits(Unpruned(es)) == AllHits(es)
  {
    if es != [] {
      var front, e := es[..|es| - 1], es[|es| - 1];
      HistoryIgnoresPrunes(front, i);
      assert (Unpruned(front) + [e])[..|Unpruned(front)|] == Unpruned(front);
    }
  }

  lemma SameActive(es: seq<Event>, es': seq<Event>, now: real)
    requires Monotone(es) && Monotone(es') && now >= Clock(es) && now >= Clock(es')
    requires forall j :: Until(es, j) == Until(es', j)
    ensures Active(Run(es), now) == Active(Run(es'), now)
  {
    ActiveIsExact(es, now);
    ActiveIsExact(es', now);
    var a, b := Active(Run(es), now), Active(Run(es'), now);
    assert forall j :: j in a <==> j in b;
    assert forall j :: j in a ==> a[j] == b[j];
  }

  lemma SameHistory(es: seq<Event>, es': seq<Event>)
    requires Unpruned(es) == Unpruned(es')
    ensures AllHits(es) == AllHits(es') && forall j :: Until(es, j) == Until(es', j)
  {
    forall j ensures AllHits(es) == AllHits(es') && Until(es, j) == Until(es', j) {
      HistoryIgnoresPrunes(es, j);
      HistoryIgnoresPrunes(es', j);
    }
    assert Until(es, 0) == Until(es', 0);
  }

  /**
    Two runs that differ only in where they prune answer every query alike, at every later time: inserting or
    deleting a prune anywhere cannot be seen.
   */
  lemma PruningIsInvisible(es: seq<Event>, es': seq<Event>, i: Instrument, now: real)
    requires Unpruned(es) == Unpruned(es') && Monotone(es) && Monotone(es')
    requires now >= Clock(es) && now >= Clock(es')
    ensures Remaining(Run(es), i, now) == Remaining(Run(es'), i, now)
    ensures Active(Run(es), now) == Active(Run(es'), now)
    ensures Recent(Run(es), now) == Recent(Run(es'), now)
  {
    SameHistory(es, es');
    assert Remaining(Run(es), i, now) == Remaining(Run(es'), i, now) by {
      LimitIsExact(es, i, now);
      LimitIsExact(es', i, now);
    }
    SameActive(es, es', now);
    assert Recent(Run(es), now) == Recent(Run(es'), now) by {
      RecentIsExact(es, now);
      RecentIsExact(es', now);
    }
  }

  /** A clear of one instrument or of all. */
  predicate Covers(only: Option<Instrument>, i: Instrument) {
    only.None? || only.value == i
  }

  function StoredLimits(s: State, only: Option<Instrument>): set<Instrument> {
    set i | i in s.limits && Covers(only, i)
  }

  function LiveLimits(s: State, only: Option<Instrument>, now: real): set<Instrument> {
    set i | i in s.limits && Covers(only, i) && s.limits[i] > now
  }

  /** What a clear returns: the number of entries it covers, whether or not they have run out. */
  lemma ClearCountsStored(s: State, only: Option<Instrument>)
    ensures |s.limits| - |LimitsAfter(s.limits, Clear(only))| == |StoredLimits(s, only)|
  {
    var after := LimitsAfter(s.limits, Clear(only));
    assert s.limits.Keys == after.Keys + StoredLimits(s, only);
    assert |s.limits| == |s.limits.Keys| && |after| == |after.Keys|;
  }

  /** The returned number is that of the live limits if and only if none of the entries it covers has run out. */
  lemma ClearCountIsLiveIff(s: State, only: Option<Instrument>, now: real)
    ensures |s.limits| - |LimitsAfter(s.limits, Clear(only))| == |LiveLimits(s, only, now)| <==>
              forall i :: i in s.limits && Covers(only, i) ==> s.limits[i] > now
  {
    ClearCountsStored(s, only);
    var stored, live := StoredLimits(s, only), LiveLimits(s, only, now);
    var allLive := forall i :: i in s.limits && Covers(only, i) ==> s.limits[i] > now;
    assert live == stored <==> allLive by {
      assert forall i :: i in s.limits && Covers(only, i) ==> i in stored;
    }
    if |live| == |stored| {
      SubsetOfEqualSize(live, stored);
    }
  }

  /** So a clear right after a prune tells the truth. */
  lemma ClearAfterPruneIsExact(s: State, only: Option<Instrument>, now: real)
    ensures
      var pruned := Step(s, Prune(now));
      |pruned.limits| - |LimitsAfter(pruned.limits, Clear(only))| == |LiveLimits(s, only, now)|
  {
    var pruned := Step(s, Prune(now));
    ClearCountIsLiveIff(pruned, only, now);
    assert LiveLimits(pruned, only, now) == LiveLimits(s, only, now);
  }

  /** The number a clear returns does tell: it counts entries that have run out but were not pruned yet. */
  lemma ClearSeesPruning()
    ensures
      var es := [Report(0, Finite(0.0), 0, 0, 5.0)];
      var es' := [Report(0, Finite(0.0), 0, 0, 5.0), Prune(6.0)];
      Unpruned(es') == Unpruned(es) && |Run(es).limits| == 1 && |Run(es').limits| == 0
  {
    var e := Report(0, Finite(0.0), 0, 0, 5.0);
    assert [e, Prune(6.0)][..1] == [e] && [e][..0] == [];
    assert Run([e]).limits == map[0 := 5.0];
    assert Run([e, Prune(6.0)]).limits == map[];
  }

  predicate Clears(e: Event, i: Instrument) {
    e.Clear? && (e.only.None? || e.only.value == i)
  }

  /** Between clears a limit never ends early: later reports only extend it, and prunes leave it alone. */
  lemma {:induction false} ResumeOnlyGrows(es: seq<Event>, n: nat, i: Instrument)
    requires Monotone(es) && n <= |es| && forall k :: n <= k < |es| ==> !Clears(es[k], i)
    ensures Until(es[..n], i) <= Until(es, i)
    ensures forall now :: now >= Clock(es) && Until(es[..n], i) > now ==> Remaining(Run(es), i, now).Some?
  {
    if n == |es| {
      assert es[..n] == es;
    } else {
      var front := es[..|es| - 1];
      assert front[..n] == es[..n];
      assert forall k :: n <= k < |front| ==> front[k] == es[k];
      ResumeOnlyGrows(front, n, i);
    }
    EntriesFollowHistory(es, i);
  }

  // ---- the object -----------------------------------------------------------------------------------------

  class RateLimitCoordinator {
    var hits: seq<Hit>
    var activeLimits: map<Instrument, real>

    function Value(): State
      reads this
    {
      State(activeLimits, hits)
    }

    constructor ()
      ensures Value() == Run([])
    {
      hits, activeLimits := [], map[];
    }

    /** The comprehension that drops old events. */
    method DropOld(cutoff: real)
      modifies this`hits
      ensures hits == After(old(hits), cutoff)
    {
      var kept: seq<Hit> := [];
      for i := 0 to |hits|
        invariant hits == old(hits) && kept == After(hits[..i], cutoff)
      {
        assert hits[..i + 1] == hits[..i] + [hits[i]];
        AfterSnoc(hits[..i], hits[i], cutoff);
        if hits[i].detectedAt > cutoff {
          kept := kept + [hits[i]];
        }
      }
      assert hits[..|hits|] == hits;
      hits := kept;
    }

    /** The part of a report that concerns the limit. */
    method ExtendLimit(instrument: Instrument, resumeAt: real)
      modifies this`activeLimits
      ensures activeLimits == old(activeLimits)[instrument := Max(Get(old(activeLimits), instrument), resumeAt)]
    {
      var existing := if instrument in activeLimits then activeLimits[instrument] else 0.0;
      activeLimits := activeLimits[instrument := Max(existing, resumeAt)];
    }

    /** The part of a report that concerns the events. */
    method RecordHit(hit: Hit)
      modifies this`hits
      ensures hits == After(old(hits) + [hit], hit.detectedAt - EVENT_WINDOW)
    {
      hits := hits + [hit];
      DropOld(hit.detectedAt - EVENT_WINDOW);
    }

    method ReportRateLimit(instrument: Instrument, wait: Wait, job: int, sheet: int, now: real)
      modifies this
      ensures Value() == Step(old(Value()), Report(instrument, wait, job, sheet, now))
    {
      var seconds := if wait.NotFinite? then 0.0 else wait.seconds;
      seconds := Max(0.0, Min(seconds, MAX_WAIT_SECONDS));
      ExtendLimit(instrument, now + seconds);
      RecordHit(Hit(instrument, now, seconds, job, sheet));
    }

    method IsRateLimited(instrument: Instrument, now: real) returns (limited: bool, remaining: real)
      ensures limited <==> Remaining(Value(), instrument, now).Some?
      ensures remaining == if limited then Remaining(Value(), instrument, now).value else 0.0
    {
      var resumeAt := if instrument in activeLimits then activeLimits[instrument] else 0.0;
      remaining := resumeAt - now;
      if remaining > 0.0 {
        return true, remaining;
      }
      return false, 0.0;
    }

    method ClearLimits(only: Option<Instrument>) returns (count: nat)
      modifies this`activeLimits
      ensures Value() == Step(old(Value()), Clear(only))
      ensures count == |old(activeLimits)| - |activeLimits|
    {
      if only.Some? {
        if only.value in activeLimits {
          var rest := activeLimits - {only.value};
          assert activeLimits == rest[only.value := activeLimits[only.value]];
          activeLimits := rest;
          return 1;
        }
        assert activeLimits - {only.value} == activeLimits;
        return 0;
      }
      count := |activeLimits|;
      activeLimits := map[];
    }

    /** prune_stale: the number of events it removed. */
    method PruneStale(now: real) returns (removed: int)
      modifies this
      ensures Value() == Step(old(Value()), Prune(now))
      ensures removed == |old(hits)| - |hits|
    {
      var before := |hits|;
      DropOld(now - EVENT_WINDOW);
      activeLimits := map i | i in activeLimits && activeLimits[i] > now :: activeLimits[i];
      removed := before - |hits|;
    }
  }
}
