/**
  One sheet between dispatches (core/checkpoint.py, SheetState): the retry budget, the chain of fallback
  instruments, the two resets, and the histories that survive them. The live instrument is also changed where a
  sheet is registered or recovered (daemon/baton/adapter.py) and where its chain is balanced before its first
  attempt (daemon/baton/dispatch.py), and the scheduler (daemon/baton/core.py) charges retries and late bills to it,
  so these are steps as well.

  Names of instruments and models are numbers, 0 for the empty name; money is a real number. Time stamps, exit
  codes, validation details and the completion and healing counters are left out.
 */
module SheetState {
  import opened Sequences

  type Name = nat

  const EMPTY_NAME: Name := 0
  const MAX_ATTEMPT_HISTORY := 50
  const MAX_INSTRUMENT_FALLBACK_HISTORY := 50
  const MAX_FLOW_HISTORY := 10
  /** The reason a balanced dispatch records for its switch. */
  const BALANCE := -1

  /** What the score fixes for a sheet: its retries on each instrument, and whether its chain may be balanced. */
  datatype Plan = Plan(maxRetries: nat, balance: bool)

  /** The configuration of a chain entry; `others` stands for all keys but the model. */
  datatype Config = Config(model: Option<Name>, others: nat)
  datatype Entry = Entry(name: Name, config: Config)

  const EMPTY_CONFIG := Config(None, 0)

  datatype Status = Pending | InProgress | Completed | Failed | Skipped | Cancelled | Other(code: nat)
  datatype Result = Result(cost: real, rateLimited: bool, success: bool, instrument: Option<Name>)
  datatype Identity = Identity(name: Name, model: Option<Name>)
  datatype AttemptRecord = AttemptRecord(instrument: Option<Name>, model: Option<Name>, success: bool)
  datatype Switch = Switch(source: Name, target: Name, reason: int)
  datatype FlowRecord = FlowRecord(epoch: nat, cause: int, status: Status, cost: real)

  /** The fallbacks, their configurations, and the configuration read at position 0. */
  datatype Route = Route(chain: seq<Name>, configs: seq<Config>, first: Option<Config>)
  datatype Budget = Budget(index: nat, normal: nat, tried: map<Name, nat>)
  datatype Live = Live(name: Option<Name>, model: Option<Name>, display: Option<Name>, primary: Option<Identity>)
  datatype History = History(cost: real, attempts: seq<AttemptRecord>, switches: seq<Switch>, flow: seq<FlowRecord>)
  datatype Sheet = Sheet(status: Status, epoch: nat, plan: Plan, route: Route, budget: Budget, live: Live,
                         history: History)

  datatype Event =
    | Attempt(result: Result)
    | Advance(reason: int)
    | ResetForRetry
    | ResetForFlow(cause: int)
    | Remember
    | Register(authored: Entry, route: Route, retries: nat)   // chain and retries of the score are written anew
    | Recover(authored: Entry, route: Route, retries: nat, normal: nat, status: Status)   // the same after a restart
    | Balance(k: nat)                                         // a dispatch finds entry k least loaded
    | Charge                                                  // a retry is charged for failed validations
    | StaleCost(cost: real)                                   // the bill of an outdated attempt
    | Mark(status: Status)                                    // the scheduler decides what became of the sheet

  function OrEmpty(name: Option<Name>): Name {
    if name.Some? then name.value else EMPTY_NAME
  }

  function IdentityOf(l: Live): Identity {
    Identity(OrEmpty(l.name), l.model)
  }

  function EntryIdentity(e: Entry): Identity {
    Identity(e.name, e.config.model)
  }

  /** The slice [-n:] that keeps a history bounded. */
  function Last<T>(n: nat, s: seq<T>): seq<T> {
    if |s| > n then s[|s| - n..] else s
  }

  /** Trimming after an append keeps the last n of all that was appended, if it kept that many or all before. */
  lemma LastOfLast<T>(n: nat, kept: nat, s: seq<T>, x: T)
    requires kept >= n || kept == |s|
    ensures Last(n, Last(kept, s) + [x]) == Last(n, s + [x])
  {
  }

  lemma LastGrows<T>(n: nat, s: seq<T>, x: T)
    ensures Last(n, s) + [x] == Last(n + 1, s + [x])
  {
  }

  /** A failure that uses up retry budget. */
  predicate Counts(r: Result) {
    !r.rateLimited && !r.success
  }

  // ---- the chain ------------------------------------------------------------------------------------------

  /** Fallback i with its configuration; checkpoints from before the configurations have none. */
  function Fallback(r: Route, i: nat): Entry
    requires i < |r.chain|
  {
    Entry(r.chain[i], if i < |r.configs| then r.configs[i] else EMPTY_CONFIG)
  }

  /** What runs at position 0 with the configuration that is read for it. */
  function First(s: Sheet): Entry {
    Entry(OrEmpty(s.live.name),
          if s.route.first.Some? then s.route.first.value
          else if OrEmpty(s.live.model) != EMPTY_NAME then Config(s.live.model, 0)
          else EMPTY_CONFIG)
  }

  /** The whole order of a sheet on its primary. */
  function Order(s: Sheet): (order: seq<Entry>)
    ensures |order| == |s.route.chain| + 1
  {
    [First(s)] + seq(|s.route.chain|, i requires 0 <= i < |s.route.chain| => Fallback(s.route, i))
  }

  function Names(order: seq<Entry>): (names: seq<Name>)
    ensures |names| == |order| && forall i :: 0 <= i < |order| ==> names[i] == order[i].name
  {
    seq(|order|, i requires 0 <= i < |order| => order[i].name)
  }

  function Configs(order: seq<Entry>): (configs: seq<Config>)
    ensures |configs| == |order| && forall i :: 0 <= i < |order| ==> configs[i] == order[i].config
  {
    seq(|order|, i requires 0 <= i < |order| => order[i].config)
  }

  /** All entries but the k-th, in their order. */
  function Without(order: seq<Entry>, k: nat): seq<Entry>
    requires k < |order|
  {
    order[..k] + order[k + 1..]
  }

  /** A dispatch balances a sheet that is on its primary, has fallbacks and has made no attempt. */
  predicate MayBalance(s: Sheet) {
    s.plan.balance && s.budget.index == 0 && s.history.attempts == [] && s.route.chain != []
  }

  /** Balancing changes something only if an entry behind the first is the least loaded. */
  predicate Moves(s: Sheet, e: Event) {
    e.Balance? && MayBalance(s) && 0 < e.k <= |s.route.chain|
  }

  // ---- steps ----------------------------------------------------------------------------------------------

  /** A sheet that has ended keeps the identity it ended on, even if its chain is written anew. */
  predicate Ended(status: Status) {
    status == Completed || status == Skipped || status == Cancelled
  }

  predicate Keeps(s: Sheet, e: Event) {
    (e.Register? && Ended(s.status)) || (e.Recover? && Ended(e.status))
  }

  /** The score's primary becomes the live instrument. */
  predicate Authors(s: Sheet, e: Event) {
    (e.Register? || e.Recover?) && !Keeps(s, e)
  }

  predicate Resets(e: Event) {
    e.ResetForRetry? || e.ResetForFlow?
  }

  function PlanAfter(s: Sheet, e: Event): Plan {
    if e.Register? || e.Recover? then s.plan.(maxRetries := e.retries) else s.plan
  }

  function BudgetAfter(s: Sheet, e: Event): Budget {
    var b := s.budget;
    match e
    case Attempt(r) => if Counts(r) then b.(normal := b.normal + 1) else b
    case Advance(_) =>
      if b.index < |s.route.chain| then Budget(b.index + 1, 0, b.tried[OrEmpty(s.live.name) := b.normal]) else b
    case ResetForRetry => Budget(0, 0, map[])
    case ResetForFlow(_) => Budget(0, 0, map[])
    case Recover(_, _, _, normal, status) => if Ended(status) then b.(normal := normal) else Budget(0, normal, map[])
    case Charge => b.(normal := b.normal + 1)
    case _ => b
  }

  function RouteAfter(s: Sheet, e: Event): Route {
    if e.Register? || e.Recover? then e.route.(first := Some(e.authored.config))
    else if Moves(s, e) then
      var order := Order(s);
      var rest := Without(order, e.k);
      Route(Names(rest), Configs(rest), Some(order[e.k].config))
    else s.route
  }

  function Restored(live: Live): Live {
    if live.primary.None? then live
    else
      var p := live.primary.value;
      Live(Some(p.name), p.model, p.model, live.primary)
  }

  function On(e: Entry, primary: Option<Identity>): Live {
    Live(Some(e.name), e.config.model, e.config.model, primary)
  }

  function LiveAfter(s: Sheet, e: Event): Live {
    var l, i := s.live, s.budget.index;
    match e
    case Attempt(_) => l
    case Advance(_) => if i < |s.route.chain| then On(Fallback(s.route, i), l.primary) else l
    case ResetForRetry => Restored(l)
    case ResetForFlow(_) => Restored(l)
    case Remember => l.(primary := Some(IdentityOf(l)))
    case Register(p, _, _) => if Ended(s.status) then l else On(p, Some(EntryIdentity(p)))
    case Recover(p, _, _, _, status) =>
      if Ended(status) then l.(primary := Some(EntryIdentity(p))) else On(p, Some(EntryIdentity(p)))
    case Balance(k) => if Moves(s, e) then On(Order(s)[k], l.primary) else l
    case _ => l
  }

  function RecordOf(l: Live, r: Result): AttemptRecord {
    AttemptRecord(if OrEmpty(r.instrument) != EMPTY_NAME then r.instrument else l.name, l.display, r.success)
  }

  /** The switch an advance or a balanced dispatch records, if it happens. */
  predicate Switches(s: Sheet, e: Event) {
    (e.Advance? && s.budget.index < |s.route.chain|) || Moves(s, e)
  }

  function SwitchOf(s: Sheet, e: Event): Switch
    requires Switches(s, e)
  {
    if e.Advance? then Switch(OrEmpty(s.live.name), s.route.chain[s.budget.index], e.reason)
    else Switch(OrEmpty(s.live.name), Order(s)[e.k].name, BALANCE)
  }

  function SnapshotOf(s: Sheet, cause: int): FlowRecord {
    FlowRecord(s.epoch, cause, s.status, s.history.cost)
  }

  function HistoryAfter(s: Sheet, e: Event): History {
    var h := s.history;
    match e
    case Attempt(r) =>
      h.(cost := h.cost + r.cost, attempts := Last(MAX_ATTEMPT_HISTORY, h.attempts + [RecordOf(s.live, r)]))
    case Advance(_) =>
      if Switches(s, e) then
        h.(switches := Last(MAX_INSTRUMENT_FALLBACK_HISTORY, h.switches + [SwitchOf(s, e)]))
      else h
    case Balance(_) => if Switches(s, e) then h.(switches := h.switches + [SwitchOf(s, e)]) else h
    case ResetForRetry => h.(switches := [])
    case Recover(_, _, _, _, status) => if Ended(status) then h else h.(switches := [])
    case StaleCost(cost) => h.(cost := h.cost + cost)
    case ResetForFlow(cause) => h.(flow := Last(MAX_FLOW_HISTORY, h.flow + [SnapshotOf(s, cause)]))
    case _ => h
  }

  function StatusAfter(s: Sheet, e: Event): Status {
    match e
    case ResetForRetry => Pending
    case ResetForFlow(_) => Pending
    case Recover(_, _, _, _, status) => status
    case Mark(status) => status
    case _ => s.status
  }

  function Step(s: Sheet, e: Event): Sheet {
    var epoch := if e.ResetForFlow? then s.epoch + 1 else s.epoch;
    Sheet(StatusAfter(s, e), epoch, PlanAfter(s, e), RouteAfter(s, e), BudgetAfter(s, e), LiveAfter(s, e),
          HistoryAfter(s, e))
  }

  function Run(start: Sheet, es: seq<Event>): Sheet {
    if es == [] then start else Step(Run(start, es[..|es| - 1]), es[|es| - 1])
  }

  predicate CanRetry(s: Sheet) {
    s.budget.normal < s.plan.maxRetries
  }

  /** The callers' side: failures are recorded within the budget, and a primary is remembered only while it runs. */
  predicate Allowed(s: Sheet, e: Event) {
    && (e.Attempt? && Counts(e.result) ==> CanRetry(s))
    && (e.Remember? || (e.Register? && Authors(s, e)) ==> s.budget.index == 0)
  }

  predicate Valid(start: Sheet, es: seq<Event>) {
    es == [] ||
    (Valid(start, es[..|es| - 1]) && Allowed(Run(start, es[..|es| - 1]), es[|es| - 1]))
  }

  /** A sheet before its first attempt: on its primary, with nothing remembered and nothing recorded. */
  predicate IsNew(s: Sheet) {
    s.budget == Budget(0, 0, map[]) && s.live.primary.None? && s.history == History(0.0, [], [], [])
  }

  // ---- the retry budget -----------------------------------------------------------------------------------

  /** The sheet starts over with a count of its own: one of the two resets, or a recovered job. */
  predicate StartsOver(e: Event) {
    Resets(e) || e.Recover?
  }

  function FailuresAfter(before: nat, e: Event): nat {
    if StartsOver(e) then 0 else if e.Attempt? && Counts(e.result) then before + 1 else before
  }

  /** The counted failures since the sheet last started over. */
  function Failures(es: seq<Event>): nat {
    if es == [] then 0 else FailuresAfter(Failures(es[..|es| - 1]), es[|es| - 1])
  }

  /** Retries on each instrument, and a number of fallbacks. */
  datatype Allowance = Allowance(retries: nat, fallbacks: nat)

  function InForce(s: Sheet): Allowance {
    Allowance(s.plan.maxRetries, |s.route.chain|)
  }

  function Most(a: nat, b: nat): nat {
    if a < b then b else a
  }

  function Least(a: nat, b: nat): nat {
    if a < b then a else b
  }

  function AllowanceAfter(a: Allowance, failures: nat, s: Sheet, e: Event): Allowance {
    if StartsOver(e) || (e.Register? && failures == 0) then InForce(Step(s, e))
    else if e.Register? then Allowance(Most(a.retries, e.retries), Most(a.fallbacks, |e.route.chain|))
    else a
  }

  /** The largest allowance in force since the sheet's first counted failure. */
  function AllowanceOf(start: Sheet, es: seq<Event>): Allowance {
    if es == [] then InForce(start)
    else
      var front := es[..|es| - 1];
      AllowanceAfter(AllowanceOf(start, front), Failures(front), Run(start, front), es[|es| - 1])
  }

  /** The sheet was registered again after it had failed. */
  predicate RegisteredLate(es: seq<Event>) {
    es != [] &&
    var front, e := es[..|es| - 1], es[|es| - 1];
    !StartsOver(e) && (RegisteredLate(front) || (e.Register? && Failures(front) > 0))
  }

  lemma OneInstrumentMore(m: nat, i: nat)
    ensures m * (i + 1) == m * i + m
  {
  }

  lemma MonotoneProduct(a: nat, b: nat, c: nat, d: nat)
    requires a <= c && b <= d
    ensures a * b <= c * d
  {
  }

  /** A recovered sheet may carry more failures than its retries; they do not count. */
  predicate Budgeted(s: Sheet, failures: nat, a: Allowance) {
    && s.plan.maxRetries <= a.retries && |s.route.chain| <= a.fallbacks
    && failures <= a.retries * Least(s.budget.index, a.fallbacks) + Least(s.budget.normal, a.retries)
  }

  lemma StepIsBudgeted(s: Sheet, e: Event, failures: nat, a: Allowance)
    requires Budgeted(s, failures, a) && Allowed(s, e)
    ensures Budgeted(Step(s, e), FailuresAfter(failures, e), AllowanceAfter(a, failures, s, e))
  {
    if e.Advance? {
      AdvanceIsBudgeted(s, e, failures, a);
    } else if e.Register? && failures > 0 {
      RegisterIsBudgeted(s, e, failures, a);
    } else if StartsOver(e) || e.Register? {
      ZeroIsBudgeted(Step(s, e));
    } else {
      assert Step(s, e).budget.index == s.budget.index;
    }
  }

  lemma ZeroIsBudgeted(s: Sheet)
    ensures Budgeted(s, 0, InForce(s))
  {
  }

  lemma AdvanceIsBudgeted(s: Sheet, e: Event, failures: nat, a: Allowance)
    requires Budgeted(s, failures, a) && e.Advance?
    ensures Budgeted(Step(s, e), failures, a)
  {
    var i := s.budget.index;
    OneInstrumentMore(a.retries, i);
    if i < |s.route.chain| {
      assert Least(i, a.fallbacks) == i && Least(i + 1, a.fallbacks) == i + 1;
    }
  }

  lemma RegisterIsBudgeted(s: Sheet, e: Event, failures: nat, a: Allowance)
    requires Budgeted(s, failures, a) && e.Register? && failures > 0
    ensures Budgeted(Step(s, e), failures, AllowanceAfter(a, failures, s, e))
  {
    var i, more := s.budget.index, AllowanceAfter(a, failures, s, e);
    MonotoneProduct(a.retries, Least(i, a.fallbacks), more.retries, Least(i, more.fallbacks));
  }

  lemma {:induction false} FailuresAreBudgeted(start: Sheet, es: seq<Event>)
    requires IsNew(start) && Valid(start, es)
    ensures Budgeted(Run(start, es), Failures(es), AllowanceOf(start, es))
  {
    if es != [] {
      var front := es[..|es| - 1];
      FailuresAreBudgeted(start, front);
      StepIsBudgeted(Run(start, front), es[|es| - 1], Failures(front), AllowanceOf(start, front));
    }
  }

  lemma {:induction false} AllowanceIsInForce(start: Sheet, es: seq<Event>)
    requires !RegisteredLate(es)
    ensures AllowanceOf(start, es) == InForce(Run(start, es))
  {
    if es != [] && !StartsOver(es[|es| - 1]) {
      AllowanceIsInForce(start, es[..|es| - 1]);
    }
  }

  lemma WholeAllowance(s: Sheet, failures: nat, a: Allowance)
    requires Budgeted(s, failures, a)
    ensures failures <= a.retries * (a.fallbacks + 1)
  {
    MonotoneProduct(a.retries, Least(s.budget.index, a.fallbacks), a.retries, a.fallbacks);
    OneInstrumentMore(a.retries, a.fallbacks);
  }

  /**
    Until it starts over again a sheet fails at most its retries on each instrument of its chain. If it is registered
    again in between, the largest retries and the longest chain in force since its first failure count.
   */
  lemma BudgetBound(start: Sheet, es: seq<Event>)
    requires IsNew(start) && Valid(start, es)
    ensures
      var a, s := AllowanceOf(start, es), Run(start, es);
      && Failures(es) <= a.retries * (a.fallbacks + 1)
      && (!RegisteredLate(es) ==> Failures(es) <= s.plan.maxRetries * (|s.route.chain| + 1))
  {
    FailuresAreBudgeted(start, es);
    WholeAllowance(Run(start, es), Failures(es), AllowanceOf(start, es));
    if !RegisteredLate(es) {
      AllowanceIsInForce(start, es);
    }
  }

  const FAILURE := Attempt(Result(0.0, false, false, None))

  /** n failures in a row. */
  function Fails(es: seq<Event>, n: nat): seq<Event> {
    if n == 0 then es else Fails(es, n - 1) + [FAILURE]
  }

  /** All retries on the primary and on the first k fallbacks. */
  function Exhaust(retries: nat, k: nat): seq<Event> {
    Fails(if k == 0 then [] else Exhaust(retries, k - 1) + [Advance(0)], retries)
  }

  lemma SnocRun(start: Sheet, es: seq<Event>, e: Event)
    ensures Run(start, es + [e]) == Step(Run(start, es), e)
    ensures Valid(start, es + [e]) <==> Valid(start, es) && Allowed(Run(start, es), e)
    ensures Failures(es + [e]) == FailuresAfter(Failures(es), e)
    ensures RegisteredLate(es + [e]) <==>
              !StartsOver(e) && (RegisteredLate(es) || (e.Register? && Failures(es) > 0))
  {
    assert (es + [e])[..|es|] == es;
  }

  /** The run has counted that many failures, on instrument i, the last n of them there, and kept its chain. */
  predicate Tried(start: Sheet, es: seq<Event>, failures: nat, i: nat, n: nat) {
    var s := Run(start, es);
    && Valid(start, es) && Failures(es) == failures && !RegisteredLate(es)
    && s.budget.index == i && s.budget.normal == n && InForce(s) == InForce(start)
  }

  lemma FailureIsTried(start: Sheet, es: seq<Event>, failures: nat, i: nat, n: nat)
    requires Tried(start, es, failures, i, n) && n < start.plan.maxRetries
    ensures Tried(start, es + [FAILURE], failures + 1, i, n + 1)
  {
    SnocRun(start, es, FAILURE);
  }

  lemma AdvanceIsTried(start: Sheet, es: seq<Event>, failures: nat, i: nat, n: nat)
    requires Tried(start, es, failures, i, n) && i < |start.route.chain|
    ensures Tried(start, es + [Advance(0)], failures, i + 1, 0)
  {
    SnocRun(start, es, Advance(0));
  }

  lemma {:induction false} FailsCount(start: Sheet, es: seq<Event>, failures: nat, i: nat, n: nat)
    requires Tried(start, es, failures, i, 0) && n <= start.plan.maxRetries
    ensures Tried(start, Fails(es, n), failures + n, i, n)
  {
    if n > 0 {
      FailsCount(start, es, failures, i, n - 1);
      FailureIsTried(start, Fails(es, n - 1), failures + n - 1, i, n - 1);
    }
  }

  lemma {:induction false} ExhaustCount(start: Sheet, k: nat)
    requires IsNew(start) && k <= |start.route.chain|
    ensures
      var m := start.plan.maxRetries;
      Tried(start, Exhaust(m, k), m * (k + 1), k, m)
  {
    var m := start.plan.maxRetries;
    if k == 0 {
      FailsCount(start, [], 0, 0, m);
    } else {
      ExhaustCount(start, k - 1);
      AdvanceIsTried(start, Exhaust(m, k - 1), m * k, k - 1, m);
      FailsCount(start, Exhaust(m, k - 1) + [Advance(0)], m * k, k, m);
      OneInstrumentMore(m, k);
    }
  }

  /** The bound is exact: some run reaches it. */
  lemma BudgetIsReached(start: Sheet)
    requires IsNew(start)
    ensures exists es ::
      var s := Run(start, es);
      && Valid(start, es) && !RegisteredLate(es) && InForce(s) == InForce(start)
      && Failures(es) == s.plan.maxRetries * (|s.route.chain| + 1)
  {
    var es := Exhaust(start.plan.maxRetries, |start.route.chain|);
    ExhaustCount(start, |start.route.chain|);
    assert Valid(start, es);
  }

  // ---- the live instrument --------------------------------------------------------------------------------

  function HeadAfter(head: Identity, s: Sheet, e: Event): Identity {
    if Authors(s, e) then EntryIdentity(e.authored)
    else if Resets(e) then IdentityOf(Restored(s.live))
    else if Moves(s, e) then EntryIdentity(Order(s)[e.k])
    else head
  }

  /** Who runs at position 0: put there by the score, by a balanced dispatch, or by a reset. */
  function HeadOf(start: Sheet, es: seq<Event>): Identity {
    if es == [] then IdentityOf(start.live)
    else HeadAfter(HeadOf(start, es[..|es| - 1]), Run(start, es[..|es| - 1]), es[|es| - 1])
  }

  /** The entry last put in front with its configuration, by the score or by a balanced dispatch: resets do not. */
  function FrontOf(start: Sheet, es: seq<Event>): Option<Entry> {
    if es == [] then if start.route.first.Some? then Some(First(start)) else None
    else
      var before, s, e := FrontOf(start, es[..|es| - 1]), Run(start, es[..|es| - 1]), es[|es| - 1];
      if e.Register? || e.Recover? then Some(e.authored)
      else if Moves(s, e) then Some(Order(s)[e.k])
      else before
  }

  /** The configuration an attempt is made with; `own` is the sheet's, for chains that carry none at position 0. */
  function ReadConfig(s: Sheet, own: Config): Config {
    var i := s.budget.index;
    if i == 0 then if s.route.first.Some? then s.route.first.value else own
    else if i - 1 < |s.route.configs| then s.route.configs[i - 1]
    else EMPTY_CONFIG
  }

  /** What runs is the fallback before the index. */
  predicate OnFallback(live: Live, route: Route, i: nat)
    requires i > 0
  {
    i <= |route.chain| && live == On(Fallback(route, i - 1), live.primary)
  }

  predicate StrandedAfter(stranded: bool, s: Sheet, e: Event) {
    if Keeps(s, e) && s.budget.index > 0 then !OnFallback(s.live, e.route, s.budget.index)
    else stranded && !Resets(e) && !Authors(s, e) && !(e.Advance? && s.budget.index < |s.route.chain|)
  }

  /** The sheet had ended on a fallback when its chain was written anew, and the new chain has another one there. */
  predicate Stranded(start: Sheet, es: seq<Event>) {
    es != [] && StrandedAfter(Stranded(start, es[..|es| - 1]), Run(start, es[..|es| - 1]), es[|es| - 1])
  }

  lemma {:induction false} FrontIsRead(start: Sheet, es: seq<Event>)
    ensures
      var front := FrontOf(start, es);
      Run(start, es).route.first == if front.Some? then Some(front.value.config) else None
  {
    if es != [] {
      FrontIsRead(start, es[..|es| - 1]);
    }
  }

  predicate RunsOk(s: Sheet, head: Identity, stranded: bool) {
    var i := s.budget.index;
    && (i == 0 ==> IdentityOf(s.live) == head)
    && (i > 0 ==> (OnFallback(s.live, s.route, i) <==> !stranded))
  }

  /** The configuration that is read, whatever the sheet's own one is. */
  ghost predicate ReadsOk(s: Sheet, front: Option<Entry>) {
    var i := s.budget.index;
    forall own ::
      && (i == 0 ==> ReadConfig(s, own) == if front.Some? then front.value.config else own)
      && (0 < i <= |s.route.chain| ==> ReadConfig(s, own) == Fallback(s.route, i - 1).config)
  }

  /**
    In every run: on index 0 the head of the order runs and the configuration of what was last put in front is read;
    on a later index the fallback before it runs with its own configuration, if and only if the sheet is not stranded.
   */
  lemma LiveInstrument(start: Sheet, es: seq<Event>)
    requires IsNew(start) && Valid(start, es)
    ensures RunsOk(Run(start, es), HeadOf(start, es), Stranded(start, es))
    ensures ReadsOk(Run(start, es), FrontOf(start, es))
  {
    HeadRuns(start, es);
    FrontIsRead(start, es);
  }

  lemma {:induction false} HeadRuns(start: Sheet, es: seq<Event>)
    requires IsNew(start) && Valid(start, es)
    ensures RunsOk(Run(start, es), HeadOf(start, es), Stranded(start, es))
  {
    if es != [] {
      var front := es[..|es| - 1];
      HeadRuns(start, front);
      StepRuns(Run(start, front), es[|es| - 1], HeadOf(start, front), Stranded(start, front));
    }
  }

  lemma StepRuns(s: Sheet, e: Event, head: Identity, stranded: bool)
    requires RunsOk(s, head, stranded) && Allowed(s, e)
    ensures RunsOk(Step(s, e), HeadAfter(head, s, e), StrandedAfter(stranded, s, e))
  {
  }

  /**
    Since the primary was last remembered or restored, something else took its place: the last balanced dispatch that
    moved anything chose another entry, or a sheet that had ended elsewhere was recovered.
   */
  predicate Displaced(start: Sheet, es: seq<Event>) {
    es != [] && DisplacedAfter(Displaced(start, es[..|es| - 1]), Run(start, es[..|es| - 1]), es[|es| - 1])
  }

  predicate DisplacedAfter(displaced: bool, s: Sheet, e: Event) {
    if e.Recover? && Keeps(s, e) then IdentityOf(s.live) != EntryIdentity(e.authored)
    else if Authors(s, e) || Resets(e) || e.Remember? then false
    else if Moves(s, e) then s.live.primary != Some(EntryIdentity(Order(s)[e.k]))
    else displaced
  }

  predicate PrimaryOk(s: Sheet, displaced: bool) {
    s.live.primary.Some? && s.budget.index == 0 ==> (IdentityOf(s.live) == s.live.primary.value <==> !displaced)
  }

  lemma StepKeepsPrimary(s: Sheet, e: Event, displaced: bool)
    requires PrimaryOk(s, displaced)
    ensures PrimaryOk(Step(s, e), DisplacedAfter(displaced, s, e))
  {
  }

  /** On index 0 the remembered primary runs if and only if nothing has displaced it since. */
  lemma {:induction false} PrimaryRunsIff(start: Sheet, es: seq<Event>)
    requires IsNew(start) && Valid(start, es)
    ensures
      var s := Run(start, es);
      s.live.primary.Some? && s.budget.index == 0 ==>
        (IdentityOf(s.live) == s.live.primary.value <==> !Displaced(start, es))
  {
    if es != [] {
      var front := es[..|es| - 1];
      PrimaryRunsIff(start, front);
      StepKeepsPrimary(Run(start, front), es[|es| - 1], Displaced(start, front));
    }
  }

  /** So a sheet that does not ask for balance always starts on its remembered primary, unless it had ended. */
  lemma {:induction false} PrimaryRunsWithoutBalance(start: Sheet, es: seq<Event>)
    requires IsNew(start) && Valid(start, es) && !start.plan.balance
    requires forall i :: 0 <= i < |es| && es[i].Recover? ==> !Ended(es[i].status)
    ensures
      var s := Run(start, es);
      s.live.primary.Some? && s.budget.index == 0 ==> IdentityOf(s.live) == s.live.primary.value
  {
    PrimaryRunsIff(start, es);
    NothingDisplaced(start, es);
  }

  lemma {:induction false} NothingDisplaced(start: Sheet, es: seq<Event>)
    requires !start.plan.balance
    requires forall i :: 0 <= i < |es| && es[i].Recover? ==> !Ended(es[i].status)
    ensures !Run(start, es).plan.balance && !Displaced(start, es)
  {
    if es != [] {
      NothingDisplaced(start, es[..|es| - 1]);
    }
  }

  // ---- the configuration that is read ---------------------------------------------------------------------

  /** The entry that runs at position 0 is not the one whose configuration is read there. */
  predicate Mismatched(start: Sheet, es: seq<Event>) {
    if es == [] then start.route.first.Some? && IdentityOf(start.live) != EntryIdentity(First(start))
    else
      var front, s, e := es[..|es| - 1], Run(start, es[..|es| - 1]), es[|es| - 1];
      if Keeps(s, e) then IdentityOf(s.live) != EntryIdentity(e.authored)
      else if Resets(e) then
        FrontOf(start, front).Some? && IdentityOf(Restored(s.live)) != EntryIdentity(FrontOf(start, front).value)
      else !Authors(s, e) && !Moves(s, e) && Mismatched(start, front)
  }

  /**
    On index 0 the entry that runs is the entry whose configuration is read, if and only if the last step that decided
    one of the two decided both alike: a reset did if it restored the entry last put in front, a rewriting of an ended
    sheet did if its new primary is what the sheet ended on, and a registration or a balanced dispatch always does.
   */
  lemma {:induction false} OwnConfigIff(start: Sheet, es: seq<Event>)
    requires IsNew(start) && Valid(start, es)
    ensures
      var s, front := Run(start, es), FrontOf(start, es);
      s.budget.index == 0 && front.Some? ==>
        s.route.first == Some(front.value.config) &&
        (IdentityOf(s.live) == EntryIdentity(front.value) <==> !Mismatched(start, es))
  {
    if es != [] {
      OwnConfigIff(start, es[..|es| - 1]);
      FrontIsRead(start, es);
    }
  }

  /** The entry whose identity was last remembered by a registration or a recovery. */
  function AuthoredOf(start: Sheet, es: seq<Event>): Option<Entry> {
    if es == [] then None
    else
      var s, e := Run(start, es[..|es| - 1]), es[|es| - 1];
      if e.Recover? || Authors(s, e) then Some(e.authored) else AuthoredOf(start, es[..|es| - 1])
  }

  lemma {:induction false} AuthoredIsRemembered(start: Sheet, es: seq<Event>)
    requires forall i :: 0 <= i < |es| ==> !es[i].Remember?
    ensures
      var a := AuthoredOf(start, es);
      a.Some? ==> Run(start, es).live.primary == Some(EntryIdentity(a.value))
  {
    if es != [] {
      AuthoredIsRemembered(start, es[..|es| - 1]);
    }
  }

  /**
    After a reset position 0 is the authored entry with its own configuration, if and only if the configuration last
    put in front is the authored one: no reset undoes a balanced dispatch to another configuration.
   */
  lemma ResetKeepsAuthoredIff(start: Sheet, es: seq<Event>)
    requires IsNew(start) && Valid(start, es) && es != [] && Resets(es[|es| - 1])
    requires AuthoredOf(start, es).Some? && forall i :: 0 <= i < |es| ==> !es[i].Remember?
    ensures
      var s, a, front := Run(start, es), AuthoredOf(start, es).value, FrontOf(start, es);
      && front.Some?
      && (Order(s)[0] == a && s.live.model == a.config.model && ReadConfig(s, EMPTY_CONFIG) == a.config
          <==> front.value.config == a.config)
  {
    AuthoredIsRemembered(start, es[..|es| - 1]);
    FrontIsRead(start, es);
    AuthoredIsFront(start, es);
  }

  lemma {:induction false} AuthoredIsFront(start: Sheet, es: seq<Event>)
    ensures AuthoredOf(start, es).Some? ==> FrontOf(start, es).Some?
  {
    if es != [] {
      AuthoredIsFront(start, es[..|es| - 1]);
    }
  }

  /** A reset keeps the order of a sheet if and only if the instrument that runs is the remembered one. */
  lemma ResetKeepsOrderIff(s: Sheet, reset: Event)
    requires Resets(reset) && s.live.primary.Some? && s.route.first.Some?
    ensures Order(Step(s, reset)) == Order(s) <==> OrEmpty(s.live.name) == s.live.primary.value.name
  {
    ResetOrder(s, reset);
    assert Order(s)[0] == First(s);
  }

  /** Balancing a sheet moves one entry to the front and leaves the others in their order, each with its own config. */
  lemma BalanceReorders(s: Sheet, k: nat)
    requires Moves(s, Balance(k))
    ensures
      var order := Order(s);
      Order(Step(s, Balance(k))) == [order[k]] + Without(order, k)
  {
  }

  /** Two balanced dispatches in a row can cancel out: the displaced primary is the first fallback of the new order. */
  lemma BalanceTwiceReturns(s: Sheet)
    requires Moves(s, Balance(1)) && First(s).config.model == s.live.model
    ensures
      var once := Step(s, Balance(1));
      Moves(once, Balance(1)) && IdentityOf(Step(once, Balance(1)).live) == IdentityOf(s.live)
  {
    BalanceReorders(s, 1);
  }

  lemma BalanceKeepsEntries(s: Sheet, k: nat)
    requires Moves(s, Balance(k))
    ensures multiset(Order(Step(s, Balance(k)))) == multiset(Order(s))
  {
    BalanceReorders(s, k);
    FrontKeepsEntries(Order(s), k);
  }

  lemma FrontKeepsEntries(order: seq<Entry>, k: nat)
    requires k < |order|
    ensures multiset([order[k]] + Without(order, k)) == multiset(order)
  {
    assert order == order[..k] + [order[k]] + order[k + 1..];
  }

  /**
    What a reset leaves of a balanced sheet: the remembered primary is put back in front of the rotated chain, with
    the configuration of the entry that was chosen. If that entry has another name, it is gone and the primary is there
    twice; if the two differ in their models only, the order stays as it was balanced.
   */
  lemma ResetLosesBalancedEntry(s: Sheet, k: nat, reset: Event)
    requires Moves(s, Balance(k)) && s.live.primary == Some(IdentityOf(s.live)) && Resets(reset)
    ensures
      var order, balanced := Order(s), Step(s, Balance(k));
      var after := Step(balanced, reset);
      && IdentityOf(after.live) == s.live.primary.value
      && Order(after) == [Entry(order[0].name, order[k].config)] + Without(order, k)
      && Order(after)[1] == order[0]
      && multiset(Names(Order(after))) + multiset{order[k].name}
           == multiset(Names(order)) + multiset{order[0].name}
      && (Order(after) == Order(balanced) <==> order[k].name == order[0].name)
  {
    var order, balanced := Order(s), Step(s, Balance(k));
    BalanceReorders(s, k);
    ResetOrder(balanced, reset);
    FrontReplaced(order, k);
    ResetKeepsOrderIff(balanced, reset);
  }

  /** A reset puts the remembered primary in front of whatever the chain is, and leaves the configuration read there. */
  lemma ResetOrder(s: Sheet, reset: Event)
    requires Resets(reset) && s.live.primary.Some? && s.route.first.Some?
    ensures
      var after := Step(s, reset);
      && IdentityOf(after.live) == s.live.primary.value
      && Order(after) == [Entry(s.live.primary.value.name, s.route.first.value)] + Order(s)[1..]
  {
  }

  lemma FrontReplaced(order: seq<Entry>, k: nat)
    requires 0 < k < |order|
    ensures
      var after := [Entry(order[0].name, order[k].config)] + Without(order, k);
      && after[1] == order[0]
      && multiset(Names(after)) + multiset{order[k].name} == multiset(Names(order)) + multiset{order[0].name}
  {
    NamesOfRest(order, k);
    assert Names([Entry(order[0].name, order[k].config)] + Without(order, k))
        == [order[0].name] + Names(Without(order, k));
  }

  lemma NamesOfRest(order: seq<Entry>, k: nat)
    requires k < |order|
    ensures multiset(Names(order)) == multiset(Names(Without(order, k))) + multiset{order[k].name}
  {
    var names := Names(order);
    assert names == names[..k] + [order[k].name] + names[k + 1..];
    assert Names(Without(order, k)) == names[..k] + names[k + 1..];
  }

  /** A registered sheet with primary 1 and fallback 2 that is balanced onto 2, and reset after that. */
  lemma BalanceDisplacesPrimary()
    ensures
      var start := Sheet(Pending, 0, Plan(3, true), Route([], [], None), Budget(0, 0, map[]),
                         Live(None, None, None, None), History(0.0, [], [], []));
      var register := Register(Entry(1, Config(None, 7)), Route([2], [Config(None, 8)], None), 3);
      var s, after := Run(start, [register, Balance(1)]), Run(start, [register, Balance(1), ResetForRetry]);
      && IsNew(start) && Valid(start, [register, Balance(1), ResetForRetry])
      && s.budget.index == 0 && s.live.primary == Some(Identity(1, None)) && IdentityOf(s.live) == Identity(2, None)
      && IdentityOf(after.live) == Identity(1, None)
      && after.route == Route([1], [Config(None, 7)], Some(Config(None, 8)))
  {
    var start := Sheet(Pending, 0, Plan(3, true), Route([], [], None), Budget(0, 0, map[]),
                       Live(None, None, None, None), History(0.0, [], [], []));
    var register := Register(Entry(1, Config(None, 7)), Route([2], [Config(None, 8)], None), 3);
    SnocRun(start, [], register);
    SnocRun(start, [register], Balance(1));
    SnocRun(start, [register, Balance(1)], ResetForRetry);
    assert [] + [register] == [register];
    assert [register] + [Balance(1)] == [register, Balance(1)];
    assert [register, Balance(1)] + [ResetForRetry] == [register, Balance(1), ResetForRetry];
    var registered := Run(start, [register]);
    assert registered.route == Route([2], [Config(None, 8)], Some(Config(None, 7)));
    assert Order(registered) == [Entry(1, Config(None, 7)), Entry(2, Config(None, 8))];
    assert Without(Order(registered), 1) == [Entry(1, Config(None, 7))];
  }

  // ---- what survives resets -------------------------------------------------------------------------------

  function CostOf(es: seq<Event>): real {
    if es == [] then 0.0
    else if es[|es| - 1].Attempt? then CostOf(es[..|es| - 1]) + es[|es| - 1].result.cost
    else if es[|es| - 1].StaleCost? then CostOf(es[..|es| - 1]) + es[|es| - 1].cost
    else CostOf(es[..|es| - 1])
  }

  /** The records of all attempts, of all switches since the last retry reset, and all snapshots before flow resets. */
  function AllAttempts(start: Sheet, es: seq<Event>): seq<AttemptRecord> {
    if es == [] then []
    else
      var before, e := AllAttempts(start, es[..|es| - 1]), es[|es| - 1];
      if e.Attempt? then before + [RecordOf(Run(start, es[..|es| - 1]).live, e.result)] else before
  }

  predicate ForgetsSwitches(e: Event) {
    e.ResetForRetry? || (e.Recover? && !Ended(e.status))
  }

  function AllSwitches(start: Sheet, es: seq<Event>): seq<Switch> {
    if es == [] then []
    else
      var before, s, e := AllSwitches(start, es[..|es| - 1]), Run(start, es[..|es| - 1]), es[|es| - 1];
      if ForgetsSwitches(e) then []
      else if Switches(s, e) then before + [SwitchOf(s, e)]
      else before
  }

  /** How many switches are kept: an advance trims the history, a balanced dispatch does not. */
  function KeptSwitches(start: Sheet, es: seq<Event>): nat {
    if es == [] then 0
    else
      var before, s, e := KeptSwitches(start, es[..|es| - 1]), Run(start, es[..|es| - 1]), es[|es| - 1];
      if ForgetsSwitches(e) then 0
      else if Switches(s, e) then KeptAfter(before, e)
      else before
  }

  function KeptAfter(before: nat, e: Event): nat {
    if e.Advance? && before >= MAX_INSTRUMENT_FALLBACK_HISTORY then MAX_INSTRUMENT_FALLBACK_HISTORY else before + 1
  }

  function AllSnapshots(start: Sheet, es: seq<Event>): seq<FlowRecord> {
    if es == [] then []
    else
      var before, e := AllSnapshots(start, es[..|es| - 1]), es[|es| - 1];
      if e.ResetForFlow? then before + [SnapshotOf(Run(start, es[..|es| - 1]), e.cause)] else before
  }

  /** No reset and no switch of instruments loses money: the total is the sum over all attempts, late bills included. */
  lemma {:induction false} CostIsConserved(start: Sheet, es: seq<Event>)
    requires IsNew(start)
    ensures Run(start, es).history.cost == CostOf(es)
  {
    if es != [] {
      CostIsConserved(start, es[..|es| - 1]);
    }
  }

  /** The bounded histories are the last entries of the full ones; every snapshot holds the cost paid until then. */
  lemma {:induction false} HistoriesAreRecent(start: Sheet, es: seq<Event>)
    requires IsNew(start)
    ensures
      var h := Run(start, es).history;
      && h.attempts == Last(MAX_ATTEMPT_HISTORY, AllAttempts(start, es))
      && h.switches == Last(KeptSwitches(start, es), AllSwitches(start, es))
      && |h.switches| == KeptSwitches(start, es) <= |AllSwitches(start, es)|
      && h.flow == Last(MAX_FLOW_HISTORY, AllSnapshots(start, es))
  {
    if es != [] {
      var front, e := es[..|es| - 1], es[|es| - 1];
      HistoriesAreRecent(start, front);
      var s := Run(start, front);
      match e
      case Attempt(r) =>
        LastOfLast(MAX_ATTEMPT_HISTORY, MAX_ATTEMPT_HISTORY, AllAttempts(start, front), RecordOf(s.live, r));
      case ResetForFlow(cause) =>
        LastOfLast(MAX_FLOW_HISTORY, MAX_FLOW_HISTORY, AllSnapshots(start, front), SnapshotOf(s, cause));
      case _ =>
        if Switches(s, e) {
          SwitchIsKept(start, front, e);
        }
    }
  }

  lemma SwitchIsKept(start: Sheet, front: seq<Event>, e: Event)
    requires Switches(Run(start, front), e)
    requires Run(start, front).history.switches == Last(KeptSwitches(start, front), AllSwitches(start, front))
    requires KeptSwitches(start, front) <= |AllSwitches(start, front)|
    ensures
      var s, all, es := Run(start, front), AllSwitches(start, front + [e]), front + [e];
      && HistoryAfter(s, e).switches == Last(KeptSwitches(start, es), all)
      && |HistoryAfter(s, e).switches| == KeptSwitches(start, es) <= |all|
  {
    SwitchesSnoc(start, front, e);
    SwitchIsAppended(Run(start, front), e, KeptSwitches(start, front), AllSwitches(start, front));
  }

  lemma SwitchIsAppended(s: Sheet, e: Event, kept: nat, all: seq<Switch>)
    requires Switches(s, e) && kept <= |all| && s.history.switches == Last(kept, all)
    ensures HistoryAfter(s, e).switches == Last(KeptAfter(kept, e), all + [SwitchOf(s, e)])
    ensures |HistoryAfter(s, e).switches| == KeptAfter(kept, e) <= |all| + 1
  {
    var x := SwitchOf(s, e);
    LastGrows(kept, all, x);
    KeptIsLast(kept, all + [x]);
    if e.Advance? {
      TrimmedIsLast(kept, all + [x]);
    }
  }

  lemma TrimmedIsLast(kept: nat, all: seq<Switch>)
    requires kept < |all|
    ensures
      Last(MAX_INSTRUMENT_FALLBACK_HISTORY, Last(kept + 1, all)) == Last(KeptAfter(kept, Advance(0)), all)
  {
  }

  lemma SwitchesSnoc(start: Sheet, front: seq<Event>, e: Event)
    requires Switches(Run(start, front), e)
    ensures AllSwitches(start, front + [e]) ==
            AllSwitches(start, front) + [SwitchOf(Run(start, front), e)]
    ensures KeptSwitches(start, front + [e]) ==
            KeptAfter(KeptSwitches(start, front), e)
  {
    assert (front + [e])[..|front|] == front;
  }

  lemma KeptIsLast(kept: nat, all: seq<Switch>)
    requires kept < |all|
    ensures |Last(kept + 1, all)| == kept + 1
  {
  }

  /** The bound on the switches is broken exactly by a balanced dispatch that finds the history full. */
  lemma SwitchBoundBreaksIff(s: Sheet, e: Event)
    requires |s.history.switches| <= MAX_INSTRUMENT_FALLBACK_HISTORY
    ensures |Step(s, e).history.switches| > MAX_INSTRUMENT_FALLBACK_HISTORY <==>
              Moves(s, e) && |s.history.switches| == MAX_INSTRUMENT_FALLBACK_HISTORY
  {
  }

  function Balances(n: nat): seq<Event> {
    if n == 0 then [] else Balances(n - 1) + [Balance(1)]
  }

  /** The sheet waits for its first attempt and has recorded n switches. */
  predicate Waits(s: Sheet, n: nat) {
    MayBalance(s) && |s.history.switches| == n
  }

  /** A sheet that waits for its first attempt can be balanced to and fro; every time adds to the history. */
  lemma {:induction false} SwitchesGrowUnbounded(start: Sheet, n: nat)
    requires IsNew(start) && start.plan.balance && start.route.chain != []
    ensures Valid(start, Balances(n)) && Waits(Run(start, Balances(n)), n)
  {
    if n > 0 {
      SwitchesGrowUnbounded(start, n - 1);
      OneMoreBalance(start, Balances(n - 1), n - 1);
    }
  }

  lemma OneMoreBalance(start: Sheet, es: seq<Event>, n: nat)
    requires Valid(start, es) && Waits(Run(start, es), n)
    ensures Valid(start, es + [Balance(1)]) && Waits(Run(start, es + [Balance(1)]), n + 1)
  {
    SnocRun(start, es, Balance(1));
    BalanceAddsSwitch(Run(start, es));
  }

  lemma BalanceAddsSwitch(s: Sheet)
    requires MayBalance(s)
    ensures MayBalance(Step(s, Balance(1)))
    ensures |Step(s, Balance(1)).history.switches| == |s.history.switches| + 1
  {
  }

  /** After either reset the sheet is as ready as a new one: pending, on its primary, with its whole budget. */
  lemma ResetIsFresh(start: Sheet, es: seq<Event>)
    requires IsNew(start) && Valid(start, es) && es != []
    requires Resets(es[|es| - 1])
    ensures
      var s := Run(start, es);
      && s.status == Pending && s.budget == start.budget && Failures(es) == 0
      && (s.live.primary.Some? ==> IdentityOf(s.live) == s.live.primary.value)
  {
    LiveInstrument(start, es);
  }

  /** The snapshots are numbered by consecutive epochs, the next of which is the sheet's own. */
  lemma {:induction false} SnapshotsAreNumbered(start: Sheet, es: seq<Event>)
    ensures
      var all := AllSnapshots(start, es);
      && Run(start, es).epoch == start.epoch + |all|
      && forall i :: 0 <= i < |all| ==> all[i].epoch == start.epoch + i
  {
    if es != [] {
      SnapshotsAreNumbered(start, es[..|es| - 1]);
    }
  }

  // ---- the object -----------------------------------------------------------------------------------------

  class SheetRecord {
    const balanceChain: bool
    var status: Status
    var dispatchEpoch: nat
    var maxRetries: nat
    var fallbackChain: seq<Name>
    var fallbackConfigs: seq<Config>
    var primaryConfig: Option<Config>
    var currentInstrumentIndex: nat
    var normalAttempts: nat
    var fallbackAttempts: map<Name, nat>
    var instrumentName: Option<Name>
    var model: Option<Name>
    var instrumentModel: Option<Name>
    var primaryIdentity: Option<Identity>
    var totalCost: real
    var attemptHistory: seq<AttemptRecord>
    var instrumentFallbackHistory: seq<Switch>
    var flowHistory: seq<FlowRecord>

    function State(): Sheet
      reads this
    {
      Sheet(status, dispatchEpoch, Plan(maxRetries, balanceChain), Route(fallbackChain, fallbackConfigs, primaryConfig),
            Budget(currentInstrumentIndex, normalAttempts, fallbackAttempts),
            Live(instrumentName, model, instrumentModel, primaryIdentity),
            History(totalCost, attemptHistory, instrumentFallbackHistory, flowHistory))
    }

    constructor (plan: Plan, route: Route, instrument: Option<Name>, model: Option<Name>)
      ensures IsNew(State()) && State().plan == plan && State().route == route
      ensures instrumentName == instrument && this.model == model
    {
      maxRetries, balanceChain := plan.maxRetries, plan.balance;
      fallbackChain, fallbackConfigs, primaryConfig := route.chain, route.configs, route.first;
      status, dispatchEpoch, currentInstrumentIndex, normalAttempts, fallbackAttempts := Pending, 0, 0, 0, map[];
      instrumentName, this.model, instrumentModel, primaryIdentity := instrument, model, model, None;
      totalCost, attemptHistory, instrumentFallbackHistory, flowHistory := 0.0, [], [], [];
    }

    /** The scheduler decides what became of the sheet. */
    method MarkStatus(status: Status)
      modifies this`status
      ensures State() == Step(old(State()), Mark(status))
    {
      this.status := status;
    }

    method AddToAttemptHistory(record: AttemptRecord)
      modifies this`attemptHistory
      ensures attemptHistory == Last(MAX_ATTEMPT_HISTORY, old(attemptHistory) + [record])
    {
      attemptHistory := attemptHistory + [record];
      if |attemptHistory| > MAX_ATTEMPT_HISTORY {
        attemptHistory := attemptHistory[|attemptHistory| - MAX_ATTEMPT_HISTORY..];
      }
    }

    /** record_attempt */
    method RecordAttempt(result: Result)
      modifies this
      ensures State() == Step(old(State()), Attempt(result))
    {
      totalCost := totalCost + result.cost;
      var instrument := instrumentName;
      if result.instrument.Some? && result.instrument.value != EMPTY_NAME {
        instrument := result.instrument;
      }
      AddToAttemptHistory(AttemptRecord(instrument, instrumentModel, result.success));
      if !result.rateLimited && !result.success {
        normalAttempts := normalAttempts + 1;
      }
    }

    /** An execution that succeeded below the completion gate uses up a retry all the same. */
    method ChargeRetry()
      modifies this`normalAttempts
      ensures State() == Step(old(State()), Charge)
    {
      normalAttempts := normalAttempts + 1;
    }

    /** A result from before the last flow reset decides nothing, but its money is counted. */
    method AddStaleCost(cost: real)
      modifies this`totalCost
      ensures State() == Step(old(State()), StaleCost(cost))
    {
      totalCost := totalCost + cost;
    }

    method AddFallbackToHistory(record: Switch)
      modifies this`instrumentFallbackHistory
      ensures
        var h := old(State()).history;
        State() == old(State()).(history :=
          h.(switches := Last(MAX_INSTRUMENT_FALLBACK_HISTORY, h.switches + [record])))
    {
      instrumentFallbackHistory := instrumentFallbackHistory + [record];
      if |instrumentFallbackHistory| > MAX_INSTRUMENT_FALLBACK_HISTORY {
        instrumentFallbackHistory :=
          instrumentFallbackHistory[|instrumentFallbackHistory| - MAX_INSTRUMENT_FALLBACK_HISTORY..];
      }
    }

    /** The part of advance_fallback that changes the live identity. */
    method AdoptFallback(idx: nat)
      requires idx < |fallbackChain|
      modifies this`instrumentName, this`model, this`instrumentModel
      ensures State() == old(State()).(live := On(Fallback(State().route, idx), primaryIdentity))
    {
      instrumentName := Some(fallbackChain[idx]);
      if idx < |fallbackConfigs| {
        model := fallbackConfigs[idx].model;
      } else {
        model := None;
      }
      instrumentModel := model;
    }

    /** The part of advance_fallback that closes the budget of one instrument and opens that of the next. */
    method NextBudget(from: Name)
      modifies this`fallbackAttempts, this`currentInstrumentIndex, this`normalAttempts
      ensures
        var b := old(State()).budget;
        State() == old(State()).(budget := Budget(b.index + 1, 0, b.tried[from := b.normal]))
    {
      fallbackAttempts := fallbackAttempts[from := normalAttempts];
      currentInstrumentIndex := currentInstrumentIndex + 1;
      normalAttempts := 0;
    }

    /** advance_fallback: the new instrument, or none if the chain is used up. */
    method AdvanceFallback(reason: int) returns (target: Option<Name>)
      modifies this
      ensures State() == Step(old(State()), Advance(reason))
      ensures target.Some? <==> old(currentInstrumentIndex) < |old(fallbackChain)|
      ensures target.Some? ==> target == instrumentName
    {
      if currentInstrumentIndex >= |fallbackChain| {
        return None;
      }
      var from := if instrumentName.Some? then instrumentName.value else EMPTY_NAME;
      var idx := currentInstrumentIndex;
      target := Some(fallbackChain[idx]);
      NextBudget(from);
      AdoptFallback(idx);
      AddFallbackToHistory(Switch(from, fallbackChain[idx], reason));
    }

    method RememberPrimaryIdentity()
      modifies this`primaryIdentity
      ensures State() == Step(old(State()), Remember)
    {
      primaryIdentity := Some(Identity(if instrumentName.Some? then instrumentName.value else EMPTY_NAME, model));
    }

    method RestorePrimaryIdentity()
      modifies this`instrumentName, this`model, this`instrumentModel
      ensures State() == old(State()).(live := Restored(old(State()).live))
    {
      if primaryIdentity.None? {
        return;
      }
      instrumentName := Some(primaryIdentity.value.name);
      model := primaryIdentity.value.model;
      instrumentModel := primaryIdentity.value.model;
    }

    /** The score's primary becomes the live instrument. */
    method WritePrimary(authored: Entry)
      modifies this`instrumentName, this`model, this`instrumentModel
      ensures State() == old(State()).(live := On(authored, primaryIdentity))
    {
      instrumentName := Some(authored.name);
      model := authored.config.model;
      instrumentModel := model;
    }

    /** The retries and the chain of the score, which registration and recovery write to every sheet. */
    method WriteChain(authored: Entry, route: Route, retries: nat)
      modifies this`maxRetries, this`fallbackChain, this`fallbackConfigs, this`primaryConfig
      ensures State() == old(State()).(plan := old(State()).plan.(maxRetries := retries),
                                       route := route.(first := Some(authored.config)))
    {
      maxRetries := retries;
      fallbackChain, fallbackConfigs, primaryConfig := route.chain, route.configs, Some(authored.config);
    }

    /** The enrichment of a live sheet when its job is registered. */
    method RegisterSheet(authored: Entry, route: Route, retries: nat)
      modifies this
      ensures State() == Step(old(State()), Register(authored, route, retries))
    {
      if !(status == Completed || status == Skipped || status == Cancelled) {
        WritePrimary(authored);
        RememberPrimaryIdentity();
      }
      WriteChain(authored, route, retries);
    }

    /** Back to the primary, with no trace of the fallbacks. */
    method ForgetFallbacks()
      modifies this`currentInstrumentIndex, this`instrumentFallbackHistory, this`fallbackAttempts
      ensures State() == old(State()).(budget := Budget(0, normalAttempts, map[]),
                                       history := old(State()).history.(switches := []))
    {
      currentInstrumentIndex := 0;
      instrumentFallbackHistory := [];
      fallbackAttempts := map[];
    }

    /** The sheet of a recovered job; `normal` is the number of attempts its checkpoint carries. */
    method RecoverSheet(authored: Entry, route: Route, retries: nat, normal: nat, status: Status)
      modifies this
      ensures State() == Step(old(State()), Recover(authored, route, retries, normal, status))
    {
      var ended := status == Completed || status == Skipped || status == Cancelled;
      if !ended {
        WritePrimary(authored);
      }
      primaryIdentity := Some(Identity(authored.name, authored.config.model));
      WriteChain(authored, route, retries);
      this.status := status;
      normalAttempts := normal;
      if !ended {
        ForgetFallbacks();
      }
    }

    /** The candidates of a balanced dispatch: the primary with its configuration, then the fallbacks with theirs. */
    method ListChain() returns (chain: seq<Entry>)
      ensures chain == Order(State())
    {
      var config := EMPTY_CONFIG;
      if primaryConfig.Some? {
        config := primaryConfig.value;
      } else if model.Some? && model.value != EMPTY_NAME {
        config := Config(model, 0);
      }
      chain := [Entry(if instrumentName.Some? then instrumentName.value else EMPTY_NAME, config)];
      for idx := 0 to |fallbackChain|
        invariant chain == Order(State())[..idx + 1]
      {
        chain := chain + [Entry(fallbackChain[idx],
                                if idx < |fallbackConfigs| then fallbackConfigs[idx] else EMPTY_CONFIG)];
      }
    }

    /** The chain is rewritten with entry k in front. */
    method Reorder(chain: seq<Entry>, k: nat)
      requires k < |chain|
      modifies this`instrumentName, this`model, this`instrumentModel
      modifies this`fallbackChain, this`fallbackConfigs, this`primaryConfig
      ensures
        var rest := Without(chain, k);
        State() == old(State()).(live := On(chain[k], primaryIdentity),
                                 route := Route(Names(rest), Configs(rest), Some(chain[k].config)))
    {
      var rest := chain[..k] + chain[k + 1..];
      instrumentName := Some(chain[k].name);
      model := chain[k].config.model;
      instrumentModel := model;
      primaryConfig := Some(chain[k].config);
      fallbackChain, fallbackConfigs := Names(rest), Configs(rest);
    }

    /** _balance_chain behind its guard; k is the least loaded entry that may be used. */
    method BalanceChain(k: nat)
      requires k <= |fallbackChain|
      modifies this
      ensures State() == Step(old(State()), Balance(k))
    {
      if !balanceChain || currentInstrumentIndex != 0 || attemptHistory != [] || fallbackChain == [] {
        return;
      }
      var chain := ListChain();
      if k == 0 {
        return;
      }
      Reorder(chain, k);
      instrumentFallbackHistory := instrumentFallbackHistory + [Switch(chain[0].name, chain[k].name, BALANCE)];
    }

    /** What both resets do: a whole budget, and the primary again. */
    method StartFresh()
      modifies this`fallbackAttempts, this`currentInstrumentIndex, this`normalAttempts
      modifies this`instrumentName, this`model, this`instrumentModel
      ensures State() == old(State()).(budget := Budget(0, 0, map[]), live := Restored(old(State()).live))
    {
      normalAttempts := 0;
      currentInstrumentIndex := 0;
      RestorePrimaryIdentity();
      fallbackAttempts := map[];
    }

    method ResetToRetry()
      modifies this
      ensures State() == Step(old(State()), ResetForRetry)
    {
      status := Pending;
      StartFresh();
      instrumentFallbackHistory := [];
    }

    method AddToFlowHistory(record: FlowRecord)
      modifies this`flowHistory
      ensures flowHistory == Last(MAX_FLOW_HISTORY, old(flowHistory) + [record])
    {
      flowHistory := flowHistory + [record];
      if |flowHistory| > MAX_FLOW_HISTORY {
        flowHistory := flowHistory[|flowHistory| - MAX_FLOW_HISTORY..];
      }
    }

    method ResetToFlow(cause: int)
      modifies this
      ensures State() == Step(old(State()), ResetForFlow(cause))
    {
      AddToFlowHistory(FlowRecord(dispatchEpoch, cause, status, totalCost));
      status := Pending;
      dispatchEpoch := dispatchEpoch + 1;
      StartFresh();
    }
  }
}
