/**
  A sheet read off the events of its run (core/checkpoint.py, SheetState): what uses up its retry budget, which
  instrument and which records every step leaves. Flags, names and positions are written out here.
 */
module SheetHistory {
  import opened Sequences
  import opened SheetState

  // ---- the budget -----------------------------------------------------------------------------------------

  /** The number of fallbacks of the chain that was written last. */
  function FallbacksOf(start: Sheet, es: seq<Event>): nat {
    if es == [] then |start.route.chain|
    else
      var e := es[|es| - 1];
      if e.Register? || e.Recover? then |e.route.chain| else FallbacksOf(start, es[..|es| - 1])
  }

  function RetriesOf(start: Sheet, es: seq<Event>): nat {
    if es == [] then start.plan.maxRetries
    else
      var e := es[|es| - 1];
      if e.Register? || e.Recover? then e.retries else RetriesOf(start, es[..|es| - 1])
  }

  predicate HasEnded(status: Status) {
    status.Completed? || status.Skipped? || status.Cancelled?
  }

  /** The position in the chain: one on for every advance that finds a fallback. */
  function IndexOf(start: Sheet, es: seq<Event>): nat
    decreases |es|, 1
  {
    if es == [] then start.budget.index
    else
      var front := es[..|es| - 1];
      match es[|es| - 1]
      case Advance(_) => if Advances(start, es) then IndexOf(start, front) + 1 else IndexOf(start, front)
      case ResetForRetry => 0
      case ResetForFlow(_) => 0
      case Recover(_, _, _, _, status) => if HasEnded(status) then IndexOf(start, front) else 0
      case _ => IndexOf(start, front)
  }

  predicate Advances(start: Sheet, es: seq<Event>)
    decreases |es|, 0
  {
    es != [] && es[|es| - 1].Advance? && IndexOf(start, es[..|es| - 1]) < FallbacksOf(start, es[..|es| - 1])
  }

  /** Failed attempts that were not rate limited, and charges, on this instrument; with what a recovery carried in. */
  function SpentOf(start: Sheet, es: seq<Event>): nat {
    if es == [] then start.budget.normal
    else
      var front := es[..|es| - 1];
      match es[|es| - 1]
      case Attempt(r) => SpentOf(start, front) + if !r.success && !r.rateLimited then 1 else 0
      case Charge => SpentOf(start, front) + 1
      case Advance(_) => if Advances(start, es) then 0 else SpentOf(start, front)
      case ResetForRetry => 0
      case ResetForFlow(_) => 0
      case Recover(_, _, _, normal, _) => normal
      case _ => SpentOf(start, front)
  }

  function StatusOf(start: Sheet, es: seq<Event>): Status {
    if es == [] then start.status
    else
      match es[|es| - 1]
      case ResetForRetry => Pending
      case ResetForFlow(_) => Pending
      case Recover(_, _, _, _, status) => status
      case Mark(status) => status
      case _ => StatusOf(start, es[..|es| - 1])
  }

  /** Status, position, retries and what is spent of them are what the events say. */
  lemma {:induction false} BudgetIsExact(start: Sheet, es: seq<Event>)
    ensures
      var s := Run(start, es);
      && s.status == StatusOf(start, es) && s.plan.maxRetries == RetriesOf(start, es)
      && |s.route.chain| == FallbacksOf(start, es)
      && s.budget.index == IndexOf(start, es) && s.budget.normal == SpentOf(start, es)
  {
    if es != [] {
      BudgetIsExact(start, es[..|es| - 1]);
    }
  }

  /** A failure that is no rate limit costs one retry; a success and a rate limit cost none. */
  lemma AttemptCosts(start: Sheet, es: seq<Event>, rateLimited: bool, success: bool)
    requires es != [] && es[|es| - 1].Attempt?
    requires es[|es| - 1].result.rateLimited == rateLimited && es[|es| - 1].result.success == success
    ensures
      var before, after := Run(start, es[..|es| - 1]), Run(start, es);
      after.plan.maxRetries - after.budget.normal ==
        before.plan.maxRetries - before.budget.normal - if rateLimited || success then 0 else 1
  {
    BudgetIsExact(start, es);
    BudgetIsExact(start, es[..|es| - 1]);
  }

  /** The failures spent on each instrument that was left behind, since the sheet last started over. */
  function TriedOf(start: Sheet, es: seq<Event>, name: Name): Option<nat> {
    if es == [] then if name in start.budget.tried then Some(start.budget.tried[name]) else None
    else
      var front, e := es[..|es| - 1], es[|es| - 1];
      if e.ResetForRetry? || e.ResetForFlow? || (e.Recover? && !HasEnded(e.status)) then None
      else if Advances(start, es) && RunsOn(Run(start, front), name) then Some(SpentOf(start, front))
      else TriedOf(start, front, name)
  }

  /** The sheet runs on the instrument, 0 being the name of none. */
  predicate RunsOn(s: Sheet, name: Name) {
    s.live.name == Some(name) || (s.live.name == None && name == 0)
  }

  lemma {:induction false} TriedIsExact(start: Sheet, es: seq<Event>, name: Name)
    ensures KnownAs(Run(start, es).budget.tried, name, TriedOf(start, es, name))
  {
    if es != [] {
      TriedIsExact(start, es[..|es| - 1], name);
      BudgetIsExact(start, es[..|es| - 1]);
    }
  }

  // ---- the instrument -------------------------------------------------------------------------------------

  /** On a fallback the sheet runs on that entry of its chain, with the model of that entry's configuration. */
  lemma FallbackRuns(start: Sheet, es: seq<Event>)
    requires IsNew(start) && Valid(start, es) && IndexOf(start, es) > 0 && !Stranded(start, es)
    ensures
      var s, i := Run(start, es), IndexOf(start, es) - 1;
      && i < |s.route.chain| && s.live.name == Some(s.route.chain[i])
      && s.live.model == (if i < |s.route.configs| then s.route.configs[i].model else None)
      && s.live.display == s.live.model
  {
    BudgetIsExact(start, es);
    LiveInstrument(start, es);
  }

  /** Registration and recovery put the score's primary in front, unless the sheet has ended. */
  lemma PrimaryRuns(start: Sheet, es: seq<Event>)
    requires es != [] && (es[|es| - 1].Register? || es[|es| - 1].Recover?)
    ensures
      var before, s, e := Run(start, es[..|es| - 1]), Run(start, es), es[|es| - 1];
      var ended := HasEnded(if e.Recover? then e.status else StatusOf(start, es[..|es| - 1]));
      && s.route == Route(e.route.chain, e.route.configs, Some(e.authored.config))
      && (!ended ==> s.live.name == Some(e.authored.name) && s.live.model == e.authored.config.model
                     && s.live.display == s.live.model)
      && (ended ==> s.live.name == before.live.name && s.live.model == before.live.model
                    && s.live.display == before.live.display)
      && s.live.primary == (if ended && e.Register? then before.live.primary
                            else Some(Identity(e.authored.name, e.authored.config.model)))
  {
    BudgetIsExact(start, es[..|es| - 1]);
  }

  /** A reset puts the remembered primary back, and leaves the instrument if none is remembered. */
  lemma ResetRuns(s: Sheet, reset: Event)
    requires reset.ResetForRetry? || reset.ResetForFlow?
    ensures
      var before, after := s.live, Step(s, reset).live;
      && after.primary == before.primary && Step(s, reset).route == s.route
      && (before.primary.None? ==> after == before)
      && (before.primary.Some? ==>
            && after.name == Some(before.primary.value.name) && after.model == before.primary.value.model
            && after.display == after.model)
  {
  }

  /** A balanced dispatch changes a sheet exactly before its first attempt, on its primary, and with fallbacks. */
  lemma BalanceChangesIff(s: Sheet, k: nat)
    ensures Step(s, Balance(k)) != s <==>
              s.plan.balance && s.budget.index == 0 && s.history.attempts == [] && 1 <= k <= |s.route.chain|
  {
    if Moves(s, Balance(k)) {
      assert |Step(s, Balance(k)).history.switches| == |s.history.switches| + 1;
    }
  }

  /** The configuration of fallback i; old checkpoints may have fewer configurations than fallbacks. */
  function ConfigAt(r: Route, i: nat): Config {
    if i < |r.configs| then r.configs[i] else Config(None, 0)
  }

  /** The chosen fallback becomes the primary, and the displaced primary the first fallback. */
  lemma BalanceRotates(s: Sheet, k: nat)
    requires Step(s, Balance(k)) != s
    ensures 1 <= k <= |s.route.chain|
    ensures
      var r, after := s.route, Step(s, Balance(k));
      && after.live.name == Some(r.chain[k - 1]) && after.live.model == ConfigAt(r, k - 1).model
      && after.live.display == after.live.model && after.live.primary == s.live.primary
      && |after.route.chain| == |r.chain|
      && RunsOn(s, after.route.chain[0]) && after.route.chain[1..] == r.chain[..k - 1] + r.chain[k..]
  {
    BalanceChangesIff(s, k);
    var order, after := Order(s), Step(s, Balance(k));
    assert order[k] == Fallback(s.route, k - 1);
    assert after.route.chain == Names(Without(order, k));
  }

  /** Each entry keeps its own configuration. */
  lemma BalanceRotatesConfigs(s: Sheet, k: nat)
    requires Step(s, Balance(k)) != s
    ensures 1 <= k <= |s.route.chain|
    ensures
      var r, after := s.route, Step(s, Balance(k)).route;
      && after.first == Some(ConfigAt(r, k - 1)) && |after.configs| == |r.chain|
      && (r.first.Some? ==> after.configs[0] == r.first.value)
      && (r.first.None? && s.live.model.Some? && s.live.model.value != 0 ==>
            after.configs[0] == Config(s.live.model, 0))
      && forall i :: 1 <= i < |after.configs| ==> after.configs[i] == ConfigAt(r, if i < k then i - 1 else i)
  {
    BalanceChangesIff(s, k);
    var order, after := Order(s), Step(s, Balance(k));
    assert order[k] == Fallback(s.route, k - 1);
    assert after.route.configs == Configs(Without(order, k));
    forall i | 1 <= i < |after.route.configs|
      ensures after.route.configs[i] == ConfigAt(s.route, if i < k then i - 1 else i)
    {
      var from := if i < k then i else i + 1;
      assert Without(order, k)[i] == order[from] == Fallback(s.route, from - 1);
    }
  }

  // ---- the records ----------------------------------------------------------------------------------------

  /** An attempt is recorded under the instrument its result names, or else the one that runs. */
  lemma AttemptIsRecorded(start: Sheet, es: seq<Event>)
    requires es != [] && es[|es| - 1].Attempt?
    ensures
      var before, all, r := Run(start, es[..|es| - 1]), AllAttempts(start, es), es[|es| - 1].result;
      && |all| == |AllAttempts(start, es[..|es| - 1])| + 1 && all[..|all| - 1] == AllAttempts(start, es[..|es| - 1])
      && var record := all[|all| - 1];
         && record.success == r.success && record.model == before.live.display
         && (r.instrument.Some? && r.instrument.value != 0 ==> record.instrument == r.instrument)
         && (r.instrument == None || r.instrument == Some(0) ==> record.instrument == before.live.name)
  {
  }

  /** A switch is recorded from the instrument that ran to the one that runs now, with its reason. */
  lemma SwitchIsRecorded(start: Sheet, es: seq<Event>)
    requires es != [] && (es[|es| - 1].Advance? || es[|es| - 1].Balance?)
    ensures
      var before, after, e := Run(start, es[..|es| - 1]), Run(start, es), es[|es| - 1];
      var earlier, all := AllSwitches(start, es[..|es| - 1]), AllSwitches(start, es);
      if after == before then all == earlier
      else
        && |all| == |earlier| + 1 && all[..|earlier|] == earlier
        && RunsOn(before, all[|earlier|].source) && after.live.name == Some(all[|earlier|].target)
        && all[|earlier|].reason == (if e.Advance? then e.reason else BALANCE)
  {
    var before, e := Run(start, es[..|es| - 1]), es[|es| - 1];
    if e.Balance? {
      BalanceChangesIff(before, e.k);
    } else if before.budget.index < |before.route.chain| {
      assert Run(start, es).budget.index == before.budget.index + 1;
    }
  }

  function FlowResets(es: seq<Event>): nat {
    if es == [] then 0 else FlowResets(es[..|es| - 1]) + if es[|es| - 1].ResetForFlow? then 1 else 0
  }

  /** A flow reset records the cause, and the epoch, the status and the cost as they were. */
  function SnapshotsOf(start: Sheet, es: seq<Event>): seq<FlowRecord> {
    if es == [] then []
    else
      var front, e := es[..|es| - 1], es[|es| - 1];
      if e.ResetForFlow? then
        SnapshotsOf(start, front)
          + [FlowRecord(start.epoch + FlowResets(front), e.cause, StatusOf(start, front), CostOf(front))]
      else SnapshotsOf(start, front)
  }

  lemma {:induction false} SnapshotsAreExact(start: Sheet, es: seq<Event>)
    requires IsNew(start)
    ensures Run(start, es).epoch == start.epoch + FlowResets(es)
    ensures AllSnapshots(start, es) == SnapshotsOf(start, es)
  {
    if es != [] {
      SnapshotsAreExact(start, es[..|es| - 1]);
      BudgetIsExact(start, es[..|es| - 1]);
      CostIsConserved(start, es[..|es| - 1]);
    }
  }
}
