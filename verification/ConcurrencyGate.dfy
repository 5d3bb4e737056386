/**
  The resizable admission gate of the conductor (daemon/concurrency.py).

  The gate is single-threaded: everything between two suspension points runs without interruption, so
  each method of `Gate` is one atomic step and a run of the conductor is a sequence of `Event`s.
  A call of `acquire` is named by a `Waiter`; the asyncio event `_wake` is its flag together with the
  calls parked on it and the calls it has woken but that have not re-checked the limit yet.
 */
module ConcurrencyGate {

  type Waiter = nat

  datatype State = State(
    limit: int,
    acquired: int,
    wake: bool,
    parked: set<Waiter>,
    woken: set<Waiter>,
    holders: set<Waiter>)

  datatype Event =
    | Attempt(w: Waiter)   // one turn of the re-check loop: a fresh call, or a woken one
    | Release(w: Waiter)   // the holder w gives its slot back
    | Resize(limit: int)   // set_limit
    | Cancel(w: Waiter)    // the task of a waiting call is cancelled

  function Init(limit: int): State {
    State(limit, 0, false, {}, {}, {})
  }

  predicate Enabled(s: State, e: Event) {
    match e
    case Attempt(w) => w !in s.parked && w !in s.holders
    case Release(w) => w in s.holders
    case Resize(_) => true
    case Cancel(w) => w in s.parked || w in s.woken
  }

  /** Setting the event: every parked call becomes runnable. */
  function WakeAll(s: State): State {
    s.(wake := true, parked := {}, woken := s.woken + s.parked)
  }

  function Step(s: State, e: Event): State {
    match e
    case Attempt(w) =>
      if s.acquired < s.limit then
        s.(acquired := s.acquired + 1, holders := s.holders + {w}, woken := s.woken - {w})
      else
        s.(wake := false, parked := s.parked + {w}, woken := s.woken - {w})
    case Release(w) =>
      WakeAll(s.(acquired := s.acquired - 1, holders := s.holders - {w}))
    case Resize(n) =>
      if n < 1 then s else WakeAll(s.(limit := n))
    case Cancel(w) =>
      s.(parked := s.parked - {w}, woken := s.woken - {w})
  }

  function Run(limit: int, es: seq<Event>): State {
    if es == [] then Init(limit) else Step(Run(limit, es[..|es| - 1]), es[|es| - 1])
  }

  /** Every event of the run is enabled in the state it fires in. */
  predicate Valid(limit: int, es: seq<Event>) {
    es != [] ==> Valid(limit, es[..|es| - 1]) && Enabled(Run(limit, es[..|es| - 1]), es[|es| - 1])
  }

  /** A gate object: the three fields of the source plus the scheduler's view of its waiters. */
  class Gate {
    var limit: int
    var acquired: int
    var wake: bool
    ghost var parked: set<Waiter>
    ghost var woken: set<Waiter>
    ghost var holders: set<Waiter>

    ghost function View(): State
      reads this
    {
      State(limit, acquired, wake, parked, woken, holders)
    }

    constructor (limit: int)
      requires limit >= 1
      ensures View() == Init(limit)
    {
      this.limit, acquired, wake := limit, 0, false;
      parked, woken, holders := {}, {}, {};
    }

    /** One turn of the loop in `acquire`: true when the caller now holds a slot, false when it parked. */
    method TryAcquire(ghost w: Waiter) returns (granted: bool)
      requires Enabled(View(), Attempt(w))
      modifies this
      ensures View() == Step(old(View()), Attempt(w))
      ensures granted <==> w in holders
      ensures granted <==> old(acquired) < old(limit)
    {
      woken := woken - {w};
      if acquired < limit {
        acquired := acquired + 1;
        holders := holders + {w};
        return true;
      }
      wake := false;
      parked := parked + {w};
      return false;
    }

    /** False stands for the RuntimeError of a release without a matching acquire. */
    method ReleaseSlot(ghost w: Waiter) returns (ok: bool)
      requires acquired > 0 ==> w in holders
      modifies this
      ensures ok <==> old(acquired) > 0
      ensures ok ==> View() == Step(old(View()), Release(w))
      ensures !ok ==> View() == old(View())
    {
      if acquired <= 0 {
        return false;
      }
      acquired := acquired - 1;
      holders := holders - {w};
      SetWake();
      return true;
    }

    /** False stands for the ValueError of a limit below one. */
    method SetLimit(newLimit: int) returns (ok: bool)
      modifies this
      ensures ok <==> newLimit >= 1
      ensures View() == Step(old(View()), Resize(newLimit))
    {
      if newLimit < 1 {
        return false;
      }
      limit := newLimit;
      SetWake();
      return true;
    }

    method SetWake()
      modifies this
      ensures View() == WakeAll(old(View()))
    {
      wake := true;
      woken, parked := woken + parked, {};
    }

    ghost method CancelWaiter(w: Waiter)
      requires Enabled(View(), Cancel(w))
      modifies this
      ensures View() == Step(old(View()), Cancel(w))
    {
      parked, woken := parked - {w}, woken - {w};
    }
  }

  /** What every reachable state satisfies. */
  predicate Inv(s: State) {
    && s.limit >= 1
    && s.acquired == |s.holders|
    && (forall w :: w in s.parked ==> w !in s.woken && w !in s.holders)
    && (forall w :: w in s.woken ==> w !in s.holders)
    && (s.parked != {} ==> s.acquired >= s.limit)
  }

  lemma StepKeepsInv(s: State, e: Event)
    requires Inv(s) && Enabled(s, e)
    ensures Inv(Step(s, e))
  {
    var t := Step(s, e);
    match e
    case Attempt(w) =>
      if s.acquired < s.limit {
        assert s.parked == {} && t.parked == {};
        assert t.holders == s.holders + {w};
      } else {
        assert t.holders == s.holders;
      }
    case Release(w) =>
      assert t.parked == {} && t.holders == s.holders - {w};
    case Resize(_) =>
    case Cancel(w) =>
      assert t.parked != {} ==> s.parked != {};
  }

  /**
    No lost wake-up: a call that is parked and not woken only ever waits for a slot that does not exist.
    So when no woken call is left to run, either nobody waits or the gate is full.
   */
  lemma {:induction false} NoLostWakeup(limit: int, es: seq<Event>)
    requires limit >= 1 && Valid(limit, es)
    ensures Inv(Run(limit, es))
    ensures var s := Run(limit, es); s.acquired < s.limit ==> s.parked == {}
  {
    if es != [] {
      NoLostWakeup(limit, es[..|es| - 1]);
      StepKeepsInv(Run(limit, es[..|es| - 1]), es[|es| - 1]);
    }
  }

  /** Admissions happen only below the limit in force, and nothing else raises the count. */
  lemma {:induction false} NoOverAdmission(limit: int, es: seq<Event>, i: nat)
    requires limit >= 1 && Valid(limit, es) && i < |es|
    ensures Valid(limit, es[..i]) && Valid(limit, es[..i + 1])
    ensures
      var before, after := Run(limit, es[..i]), Run(limit, es[..i + 1]);
      after.acquired > before.acquired ==>
        && es[i].Attempt? && after.holders == before.holders + {es[i].w}
        && after.acquired == before.acquired + 1 <= before.limit == after.limit
  {
    ValidPrefix(limit, es, i + 1);
    ValidPrefix(limit, es, i);
    assert es[..i + 1][..i] == es[..i];
    NoLostWakeup(limit, es[..i]);
  }

  lemma Snoc(limit: int, es: seq<Event>, e: Event)
    ensures Run(limit, es + [e]) == Step(Run(limit, es), e)
    ensures Valid(limit, es + [e]) <==> Valid(limit, es) && Enabled(Run(limit, es), e)
  {
    assert (es + [e])[..|es|] == es;
  }

  lemma {:induction false} ValidPrefix(limit: int, es: seq<Event>, n: nat)
    requires Valid(limit, es) && n <= |es|
    ensures Valid(limit, es[..n])
  {
    if n < |es| {
      ValidPrefix(limit, es[..|es| - 1], n);
      assert es[..|es| - 1][..n] == es[..n];
    } else {
      assert es[..n] == es;
    }
  }

  /**
    While the limit stays what it was at point i (for instance after a lowering), the count of admitted
    calls never exceeds the larger of that limit and the count at point i: it can only drain towards it.
   */
  lemma {:induction false} DrainsTowardsLimit(limit: int, es: seq<Event>, i: nat)
    requires limit >= 1 && Valid(limit, es) && i <= |es|
    requires forall k :: i <= k < |es| ==> !es[k].Resize?
    ensures
      var before, after := Run(limit, es[..i]), Run(limit, es);
      && after.limit == before.limit
      && (after.acquired <= before.acquired || after.acquired <= before.limit)
  {
    if i < |es| {
      var es' := es[..|es| - 1];
      assert es'[..i] == es[..i];
      DrainsTowardsLimit(limit, es', i);
    } else {
      assert es[..i] == es;
    }
  }

  /** The woken calls ws re-check one after the other, in whatever order the loop schedules them. */
  function Settle(s: State, ws: seq<Waiter>): State
    decreases |ws|
  {
    if ws == [] then s else Settle(Step(s, Attempt(ws[0])), ws[1..])
  }

  function FreeSlots(s: State): nat {
    if s.acquired < s.limit then s.limit - s.acquired else 0
  }

  /**
    Whatever the order in which the woken calls run, exactly as many are admitted as there are free slots,
    every other one is parked again, and no admitted call loses its slot.
   */
  lemma {:induction false} SettlingFillsTheGate(s: State, ws: seq<Waiter>)
    requires forall w :: w in ws <==> w in s.woken
    requires forall i, j :: 0 <= i < j < |ws| ==> ws[i] != ws[j]
    ensures
      var t := Settle(s, ws);
      && t.acquired == s.acquired + (if |ws| <= FreeSlots(s) then |ws| else FreeSlots(s))
      && t.limit == s.limit
      && t.woken == {}
      && s.holders <= t.holders <= s.holders + s.woken
      && (forall w :: w in s.woken ==> w in t.holders || w in t.parked)
    decreases |ws|
  {
    if ws != [] {
      var s' := Step(s, Attempt(ws[0]));
      forall w ensures w in ws[1..] <==> w in s'.woken {
        if w in s'.woken { assert w in ws && w != ws[0]; }
        if w in ws[1..] { assert w in ws; }
      }
      SettlingFillsTheGate(s', ws[1..]);
      SettleKeepsParked(s', ws[1..]);
    }
  }

  lemma {:induction false} SettleKeepsParked(s: State, ws: seq<Waiter>)
    ensures s.parked <= Settle(s, ws).parked
    decreases |ws|
  {
    if ws != [] {
      SettleKeepsParked(Step(s, Attempt(ws[0])), ws[1..]);
    }
  }

  predicate About(e: Event, w: Waiter) {
    !e.Resize? && e.w == w
  }

  /** The events of a run that are not about the call w. */
  function Erase(es: seq<Event>, w: Waiter): seq<Event> {
    if es == [] then []
    else
      var earlier := Erase(es[..|es| - 1], w);
      if About(es[|es| - 1], w) then earlier else earlier + [es[|es| - 1]]
  }

  ghost predicate SameWithout(s: State, t: State, w: Waiter) {
    && t.limit == s.limit
    && t.acquired == s.acquired
    && t.holders == s.holders
    && (forall v :: v in t.parked <==> v in s.parked && v != w)
    && (forall v :: v in t.woken <==> v in s.woken && v != w)
  }

  lemma ErasedStep(s: State, t: State, e: Event, w: Waiter)
    requires SameWithout(s, t, w) && Enabled(s, e)
    requires w !in s.holders && w !in Step(s, e).holders
    ensures About(e, w) ==> SameWithout(Step(s, e), t, w)
    ensures !About(e, w) ==> Enabled(t, e) && SameWithout(Step(s, e), Step(t, e), w)
  {
  }

  /**
    Cancellation is free of side effects: a run in which the call w is never admitted can be replayed with
    every step of w deleted, and leaves the same limit, the same holders and the same other waiters.
   */
  lemma {:induction false} WaiterLeavesNoTrace(limit: int, es: seq<Event>, w: Waiter)
    requires limit >= 1 && Valid(limit, es)
    requires forall n :: 0 <= n <= |es| ==> w !in Run(limit, es[..n]).holders
    ensures Valid(limit, Erase(es, w))
    ensures SameWithout(Run(limit, es), Run(limit, Erase(es, w)), w)
  {
    if es != [] {
      var pre, e := es[..|es| - 1], es[|es| - 1];
      forall n | 0 <= n <= |pre| ensures w !in Run(limit, pre[..n]).holders {
        assert pre[..n] == es[..n];
      }
      WaiterLeavesNoTrace(limit, pre, w);
      assert es[..|es|] == es && es[..|pre|] == pre;
      assert w !in Run(limit, es).holders && w !in Run(limit, pre).holders;
      ErasedStep(Run(limit, pre), Run(limit, Erase(pre, w)), e, w);
      if !About(e, w) {
        Snoc(limit, Erase(pre, w), e);
      }
    }
  }

  // ---- the gate, read off the events ----------------------------------------------------------------------

  /** The last limit that was accepted. */
  function LimitOf(limit: int, es: seq<Event>): int {
    if es == [] then limit
    else
      var e := es[|es| - 1];
      if e.Resize? && e.limit >= 1 then e.limit else LimitOf(limit, es[..|es| - 1])
  }

  /** The calls that found a slot free and have not given it back. */
  function HoldersOf(limit: int, es: seq<Event>): set<Waiter> {
    if es == [] then {}
    else
      var front, e := es[..|es| - 1], es[|es| - 1];
      var before := HoldersOf(limit, front);
      if e.Attempt? && |before| < LimitOf(limit, front) then before + {e.w}
      else if e.Release? then before - {e.w}
      else before
  }

  predicate Refuses(limit: int, es: seq<Event>) {
    |HoldersOf(limit, es)| >= LimitOf(limit, es)
  }

  /** The last attempt of w was refused, and w has not been cancelled since. */
  predicate Waits(limit: int, es: seq<Event>, w: Waiter) {
    es != [] &&
    var front, e := es[..|es| - 1], es[|es| - 1];
    if e == Attempt(w) then Refuses(limit, front) else e != Cancel(w) && Waits(limit, front, w)
  }

  predicate Signals(e: Event) {
    e.Release? || (e.Resize? && e.limit >= 1)
  }

  /** A slot was given back or the limit was set since the last attempt of w. */
  predicate Signalled(es: seq<Event>, w: Waiter) {
    es != [] && es[|es| - 1] != Attempt(w) && (Signals(es[|es| - 1]) || Signalled(es[..|es| - 1], w))
  }

  /** The same since the last refusal of any call. */
  predicate WakeSet(limit: int, es: seq<Event>) {
    es != [] &&
    var front, e := es[..|es| - 1], es[|es| - 1];
    Signals(e)
    || (WakeSet(limit, front) && (e.Attempt? ==> !Refuses(limit, front)))
  }

  lemma GateStep(s: State, e: Event)
    requires s.acquired == |s.holders|
    ensures
      var t, refused := Step(s, e), |s.holders| >= s.limit;
      && t.limit == (if e.Resize? && e.limit >= 1 then e.limit else s.limit)
      && t.holders == (if e.Attempt? && !refused then s.holders + {e.w}
                       else if e.Release? then s.holders - {e.w} else s.holders)
      && (t.wake <==> Signals(e) || (s.wake && (e.Attempt? ==> !refused)))
  {
  }

  /**
    The gate is exactly what its events say: the limit is the last one accepted, and a call holds a slot from an
    attempt that finds one free until it gives it back.
   */
  lemma {:induction false} GateIsExact(limit: int, es: seq<Event>)
    requires limit >= 1 && Valid(limit, es)
    ensures
      var s := Run(limit, es);
      && s.limit == LimitOf(limit, es)
      && s.holders == HoldersOf(limit, es) && s.acquired == |s.holders|
      && (s.wake <==> WakeSet(limit, es))
  {
    if es != [] {
      var front := es[..|es| - 1];
      GateIsExact(limit, front);
      NoLostWakeup(limit, es);
      GateStep(Run(limit, front), es[|es| - 1]);
    }
  }

  lemma WaiterStep(s: State, e: Event, w: Waiter, waits: bool, signalled: bool)
    requires Inv(s) && Enabled(s, e)
    requires (w in s.parked <==> waits && !signalled) && (w in s.woken <==> waits && signalled)
    ensures
      var t := Step(s, e);
      var stillWaits := if e == Attempt(w) then s.acquired >= s.limit else e != Cancel(w) && waits;
      var nowSignalled := e != Attempt(w) && (Signals(e) || signalled);
      && (w in t.parked <==> stillWaits && !nowSignalled)
      && (w in t.woken <==> stillWaits && nowSignalled)
  {
  }

  /** A waiting call is runnable if and only if a slot was given back or the limit was set since it last looked. */
  lemma {:induction false} WaitersAreExact(limit: int, es: seq<Event>, w: Waiter)
    requires limit >= 1 && Valid(limit, es)
    ensures w in Run(limit, es).parked <==> Waits(limit, es, w) && !Signalled(es, w)
    ensures w in Run(limit, es).woken <==> Waits(limit, es, w) && Signalled(es, w)
  {
    if es != [] {
      var front, e := es[..|es| - 1], es[|es| - 1];
      GateIsExact(limit, front);
      NoLostWakeup(limit, front);
      WaitersAreExact(limit, front, w);
      WaiterStep(Run(limit, front), e, w, Waits(limit, front, w), Signalled(front, w));
    }
  }
}
