/**
  Choosing an API key of an instrument (daemon/keyring.py): the two rotations over keys that may be cooling down.
  The clock is an argument; loading a key from disk is left out.
 */
module Keyring {
  import opened Sequences

  /** Which keys are available at one moment. */
  type Keys = seq<bool>

  predicate Available(cooldownUntil: real, now: real) {
    now >= cooldownUntil
  }

  function KeysAt(cooldowns: seq<real>, now: real): (keys: Keys)
    ensures |keys| == |cooldowns| && forall i :: 0 <= i < |keys| ==> keys[i] == Available(cooldowns[i], now)
  {
    seq(|cooldowns|, i requires 0 <= i < |cooldowns| => Available(cooldowns[i], now))
  }

  // ---- round robin ----------------------------------------------------------------------------------------

  /** Position i of the keys laid out twice in a row, that is i modulo their number. */
  function Around(n: nat, i: nat): (r: nat)
    requires i < 2 * n
    ensures r < n
  {
    if i < n then i else i - n
  }

  lemma AroundIsModulo(n: nat, i: nat)
    requires i < 2 * n
    ensures i % n == Around(n, i)
  {
    if i >= n {
      assert i == 1 * n + (i - n);
    }
  }

  /** The remainder as the code writes it. */
  function Modulo(i: nat, n: nat): (r: nat)
    requires i < 2 * n
    ensures r == Around(n, i)
  {
    AroundIsModulo(n, i);
    i % n
  }

  predicate At(keys: Keys, i: nat)
    requires i < 2 * |keys|
  {
    keys[Around(|keys|, i)]
  }

  /** The first available position of a stretch, or its end. */
  function Search(keys: Keys, from: nat, end: nat): (r: nat)
    requires from <= end <= 2 * |keys|
    ensures from <= r <= end && (r < end ==> At(keys, r))
    ensures forall p :: from <= p < r ==> !At(keys, p)
    decreases end - from
  {
    if from == end || At(keys, from) then from else Search(keys, from + 1, end)
  }

  /** The key chosen from an index: the first available one of a full turn, the indexed one if none is. */
  function Chosen(keys: Keys, index: nat): (r: nat)
    requires index < |keys|
    ensures r < |keys|
  {
    var p := Search(keys, index, index + |keys|);
    if p < index + |keys| then Around(|keys|, p) else index
  }

  function NextIndex(keys: Keys, index: nat): (r: nat)
    requires index < |keys|
    ensures r < |keys|
  {
    Around(|keys|, Chosen(keys, index) + 1)
  }

  /** The index after k choices in a row. */
  function IndexAfter(keys: Keys, start: nat, k: nat): (r: nat)
    requires start < |keys|
    ensures r < |keys|
  {
    if k == 0 then start else NextIndex(keys, IndexAfter(keys, start, k - 1))
  }

  /** k choices in a row. */
  function Choices(keys: Keys, start: nat, k: nat): (r: seq<int>)
    requires start < |keys|
    ensures |r| == k
  {
    if k == 0 then [] else Choices(keys, start, k - 1) + [Chosen(keys, IndexAfter(keys, start, k - 1))]
  }

  ghost predicate IsAvailable(keys: Keys, k: int) {
    0 <= k < |keys| && keys[k]
  }

  ghost function AvailableKeys(keys: Keys): (s: set<int>)
    ensures forall k :: k in s <==> IsAvailable(keys, k)
  {
    set k | 0 <= k < |keys| && IsAvailable(keys, k)
  }

  /** The choices so far are the available keys of the window from start to pos, each once, and pos is the index. */
  ghost predicate Swept(keys: Keys, start: nat, choices: seq<int>, index: nat, pos: nat)
    requires start < |keys|
  {
    && start <= pos <= start + |keys| && index == Around(|keys|, pos)
    && Distinct(choices)
    && (forall c :: c in choices ==> IsAvailable(keys, c))
    && (forall p :: start <= p < pos && At(keys, p) ==> Around(|keys|, p) in choices)
    && (forall c :: c in choices ==> InWindow(|keys|, start, pos, c))
  }

  /** The key is met between two positions of the doubled layout. */
  predicate InWindow(n: nat, from: nat, end: nat, key: int) {
    from <= key < end || from <= key + n < end
  }

  /** While some available key has not been chosen, one is left between pos and the end of the turn. */
  lemma OneIsLeft(keys: Keys, start: nat, choices: seq<int>, index: nat, pos: nat, key: int) returns (p: nat)
    requires start < |keys| && Swept(keys, start, choices, index, pos)
    requires IsAvailable(keys, key) && key !in choices
    ensures pos <= p < start + |keys| && At(keys, p)
  {
    p := if key >= start then key else key + |keys|;
    assert At(keys, p) && Around(|keys|, p) == key;
  }

  /** A search from the index finds what a search on from pos would find. */
  lemma SearchGoesOn(keys: Keys, start: nat, pos: nat, p: nat) returns (q: nat)
    requires start < |keys| && start <= pos <= p < start + |keys| && At(keys, p)
    ensures pos <= q <= p && At(keys, q) && forall i :: pos <= i < q ==> !At(keys, i)
    ensures Chosen(keys, Around(|keys|, pos)) == Around(|keys|, q)
  {
    var n := |keys|;
    var index := Around(n, pos);
    var found := Search(keys, index, index + n);
    if pos < n {
      q := found;
    } else {
      assert At(keys, p - n);
      q := found + n;
      forall i | pos <= i < q ensures !At(keys, i) {
        assert !At(keys, i - n);
      }
    }
  }

  /** One more choice sweeps on to the next available key. */
  lemma SweepOn(keys: Keys, start: nat, choices: seq<int>, index: nat, pos: nat) returns (next: nat)
    requires start < |keys| && index < |keys| && Swept(keys, start, choices, index, pos)
    requires |choices| < |AvailableKeys(keys)|
    ensures Swept(keys, start, choices + [Chosen(keys, index)], NextIndex(keys, index), next)
  {
    var key := Unchosen(choices, AvailableKeys(keys));
    var p := OneIsLeft(keys, start, choices, index, pos, key);
    var q := SearchGoesOn(keys, start, pos, p);
    next := q + 1;
    var chosen := Around(|keys|, q);
    assert !InWindow(|keys|, start, pos, chosen);
    SweptGrows(keys, start, choices, pos, q);
  }

  lemma SweptGrows(keys: Keys, start: nat, choices: seq<int>, pos: nat, q: nat)
    requires start < |keys| && pos < 2 * |keys| && Swept(keys, start, choices, Around(|keys|, pos), pos)
    requires pos <= q < start + |keys| && At(keys, q) && forall i :: pos <= i < q ==> !At(keys, i)
    ensures Swept(keys, start, choices + [Around(|keys|, q) as int], Around(|keys|, Around(|keys|, q) + 1), q + 1)
  {
    var chosen: int := Around(|keys|, q);
    assert !InWindow(|keys|, start, pos, chosen);
    assert chosen !in choices;
    var longer := choices + [chosen];
    forall p | start <= p < q + 1 && At(keys, p) ensures Around(|keys|, p) in longer {
      if p == q {
        assert longer[|choices|] == chosen;
      } else {
        assert p < pos;
      }
    }
  }

  lemma Unchosen(choices: seq<int>, all: set<int>) returns (key: int)
    requires |choices| < |all|
    ensures key in all && key !in choices
  {
    if all <= Elements(choices) {
      SubsetIsSmaller(all, Elements(choices));
      assert false;
    }
    key := SomeElement(all - Elements(choices));
  }

  lemma {:induction false} Sweep(keys: Keys, start: nat, k: nat) returns (pos: nat)
    requires start < |keys| && k <= |AvailableKeys(keys)|
    ensures Swept(keys, start, Choices(keys, start, k), IndexAfter(keys, start, k), pos)
  {
    if k == 0 {
      pos := start;
    } else {
      pos := Sweep(keys, start, k - 1);
      pos := SweepOn(keys, start, Choices(keys, start, k - 1), IndexAfter(keys, start, k - 1), pos);
    }
  }

  /**
    Fairness: as many choices in a row as there are available keys give each of them exactly once and no other,
    from any index.
   */
  lemma RoundRobinIsFair(keys: Keys, start: nat)
    requires start < |keys|
    ensures
      var choices := Choices(keys, start, |AvailableKeys(keys)|);
      Distinct(choices) && forall k :: k in choices <==> IsAvailable(keys, k)
  {
    var m := |AvailableKeys(keys)|;
    var choices := Choices(keys, start, m);
    var pos := Sweep(keys, start, m);
    DistinctElements(choices);
    SubsetIsSmaller(Elements(choices), AvailableKeys(keys));
    SubsetOfEqualSize(Elements(choices), AvailableKeys(keys));
  }

  /** A cooling key is chosen only if every key is cooling, and then it is the indexed one. */
  lemma CoolingOnlyIfAll(keys: Keys, index: nat)
    requires index < |keys|
    ensures keys[Chosen(keys, index)] <==> AvailableKeys(keys) != {}
    ensures AvailableKeys(keys) == {} ==> Chosen(keys, index) == index
  {
    if AvailableKeys(keys) != {} {
      var k := SomeElement(AvailableKeys(keys));
      assert At(keys, if k >= index then k else k + |keys|);
    } else {
      NoneAvailable(keys, Chosen(keys, index));
    }
  }

  lemma NoneAvailable(keys: Keys, k: nat)
    requires AvailableKeys(keys) == {} && k < |keys|
    ensures !keys[k]
  {
    assert !IsAvailable(keys, k);
  }

  /** With every key cooling down the choices still go round: the k-th is k places on. */
  lemma {:induction false} CoolingKeysTakeTurns(keys: Keys, start: nat, k: nat)
    requires start < |keys| && AvailableKeys(keys) == {} && k < |keys|
    ensures IndexAfter(keys, start, k) == Around(|keys|, start + k)
    ensures Chosen(keys, IndexAfter(keys, start, k)) == Around(|keys|, start + k)
  {
    var index := IndexAfter(keys, start, k);
    var p := Search(keys, index, index + |keys|);
    if p < index + |keys| {
      NoneAvailable(keys, Around(|keys|, p));
      assert false;
    }
    if k > 0 {
      CoolingKeysTakeTurns(keys, start, k - 1);
    }
  }

  // ---- runs -----------------------------------------------------------------------------------------------

  datatype Event = Report(key: int, seconds: real, now: real) | Select(now: real)

  /** A key cools down for the seconds of its last report. */
  function CooldownOf(es: seq<Event>, key: int): real {
    if es == [] then 0.0
    else
      var e := es[|es| - 1];
      if e.Report? && e.key == key then e.now + e.seconds else CooldownOf(es[..|es| - 1], key)
  }

  function Cooldowns(n: nat, es: seq<Event>): (cooldowns: seq<real>)
    ensures |cooldowns| == n && forall k :: 0 <= k < n ==> cooldowns[k] == CooldownOf(es, k)
  {
    seq(n, k => CooldownOf(es, k))
  }

  /** The index of the rotation after a run. */
  function IndexOf(n: nat, es: seq<Event>): (index: nat)
    requires n > 0
    ensures index < n
  {
    if es == [] then 0
    else
      var front := es[..|es| - 1];
      match es[|es| - 1]
      case Report(_, _, _) => IndexOf(n, front)
      case Select(now) => NextIndex(KeysAt(Cooldowns(n, front), now), IndexOf(n, front))
  }

  function SelectedAt(n: nat, es: seq<Event>, now: real): (key: nat)
    requires n > 0
    ensures key < n
  {
    Chosen(KeysAt(Cooldowns(n, es), now), IndexOf(n, es))
  }

  /** What a report does to the keys of a run; one that is out of range does nothing. */
  lemma ReportStep(n: nat, es: seq<Event>, key: int, seconds: real, now: real)
    ensures
      var before, after := Cooldowns(n, es), Cooldowns(n, es + [Report(key, seconds, now)]);
      after == if 0 <= key < n then before[key := now + seconds] else before
  {
    var longer := es + [Report(key, seconds, now)];
    assert longer[..|es|] == es;
  }

  /** In every run a key is spared until its reported cooldown has passed, if and only if some key is free. */
  lemma ReportedKeyIsSpared(n: nat, es: seq<Event>, now: real)
    requires n > 0
    ensures CooldownOf(es, SelectedAt(n, es, now)) <= now <==> exists k :: 0 <= k < n && CooldownOf(es, k) <= now
    ensures (forall k :: 0 <= k < n ==> CooldownOf(es, k) > now) ==> SelectedAt(n, es, now) == IndexOf(n, es)
  {
    var keys := KeysAt(Cooldowns(n, es), now);
    CoolingOnlyIfAll(keys, IndexOf(n, es));
    forall k ensures IsAvailable(keys, k) <==> 0 <= k < n && CooldownOf(es, k) <= now {
    }
    if k :| 0 <= k < n && CooldownOf(es, k) <= now {
      assert k in AvailableKeys(keys);
    }
  }

  // ---- the object -----------------------------------------------------------------------------------------

  datatype Outcome = Done | IndexError

  /** The first of the keys that cool down least long. */
  predicate SoonestFirst(cooldowns: seq<real>, k: nat, n: nat)
    requires k < n <= |cooldowns|
  {
    && (forall i :: 0 <= i < n ==> cooldowns[k] <= cooldowns[i])
    && (forall i :: 0 <= i < k ==> cooldowns[k] < cooldowns[i])
  }

  /** The keys of one instrument. */
  class InstrumentKeys {
    var cooldownUntil: seq<real>
    var rrIndex: nat

    predicate Valid()
      reads this
    {
      rrIndex < |cooldownUntil| || (cooldownUntil == [] && rrIndex == 0)
    }

    constructor (n: nat)
      ensures Valid() && |cooldownUntil| == n && rrIndex == 0
    {
      cooldownUntil, rrIndex := seq(n, _ => 0.0), 0;
    }

    /** report_rate_limit: out of range is an error and changes nothing. */
    method ReportRateLimit(keyIndex: int, seconds: real, now: real) returns (outcome: Outcome)
      requires Valid()
      modifies this`cooldownUntil
      ensures Valid()
      ensures outcome == if 0 <= keyIndex < |old(cooldownUntil)| then Done else IndexError
      ensures cooldownUntil ==
              if outcome == Done then old(cooldownUntil)[keyIndex := now + seconds] else old(cooldownUntil)
    {
      if keyIndex < 0 || keyIndex >= |cooldownUntil| {
        return IndexError;
      }
      cooldownUntil := cooldownUntil[keyIndex := now + seconds];
      outcome := Done;
    }

    /** None stands for the error of a division by zero: the configuration may list no key at all. */
    method SelectRoundRobin(now: real) returns (choice: Option<nat>)
      requires Valid()
      modifies this`rrIndex
      ensures Valid()
      ensures choice == if cooldownUntil == [] then None else Some(Chosen(KeysAt(cooldownUntil, now), old(rrIndex)))
      ensures rrIndex ==
              if cooldownUntil == [] then old(rrIndex) else NextIndex(KeysAt(cooldownUntil, now), old(rrIndex))
    {
      ghost var keys := KeysAt(cooldownUntil, now);
      var n, start := |cooldownUntil|, rrIndex;
      if n == 0 {
        return None;
      }
      for offset := 0 to n
        invariant rrIndex == start
        invariant Search(keys, start, start + n) == Search(keys, start + offset, start + n)
      {
        var index := Modulo(start + offset, n);
        if now >= cooldownUntil[index] {
          rrIndex := Modulo(index + 1, n);
          return Some(index);
        }
      }
      var index := Modulo(start, n);
      rrIndex := Modulo(index + 1, n);
      choice := Some(index);
    }

    /** The other rotation: the first available key, or the first of those that are available soonest. */
    method SelectLeastRecentlyRateLimited(now: real) returns (choice: Option<nat>)
      ensures choice.None? <==> cooldownUntil == []
      ensures choice.Some? ==>
        var index := choice.value;
        index < |cooldownUntil| &&
        if exists i :: 0 <= i < |cooldownUntil| && Available(cooldownUntil[i], now) then
          Available(cooldownUntil[index], now) && forall i :: 0 <= i < index ==> !Available(cooldownUntil[i], now)
        else SoonestFirst(cooldownUntil, index, |cooldownUntil|)
    {
      for i := 0 to |cooldownUntil|
        invariant forall j :: 0 <= j < i ==> !Available(cooldownUntil[j], now)
      {
        if now >= cooldownUntil[i] {
          return Some(i);
        }
      }
      if cooldownUntil == [] {
        return None;
      }
      var index := 0;
      for i := 1 to |cooldownUntil|
        invariant index < i && SoonestFirst(cooldownUntil, index, i)
      {
        if cooldownUntil[i] < cooldownUntil[index] {
          index := i;
        }
      }
      choice := Some(index);
    }
  }
}
