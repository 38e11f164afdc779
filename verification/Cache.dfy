/**
 The read-through cache with single-flight filling.  One key, any number of concurrent
 callers: every Redis command of `get_or_set`, the start and the end of its producer, key
 expiry and the deletions made by invalidation are separate steps in any order.
 Times are in milliseconds.
 */
module Cache {
  import opened Common
  import opened Expiry

  datatype Policy = Policy(ttl: nat, lockTtl: nat)

  /** What Redis holds for one key: the cached value and the ":lock" key beside it. */
  datatype Key<V> = Key(value: Option<Entry<V>>, lock: Option<Entry<string>>)

  /** A produced value, known by the step and the time at which its producer began. */
  datatype Value = Value(born: nat, at: int)

  /** Where a call of get_or_set is.  Those that won the lock remember when. */
  datatype Phase =
    | Missed
    | Holding(won: int)
    | Filling(won: int, value: Value)
    | Leaving(won: int, result: Option<Value>)
    | Waiting
    | FallingBack(value: Value)
    | Returned(value: Value)
    | Failed

  /** A call and the step at which it started. */
  datatype Call = Call(since: nat, phase: Phase)

  type Caller = nat

  /** `stored` is the step of the latest store, kept for the theorems. */
  datatype State = State(key: Key<Value>, calls: map<Caller, Call>, now: int, step: nat, stored: nat)

  const Init := State(Key(None, None), map[], 0, 0, 0)

  datatype Event =
    | Start(c: Caller)
    | TryLock(c: Caller)
    | Begin(c: Caller)
    | Store(c: Caller)
    | Raise(c: Caller)
    | Release(c: Caller)
    | Poll(c: Caller)
    | GiveUp(c: Caller)
    | FallbackEnds(c: Caller, ok: bool)
    | DropValue
    | DropLock
    | Tick(ms: nat)

  predicate Busy(s: State, c: Caller) {
    c in s.calls && !s.calls[c].phase.Returned? && !s.calls[c].phase.Failed?
  }

  function To(s: State, c: Caller, phase: Phase): State
    requires c in s.calls
  {
    s.(calls := s.calls[c := s.calls[c].(phase := phase)])
  }

  /** One step; a step its caller is not at changes nothing. */
  function Act(p: Policy, s: State, ev: Event): State {
    match ev
    case Start(c) =>
      if Busy(s, c) then s
      else
        var hit := Get(s.key.value, s.now);
        s.(calls := s.calls[c := Call(s.step, if hit.Some? then Returned(hit.value) else Missed)])
    case TryLock(c) =>
      if !(c in s.calls && s.calls[c].phase.Missed?) then s
      else if Get(s.key.lock, s.now).Some? then To(s, c, Waiting)
      else To(s, c, Holding(s.now)).(key := s.key.(lock := Some(Entry("1", s.now + p.lockTtl))))
    case Begin(c) =>
      if !(c in s.calls && s.calls[c].phase.Holding?) then s
      else To(s, c, Filling(s.calls[c].phase.won, Value(s.step, s.now)))
    case Store(c) =>
      if !(c in s.calls && s.calls[c].phase.Filling?) then s
      else
        var v := s.calls[c].phase.value;
        To(s, c, Leaving(s.calls[c].phase.won, Some(v)))
        .(key := s.key.(value := Some(Entry(v, s.now + p.ttl))), stored := s.step)
    case Raise(c) =>
      if !(c in s.calls && s.calls[c].phase.Filling?) then s
      else To(s, c, Leaving(s.calls[c].phase.won, None))
    case Release(c) =>
      if !(c in s.calls && s.calls[c].phase.Leaving?) then s
      else
        var r := s.calls[c].phase.result;
        To(s, c, if r.Some? then Returned(r.value) else Failed).(key := s.key.(lock := None))
    case Poll(c) =>
      if !(c in s.calls && s.calls[c].phase.Waiting?) then s
      else
        var hit := Get(s.key.value, s.now);
        if hit.Some? then To(s, c, Returned(hit.value)) else s
    case GiveUp(c) =>
      if !(c in s.calls && s.calls[c].phase.Waiting?) then s
      else To(s, c, FallingBack(Value(s.step, s.now)))
    case FallbackEnds(c, ok) =>
      if !(c in s.calls && s.calls[c].phase.FallingBack?) then s
      else To(s, c, if ok then Returned(s.calls[c].phase.value) else Failed)
    case DropValue => s.(key := s.key.(value := None))
    case DropLock => s.(key := s.key.(lock := None))
    case Tick(ms) => s.(now := s.now + ms)
  }

  function Next(p: Policy, s: State, ev: Event): State {
    Act(p, s, ev).(step := s.step + 1)
  }

  function Exec(p: Policy, s: State, evs: seq<Event>): State {
    if evs == [] then s else Next(p, Exec(p, s, evs[..|evs| - 1]), evs[|evs| - 1])
  }

  lemma ExecMore(p: Policy, s: State, evs: seq<Event>, ev: Event)
    ensures Exec(p, s, evs + [ev]) == Next(p, Exec(p, s, evs), ev)
  {
    assert (evs + [ev])[..|evs|] == evs;
  }

  lemma ExecThree(p: Policy, s: State, a: Event, b: Event, c: Event)
    ensures Exec(p, s, [a, b, c]) == Next(p, Next(p, Next(p, s, a), b), c)
  {
    ExecMore(p, s, [], a);
    ExecMore(p, s, [a], b);
    ExecMore(p, s, [a, b], c);
    assert [] + [a] == [a] && [a] + [b] == [a, b] && [a, b] + [c] == [a, b, c];
  }

  lemma ExecFive(p: Policy, s: State, a: Event, b: Event, c: Event, d: Event, e: Event)
    ensures Exec(p, s, [a, b, c, d, e]) == Next(p, Next(p, Next(p, Next(p, Next(p, s, a), b), c), d), e)
  {
    ExecThree(p, s, a, b, c);
    ExecMore(p, s, [a, b, c], d);
    ExecMore(p, s, [a, b, c, d], e);
    assert [a, b, c] + [d] == [a, b, c, d] && [a, b, c, d] + [e] == [a, b, c, d, e];
  }

  // ---------- the keys in Redis ----------

  /** A call that runs alone on a missing value with the lock free: it stores what it produced,
      and leaves no lock. */
  function FilledAlone<V>(p: Policy, key: Key<V>, now: int, produced: Option<V>): Key<V> {
    Key(if produced.Some? then Some(Entry(produced.value, now + p.ttl)) else key.value, None)
  }

  /** The steps of one call, taken without interruption, are that fill. */
  lemma AloneIsTheSteps(p: Policy, s: State, c: Caller, raises: bool)
    requires !Busy(s, c) && Get(s.key.value, s.now) == None && Get(s.key.lock, s.now) == None
    ensures var v := if raises then None else Some(Value(s.step + 2, s.now));
            var s' := Exec(p, s, [Start(c), TryLock(c), Begin(c), if raises then Raise(c) else Store(c), Release(c)]);
            s'.key == FilledAlone(p, s.key, s.now, v)
            && c in s'.calls && s'.calls[c] == Call(s.step, if raises then Failed else Returned(v.value))
  {
    var ends := if raises then Raise(c) else Store(c);
    ExecFive(p, s, Start(c), TryLock(c), Begin(c), ends, Release(c));
    var s3 := Next(p, Next(p, Next(p, s, Start(c)), TryLock(c)), Begin(c));
    assert s3.calls[c] == Call(s.step, Filling(s.now, Value(s.step + 2, s.now)));
  }

  const NAP := 50

  class CacheKeys<V> {
    var values: map<string, Entry<V>>
    var locks: map<string, Entry<string>>

    ghost function KeyOf(key: string): Key<V>
      reads this
    {
      Key(Find(values, key), Find(locks, key))
    }

    constructor ()
      ensures forall k :: KeyOf(k) == Key(None, None)
    {
      values, locks := map[], map[];
    }

    /** `seen` is what each look at the key finds while others run.  A look comes after every 50 ms of
        waiting: the first hit among them is returned, if there is one. */
    method WaitForFill(seen: seq<Option<V>>, waitMs: nat) returns (hit: Option<V>)
      requires waitMs <= 50 * |seen|
      ensures hit.Some? ==> exists i ::
                0 <= i < |seen| && 50 * i < waitMs && seen[i] == hit && forall j :: 0 <= j < i ==> seen[j] == None
      ensures hit == None ==> forall i :: 0 <= i < |seen| && 50 * i < waitMs ==> seen[i] == None
    {
      var waited := 0;
      ghost var looks: nat := 0;
      while waited < waitMs
        invariant waited == NAP * looks && NAP * (looks - 1) < waitMs
        invariant forall i :: 0 <= i < looks ==> i < |seen| && seen[i] == None
      {
        waited := waited + NAP;
        looks := looks + 1;
        hit := seen[waited / NAP - 1];
        if hit.Some? {
          assert seen[looks - 1] == hit;
          return;
        }
      }
      hit := None;
    }

    /** `produced` is what the producer returns, None when it raises.  A caller that finds the lock held
        returns the first hit of its wait, or falls back when no look finds one. */
    method GetOrSet(p: Policy, key: string, now: int, produced: Option<V>, seen: seq<Option<V>>, waitMs: nat)
      returns (result: Option<V>)
      requires waitMs <= 50 * |seen|
      modifies this
      ensures var was := old(KeyOf(key)); var hit := Get(was.value, now);
              if hit.Some? then result == hit && KeyOf(key) == was
              else if Get(was.lock, now).Some? then
                && KeyOf(key) == was
                && ((exists i :: 0 <= i < |seen| && 50 * i < waitMs && seen[i].Some?) ==>
                      exists i :: 0 <= i < |seen| && 50 * i < waitMs && seen[i].Some? && seen[i] == result
                                  && forall j :: 0 <= j < i ==> seen[j] == None)
                && ((forall i :: 0 <= i < |seen| && 50 * i < waitMs ==> seen[i] == None) ==> result == produced)
              else result == produced && KeyOf(key) == FilledAlone(p, was, now, produced)
      ensures forall k :: k != key ==> KeyOf(k) == old(KeyOf(k))
    {
      var hit := Get(Find(values, key), now);
      if hit.Some? {
        return hit;
      }
      if Get(Find(locks, key), now).Some? {
        var filled := WaitForFill(seen, waitMs);
        return if filled.Some? then filled else produced;
      }
      locks := locks[key := Entry("1", now + p.lockTtl)];
      if produced.Some? {
        values := values[key := Entry(produced.value, now + p.ttl)];
      }
      locks := locks - {key};
      result := produced;
    }

    method Invalidate(key: string)
      modifies this
      ensures KeyOf(key) == old(KeyOf(key)).(value := None) && forall k :: k != key ==> KeyOf(k) == old(KeyOf(k))
    {
      values := values - {key};
    }

    /** The lock of a key is itself a key under the prefix. */
    method InvalidatePrefix(prefix: string)
      modifies this
      ensures forall k :: prefix <= k ==> KeyOf(k) == Key(None, None)
      ensures forall k :: !(prefix <= k) ==> KeyOf(k).value == old(KeyOf(k)).value
      ensures forall k :: !(prefix <= k) ==> KeyOf(k).lock == if prefix <= k + ":lock" then None else old(KeyOf(k)).lock
    {
      values := map k | k in values && !(prefix <= k) :: values[k];
      locks := map k | k in locks && !(prefix <= k + ":lock") :: locks[k];
    }
  }

  // ---------- what is kept, and for how long ----------

  /** A stored value is what every caller gets, at its start or from a wait, for exactly the time to live. */
  lemma StoredValueLives(p: Policy, s: State, c: Caller, wait: nat, d: Caller)
    requires FillUnderway(s, c) && c != d
    ensures var v := s.calls[c].phase.value; var later := Next(p, Next(p, s, Store(c)), Tick(wait));
            && (!Busy(s, d) ==>
                  Next(p, later, Start(d)).calls[d].phase == if wait < p.ttl then Returned(v) else Missed)
            && (d in s.calls && s.calls[d].phase == Waiting ==>
                  Next(p, later, Poll(d)).calls[d].phase == if wait < p.ttl then Returned(v) else Waiting)
  {
    var later := Next(p, Next(p, s, Store(c)), Tick(wait));
    assert d in later.calls <==> d in s.calls;
    assert d in s.calls ==> later.calls[d] == s.calls[d];
  }

  /** A winner that never releases keeps others waiting for exactly the lock's time to live. */
  lemma LockLapses(p: Policy, s: State, c: Caller, wait: nat, d: Caller)
    requires c != d && c in s.calls && d in s.calls && s.calls[c].phase == s.calls[d].phase == Missed
    requires Get(s.key.lock, s.now) == None
    ensures var won := Next(p, s, TryLock(c)); var later := Next(p, won, Tick(wait));
            && won.calls[c].phase == Holding(s.now)
            && Next(p, later, TryLock(d)).calls[d].phase
               == if wait < p.lockTtl then Waiting else Holding(s.now + wait)
  {
    var later := Next(p, Next(p, s, TryLock(c)), Tick(wait));
    assert later.calls[d] == s.calls[d];
  }

  /** A waiter that gives up asks its own producer, then, and leaves the key alone. */
  lemma WaiterFallsBack(p: Policy, s: State, c: Caller, ok: bool)
    requires c in s.calls && s.calls[c].phase == Waiting
    ensures var done := Next(p, Next(p, s, GiveUp(c)), FallbackEnds(c, ok));
            && done.key == s.key
            && done.calls == s.calls[c := Call(s.calls[c].since, if ok then Returned(Value(s.step, s.now)) else Failed)]
  {
    assert Next(p, s, GiveUp(c)).calls
           == s.calls[c := Call(s.calls[c].since, FallingBack(Value(s.step, s.now)))];
  }

  /** A release, after a stored value or a raise, lets the next one in at once. */
  lemma ReleaseFrees(p: Policy, s: State, c: Caller, d: Caller)
    requires c != d && c in s.calls && s.calls[c].phase.Leaving? && d in s.calls && s.calls[d].phase == Missed
    ensures var released := Next(p, s, Release(c)); var r := s.calls[c].phase.result;
            && released.calls[c].phase == (if r.Some? then Returned(r.value) else Failed)
            && Next(p, released, TryLock(d)).calls[d].phase == Holding(s.now)
  {
    assert Next(p, s, Release(c)).calls[d] == s.calls[d];
  }

  // ---------- freshness ----------

  /** A producer is running, or has run, under the lock and has not stored or raised yet. */
  predicate FillUnderway(s: State, c: Caller) {
    c in s.calls && s.calls[c].phase.Filling?
  }

  /** Nothing that can still reach the key or a call started after step `t` was born before it. */
  ghost predicate Renewed(t: nat, s: State) {
    && t < s.step
    && (s.key.value.Some? ==> t < s.key.value.value.value.born)
    && forall c :: c in s.calls ==> CallRenewed(t, s.calls[c])
  }

  predicate CallRenewed(t: nat, call: Call) {
    match call.phase
    case Filling(_, v) => t < v.born
    case Leaving(_, Some(v)) => t < call.since ==> t < v.born
    case FallingBack(v) => t < call.since ==> t < v.born
    case Returned(v) => t < call.since ==> t < v.born
    case _ => true
  }

  lemma RenewedStep(p: Policy, t: nat, s: State, ev: Event)
    requires Renewed(t, s)
    ensures Renewed(t, Next(p, s, ev))
  {
  }

  lemma {:induction false} RenewedRun(p: Policy, t: nat, s: State, evs: seq<Event>)
    requires Renewed(t, s)
    ensures Renewed(t, Exec(p, s, evs))
  {
    if evs != [] {
      RenewedRun(p, t, s, evs[..|evs| - 1]);
      RenewedStep(p, t, Exec(p, s, evs[..|evs| - 1]), evs[|evs| - 1]);
    }
  }

  /** Calls and producers are stamped with steps already taken. */
  ghost predicate Stamped(s: State) {
    forall c :: c in s.calls ==>
      s.calls[c].since < s.step && (FillUnderway(s, c) ==> s.calls[c].phase.value.born < s.step)
  }

  lemma {:induction false} RunStamped(p: Policy, evs: seq<Event>)
    ensures Stamped(Exec(p, Init, evs))
  {
    if evs != [] {
      RunStamped(p, evs[..|evs| - 1]);
    }
  }

  /** Every call started after step `t` that has returned, returned something begun after `t`. */
  ghost predicate FreshSince(t: nat, s: State) {
    forall c :: c in s.calls && t < s.calls[c].since && s.calls[c].phase.Returned? ==> t < s.calls[c].phase.value.born
  }

  /** The fill underway stores its old value after the invalidation, and the next call gets it. */
  lemma StaleFill(p: Policy, s: State, c: Caller)
    requires p.ttl > 0 && Stamped(s) && FillUnderway(s, c)
    ensures !FreshSince(s.step, Exec(p, Next(p, s, DropValue), [Store(c), Release(c), Start(c)]))
  {
    var s1 := Next(p, s, DropValue);
    ExecThree(p, s1, Store(c), Release(c), Start(c));
    var s2 := Next(p, s1, Store(c));
    var s3 := Next(p, s2, Release(c));
    var s4 := Next(p, s3, Start(c));
    assert Exec(p, s1, [Store(c), Release(c), Start(c)]) == s4;
    assert s4.calls[c] == Call(s3.step, Returned(s.calls[c].phase.value));
  }

  /** An invalidation at any point of any run guarantees, whatever follows, that every call started
      after it returns something begun after it, exactly when no fill is underway at that point. */
  lemma InvalidationIsFreshUnlessFilling(p: Policy, pre: seq<Event>)
    requires p.ttl > 0
    ensures var s := Exec(p, Init, pre);
            (forall post: seq<Event> :: FreshSince(s.step, Exec(p, Next(p, s, DropValue), post)))
            <==> (forall c :: !FillUnderway(s, c))
  {
    var s := Exec(p, Init, pre);
    RunStamped(p, pre);
    if c :| FillUnderway(s, c) {
      StaleFill(p, s, c);
    } else {
      var s1 := Next(p, s, DropValue);
      forall c | c in s1.calls ensures CallRenewed(s.step, s1.calls[c]) {
        assert !FillUnderway(s, c);
      }
      forall post: seq<Event> ensures FreshSince(s.step, Exec(p, s1, post)) {
        RenewedRun(p, s.step, s1, post);
        RenewedIsFresh(s.step, Exec(p, s1, post));
      }
    }
  }

  lemma RenewedIsFresh(t: nat, s: State)
    requires Renewed(t, s)
    ensures FreshSince(t, s)
  {
    forall c | c in s.calls && t < s.calls[c].since && s.calls[c].phase.Returned?
      ensures t < s.calls[c].phase.value.born
    {
      assert CallRenewed(t, s.calls[c]);
    }
  }

  // ---------- single flight ----------

  predicate InFlight(s: State, c: Caller) {
    c in s.calls && (s.calls[c].phase.Holding? || s.calls[c].phase.Filling? || s.calls[c].phase.Leaving?)
  }

  ghost predicate Punctual(p: Policy, s: State) {
    forall c :: InFlight(s, c) ==> s.now < s.calls[c].phase.won + p.lockTtl
  }

  /** In every state of the run each filler is within the lock's time to live. */
  ghost predicate Prompt(p: Policy, s: State, evs: seq<Event>) {
    Punctual(p, Exec(p, s, evs)) && (evs != [] ==> Prompt(p, s, evs[..|evs| - 1]))
  }

  ghost predicate AtMostOneInFlight(s: State) {
    forall c, d :: InFlight(s, c) && InFlight(s, d) ==> c == d
  }

  /** The lock outlives the time to live of whoever is in flight. */
  ghost predicate LockCovers(p: Policy, s: State) {
    forall c :: InFlight(s, c) ==> s.key.lock.Some? && s.calls[c].phase.won + p.lockTtl <= s.key.lock.value.expires
  }

  ghost predicate Guarded(p: Policy, s: State) {
    AtMostOneInFlight(s) && LockCovers(p, s)
  }

  lemma GuardedStep(p: Policy, s: State, ev: Event)
    requires p.lockTtl > 0 && Guarded(p, s) && Punctual(p, s) && !ev.DropLock?
    ensures Guarded(p, Next(p, s, ev))
  {
    var s' := Next(p, s, ev);
    assert forall c :: InFlight(s, c) ==> Get(s.key.lock, s.now).Some?;
    if ev.TryLock? && ev.c in s.calls && s.calls[ev.c].phase.Missed? && Get(s.key.lock, s.now).None? {
      assert forall c :: InFlight(s', c) ==> c == ev.c;
    } else {
      assert forall c :: InFlight(s', c) ==> InFlight(s, c) && s'.calls[c].phase.won == s.calls[c].phase.won;
    }
  }

  lemma {:induction false} RunGuarded(p: Policy, s: State, evs: seq<Event>)
    requires p.lockTtl > 0 && Guarded(p, s) && Prompt(p, s, evs) && DropLock !in evs
    ensures Guarded(p, Exec(p, s, evs))
  {
    if evs != [] {
      var front, ev := evs[..|evs| - 1], evs[|evs| - 1];
      assert ev in evs && forall e :: e in front ==> e in evs;
      RunGuarded(p, s, front);
      assert Punctual(p, Exec(p, s, front)) by { assert Prompt(p, s, front); }
      GuardedStep(p, Exec(p, s, front), ev);
    }
  }

  /** If fillers are prompt and the lock is never deleted from outside, at most one caller is
      between winning and releasing the lock, and a step that puts a value under the key is taken
      by that one caller, with what its own producer made. */
  lemma SingleFlight(p: Policy, evs: seq<Event>, ev: Event)
    requires p.lockTtl > 0 && Prompt(p, Init, evs) && DropLock !in evs
    ensures var s := Exec(p, Init, evs); var s' := Next(p, s, ev);
            && AtMostOneInFlight(s) && (forall c :: InFlight(s, c) ==> Get(s.key.lock, s.now).Some?)
            && (s'.key.value != s.key.value && s'.key.value.Some? ==>
                  ev.Store? && InFlight(s, ev.c) && s'.key.value.value.value == s.calls[ev.c].phase.value)
  {
    RunGuarded(p, Init, evs);
    assert Punctual(p, Exec(p, Init, evs));
  }

  lemma {:induction false} Unused(ids: set<Caller>) returns (c: Caller)
    ensures forall x :: x in ids ==> x < c
  {
    c := 0;
    if ids != {} {
      var x :| x in ids;
      var above := Unused(ids - {x});
      c := if x < above then above else x + 1;
      forall y | y in ids ensures y < c {
        assert y == x || y in ids - {x};
      }
    }
  }

  /** Someone in flight whose lock will be gone before their time is up: then it is gone, and they
      still in time, after a wait. */
  lemma LockRunsOut(p: Policy, s: State, d: Caller) returns (wait: nat)
    requires AtMostOneInFlight(s) && Punctual(p, s) && InFlight(s, d)
    requires s.key.lock.Some? ==> s.key.lock.value.expires < s.calls[d].phase.won + p.lockTtl
    ensures var s' := Next(p, s, Tick(wait)); Get(s'.key.lock, s'.now) == None && Punctual(p, s') && InFlight(s', d)
  {
    wait := if Get(s.key.lock, s.now).Some? then s.key.lock.value.expires - s.now else 0;
    assert forall c :: InFlight(Next(p, s, Tick(wait)), c) ==> c == d;
  }

  /** Then the next caller to miss wins a lock of its own. */
  lemma NextMisserWins(p: Policy, s: State, d: Caller, c: Caller)
    requires p.lockTtl > 0 && Get(s.key.lock, s.now) == None && Punctual(p, s) && InFlight(s, d) && c !in s.calls
    ensures var s1 := Next(p, s, DropValue); var s2 := Next(p, s1, Start(c)); var s3 := Next(p, s2, TryLock(c));
            && Punctual(p, s1) && Punctual(p, s2) && Punctual(p, s3)
            && InFlight(s3, d) && InFlight(s3, c) && c != d
  {
    var s1 := Next(p, s, DropValue);
    var s2 := Next(p, s1, Start(c));
    var s3 := Next(p, s2, TryLock(c));
    assert s2.calls == s.calls[c := Call(s1.step, Missed)];
    assert s3.calls == s.calls[c := Call(s1.step, Holding(s.now))];
  }

  lemma UncoveredAdmitsTwo(p: Policy, s: State, d: Caller) returns (post: seq<Event>)
    requires p.lockTtl > 0 && AtMostOneInFlight(s) && Punctual(p, s) && InFlight(s, d)
    requires s.key.lock.Some? ==> s.key.lock.value.expires < s.calls[d].phase.won + p.lockTtl
    ensures DropLock !in post && Prompt(p, s, post) && !AtMostOneInFlight(Exec(p, s, post))
  {
    var wait := LockRunsOut(p, s, d);
    var c := Unused(s.calls.Keys);
    var s0 := Next(p, s, Tick(wait));
    NextMisserWins(p, s0, d, c);
    post := PromptMore(p, s, [], Tick(wait));
    post := PromptMore(p, s, post, DropValue);
    post := PromptMore(p, s, post, Start(c));
    post := PromptMore(p, s, post, TryLock(c));
  }

  lemma PromptMore(p: Policy, s: State, evs: seq<Event>, ev: Event) returns (more: seq<Event>)
    requires Prompt(p, s, evs) && Punctual(p, Next(p, Exec(p, s, evs), ev))
    ensures more == evs + [ev] && Prompt(p, s, more) && Exec(p, s, more) == Next(p, Exec(p, s, evs), ev)
  {
    more := evs + [ev];
    ExecMore(p, s, evs, ev);
    assert (evs + [ev])[..|evs|] == evs;
  }

  /** From a state with at most one caller in flight, single flight is kept whatever prompt callers do,
      without deleting the lock from outside, exactly when the lock covers whoever is in flight. */
  lemma SingleFlightFrom(p: Policy, s: State)
    requires p.lockTtl > 0 && AtMostOneInFlight(s) && Punctual(p, s)
    ensures (forall post: seq<Event> :: DropLock !in post && Prompt(p, s, post) ==> AtMostOneInFlight(Exec(p, s, post)))
            <==> LockCovers(p, s)
  {
    if LockCovers(p, s) {
      forall post: seq<Event> | DropLock !in post && Prompt(p, s, post) ensures AtMostOneInFlight(Exec(p, s, post)) {
        RunGuarded(p, s, post);
      }
    } else {
      var d :| InFlight(s, d) && !(s.key.lock.Some? && s.calls[d].phase.won + p.lockTtl <= s.key.lock.value.expires);
      var post := UncoveredAdmitsTwo(p, s, d);
    }
  }

  /** While no time passes nobody is late. */
  lemma {:induction false} TimelessIsPrompt(p: Policy, evs: seq<Event>)
    requires p.lockTtl > 0 && forall e :: e in evs ==> !e.Tick?
    ensures Exec(p, Init, evs).now == 0 && Prompt(p, Init, evs)
    ensures var s := Exec(p, Init, evs); forall c :: InFlight(s, c) ==> s.calls[c].phase.won == 0
  {
    if evs != [] {
      assert evs[|evs| - 1] in evs && forall e :: e in evs[..|evs| - 1] ==> e in evs;
      TimelessIsPrompt(p, evs[..|evs| - 1]);
      TimelessStep(p, Exec(p, Init, evs[..|evs| - 1]), evs[|evs| - 1]);
    }
  }

  lemma TimelessStep(p: Policy, s: State, ev: Event)
    requires s.now == 0 && !ev.Tick? && forall c :: InFlight(s, c) ==> s.calls[c].phase.won == 0
    ensures var s' := Next(p, s, ev); s'.now == 0 && forall c :: InFlight(s', c) ==> s'.calls[c].phase.won == 0
  {
  }

  lemma {:induction false} ExecAppends(p: Policy, s: State, evs: seq<Event>, more: seq<Event>)
    ensures Exec(p, s, evs + more) == Exec(p, Exec(p, s, evs), more)
  {
    if more == [] {
      assert evs + more == evs;
    } else {
      assert (evs + more)[..|evs + more| - 1] == evs + more[..|more| - 1];
      ExecAppends(p, s, evs, more[..|more| - 1]);
    }
  }

  lemma Append(p: Policy, evs: seq<Event>, a: Event, b: Event, c: Event) returns (more: seq<Event>)
    ensures more == evs + [a, b, c]
    ensures Exec(p, Init, more) == Next(p, Next(p, Next(p, Exec(p, Init, evs), a), b), c)
  {
    more := evs + [a, b, c];
    ExecAppends(p, Init, evs, [a, b, c]);
    ExecThree(p, Exec(p, Init, evs), a, b, c);
  }

  /** `n` calls that all miss before any of them tries the lock. */
  function Misses(n: nat): seq<Event> {
    if n == 0 then [] else Misses(n - 1) + [Start(n - 1)]
  }

  /** `n` callers, all of whom missed an untouched key. */
  ghost predicate Missing(n: nat, s: State) {
    && s.key == Init.key && s.now == 0 && s.step == n
    && (forall c: Caller :: c in s.calls <==> c < n) && forall c: Caller :: c < n ==> s.calls[c].phase == Missed
  }

  lemma OneMoreMiss(p: Policy, n: nat, s: State)
    requires Missing(n, s)
    ensures Missing(n + 1, Next(p, s, Start(n)))
  {
    assert Next(p, s, Start(n)).calls == s.calls[n := Call(s.step, Missed)];
  }

  lemma {:induction false} AllMiss(p: Policy, n: nat)
    ensures Missing(n, Exec(p, Init, Misses(n)))
  {
    if n > 0 {
      AllMiss(p, n - 1);
      ExecMore(p, Init, Misses(n - 1), Start(n - 1));
      OneMoreMiss(p, n - 1, Exec(p, Init, Misses(n - 1)));
    }
  }

  /** Deleting the lock by prefix lets a second filler in at once. */
  lemma PrefixDropAdmitsTwo(p: Policy) returns (evs: seq<Event>)
    requires p.lockTtl > 0
    ensures Prompt(p, Init, evs) && InFlight(Exec(p, Init, evs), 0) && InFlight(Exec(p, Init, evs), 1)
  {
    evs := Append(p, [], Start(0), Start(1), TryLock(0));
    evs := Append(p, evs, Begin(0), DropLock, TryLock(1));
    TimelessIsPrompt(p, evs);
  }

  /** Filling overtime does too, and its late release deletes the next filler's lock, so that two
      callers that are both prompt fill at once. */
  lemma SlowReleaseAdmitsTwo(p: Policy) returns (evs: seq<Event>)
    requires p.lockTtl > 0
    ensures DropLock !in evs
    ensures var s := Exec(p, Init, evs); InFlight(s, 1) && InFlight(s, 2) && Punctual(p, s)
  {
    evs := LateFiller(p);
    Overtime(p, Exec(p, Init, evs));
    evs := Append(p, evs, TryLock(1), Raise(0), Release(0));
    evs := Append(p, evs, TryLock(2), Begin(1), Begin(2));
  }

  lemma LateFiller(p: Policy) returns (evs: seq<Event>)
    requires p.lockTtl > 0
    ensures DropLock !in evs
    ensures var s := Exec(p, Init, evs);
            && s.key.lock == Some(Entry("1", p.lockTtl)) && s.now == p.lockTtl
            && (forall c: Caller :: c in s.calls <==> c < 3)
            && FillUnderway(s, 0) && s.calls[1].phase == s.calls[2].phase == Missed
  {
    AllMiss(p, 3);
    NoTicks(3, 0);
    evs := Append(p, Misses(3), TryLock(0), Begin(0), Tick(p.lockTtl));
  }

  lemma Overtime(p: Policy, s: State)
    requires p.lockTtl > 0 && s.key.lock == Some(Entry("1", p.lockTtl)) && s.now == p.lockTtl
    requires forall c: Caller :: c in s.calls <==> c < 3
    requires FillUnderway(s, 0) && s.calls[1].phase == s.calls[2].phase == Missed
    ensures var s' := Next(p, Next(p, Next(p, s, TryLock(1)), Raise(0)), Release(0));
            var s'' := Next(p, Next(p, Next(p, s', TryLock(2)), Begin(1)), Begin(2));
            InFlight(s'', 1) && InFlight(s'', 2) && Punctual(p, s'')
  {
    var s' := Next(p, Next(p, Next(p, s, TryLock(1)), Raise(0)), Release(0));
    assert s'.key.lock == None && s'.calls[0].phase == Failed && s'.calls[1].phase == Holding(p.lockTtl);
    assert s'.calls[2].phase == Missed && s'.now == p.lockTtl;
  }

  // ---------- how old an answer can be ----------

  /** What is stored, or about to be, is recent. */
  ghost predicate Recent(p: Policy, s: State) {
    && (s.key.value.Some? ==> s.key.value.value.expires < s.key.value.value.value.at + p.lockTtl + p.ttl)
    && forall c :: c in s.calls ==> CallRecent(s.now, s.calls[c])
  }

  predicate CallRecent(now: int, call: Call) {
    match call.phase
    case Holding(won) => won <= now
    case Filling(won, v) => won <= v.at
    case _ => true
  }

  lemma {:induction false} RunRecent(p: Policy, evs: seq<Event>)
    requires Prompt(p, Init, evs)
    ensures Recent(p, Exec(p, Init, evs))
  {
    if evs != [] {
      RunRecent(p, evs[..|evs| - 1]);
      assert Punctual(p, Exec(p, Init, evs[..|evs| - 1])) by { assert Prompt(p, Init, evs[..|evs| - 1]); }
      RecentStep(p, Exec(p, Init, evs[..|evs| - 1]), evs[|evs| - 1]);
    }
  }

  lemma RecentStep(p: Policy, s: State, ev: Event)
    requires Recent(p, s) && Punctual(p, s)
    ensures Recent(p, Next(p, s, ev))
  {
    if ev.Store? && FillUnderway(s, ev.c) {
      assert InFlight(s, ev.c);
    }
  }

  /** With prompt fillers a hit is never older than the two times to live together, even when
      nothing is ever invalidated and whatever happens to the lock. */
  lemma HitsAreRecent(p: Policy, evs: seq<Event>, c: Caller)
    requires Prompt(p, Init, evs) && !Busy(Exec(p, Init, evs), c)
    ensures var s := Exec(p, Init, evs); var s' := Next(p, s, Start(c));
            s'.calls[c].phase.Returned? ==> s'.now < s'.calls[c].phase.value.at + p.ttl + p.lockTtl
  {
    RunRecent(p, evs);
  }

  // ---------- when a fill is redundant ----------

  /** A call that found nothing and has not got an answer yet. */
  predicate Looking(s: State, c: Caller) {
    c in s.calls
    && (s.calls[c].phase.Missed? || s.calls[c].phase.Waiting? || s.calls[c].phase.Holding? || s.calls[c].phase.Filling?)
  }

  /** After `n` of the events the stamps name the events that made them. */
  ghost predicate Traced(evs: seq<Event>, n: nat, s: State)
    requires n <= |evs|
  {
    && s.step == n && s.stored <= n
    && (s.key.value.Some? ==> s.stored < n && evs[s.stored].Store?)
    && forall c :: c in s.calls ==> CallTraced(evs, n, c, s.calls[c])
  }

  predicate CallTraced(evs: seq<Event>, n: nat, c: Caller, call: Call)
    requires n <= |evs|
  {
    call.since < n && evs[call.since] == Start(c)
  }

  lemma TracedStep(p: Policy, evs: seq<Event>, n: nat, s: State)
    requires n < |evs| && Traced(evs, n, s)
    ensures Traced(evs, n + 1, Next(p, s, evs[n]))
  {
    var s' := Next(p, s, evs[n]);
    forall c | c in s'.calls ensures CallTraced(evs, n + 1, c, s'.calls[c]) {
      assert c in s.calls ==> CallTraced(evs, n, c, s.calls[c]);
    }
  }

  /** Calls that have found nothing since the latest store: the value is gone. */
  ghost predicate GoneForLate(s: State) {
    forall c :: Looking(s, c) && s.stored <= s.calls[c].since ==> Get(s.key.value, s.now) == None
  }

  lemma GoneStep(p: Policy, s: State, ev: Event)
    requires GoneForLate(s) && forall c :: c in s.calls ==> s.calls[c].since < s.step
    ensures GoneForLate(Next(p, s, ev))
  {
    var s' := Next(p, s, ev);
    if ev.Start? {
      assert forall c :: Looking(s', c) ==> c == ev.c || (Looking(s, c) && s'.calls[c] == s.calls[c]);
    } else {
      assert forall c :: Looking(s', c) ==> Looking(s, c) && s'.calls[c].since == s.calls[c].since;
    }
  }

  lemma {:induction false} RunTraced(p: Policy, evs: seq<Event>, n: nat)
    requires n <= |evs|
    ensures Traced(evs, n, Exec(p, Init, evs[..n])) && GoneForLate(Exec(p, Init, evs[..n]))
  {
    if n > 0 {
      RunTraced(p, evs, n - 1);
      TracedStep(p, evs, n - 1, Exec(p, Init, evs[..n - 1]));
      GoneStep(p, Exec(p, Init, evs[..n - 1]), evs[n - 1]);
      assert evs[..n][..n - 1] == evs[..n - 1];
    }
  }

  /** In every interleaving, a call that wins the lock or is filling while the value is live started
      before the store that put it there: a call started after a store never fills while it lives. */
  lemma RedundantFillStartedEarlier(p: Policy, evs: seq<Event>, c: Caller)
    requires var s := Exec(p, Init, evs); Looking(s, c) && Get(s.key.value, s.now).Some?
    ensures var s := Exec(p, Init, evs);
            s.calls[c].since < s.stored < |evs| && evs[s.calls[c].since] == Start(c) && evs[s.stored].Store?
  {
    RunTraced(p, evs, |evs|);
    assert evs[..|evs|] == evs;
  }

  // ---------- callers that miss before the fill ----------

  /** Then the first `k` of the missers, one after another, win the lock, produce, store and release. */
  function Fills(n: nat, k: nat): seq<Event> {
    if k == 0 then Misses(n) else Fills(n, k - 1) + [TryLock(k - 1), Begin(k - 1), Store(k - 1)] + [Release(k - 1)]
  }

  lemma OneFill(p: Policy, s: State, c: Caller)
    requires s.now == 0 && s.key.lock == None && c in s.calls && s.calls[c].phase == Missed && p.ttl > 0
    ensures var v := Value(s.step + 1, 0);
            Next(p, Next(p, Next(p, Next(p, s, TryLock(c)), Begin(c)), Store(c)), Release(c))
            == State(Key(Some(Entry(v, p.ttl)), None), s.calls[c := s.calls[c].(phase := Returned(v))], 0,
                     s.step + 4, s.step + 2)
  {
    var s1 := Next(p, s, TryLock(c));
    assert s1.calls == s.calls[c := s.calls[c].(phase := Holding(0))];
    var s2 := Next(p, s1, Begin(c));
    assert s2.calls == s.calls[c := s.calls[c].(phase := Filling(0, Value(s.step + 1, 0)))];
    var s3 := Next(p, s2, Store(c));
    assert s3.calls == s.calls[c := s.calls[c].(phase := Leaving(0, Some(Value(s.step + 1, 0))))];
  }

  /** The first `k` of `n` missers have each returned what they produced themselves. */
  ghost predicate Filled(p: Policy, n: nat, k: nat, s: State) {
    && s.now == 0 && s.step == n + 4 * k && s.key.lock == None && (k > 0 ==> Get(s.key.value, 0).Some?)
    && (forall c: Caller :: c in s.calls <==> c < n)
    && (forall c: Caller :: k <= c < n ==> s.calls[c].phase == Missed)
    && (forall c: Caller :: c < k && c < n ==> s.calls[c].phase == Returned(Value(n + 4 * c + 1, 0)))
  }

  lemma OneMoreFilled(p: Policy, n: nat, k: nat, s: State)
    requires 0 < k <= n && p.ttl > 0 && Filled(p, n, k - 1, s)
    ensures var c := k - 1;
            Filled(p, n, k, Next(p, Next(p, Next(p, Next(p, s, TryLock(c)), Begin(c)), Store(c)), Release(c)))
  {
    OneFill(p, s, k - 1);
  }

  /** Single flight is not single fill: nobody looks again after winning the lock, so all `n` callers
      that missed run their producer in turn, though the value is there for all but the first. */
  lemma {:induction false} EveryMisserFills(p: Policy, n: nat, k: nat)
    requires k <= n && p.lockTtl > 0 && p.ttl > 0
    ensures Filled(p, n, k, Exec(p, Init, Fills(n, k)))
    ensures Prompt(p, Init, Fills(n, k)) && DropLock !in Fills(n, k) && DropValue !in Fills(n, k)
  {
    if k == 0 {
      AllMiss(p, n);
    } else {
      EveryMisserFills(p, n, k - 1);
      var evs := Append(p, Fills(n, k - 1), TryLock(k - 1), Begin(k - 1), Store(k - 1));
      ExecMore(p, Init, evs, Release(k - 1));
      OneMoreFilled(p, n, k, Exec(p, Init, Fills(n, k - 1)));
    }
    NoTicks(n, k);
    TimelessIsPrompt(p, Fills(n, k));
  }

  lemma {:induction false} NoTicks(n: nat, k: nat)
    ensures forall e :: e in Fills(n, k) ==> !e.Tick? && !e.DropLock? && !e.DropValue?
  {
    if k > 0 {
      NoTicks(n, k - 1);
    } else if n > 0 {
      NoTicks(n - 1, 0);
    }
  }
}
