/**
 One worker's loop over the queue: every sixth round reclaims first, every round reads
 one job, and a job is acked only when `process` returns.
 */
module WorkerLoop {
  import opened Common
  import opened JobStream

  const RECLAIM_EVERY := 6

  function IdsOf(ts: seq<Ticket>): seq<EntryId> {
    seq(|ts|, i requires 0 <= i < |ts| => ts[i].id)
  }

  /** Each job was handed to `process` in turn and acked unless it raised. */
  function Handled(r: Redis, ids: seq<EntryId>, raising: set<EntryId>): Redis {
    if ids == [] then r
    else
      var before, id := Handled(r, ids[..|ids| - 1], raising), ids[|ids| - 1];
      if id in raising then before else Ack(before, id)
  }

  /** The reclaimed jobs a round hands to `process`. */
  function Reclaimed(r: Redis, now: int): seq<EntryId> {
    IdsOf(LiveOf(Claimed(r, now)))
  }

  function AtCursor(r: Redis): seq<EntryId> {
    if r.cursor < |r.stream| then [r.cursor] else []
  }

  ghost function AfterReclaim(r: Redis, c: Consumer, now: int, raising: set<EntryId>): Redis {
    Handled(AfterPass(r, c, now), Reclaimed(r, now), raising)
  }

  ghost function AfterRead(r: Redis, c: Consumer, now: int, raising: set<EntryId>): Redis {
    Handled(ReadNext(r, c, now), AtCursor(r), raising)
  }

  lemma {:induction false} HandledKeeps(r: Redis, ids: seq<EntryId>, raising: set<EntryId>)
    ensures var h := Handled(r, ids, raising);
            && (forall e :: e in h.pel <==> e in r.pel && !(e in ids && e !in raising))
            && (forall e :: e in h.pel ==> h.pel[e] == r.pel[e])
            && h == r.(pel := h.pel)
            && (WellFormed(r) ==> WellFormed(h))
  {
    if ids != [] {
      HandledKeeps(r, ids[..|ids| - 1], raising);
    }
  }

  class AuditWorker {
    const name: Consumer
    const broker: Broker
    var ticks: nat

    constructor (name: Consumer, broker: Broker)
      ensures this.name == name && this.broker == broker && ticks == 0
    {
      this.name, this.broker, ticks := name, broker, 0;
    }

    method Handle(id: EntryId, raises: bool)
      modifies broker
      ensures broker.Abs() == if raises then old(broker.Abs()) else Ack(old(broker.Abs()), id)
    {
      if !raises {
        broker.AckEntry(id);
      }
    }

    /** Reclaim, then hand over what is live. */
    method HandleReclaimed(now: int, raising: set<EntryId>) returns (handed: seq<EntryId>)
      requires WellFormed(broker.Abs())
      modifies broker
      ensures WellFormed(broker.Abs()) && broker.Abs() == AfterReclaim(old(broker.Abs()), name, now, raising)
      ensures handed == Reclaimed(old(broker.Abs()), now)
    {
      handed := [];
      var live := broker.ReclaimStale(name, now);
      ghost var claim := broker.Abs();
      for i := 0 to |live|
        invariant handed == IdsOf(live[..i]) && broker.Abs() == Handled(claim, handed, raising)
      {
        Handle(live[i].id, live[i].id in raising);
        handed := handed + [live[i].id];
        assert handed[..|handed| - 1] == IdsOf(live[..i]);
      }
      assert live[..|live|] == live;
      HandledKeeps(claim, handed, raising);
    }

    /** Read one job and hand it over. */
    method HandleNew(now: int, raising: set<EntryId>) returns (handed: seq<EntryId>)
      requires WellFormed(broker.Abs())
      modifies broker
      ensures WellFormed(broker.Abs()) && broker.Abs() == AfterRead(old(broker.Abs()), name, now, raising)
      ensures handed == AtCursor(old(broker.Abs()))
    {
      var entries := broker.ReadJobs(name, now);
      handed := if entries == [] then [] else [entries[0].0];
      HandledKeeps(broker.Abs(), handed, raising);
      if entries != [] {
        assert handed[..0] == [];
        Handle(entries[0].0, entries[0].0 in raising);
      }
    }

    /** One round; `raising` are the jobs on which `process` raises, and the read comes at `later`. */
    method Round(now: int, later: int, raising: set<EntryId>) returns (handed: seq<EntryId>)
      requires WellFormed(broker.Abs())
      modifies this, broker
      ensures ticks == old(ticks) + 1 && WellFormed(broker.Abs())
      ensures var r := old(broker.Abs()); var reclaims := ticks % 6 == 0;
              var mid := if reclaims then AfterReclaim(r, name, now, raising) else r;
              && broker.Abs() == AfterRead(mid, name, later, raising)
              && handed == (if reclaims then Reclaimed(r, now) else []) + AtCursor(mid)
    {
      ticks := ticks + 1;
      handed := [];
      if ticks % RECLAIM_EVERY == 0 {
        handed := HandleReclaimed(now, raising);
      }
      var read := HandleNew(later, raising);
      handed := handed + read;
    }
  }

  // ---------- a lone survivor settles everything ----------

  /** A round in which `process` never raises. */
  ghost function GoodRound(r: Redis, c: Consumer, now: int, reclaims: bool): Redis {
    AfterRead(if reclaims then AfterReclaim(r, c, now, {}) else r, c, now, {})
  }

  ghost function GoodRounds(r: Redis, c: Consumer, ticks: nat, times: seq<int>): Redis
    decreases |times|
  {
    if times == [] then r
    else GoodRounds(GoodRound(r, c, times[0], (ticks + 1) % RECLAIM_EVERY == 0), c, ticks + 1, times[1..])
  }

  /** A good reclaim settles exactly what it claims: the poison copied to the dead-letter stream. */
  lemma ReclaimSettles(r: Redis, c: Consumer, now: int)
    requires WellFormed(r)
    ensures var s := AfterReclaim(r, c, now, {}); var ids := ClaimIds(r, now);
            && WellFormed(s) && s.stream == r.stream && s.cursor == r.cursor
            && (forall e :: e in s.pel <==> e in r.pel && e !in ids)
            && (forall e :: e in s.pel ==> s.pel[e] == r.pel[e])
  {
    var ts, ids, claim := Claimed(r, now), ClaimIds(r, now), Claim(r, c, now);
    ClaimIsFresh(r, c, now);
    SettlingKeepsWellFormed(claim, ts);
    HandledKeeps(AfterPass(r, c, now), Reclaimed(r, now), {});
    LiveAndPoison(ts);
    forall e ensures e in ids <==> e in Reclaimed(r, now) || e in Ids(PoisonOf(ts)) {
      if i :| 0 <= i < |ids| && ids[i] == e {
        assert ts[i] in ts && ts[i].id == e;
        if ts[i].number <= MAX_DELIVERIES {
          var j :| 0 <= j < |LiveOf(ts)| && LiveOf(ts)[j] == ts[i];
          assert Reclaimed(r, now)[j] == e;
        } else {
          assert ts[i] in PoisonOf(ts);
        }
      }
      if e in Reclaimed(r, now) {
        var j :| 0 <= j < |Reclaimed(r, now)| && Reclaimed(r, now)[j] == e;
        assert LiveOf(ts)[j] in ts;
      }
    }
  }

  lemma {:induction false} LiveAndPoison(ts: seq<Ticket>)
    ensures forall t :: t in LiveOf(ts) <==> t in ts && t.number <= MAX_DELIVERIES
  {
    if ts != [] {
      LiveAndPoison(ts[1..]);
    }
  }

  /** A good round reads one job more, if there is one, and leaves nothing new pending. */
  lemma GoodRoundSettles(r: Redis, c: Consumer, now: int, reclaims: bool)
    requires WellFormed(r)
    ensures var s := GoodRound(r, c, now, reclaims);
            var ids := if reclaims then ClaimIds(r, now) else [];
            && WellFormed(s) && s.stream == r.stream
            && s.cursor == (if r.cursor < |r.stream| then r.cursor + 1 else r.cursor)
            && (forall e :: e in s.pel <==> e in r.pel && e !in ids)
            && (forall e :: e in s.pel ==> s.pel[e] == r.pel[e])
  {
    var mid := if reclaims then AfterReclaim(r, c, now, {}) else r;
    if reclaims {
      ReclaimSettles(r, c, now);
    }
    HandledKeeps(ReadNext(mid, c, now), AtCursor(mid), {});
  }

  /** When everything pending is stale a reclaim takes ten entries, or all that are left. */
  lemma ReclaimTakesTen(r: Redis, now: int, left: map<EntryId, Pending>)
    requires WellFormed(r) && (forall e :: e in r.pel ==> Stale(r, now, e))
    requires forall e :: e in left <==> e in r.pel && e !in ClaimIds(r, now)
    ensures |left| <= |r.pel|
    ensures |left| + CLAIM_COUNT <= |r.pel| || left == map[]
  {
    StaleIdsSelected(r, now, 0, CLAIM_COUNT, LOOKS);
    AllStaleTaken(r, now, 0, CLAIM_COUNT, LOOKS);
    LeftSize(r.pel.Keys, ClaimIds(r, now), left.Keys);
  }

  /** Every pending entry has been idle long enough at each of the times. */
  ghost predicate AllStale(r: Redis, times: seq<int>) {
    forall t, e :: t in times && e in r.pel ==> Stale(r, t, e)
  }

  lemma StillStale(r: Redis, s: Redis, times: seq<int>)
    requires times != [] && AllStale(r, times) && forall e :: e in s.pel ==> e in r.pel && s.pel[e] == r.pel[e]
    ensures AllStale(s, times[1..])
  {
    forall t, e | t in times[1..] && e in s.pel ensures Stale(s, t, e) {
      assert t in times && Stale(r, t, e);
    }
  }

  /** How many of the next `n` rounds reclaim. */
  function Reclaims(ticks: nat, n: nat): nat {
    (ticks + n) / RECLAIM_EVERY - ticks / RECLAIM_EVERY
  }

  lemma OneReclaimLess(ticks: nat, n: nat)
    requires n > 0
    ensures Reclaims(ticks, n) == Reclaims(ticks + 1, n - 1) + if (ticks + 1) % RECLAIM_EVERY == 0 then 1 else 0
  {
  }

  /** Whatever the workers that died left pending, once it is stale a single worker whose `process`
      returns settles all of it and the rest of the stream, in as many rounds as there are unread
      jobs and one reclaim for every ten pending ones, each reclaim being the sixth round. */
  lemma {:induction false} SurvivorSettlesAll(r: Redis, c: Consumer, ticks: nat, times: seq<int>)
    requires WellFormed(r) && AllStale(r, times)
    requires |times| >= |r.stream| - r.cursor
    requires |r.pel| <= CLAIM_COUNT * Reclaims(ticks, |times|)
    ensures var s := GoodRounds(r, c, ticks, times);
            s.pel == map[] && s.cursor == |s.stream| && s.stream == r.stream
    decreases |times|
  {
    if times != [] {
      var reclaims := (ticks + 1) % RECLAIM_EVERY == 0;
      var s := GoodRound(r, c, times[0], reclaims);
      assert times[0] in times;
      OneRoundLess(r, c, times[0], reclaims, s);
      StillStale(r, s, times);
      OneReclaimLess(ticks, |times|);
      SurvivorSettlesAll(s, c, ticks + 1, times[1..]);
    }
  }

  lemma OneRoundLess(r: Redis, c: Consumer, now: int, reclaims: bool, s: Redis)
    requires WellFormed(r) && s == GoodRound(r, c, now, reclaims) && forall e :: e in r.pel ==> Stale(r, now, e)
    ensures WellFormed(s) && s.stream == r.stream && |s.pel| <= |r.pel|
    ensures s.cursor == if r.cursor < |r.stream| then r.cursor + 1 else r.cursor
    ensures reclaims ==> |s.pel| + CLAIM_COUNT <= |r.pel| || |s.pel| == 0
    ensures forall e :: e in s.pel ==> e in r.pel && s.pel[e] == r.pel[e]
  {
    GoodRoundSettles(r, c, now, reclaims);
    SubsetSize(s.pel.Keys, r.pel.Keys);
    if reclaims {
      ReclaimTakesTen(r, now, s.pel);
    }
  }
}
