/** The worker's loop is a run of the pool: a round taken without interruption, event by event. */
module WorkerRounds {
  import opened JobStream
  import opened WorkerLoop
  import opened WorkerPool

  function HandleOne(c: Consumer, raises: bool): seq<Event> {
    [Start(c), if raises then Raise(c) else Return(c), AckDone(c)]
  }

  function HandleEvents(c: Consumer, ids: seq<EntryId>, raising: set<EntryId>): seq<Event> {
    if ids == [] then []
    else HandleEvents(c, ids[..|ids| - 1], raising) + HandleOne(c, ids[|ids| - 1] in raising)
  }

  /** Worker `c` is between jobs, with `live` still to hand over. */
  predicate Between(s: System, c: Consumer, live: seq<Ticket>) {
    At(s, c) == Worker([], live, Idle)
  }

  lemma OneHandled(s: System, c: Consumer, live: seq<Ticket>, raises: bool)
    requires live != [] && Between(s, c, live)
    ensures var s' := Exec(s, HandleOne(c, raises));
            && Between(s', c, live[1..]) && s'.now == s.now
            && s'.redis == if raises then s.redis else Ack(s.redis, live[0].id)
  {
    var ends := if raises then Raise(c) else Return(c);
    ExecThenTwo(s, Start(c), ends, [AckDone(c)]);
    ExecOne(Next(Next(s, Start(c)), ends), AckDone(c));
    assert HandleOne(c, raises) == [Start(c), ends] + [AckDone(c)];
  }

  lemma {:induction false} AllHandled(s: System, c: Consumer, live: seq<Ticket>, k: nat, raising: set<EntryId>)
    requires k <= |live| && Between(s, c, live)
    ensures var s' := Exec(s, HandleEvents(c, IdsOf(live[..k]), raising));
            && Between(s', c, live[k..]) && s'.now == s.now
            && s'.redis == Handled(s.redis, IdsOf(live[..k]), raising)
  {
    if k > 0 {
      var before := HandleEvents(c, IdsOf(live[..k - 1]), raising);
      assert IdsOf(live[..k])[..k - 1] == IdsOf(live[..k - 1]);
      AllHandled(s, c, live, k - 1, raising);
      ExecAppends(s, before, HandleOne(c, live[k - 1].id in raising));
      OneHandled(Exec(s, before), c, live[k - 1..], live[k - 1].id in raising);
    }
  }

  function ReclaimEvents(s: System, c: Consumer, raising: set<EntryId>): seq<Event> {
    MoveEvents(s, Pass(c)) + HandleEvents(c, Reclaimed(s.redis, s.now), raising)
  }

  function ReadEvents(s: System, c: Consumer, raising: set<EntryId>): seq<Event> {
    [Read(c)] + HandleEvents(c, AtCursor(s.redis), raising)
  }

  lemma ReclaimIsARun(s: System, c: Consumer, raising: set<EntryId>)
    requires WellFormed(s.redis) && At(s, c) == Fresh
    ensures var s' := Exec(s, ReclaimEvents(s, c, raising));
            At(s', c) == Fresh && s'.now == s.now && s'.redis == AfterReclaim(s.redis, c, s.now, raising)
  {
    var live := LiveOf(Claimed(s.redis, s.now));
    PassIsReclaimStale(s, c);
    ExecAppends(s, MoveEvents(s, Pass(c)), HandleEvents(c, IdsOf(live), raising));
    assert live[..|live|] == live && live[|live|..] == [];
    AllHandled(MoveOn(s, Pass(c)), c, live, |live|, raising);
  }

  lemma ReadIsARun(s: System, c: Consumer, raising: set<EntryId>)
    requires WellFormed(s.redis) && At(s, c) == Fresh
    ensures var s' := Exec(s, ReadEvents(s, c, raising));
            At(s', c) == Fresh && s'.now == s.now && s'.redis == AfterRead(s.redis, c, s.now, raising)
  {
    ExecCons(s, Read(c), HandleEvents(c, AtCursor(s.redis), raising));
    if s.redis.cursor < |s.redis.stream| {
      var live := [Ticket(s.redis.cursor, 1)];
      assert IdsOf(live[..1]) == AtCursor(s.redis) && live[1..] == [];
      AllHandled(Next(s, Read(c)), c, live, 1, raising);
    }
  }

  /** What `AuditWorker.Round` is proved to compute is what the round's single events, taken without
      interruption but for the time up to the read, do in the pool: so a worker's loop is one of the
      runs the pool's theorems cover. */
  lemma RoundIsARun(s: System, c: Consumer, later: int, raising: set<EntryId>, reclaims: bool)
    returns (evs: seq<Event>)
    requires WellFormed(s.redis) && At(s, c) == Fresh && s.now <= later
    ensures var s' := Exec(s, evs); var mid := if reclaims then AfterReclaim(s.redis, c, s.now, raising) else s.redis;
            At(s', c) == Fresh && s'.now == later && s'.redis == AfterRead(mid, c, later, raising)
    ensures Read(c) in evs && (AutoClaim(c) in evs <==> reclaims)
  {
    var first := if reclaims then ReclaimEvents(s, c, raising) else [];
    var s1 := Exec(s, first);
    if reclaims {
      ReclaimIsARun(s, c, raising);
      ReclaimKeepsWellFormed(s.redis, c, s.now, raising);
      assert first[0] == AutoClaim(c);
    }
    var s2 := Next(s1, Tick(later - s.now));
    var second := ReadEvents(s2, c, raising);
    ReadIsARun(s2, c, raising);
    NoClaims(c, AtCursor(s2.redis), raising);
    assert second[0] == Read(c) && AutoClaim(c) !in second;
    ExecCons(s1, Tick(later - s.now), second);
    ExecAppends(s, first, [Tick(later - s.now)] + second);
    evs := first + ([Tick(later - s.now)] + second);
  }

  lemma ReclaimKeepsWellFormed(r: Redis, c: Consumer, now: int, raising: set<EntryId>)
    requires WellFormed(r)
    ensures WellFormed(AfterReclaim(r, c, now, raising))
  {
    ClaimIsFresh(r, c, now);
    SettlingKeepsWellFormed(Claim(r, c, now), Claimed(r, now));
    HandledKeeps(AfterPass(r, c, now), Reclaimed(r, now), raising);
  }

  lemma {:induction false} NoClaims(c: Consumer, ids: seq<EntryId>, raising: set<EntryId>)
    ensures AutoClaim(c) !in HandleEvents(c, ids, raising)
  {
    if ids != [] {
      NoClaims(c, ids[..|ids| - 1], raising);
    }
  }
}
