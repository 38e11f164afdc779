/**
 Any number of audit workers over one job stream.  Every event is one Redis
 command of one worker, one boundary of a `process` call, or a crash, so a
 sequence of events is an interleaving of the workers' loops.
 */
module WorkerPool {
  import opened Common
  import opened JobStream

  /** Where a worker stands: between commands, after the dead-letter XADD but
      before the XACK, inside `process`, or after `process` returned and before the XACK. */
  datatype Phase = Idle | DeadLettering(t: Ticket) | Running(t: Ticket) | Returned(t: Ticket)

  /** `claimed` waits for its lookups; `live` waits to be handed to `process`. */
  datatype Worker = Worker(claimed: seq<Ticket>, live: seq<Ticket>, phase: Phase)

  /** History kept for the theorems.
      `handed`: the tickets given to `process`, in order; `finished`: entries for which
      a `process` call returned normally; `missed`: lookups that found no pending record;
      `holder` and `given`: the worker each delivery went to, and when; `dropped`: the tickets a
      crash took from a worker. */
  datatype History = History(handed: seq<Ticket>, finished: set<EntryId>, missed: set<Ticket>,
                             holder: map<Ticket, Consumer>, given: map<Ticket, int>, dropped: set<Ticket>)

  datatype System = System(redis: Redis, now: int, workers: map<Consumer, Worker>, hist: History)

  datatype Event =
    | Enqueue(job: Job)
    | Tick(ms: nat)
    | Read(c: Consumer)
    | AutoClaim(c: Consumer)
    | Lookup(c: Consumer)
    | AckDead(c: Consumer)
    | Start(c: Consumer)
    | Return(c: Consumer)
    | Raise(c: Consumer)
    | AckDone(c: Consumer)
    | Crash(c: Consumer)

  const Fresh := Worker([], [], Idle)

  const Init := System(Redis([], 0, map[], []), 0, map[], History([], {}, {}, map[], map[], {}))

  function At(s: System, c: Consumer): Worker {
    if c in s.workers then s.workers[c] else Fresh
  }

  function Put(s: System, c: Consumer, w: Worker): System {
    s.(workers := s.workers[c := w])
  }

  function Delivered(h: History, ts: seq<Ticket>, c: Consumer, at: int): History {
    h.(holder := h.holder + (map t | t in ts :: c), given := h.given + (map t | t in ts :: at))
  }

  /** Claimed and not looked up yet, or dead-lettered and not acked yet. */
  function Hand(w: Worker): set<Ticket> {
    (set t | t in w.claimed) + if w.phase.DeadLettering? then {w.phase.t} else {}
  }

  /** One event; an event its worker is not in a position to take changes nothing. */
  function Next(s: System, ev: Event): System {
    match ev
    case Enqueue(job) => s.(redis := Add(s.redis, job))
    case Tick(ms) => s.(now := s.now + ms)
    case Read(c) =>
      if At(s, c) == Fresh && s.redis.cursor < |s.redis.stream| then
        var t := Ticket(s.redis.cursor, 1);
        Put(s, c, Worker([], [t], Idle))
        .(redis := ReadNext(s.redis, c, s.now), hist := Delivered(s.hist, [t], c, s.now))
      else s
    case AutoClaim(c) =>
      if At(s, c) == Fresh then
        var ts := Claimed(s.redis, s.now);
        Put(s, c, Worker(ts, [], Idle)).(redis := Claim(s.redis, c, s.now), hist := Delivered(s.hist, ts, c, s.now))
      else s
    case Lookup(c) =>
      var w := At(s, c);
      if w.phase == Idle && w.claimed != [] then
        var t := w.claimed[0];
        if Deliveries(s.redis, t.id) > MAX_DELIVERIES then
          Put(s, c, Worker(w.claimed[1..], w.live, DeadLettering(t))).(redis := DeadLetter(s.redis, t.id))
        else
          Put(s, c, Worker(w.claimed[1..], w.live + [t], Idle))
          .(hist := s.hist.(missed := if t.id in s.redis.pel then s.hist.missed else s.hist.missed + {t}))
      else s
    case AckDead(c) =>
      var w := At(s, c);
      if w.phase.DeadLettering? then Put(s, c, w.(phase := Idle)).(redis := Ack(s.redis, w.phase.t.id)) else s
    case Start(c) =>
      var w := At(s, c);
      if w.phase == Idle && w.claimed == [] && w.live != [] then
        Put(s, c, Worker([], w.live[1..], Running(w.live[0])))
        .(hist := s.hist.(handed := s.hist.handed + [w.live[0]]))
      else s
    case Return(c) =>
      var w := At(s, c);
      if w.phase.Running? then
        Put(s, c, w.(phase := Returned(w.phase.t))).(hist := s.hist.(finished := s.hist.finished + {w.phase.t.id}))
      else s
    case Raise(c) =>
      var w := At(s, c);
      if w.phase.Running? then Put(s, c, w.(phase := Idle)) else s
    case AckDone(c) =>
      var w := At(s, c);
      if w.phase.Returned? then Put(s, c, w.(phase := Idle)).(redis := Ack(s.redis, w.phase.t.id)) else s
    case Crash(c) =>
      Put(s, c, Fresh).(hist := s.hist.(dropped := s.hist.dropped + Hand(At(s, c))))
  }

  function Exec(s: System, evs: seq<Event>): System
    decreases |evs|
  {
    if evs == [] then s else Exec(Next(s, evs[0]), evs[1..])
  }

  lemma {:induction false} ExecAppends(s: System, a: seq<Event>, b: seq<Event>)
    ensures Exec(s, a + b) == Exec(Exec(s, a), b)
    decreases |a|
  {
    if a == [] {
      assert a + b == b;
    } else {
      assert (a + b)[1..] == a[1..] + b;
      ExecAppends(Next(s, a[0]), a[1..], b);
    }
  }

  lemma ExecCons(s: System, a: Event, rest: seq<Event>)
    ensures Exec(s, [a] + rest) == Exec(Next(s, a), rest)
  {
    assert ([a] + rest)[1..] == rest;
  }

  lemma ExecThenTwo(s: System, a: Event, b: Event, rest: seq<Event>)
    ensures Exec(s, [a, b] + rest) == Exec(Next(Next(s, a), b), rest)
  {
    assert [a, b] + rest == [a] + ([b] + rest);
    ExecCons(s, a, [b] + rest);
    ExecCons(Next(s, a), b, rest);
  }

  lemma ExecTwo(s: System, a: Event, b: Event)
    ensures Exec(s, [a, b]) == Next(Next(s, a), b)
  {
    assert [a, b][1..] == [b] && [b][1..] == [];
    assert Exec(Next(s, a), [b]) == Exec(Next(Next(s, a), b), []);
  }

  // ---------- no silent loss ----------

  predicate Undelivered(r: Redis, e: EntryId) { r.cursor <= e }

  predicate Settled(r: Redis, e: EntryId) { e < r.cursor && e !in r.pel }

  predicate DeadLettered(r: Redis, e: EntryId) {
    e < |r.stream| && (e, r.stream[e]) in r.dlq
  }

  /** Settled entries are finished or dead-lettered. */
  ghost predicate SettledAccounted(r: Redis, finished: set<EntryId>) {
    forall e: EntryId :: e < |r.stream| && Settled(r, e) ==> e in finished || DeadLettered(r, e)
  }

  /** A worker about to ack an entry has the same excuse for it. */
  ghost predicate OwnTicketsAccounted(r: Redis, finished: set<EntryId>, w: Worker) {
    && (forall t :: t in w.claimed || t in w.live ==> t.id < r.cursor)
    && (w.phase.DeadLettering? ==> w.phase.t.id < r.cursor && DeadLettered(r, w.phase.t.id))
    && (w.phase.Running? ==> w.phase.t.id < r.cursor)
    && (w.phase.Returned? ==> w.phase.t.id < r.cursor && w.phase.t.id in finished)
  }

  ghost predicate Accounted(s: System) {
    && WellFormed(s.redis)
    && SettledAccounted(s.redis, s.hist.finished)
    && (forall c :: c in s.workers ==> OwnTicketsAccounted(s.redis, s.hist.finished, s.workers[c]))
  }

  /** Streams only grow, and no delivered entry becomes undelivered. */
  ghost predicate Grows(r: Redis, r': Redis) {
    && r.cursor <= r'.cursor <= |r'.stream|
    && r.stream <= r'.stream
    && r.dlq <= r'.dlq
  }

  lemma NextGrows(s: System, ev: Event)
    requires s.redis.cursor <= |s.redis.stream|
    ensures Grows(s.redis, Next(s, ev).redis) && s.hist.finished <= Next(s, ev).hist.finished
  {
  }

  lemma GrowthKeepsWorker(r: Redis, f: set<EntryId>, r': Redis, f': set<EntryId>, w: Worker)
    requires OwnTicketsAccounted(r, f, w) && Grows(r, r') && f <= f'
    ensures OwnTicketsAccounted(r', f', w)
  {
  }

  lemma RedisStep(s: System, ev: Event)
    requires Accounted(s)
    ensures WellFormed(Next(s, ev).redis)
    ensures SettledAccounted(Next(s, ev).redis, Next(s, ev).hist.finished)
  {
    match ev
    case AutoClaim(c) => if At(s, c) == Fresh { ClaimIsFresh(s.redis, c, s.now); }
    case _ =>
  }

  /** The worker an event moves. */
  lemma OwnStep(s: System, ev: Event, c: Consumer)
    requires Accounted(s) && c in Next(s, ev).workers
    requires c !in s.workers || Next(s, ev).workers[c] != s.workers[c]
    ensures OwnTicketsAccounted(Next(s, ev).redis, Next(s, ev).hist.finished, Next(s, ev).workers[c])
  {
    match ev
    case AutoClaim(_) => if At(s, c) == Fresh { ClaimIsFresh(s.redis, c, s.now); }
    case _ =>
  }

  lemma AccountedStep(s: System, ev: Event)
    requires Accounted(s)
    ensures Accounted(Next(s, ev))
  {
    var s' := Next(s, ev);
    RedisStep(s, ev);
    NextGrows(s, ev);
    forall c | c in s'.workers
      ensures OwnTicketsAccounted(s'.redis, s'.hist.finished, s'.workers[c])
    {
      if c in s.workers && s'.workers[c] == s.workers[c] {
        GrowthKeepsWorker(s.redis, s.hist.finished, s'.redis, s'.hist.finished, s.workers[c]);
      } else {
        OwnStep(s, ev, c);
      }
    }
  }

  // ---------- bounded redelivery ----------

  /** A ticket may be handed to `process` only if its number is within the limit,
      or if its lookup found no pending record. */
  predicate Admitted(h: History, t: Ticket) {
    t.number <= MAX_DELIVERIES || t in h.missed
  }

  /** Tickets carry delivery numbers already counted, and `process` got each at most once. */
  ghost predicate TicketsCounted(r: Redis, h: History) {
    && (forall t :: t in h.holder ==>
          t.id < r.cursor && 1 <= t.number && (t.id in r.pel ==> t.number <= r.pel[t.id].deliveries))
    && NoDup(h.handed)
    && (forall t :: t in h.handed ==> t in h.holder && Admitted(h, t))
  }

  /** What a worker still holds was delivered to it, is distinct, and was not handed over yet. */
  ghost predicate HoldsOwn(h: History, c: Consumer, w: Worker) {
    && NoDup(w.claimed + w.live)
    && (forall t :: t in w.claimed + w.live ==> t in h.holder && h.holder[t] == c && t !in h.handed)
    && (forall t :: t in w.live ==> Admitted(h, t))
  }

  ghost predicate Counted(s: System) {
    && WellFormed(s.redis)
    && TicketsCounted(s.redis, s.hist)
    && (forall c :: c in s.workers ==> HoldsOwn(s.hist, c, s.workers[c]))
  }

  lemma NewTickets(s: System, c: Consumer, ts: seq<Ticket>)
    requires Counted(s)
    requires ts == Claimed(s.redis, s.now) || ts == [Ticket(s.redis.cursor, 1)]
    ensures NoDup(ts) && forall t :: t in ts ==> t !in s.hist.holder
  {
    ClaimIsFresh(s.redis, c, s.now);
    forall i, j | 0 <= i < j < |ts| ensures ts[i] != ts[j] {
      assert ts[i].id != ts[j].id;
    }
  }

  lemma ReadCounted(s: System, c: Consumer)
    requires Counted(s)
    ensures TicketsCounted(Next(s, Read(c)).redis, Next(s, Read(c)).hist)
  {
    if At(s, c) == Fresh { NewTickets(s, c, [Ticket(s.redis.cursor, 1)]); }
  }

  lemma ClaimCounted(s: System, c: Consumer)
    requires Counted(s) && At(s, c) == Fresh
    ensures TicketsCounted(Next(s, AutoClaim(c)).redis, Next(s, AutoClaim(c)).hist)
  {
    var ts := Claimed(s.redis, s.now);
    var r' := Claim(s.redis, c, s.now);
    ClaimIsFresh(s.redis, c, s.now);
    forall t | t in s.hist.holder || t in ts
      ensures t.id < s.redis.cursor && 1 <= t.number && (t.id in r'.pel ==> t.number <= r'.pel[t.id].deliveries)
    {
      if t in ts { var i :| 0 <= i < |ts| && ts[i] == t; }
    }
  }

  lemma StartCounted(s: System, c: Consumer)
    requires Counted(s)
    ensures TicketsCounted(Next(s, Start(c)).redis, Next(s, Start(c)).hist)
  {
    var w := At(s, c);
    if w.live != [] { assert w.live[0] in w.claimed + w.live; }
  }

  lemma HistoryStep(s: System, ev: Event)
    requires Counted(s)
    ensures TicketsCounted(Next(s, ev).redis, Next(s, ev).hist)
  {
    match ev
    case AutoClaim(c) => if At(s, c) == Fresh { ClaimCounted(s, c); }
    case Read(c) => ReadCounted(s, c);
    case Start(c) => StartCounted(s, c);
    case _ =>
  }

  lemma RotationKeepsNoDup<T>(t: T, a: seq<T>, b: seq<T>)
    requires NoDup([t] + a + b)
    ensures NoDup(a + (b + [t]))
  {
    var old', new' := [t] + a + b, a + (b + [t]);
    forall i, j | 0 <= i < j < |new'|
      ensures new'[i] != new'[j]
    {
      assert new'[i] == old'[i + 1];
      assert new'[j] == if j == |a| + |b| then old'[0] else old'[j + 1];
    }
  }

  lemma LookedUpTickets(s: System, c: Consumer)
    requires Counted(s) && c in s.workers
    requires s.workers[c].phase == Idle && s.workers[c].claimed != []
    ensures HoldsOwn(Next(s, Lookup(c)).hist, c, Next(s, Lookup(c)).workers[c])
  {
    var w := s.workers[c];
    var t, all := w.claimed[0], w.claimed + w.live;
    assert all == [t] + w.claimed[1..] + w.live;
    assert w.claimed[1..] + w.live == all[1..];
    RotationKeepsNoDup(t, w.claimed[1..], w.live);
    forall u | u in w.claimed[1..] + (w.live + [t]) ensures u in all {
    }
  }

  lemma DeliveredTickets(s: System, c: Consumer, ts: seq<Ticket>, w: Worker)
    requires TicketsCounted(s.redis, s.hist)
    requires NoDup(ts) && forall t :: t in ts ==> t !in s.hist.holder
    requires w == Worker(ts, [], Idle) || (w == Worker([], ts, Idle) && forall t :: t in ts ==> t.number == 1)
    ensures HoldsOwn(Delivered(s.hist, ts, c, s.now), c, w)
  {
    var h := Delivered(s.hist, ts, c, s.now);
    assert w.claimed + w.live == ts;
    forall t | t in ts ensures t in h.holder && h.holder[t] == c && t !in h.handed {
    }
    forall t | t in w.live ensures Admitted(h, t) {
    }
  }

  lemma StartedTickets(s: System, c: Consumer)
    requires Counted(s) && c in s.workers
    requires s.workers[c].phase == Idle && s.workers[c].claimed == [] && s.workers[c].live != []
    ensures HoldsOwn(Next(s, Start(c)).hist, c, Next(s, Start(c)).workers[c])
  {
    var w := s.workers[c];
    assert w.claimed + w.live == w.live;
    assert [] + w.live[1..] == w.live[1..];
    forall t | t in w.live[1..] ensures Admitted(Next(s, Start(c)).hist, t) {
      assert t in w.live && Admitted(s.hist, t);
    }
  }

  lemma SameLists(s: System, c: Consumer, h: History, w: Worker)
    requires Counted(s) && c in s.workers
    requires w.claimed == s.workers[c].claimed && w.live == s.workers[c].live
    requires h.handed == s.hist.handed && h.holder == s.hist.holder && h.missed == s.hist.missed
    ensures HoldsOwn(h, c, w)
  {
    assert HoldsOwn(s.hist, c, s.workers[c]);
    assert forall t :: Admitted(h, t) == Admitted(s.hist, t);
  }

  lemma NewlyDelivered(s: System, ev: Event, c: Consumer)
    requires Counted(s) && (ev == AutoClaim(c) || ev == Read(c)) && At(s, c) == Fresh && c in Next(s, ev).workers
    requires c !in s.workers || Next(s, ev).workers[c] != s.workers[c]
    ensures HoldsOwn(Next(s, ev).hist, c, Next(s, ev).workers[c])
  {
    if ev.AutoClaim? {
      var ts := Claimed(s.redis, s.now);
      NewTickets(s, c, ts);
      DeliveredTickets(s, c, ts, Worker(ts, [], Idle));
    } else {
      var ts := [Ticket(s.redis.cursor, 1)];
      NewTickets(s, c, ts);
      DeliveredTickets(s, c, ts, Worker([], ts, Idle));
    }
  }

  /** The worker an event moves without delivering to it. */
  lemma OwnMoved(s: System, ev: Event, c: Consumer)
    requires Counted(s) && c in s.workers && !ev.AutoClaim? && !ev.Read?
    requires Next(s, ev).workers[c] != s.workers[c]
    ensures HoldsOwn(Next(s, ev).hist, c, Next(s, ev).workers[c])
  {
    match ev
    case Lookup(_) => LookedUpTickets(s, c);
    case Start(_) => StartedTickets(s, c);
    case Crash(_) => NothingHeldOwn(Next(s, ev).hist, c);
    case AckDead(_) => SameLists(s, c, Next(s, ev).hist, Next(s, ev).workers[c]);
    case Return(_) => SameLists(s, c, Next(s, ev).hist, Next(s, ev).workers[c]);
    case Raise(_) => SameLists(s, c, Next(s, ev).hist, Next(s, ev).workers[c]);
    case AckDone(_) => SameLists(s, c, Next(s, ev).hist, Next(s, ev).workers[c]);
    case _ =>
  }

  lemma NothingHeldOwn(h: History, c: Consumer)
    ensures HoldsOwn(h, c, Fresh)
  {
    assert Fresh.claimed + Fresh.live == [];
  }

  lemma OwnTickets(s: System, ev: Event, c: Consumer)
    requires Counted(s) && c in Next(s, ev).workers
    requires c !in s.workers || Next(s, ev).workers[c] != s.workers[c]
    ensures HoldsOwn(Next(s, ev).hist, c, Next(s, ev).workers[c])
  {
    if ev.AutoClaim? || ev.Read? {
      NewlyDelivered(s, ev, c);
    } else if c in s.workers {
      OwnMoved(s, ev, c);
    } else {
      NothingHeldOwn(Next(s, ev).hist, c);
    }
  }

  lemma CountedStep(s: System, ev: Event)
    requires Counted(s)
    ensures Counted(Next(s, ev))
  {
    var s' := Next(s, ev);
    HistoryStep(s, ev);
    assert WellFormed(s'.redis) by { if ev.AutoClaim? { ClaimIsFresh(s.redis, ev.c, s.now); } }
    forall c | c in s'.workers
      ensures HoldsOwn(s'.hist, c, s'.workers[c])
    {
      if c in s.workers && s'.workers[c] == s.workers[c] {
        OthersKept(s, ev, c);
      } else {
        OwnTickets(s, ev, c);
      }
    }
  }

  /** A worker's tickets are unaffected while they keep their holder and are not handed over. */
  lemma HeldStill(h: History, h': History, c: Consumer, w: Worker)
    requires HoldsOwn(h, c, w) && h.missed <= h'.missed
    requires forall t :: t in w.claimed + w.live ==> t in h'.holder && h'.holder[t] == c && t !in h'.handed
    ensures HoldsOwn(h', c, w)
  {
    forall t | t in w.live ensures Admitted(h', t) {
      assert Admitted(h, t);
    }
  }

  lemma OthersKept(s: System, ev: Event, c: Consumer)
    requires Counted(s) && c in s.workers && c in Next(s, ev).workers
    requires Next(s, ev).workers[c] == s.workers[c]
    ensures HoldsOwn(Next(s, ev).hist, c, s.workers[c])
  {
    var h', w := Next(s, ev).hist, s.workers[c];
    forall t | t in w.claimed + w.live ensures t in h'.holder && h'.holder[t] == c && t !in h'.handed {
      match ev
      case AutoClaim(d) => if At(s, d) == Fresh { NewTickets(s, d, Claimed(s.redis, s.now)); }
      case Read(d) => if At(s, d) == Fresh { NewTickets(s, d, [Ticket(s.redis.cursor, 1)]); }
      case Start(d) =>
        if At(s, d).live != [] { assert At(s, d).live[0] in At(s, d).claimed + At(s, d).live; }
      case _ =>
    }
    HeldStill(s.hist, h', c, w);
  }

  // ---------- theorems over every run ----------

  lemma {:induction false} RunAccounted(s: System, evs: seq<Event>)
    requires Accounted(s)
    ensures Accounted(Exec(s, evs))
    decreases |evs|
  {
    if evs != [] {
      AccountedStep(s, evs[0]);
      RunAccounted(Next(s, evs[0]), evs[1..]);
    }
  }

  lemma {:induction false} RunCounted(s: System, evs: seq<Event>)
    requires Counted(s)
    ensures Counted(Exec(s, evs))
    decreases |evs|
  {
    if evs != [] {
      CountedStep(s, evs[0]);
      RunCounted(Next(s, evs[0]), evs[1..]);
    }
  }

  /** Every enqueued job is undelivered, pending, or settled; a settled one had a `process`
      call that returned normally, or has its own copy in the dead-letter stream. */
  lemma NoSilentLoss(evs: seq<Event>)
    ensures var s := Exec(Init, evs); var r := s.redis;
            forall e: EntryId :: e < |r.stream| ==>
              || (Undelivered(r, e) && e !in r.pel)
              || (e < r.cursor && e in r.pel)
              || (Settled(r, e) && (e in s.hist.finished || DeadLettered(r, e)))
  {
    RunAccounted(Init, evs);
  }

  /** The `process` calls a run made on one entry. */
  function CallsOn(handed: seq<Ticket>, e: EntryId): (n: nat)
    ensures n <= |handed|
  {
    if handed == [] then 0
    else CallsOn(handed[1..], e) + (if handed[0].id == e then 1 else 0)
  }

  /** The tickets past the limit whose lookup found the pending record gone. */
  function MissedOn(h: History, e: EntryId): set<Ticket> {
    set t | t in h.missed && t.id == e && t.number > MAX_DELIVERIES
  }

  function TicketsOf(handed: seq<Ticket>, e: EntryId): (ts: set<Ticket>)
    ensures forall t :: t in ts <==> t in handed && t.id == e
  {
    if handed == [] then {}
    else if handed[0].id == e then TicketsOf(handed[1..], e) + {handed[0]}
    else TicketsOf(handed[1..], e)
  }

  lemma {:induction false} CallsAreDistinctTickets(handed: seq<Ticket>, e: EntryId)
    requires NoDup(handed)
    ensures CallsOn(handed, e) == |TicketsOf(handed, e)|
  {
    if handed != [] {
      CallsAreDistinctTickets(handed[1..], e);
      assert handed[0] !in handed[1..];
    }
  }

  /** The tickets of an entry that are within the limit. */
  function WithinLimit(e: EntryId): (ts: set<Ticket>)
    ensures forall t: Ticket :: t in ts <==> t.id == e && 1 <= t.number <= MAX_DELIVERIES
    ensures |ts| == MAX_DELIVERIES
  {
    {Ticket(e, 1), Ticket(e, 2), Ticket(e, 3)}
  }

  lemma CallsWithinAdmitted(h: History, e: EntryId)
    requires NoDup(h.handed)
    requires forall t :: t in h.handed ==> 1 <= t.number && Admitted(h, t)
    ensures CallsOn(h.handed, e) <= MAX_DELIVERIES + |MissedOn(h, e)|
  {
    CallsAreDistinctTickets(h.handed, e);
    CallsCovered(h, e, TicketsOf(h.handed, e));
    SubsetSize(TicketsOf(h.handed, e), WithinLimit(e) + MissedOn(h, e));
    UnionSize(WithinLimit(e), MissedOn(h, e));
  }

  lemma CallsCovered(h: History, e: EntryId, calls: set<Ticket>)
    requires forall t :: t in h.handed ==> 1 <= t.number && Admitted(h, t)
    requires forall t :: t in calls ==> t in h.handed && t.id == e
    ensures calls <= WithinLimit(e) + MissedOn(h, e)
  {
    forall t | t in calls ensures t in WithinLimit(e) + MissedOn(h, e) {
      assert t in h.handed;
    }
  }

  /** At most MAX_DELIVERIES calls per entry, plus one per ticket past that number whose lookup found
      the pending record gone: `reclaim_stale` takes a missing record for a first delivery. */
  lemma CallsBounded(evs: seq<Event>, e: EntryId)
    ensures var h := Exec(Init, evs).hist;
            CallsOn(h.handed, e) <= MAX_DELIVERIES + |MissedOn(h, e)|
  {
    RunCounted(Init, evs);
    CallsWithinAdmitted(Exec(Init, evs).hist, e);
  }

  // ---------- runs in which a claim and its lookups are one step ----------

  /** A `reclaim_stale` pass nobody interrupts, or any event outside such a pass. */
  datatype Move = Pass(c: Consumer) | Single(ev: Event)

  predicate OutsidePass(ev: Event) {
    !ev.AutoClaim? && !ev.Lookup? && !ev.AckDead?
  }

  /** Worker `c` looks up `n` claimed entries, acking the ones it dead-letters
      (an AckDead with nothing dead-lettered changes nothing). */
  function Lookups(c: Consumer, n: nat): seq<Event> {
    if n == 0 then [] else [Lookup(c), AckDead(c)] + Lookups(c, n - 1)
  }

  function MoveEvents(s: System, m: Move): seq<Event> {
    match m
    case Pass(c) => if At(s, c) == Fresh then [AutoClaim(c)] + Lookups(c, |Claimed(s.redis, s.now)|) else []
    case Single(ev) => if OutsidePass(ev) then [ev] else []
  }

  function MoveOn(s: System, m: Move): System {
    Exec(s, MoveEvents(s, m))
  }

  function ExecMoves(s: System, ms: seq<Move>): System
    decreases |ms|
  {
    if ms == [] then s else ExecMoves(MoveOn(s, ms[0]), ms[1..])
  }

  lemma ExecOne(s: System, ev: Event)
    ensures Exec(s, [ev]) == Next(s, ev)
  {
    assert [ev][1..] == [];
  }

  /** Where a pass stands after `i` of the lookups of the claim `ts`. */
  ghost predicate Drained(s: System, c: Consumer, r: Redis, ts: seq<Ticket>, i: nat)
    requires i <= |ts|
  {
    && s.redis == AfterLookups(r, ts[..i])
    && c in s.workers && s.workers[c] == Worker(ts[i..], LiveOf(ts[..i]), Idle)
  }

  /** Nothing but Redis and worker `c` moved. */
  ghost predicate OnlyMoved(s: System, s': System, c: Consumer) {
    && s'.now == s.now && s'.hist == s.hist
    && c in s'.workers && s'.workers == s.workers[c := s'.workers[c]]
  }

  lemma OnlyMovedTwice(s: System, s1: System, s2: System, c: Consumer)
    requires OnlyMoved(s, s1, c) && OnlyMoved(s1, s2, c)
    ensures OnlyMoved(s, s2, c)
  {
  }

  lemma DrainOne(s: System, c: Consumer, r: Redis, ts: seq<Ticket>, i: nat) returns (s': System)
    requires i < |ts| && FreshClaim(r, ts) && Drained(s, c, r, ts, i)
    ensures s' == Next(Next(s, Lookup(c)), AckDead(c)) && Drained(s', c, r, ts, i + 1)
    ensures OnlyMoved(s, s', c)
  {
    LookupStep(r, ts, i);
    var t := ts[i];
    assert ts[i..][0] == t && ts[i..][1..] == ts[i + 1..];
    assert s.redis.pel.Keys == r.pel.Keys - Ids(PoisonOf(ts[..i]));
    var looked := Next(s, Lookup(c));
    s' := Next(looked, AckDead(c));
    if t.number > MAX_DELIVERIES {
      assert looked == Put(s, c, Worker(ts[i + 1..], LiveOf(ts[..i]), DeadLettering(t)))
                       .(redis := DeadLetter(s.redis, t.id));
      assert s' == Put(looked, c, Worker(ts[i + 1..], LiveOf(ts[..i]), Idle)).(redis := Ack(looked.redis, t.id));
    } else {
      NotYetPoison(ts, i);
      assert looked == Put(s, c, Worker(ts[i + 1..], LiveOf(ts[..i + 1]), Idle));
      assert s' == looked;
    }
  }

  /** The state after `n` lookups. */
  function AfterTurns(s: System, c: Consumer, n: nat): System
    decreases n
  {
    if n == 0 then s else AfterTurns(Next(Next(s, Lookup(c)), AckDead(c)), c, n - 1)
  }

  lemma {:induction false} TurnsAreLookups(s: System, c: Consumer, n: nat)
    ensures Exec(s, Lookups(c, n)) == AfterTurns(s, c, n)
    decreases n
  {
    if n > 0 {
      ExecThenTwo(s, Lookup(c), AckDead(c), Lookups(c, n - 1));
      TurnsAreLookups(Next(Next(s, Lookup(c)), AckDead(c)), c, n - 1);
    }
  }

  lemma {:induction false} DrainRest(s: System, c: Consumer, r: Redis, ts: seq<Ticket>, i: nat) returns (s': System)
    requires i <= |ts| && FreshClaim(r, ts) && Drained(s, c, r, ts, i)
    ensures s' == AfterTurns(s, c, |ts| - i) && Drained(s', c, r, ts, |ts|) && OnlyMoved(s, s', c)
    decreases |ts| - i
  {
    if i == |ts| {
      s' := s;
      NothingMoved(s, c);
    } else {
      var next := DrainOne(s, c, r, ts, i);
      s' := DrainRest(next, c, r, ts, i + 1);
      OnlyMovedTwice(s, next, s', c);
    }
  }

  lemma NothingMoved(s: System, c: Consumer)
    requires c in s.workers
    ensures OnlyMoved(s, s, c)
  {
    assert s.workers[c := s.workers[c]] == s.workers;
  }

  lemma NoLookups(r: Redis)
    ensures AfterLookups(r, []) == r
  {
    assert r.pel - {} == r.pel;
    assert r.dlq + [] == r.dlq;
    assert Ids([]) == {};
  }

  /** The state after the claim of a pass. */
  function Claiming(s: System, c: Consumer): System {
    Put(s, c, Worker(Claimed(s.redis, s.now), [], Idle))
    .(redis := Claim(s.redis, c, s.now), hist := Delivered(s.hist, Claimed(s.redis, s.now), c, s.now))
  }

  lemma ClaimUndrained(s: System, c: Consumer)
    requires WellFormed(s.redis)
    ensures FreshClaim(Claiming(s, c).redis, Claimed(s.redis, s.now))
    ensures Drained(Claiming(s, c), c, Claiming(s, c).redis, Claimed(s.redis, s.now), 0)
  {
    var ts := Claimed(s.redis, s.now);
    ClaimIsFresh(s.redis, c, s.now);
    NoLookups(Claiming(s, c).redis);
    assert ts[..0] == [] && ts[0..] == ts;
  }

  lemma TurnsOfClaim(s: System, c: Consumer) returns (s': System)
    requires WellFormed(s.redis)
    ensures var ts := Claimed(s.redis, s.now); var s1 := Claiming(s, c);
            && s' == AfterTurns(s1, c, |ts|) && s'.redis == AfterPass(s.redis, c, s.now)
            && OnlyMoved(s1, s', c) && s'.workers[c] == Worker([], LiveOf(ts), Idle)
  {
    var ts, s1 := Claimed(s.redis, s.now), Claiming(s, c);
    ClaimUndrained(s, c);
    s' := DrainRest(s1, c, s1.redis, ts, 0);
    assert ts[..|ts|] == ts && ts[|ts|..] == [];
  }

  lemma LookupsOfClaim(s: System, c: Consumer) returns (s': System)
    requires WellFormed(s.redis)
    ensures var ts := Claimed(s.redis, s.now); var s1 := Claiming(s, c);
            && s' == Exec(s1, Lookups(c, |ts|)) && s'.redis == AfterPass(s.redis, c, s.now)
            && OnlyMoved(s1, s', c) && s'.workers[c] == Worker([], LiveOf(ts), Idle)
  {
    s' := TurnsOfClaim(s, c);
    TurnsAreLookups(Claiming(s, c), c, |Claimed(s.redis, s.now)|);
  }

  /** The single commands of an uninterrupted pass add up to the closed form that
      `Broker.ReclaimStale` is proved to compute. */
  lemma PassIsReclaimStale(s: System, c: Consumer)
    requires WellFormed(s.redis) && At(s, c) == Fresh
    ensures var ts := Claimed(s.redis, s.now);
            MoveOn(s, Pass(c)) == System(AfterPass(s.redis, c, s.now), s.now,
                                         s.workers[c := Worker([], LiveOf(ts), Idle)], Delivered(s.hist, ts, c, s.now))
  {
    var s' := LookupsOfClaim(s, c);
    ExecCons(s, AutoClaim(c), Lookups(c, |Claimed(s.redis, s.now)|));
  }

  /** Between moves nobody is inside a pass, no lookup missed, and no pending count is over the limit. */
  ghost predicate Orderly(s: System) {
    Counted(s) && Calm(s)
  }

  ghost predicate Calm(s: System) {
    && s.hist.missed == {}
    && (forall e :: e in s.redis.pel ==> s.redis.pel[e].deliveries <= MAX_DELIVERIES)
    && (forall t :: t in s.hist.holder ==> t.number <= MAX_DELIVERIES + 1)
    && (forall c :: c in s.workers ==> s.workers[c].claimed == [] && !s.workers[c].phase.DeadLettering?)
  }

  /** A pass leaves no pending count over the limit: it acks exactly what it raised past it. */
  lemma PassSettlesPoison(r: Redis, c: Consumer, now: int)
    requires WellFormed(r) && forall e :: e in r.pel ==> r.pel[e].deliveries <= MAX_DELIVERIES
    ensures forall e :: e in AfterPass(r, c, now).pel ==> AfterPass(r, c, now).pel[e].deliveries <= MAX_DELIVERIES
    ensures forall t :: t in Claimed(r, now) ==> t.number <= MAX_DELIVERIES + 1
  {
    var ts := Claimed(r, now);
    var claim := Claim(r, c, now);
    ClaimIsFresh(r, c, now);
    forall e | e in claim.pel && claim.pel[e].deliveries > MAX_DELIVERIES
      ensures e in Ids(PoisonOf(ts))
    {
      var ids := ClaimIds(r, now);
      assert e in ids;
      var i :| 0 <= i < |ids| && ids[i] == e;
      assert ts[i].id == e;
      assert ts[i] in PoisonOf(ts);
    }
  }

  lemma PassOrderly(s: System, c: Consumer)
    requires Orderly(s) && At(s, c) == Fresh
    ensures Orderly(MoveOn(s, Pass(c)))
  {
    RunCounted(s, MoveEvents(s, Pass(c)));
    PassIsReclaimStale(s, c);
    PassSettlesPoison(s.redis, c, s.now);
  }

  lemma SingleOrderly(s: System, ev: Event)
    requires Orderly(s) && OutsidePass(ev)
    ensures Orderly(Next(s, ev))
  {
    CountedStep(s, ev);
    SingleCalm(s, ev);
  }

  lemma SingleCalm(s: System, ev: Event)
    requires Calm(s) && OutsidePass(ev)
    ensures Calm(Next(s, ev))
  {
  }

  lemma {:induction false} MovesOrderly(s: System, ms: seq<Move>)
    requires Orderly(s)
    ensures Orderly(ExecMoves(s, ms))
    decreases |ms|
  {
    if ms != [] {
      match ms[0] {
        case Pass(c) => if At(s, c) == Fresh { PassOrderly(s, c); }
        case Single(ev) => if OutsidePass(ev) { SingleOrderly(s, ev); ExecOne(s, ev); }
      }
      MovesOrderly(MoveOn(s, ms[0]), ms[1..]);
    }
  }

  function TicketRow(id: nat): (row: set<Ticket>)
    ensures forall t: Ticket :: t in row <==> t.id == id && 1 <= t.number <= MAX_DELIVERIES + 1
    ensures |row| == MAX_DELIVERIES + 1
  {
    {Ticket(id, 1), Ticket(id, 2), Ticket(id, 3), Ticket(id, 4)}
  }

  function TicketGrid(n: nat): (grid: set<Ticket>)
    ensures forall t: Ticket :: t in grid <==> t.id < n && 1 <= t.number <= MAX_DELIVERIES + 1
    ensures |grid| == (MAX_DELIVERIES + 1) * n
  {
    if n == 0 then {} else TicketGrid(n - 1) + TicketRow(n - 1)
  }

  lemma OrderlyIsBounded(s: System)
    requires Orderly(s)
    ensures forall e :: CallsOn(s.hist.handed, e) <= MAX_DELIVERIES
    ensures |s.hist.holder| <= (MAX_DELIVERIES + 1) * |s.redis.stream|
  {
    forall e: EntryId ensures CallsOn(s.hist.handed, e) <= MAX_DELIVERIES {
      CallsWithinAdmitted(s.hist, e);
      assert MissedOn(s.hist, e) == {};
    }
    SubsetSize(s.hist.holder.Keys, TicketGrid(|s.redis.stream|));
  }

  /** With uninterrupted passes, `process` runs at most MAX_DELIVERIES times per entry, and
      n jobs take at most (MAX_DELIVERIES + 1) * n deliveries in any run however long. */
  lemma RedeliveryBounded(ms: seq<Move>)
    ensures var s := ExecMoves(Init, ms);
            && (forall e :: CallsOn(s.hist.handed, e) <= MAX_DELIVERIES)
            && |s.hist.holder| <= (MAX_DELIVERIES + 1) * |s.redis.stream|
  {
    MovesOrderly(Init, ms);
    OrderlyIsBounded(ExecMoves(Init, ms));
  }

  /** Each read, and each entry a pass claims, is one step closer to that bound. */
  lemma ReadSpendsTheBound(s: System, c: Consumer)
    requires Orderly(s) && At(s, c) == Fresh && s.redis.cursor < |s.redis.stream|
    ensures |Next(s, Read(c)).hist.holder| == |s.hist.holder| + 1
  {
    NewTickets(s, c, [Ticket(s.redis.cursor, 1)]);
    DeliveredCount(s.hist, [Ticket(s.redis.cursor, 1)], c, s.now);
  }

  lemma PassSpendsTheBound(s: System, c: Consumer)
    requires Orderly(s) && At(s, c) == Fresh
    ensures |MoveOn(s, Pass(c)).hist.holder| == |s.hist.holder| + |Claimed(s.redis, s.now)|
  {
    NewTickets(s, c, Claimed(s.redis, s.now));
    DeliveredCount(s.hist, Claimed(s.redis, s.now), c, s.now);
    PassIsReclaimStale(s, c);
  }

  lemma DeliveredCount(h: History, ts: seq<Ticket>, c: Consumer, at: int)
    requires NoDup(ts) && forall t :: t in ts ==> t !in h.holder
    ensures |Delivered(h, ts, c, at).holder| == |h.holder| + |ts|
  {
    var new' := set t | t in ts;
    DistinctSize(ts);
    assert Delivered(h, ts, c, at).holder.Keys == h.holder.Keys + new';
  }

  // ---------- deliveries in any run ----------

  /** Deliveries numbered past MAX_DELIVERIES + 1: the entry was claimed again although its delivery
      before was already one to settle, so that settlement was interrupted. */
  function AfterInterruption(h: History): set<Ticket> {
    set t | t in h.holder && t.number > MAX_DELIVERIES + 1
  }

  /** In every interleaving, with crashes anywhere, n jobs take at most (MAX_DELIVERIES + 1) * n
      deliveries plus one for each settlement that was interrupted. */
  lemma DeliveriesBounded(evs: seq<Event>)
    ensures var s := Exec(Init, evs);
            |s.hist.holder| <= (MAX_DELIVERIES + 1) * |s.redis.stream| + |AfterInterruption(s.hist)|
  {
    RunCounted(Init, evs);
    HolderFits(Exec(Init, evs).hist, |Exec(Init, evs).redis.stream|);
  }

  lemma HolderFits(h: History, n: nat)
    requires forall t :: t in h.holder ==> t.id < n && 1 <= t.number
    ensures |h.holder| <= (MAX_DELIVERIES + 1) * n + |AfterInterruption(h)|
  {
    SubsetSize(h.holder.Keys, TicketGrid(n) + AfterInterruption(h));
    UnionSize(TicketGrid(n), AfterInterruption(h));
  }

  /** The latest delivery of an entry past the limit is in its worker's hands, or a crash took it. */
  ghost predicate PoisonHeld(s: System) {
    forall e :: e in s.redis.pel && s.redis.pel[e].deliveries > MAX_DELIVERIES ==>
      var t := Ticket(e, s.redis.pel[e].deliveries);
      t in s.hist.holder && (t in s.hist.dropped || t in Hand(At(s, s.hist.holder[t])))
  }

  lemma PoisonHeldClaim(s: System, c: Consumer)
    requires Counted(s) && PoisonHeld(s) && At(s, c) == Fresh
    ensures PoisonHeld(Next(s, AutoClaim(c)))
  {
    var ids, ts, s' := ClaimIds(s.redis, s.now), Claimed(s.redis, s.now), Next(s, AutoClaim(c));
    NewTickets(s, c, ts);
    forall e | e in s'.redis.pel && s'.redis.pel[e].deliveries > MAX_DELIVERIES
      ensures var t := Ticket(e, s'.redis.pel[e].deliveries);
              t in s'.hist.holder && (t in s'.hist.dropped || t in Hand(At(s', s'.hist.holder[t])))
    {
      if i :| 0 <= i < |ids| && ids[i] == e {
        assert ts[i] == Ticket(e, s'.redis.pel[e].deliveries) && ts[i] in ts;
      }
    }
  }

  lemma PoisonHeldStep(s: System, ev: Event)
    requires Counted(s) && PoisonHeld(s)
    ensures PoisonHeld(Next(s, ev))
  {
    match ev
    case AutoClaim(c) => if At(s, c) == Fresh { PoisonHeldClaim(s, c); }
    case Read(c) => NewTickets(s, c, [Ticket(s.redis.cursor, 1)]);
    case Lookup(c) => PoisonHeldLookup(s, c);
    case _ => PoisonHeldElse(s, ev);
  }

  lemma PoisonHeldLookup(s: System, c: Consumer)
    requires PoisonHeld(s)
    ensures PoisonHeld(Next(s, Lookup(c)))
  {
    var s' := Next(s, Lookup(c));
    assert forall d :: d != c ==> At(s', d) == At(s, d);
    if s' != s {
      var t := At(s, c).claimed[0];
      assert forall u :: u in Hand(At(s, c)) && !(u == t && Deliveries(s.redis, t.id) <= MAX_DELIVERIES)
                         ==> u in Hand(At(s', c));
    }
  }

  lemma PoisonHeldElse(s: System, ev: Event)
    requires PoisonHeld(s) && !ev.AutoClaim? && !ev.Read? && !ev.Lookup?
    ensures PoisonHeld(Next(s, ev))
  {
    var s' := Next(s, ev);
    forall d, u | u in Hand(At(s, d)) && u.id in s'.redis.pel ensures u in Hand(At(s', d)) || u in s'.hist.dropped {
    }
  }

  lemma {:induction false} RunPoisonHeld(s: System, evs: seq<Event>)
    requires Counted(s) && PoisonHeld(s)
    ensures PoisonHeld(Exec(s, evs)) && Counted(Exec(s, evs))
    decreases |evs|
  {
    if evs != [] {
      CountedStep(s, evs[0]);
      PoisonHeldStep(s, evs[0]);
      RunPoisonHeld(Next(s, evs[0]), evs[1..]);
    }
  }

  lemma ClaimedIsStale(r: Redis, now: int, t: Ticket)
    requires t in Claimed(r, now)
    ensures Stale(r, now, t.id) && t.number == r.pel[t.id].deliveries + 1
  {
    var i :| 0 <= i < |ClaimIds(r, now)| && Claimed(r, now)[i] == t;
    StaleIdsSelected(r, now, 0, CLAIM_COUNT, LOOKS);
  }

  /** And a settlement is interrupted only by a crash of the worker that had it, or by that worker
      holding it for the two minutes after which it can be claimed again: so it is whenever a claim
      makes a delivery past MAX_DELIVERIES + 1. */
  lemma OnlyCrashOrStallInterrupts(evs: seq<Event>, t: Ticket)
    requires var s := Exec(Init, evs); t in Claimed(s.redis, s.now) && t.number > MAX_DELIVERIES + 1
    ensures var s := Exec(Init, evs); var before := Ticket(t.id, t.number - 1);
            && before in s.hist.holder
            && (before in s.hist.dropped || before in Hand(At(s, s.hist.holder[before])))
            && t.id in s.redis.pel && s.now - s.redis.pel[t.id].touched >= MIN_IDLE_MS
  {
    RunPoisonHeld(Init, evs);
    ClaimedIsStale(Exec(Init, evs).redis, Exec(Init, evs).now, t);
  }

  // ---------- how long a delivery is left alone ----------

  /** The pending list says of each entry when and to whom its latest delivery was made, and no
      delivery of it was made later. */
  ghost predicate ClockKept(r: Redis, h: History, now: int) {
    && h.given.Keys == h.holder.Keys
    && (forall e :: e in r.pel ==> LatestKept(h, e, r.pel[e]))
    && (forall t :: t in h.given ==> h.given[t] <= now && (t.id in r.pel ==> h.given[t] <= r.pel[t.id].touched))
  }

  predicate LatestKept(h: History, e: EntryId, pending: Pending) {
    var t := Ticket(e, pending.deliveries);
    t in h.given && t in h.holder && h.given[t] == pending.touched && h.holder[t] == pending.consumer
  }

  lemma ClaimClock(r: Redis, h: History, c: Consumer, now: int)
    requires WellFormed(r) && ClockKept(r, h, now) && forall t :: t in Claimed(r, now) ==> t !in h.holder
    ensures ClockKept(Claim(r, c, now), Delivered(h, Claimed(r, now), c, now), now)
  {
    var ids, ts, r', h' := ClaimIds(r, now), Claimed(r, now), Claim(r, c, now), Delivered(h, Claimed(r, now), c, now);
    ClaimIsFresh(r, c, now);
    forall e | e in r'.pel ensures LatestKept(h', e, r'.pel[e]) {
      assert LatestKept(h, e, r.pel[e]);
      if i :| 0 <= i < |ids| && ids[i] == e {
        assert ts[i] == Ticket(e, r'.pel[e].deliveries) && ts[i] in ts;
      }
    }
  }

  lemma ReadClock(r: Redis, h: History, c: Consumer, now: int)
    requires WellFormed(r) && r.cursor < |r.stream| && ClockKept(r, h, now)
    requires forall t :: t in h.holder ==> t.id < r.cursor
    ensures ClockKept(ReadNext(r, c, now), Delivered(h, [Ticket(r.cursor, 1)], c, now), now)
  {
    var h' := Delivered(h, [Ticket(r.cursor, 1)], c, now);
    assert Ticket(r.cursor, 1) in [Ticket(r.cursor, 1)];
    forall e | e in r.pel ensures LatestKept(h', e, r.pel[e]) {
      assert LatestKept(h, e, r.pel[e]);
    }
  }

  /** Acks and time leave it. */
  lemma ClockStays(r: Redis, h: History, now: int, r': Redis, h': History, now': int)
    requires ClockKept(r, h, now) && now <= now' && h'.given == h.given && h'.holder == h.holder
    requires forall e :: e in r'.pel ==> e in r.pel && r'.pel[e] == r.pel[e]
    ensures ClockKept(r', h', now')
  {
    forall e | e in r'.pel ensures LatestKept(h', e, r'.pel[e]) {
      assert LatestKept(h, e, r.pel[e]);
    }
  }

  lemma ClockStep(s: System, ev: Event)
    requires Counted(s) && ClockKept(s.redis, s.hist, s.now)
    ensures var s' := Next(s, ev); ClockKept(s'.redis, s'.hist, s'.now)
  {
    var s' := Next(s, ev);
    if ev.AutoClaim? && At(s, ev.c) == Fresh {
      NewTickets(s, ev.c, Claimed(s.redis, s.now));
      ClaimClock(s.redis, s.hist, ev.c, s.now);
    } else if ev.Read? && At(s, ev.c) == Fresh && s.redis.cursor < |s.redis.stream| {
      ReadClock(s.redis, s.hist, ev.c, s.now);
    } else {
      ClockStays(s.redis, s.hist, s.now, s'.redis, s'.hist, s'.now);
    }
  }

  lemma {:induction false} RunClock(s: System, evs: seq<Event>)
    requires Counted(s) && ClockKept(s.redis, s.hist, s.now)
    ensures var s' := Exec(s, evs); ClockKept(s'.redis, s'.hist, s'.now) && Counted(s')
    decreases |evs|
  {
    if evs != [] {
      CountedStep(s, evs[0]);
      ClockStep(s, evs[0]);
      RunClock(Next(s, evs[0]), evs[1..]);
    }
  }

  /** Over every run, an entry is claimed only once every delivery of it is two minutes old. */
  lemma DeliveryLeftAlone(evs: seq<Event>, t: Ticket, before: Ticket)
    requires var s := Exec(Init, evs); t in Claimed(s.redis, s.now) && before in s.hist.given && before.id == t.id
    ensures var s := Exec(Init, evs); s.hist.given[before] + 120_000 <= s.now
  {
    RunClock(Init, evs);
    ClaimedIsStale(Exec(Init, evs).redis, Exec(Init, evs).now, t);
  }

  /** And an entry still pending two minutes after its latest delivery is claimed by the next pass, unless
      ten lower ids are claimed or a hundred entries are pending before it. */
  lemma DeliveryRunsOut(evs: seq<Event>, e: EntryId)
    requires e in Exec(Init, evs).redis.pel
    ensures var s := Exec(Init, evs); var last := Ticket(e, s.redis.pel[e].deliveries);
            && last in s.hist.given
            && (s.hist.given[last] + 120_000 <= s.now ==>
                  var ids := ClaimIds(s.redis, s.now);
                  || e in ids
                  || (|ids| == 10 && forall x :: x in ids ==> x < e)
                  || PendingIn(s.redis, 0, e) >= 100)
  {
    RunClock(Init, evs);
    var s := Exec(Init, evs);
    StaleIdsSelected(s.redis, s.now, 0, CLAIM_COUNT, LOOKS);
    assert LatestKept(s.hist, e, s.redis.pel[e]) && e < s.redis.cursor;
    assert s.hist.given[Ticket(e, s.redis.pel[e].deliveries)] + 120_000 <= s.now ==> Stale(s.redis, s.now, e);
  }

  // ---------- no bound at all when lookups come late ----------

  function Name(i: nat): (c: Consumer)
    ensures |c| == i
  {
    seq(i, _ => 'w')
  }

  /** Worker 0 is inside `process` with entry 0; workers 1 to k claimed it in turn and paused
      before their lookups. */
  ghost predicate Paused(s: System, k: nat) {
    && |s.redis.stream| == 1 && s.redis.cursor == 1
    && s.redis.pel.Keys == {0} && s.redis.pel[0].deliveries == k + 1
    && At(s, Name(0)) == Worker([], [], Running(Ticket(0, 1)))
    && (forall i: nat :: 1 <= i <= k ==> At(s, Name(i)) == Worker([Ticket(0, i + 1)], [], Idle))
    && (forall i: nat :: k < i ==> At(s, Name(i)) == Fresh)
    && CallsOn(s.hist.handed, 0) == 1
  }

  /** Worker 0 acked; workers 1 to m looked up, found nothing, and started `process`. */
  ghost predicate Late(s: System, k: nat, m: nat) {
    && s.redis.pel == map[]
    && (forall i: nat :: m < i <= k ==> At(s, Name(i)) == Worker([Ticket(0, i + 1)], [], Idle))
    && CallsOn(s.hist.handed, 0) == m + 1
  }

  lemma {:induction false} CallsOnAppend(handed: seq<Ticket>, t: Ticket, e: EntryId)
    ensures CallsOn(handed + [t], e) == CallsOn(handed, e) + (if t.id == e then 1 else 0)
  {
    if handed != [] {
      assert (handed + [t])[1..] == handed[1..] + [t];
      CallsOnAppend(handed[1..], t, e);
    } else {
      assert handed + [t] == [t];
    }
  }

  /** One worker reads the only job and starts on it. */
  lemma ReaderStarts(job: Job, c: Consumer)
    ensures var s := Next(Next(Next(Init, Enqueue(job)), Read(c)), Start(c));
            && s.redis == Redis([job], 1, map[0 := Pending(c, 1, 0)], []) && s.now == 0
            && s.workers == map[c := Worker([], [], Running(Ticket(0, 1)))]
            && s.hist.handed == [Ticket(0, 1)]
  {
    var t := Ticket(0, 1);
    var s1 := Next(Init, Enqueue(job));
    var s2 := Next(s1, Read(c));
    assert s2.workers == map[c := Worker([], [t], Idle)];
    assert [t][1..] == [] && [] + [t] == [t];
  }

  lemma FirstReader() returns (evs: seq<Event>)
    ensures Paused(Exec(Init, evs), 0)
  {
    var c, job := Name(0), Job("t", "p");
    evs := [Enqueue(job), Read(c)] + [Start(c)];
    ExecThenTwo(Init, Enqueue(job), Read(c), [Start(c)]);
    ExecOne(Next(Next(Init, Enqueue(job)), Read(c)), Start(c));
    ReaderStarts(job, c);
    OneCall(Ticket(0, 1));
    AllOthersFresh(Exec(Init, evs));
  }

  lemma OneCall(t: Ticket)
    ensures CallsOn([t], t.id) == 1
  {
    assert [t][1..] == [];
  }

  lemma AllOthersFresh(s: System)
    requires s.workers.Keys == {Name(0)}
    ensures forall i: nat :: 0 < i ==> At(s, Name(i)) == Fresh
  {
    forall i: nat | 0 < i ensures At(s, Name(i)) == Fresh {
      assert |Name(i)| != |Name(0)|;
    }
  }

  lemma OneMoreClaim(s: System, k: nat) returns (wait: nat)
    requires Paused(s, k)
    ensures Paused(Next(Next(s, Tick(wait)), AutoClaim(Name(k + 1))), k + 1)
  {
    wait := MIN_IDLE_MS + (if s.redis.pel[0].touched > s.now then s.redis.pel[0].touched - s.now else 0);
    var s1 := Next(s, Tick(wait));
    assert forall i: nat :: At(s1, Name(i)) == At(s, Name(i));
    assert Stale(s1.redis, s1.now, 0);
    assert StaleIds(s1.redis, s1.now, 1, CLAIM_COUNT - 1, LOOKS - 1) == [];
    assert ClaimIds(s1.redis, s1.now) == [0];
    assert Claimed(s1.redis, s1.now) == [Ticket(0, k + 2)];
    var s2 := Next(s1, AutoClaim(Name(k + 1)));
    assert s2.workers == s1.workers[Name(k + 1) := Worker([Ticket(0, k + 2)], [], Idle)];
    forall i: nat | i != k + 1 ensures At(s2, Name(i)) == At(s1, Name(i)) {
      assert |Name(i)| != |Name(k + 1)|;
    }
  }

  lemma {:induction false} PauseMany(k: nat) returns (evs: seq<Event>)
    ensures Paused(Exec(Init, evs), k)
  {
    if k == 0 {
      evs := FirstReader();
    } else {
      var before := PauseMany(k - 1);
      var wait := OneMoreClaim(Exec(Init, before), k - 1);
      evs := before + [Tick(wait), AutoClaim(Name(k))];
      ExecAppends(Init, before, [Tick(wait), AutoClaim(Name(k))]);
      ExecTwo(Exec(Init, before), Tick(wait), AutoClaim(Name(k)));
    }
  }

  lemma OneMoreLate(s: System, k: nat, m: nat)
    requires m < k && Late(s, k, m)
    ensures Late(Next(Next(s, Lookup(Name(m + 1))), Start(Name(m + 1))), k, m + 1)
  {
    var c := Name(m + 1);
    var s' := Next(Next(s, Lookup(c)), Start(c));
    CallsOnAppend(s.hist.handed, Ticket(0, m + 2), 0);
    forall i: nat | i != m + 1 ensures At(s', Name(i)) == At(s, Name(i)) {
      assert |Name(i)| != |c|;
    }
  }

  /** However many times: for every k some run calls `process` k + 1 times on entry 0. */
  lemma {:induction false} LateLookupsUnbounded(k: nat) returns (evs: seq<Event>)
    ensures CallsOn(Exec(Init, evs).hist.handed, 0) == k + 1
  {
    var before := PauseMany(k);
    var done := [Return(Name(0)), AckDone(Name(0))];
    evs := before + done;
    ExecAppends(Init, before, done);
    ExecTwo(Exec(Init, before), Return(Name(0)), AckDone(Name(0)));
    for m := 0 to k
      invariant Late(Exec(Init, evs), k, m)
    {
      var s, c := Exec(Init, evs), Name(m + 1);
      OneMoreLate(s, k, m);
      ExecAppends(Init, evs, [Lookup(c), Start(c)]);
      ExecTwo(s, Lookup(c), Start(c));
      evs := evs + [Lookup(c), Start(c)];
    }
  }
}
