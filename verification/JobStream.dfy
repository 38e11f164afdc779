/**
 The audit job stream as Redis keeps it: a stream of entries, one consumer group
 with a cursor and a pending-entries list, and the dead-letter stream.  Stream
 entries are never trimmed, so an entry's id is its position.  Every function
 here is one atomic Redis command (or one `reclaim_stale` pass made of several).
 */
module JobStream {
  type EntryId = nat
  type Consumer = string

  datatype Job = Job(taskId: string, payload: string)

  /** One record of the pending-entries list. */
  datatype Pending = Pending(consumer: Consumer, deliveries: nat, touched: int)

  /** A delivery of an entry: its `number` is `times_delivered` at that moment. */
  datatype Ticket = Ticket(id: EntryId, number: nat)

  datatype Redis = Redis(stream: seq<Job>, cursor: nat, pel: map<EntryId, Pending>, dlq: seq<(EntryId, Job)>)

  const MAX_DELIVERIES := 3
  const MIN_IDLE_MS := 120_000
  const CLAIM_COUNT := 10
  /** XAUTOCLAIM examines ten pending entries for each it may claim. */
  const LOOKS := 10 * CLAIM_COUNT

  /** Pending ids are delivered ids, and the dead-letter stream holds copies of stream entries. */
  ghost predicate WellFormed(r: Redis) {
    && r.cursor <= |r.stream|
    && (forall e :: e in r.pel ==> e < r.cursor && 1 <= r.pel[e].deliveries)
    && (forall i :: 0 <= i < |r.dlq| ==> r.dlq[i].0 < r.cursor && r.dlq[i].1 == r.stream[r.dlq[i].0])
  }

  predicate Stale(r: Redis, now: int, e: EntryId) {
    e in r.pel && now - r.pel[e].touched >= MIN_IDLE_MS
  }

  /** The ids XAUTOCLAIM selects: scanning the pending list up from `from`, the first `count` stale
      ones among the first `looks` entries. */
  function StaleIds(r: Redis, now: int, from: nat, count: nat, looks: nat): seq<EntryId>
    decreases r.cursor - from
  {
    if from >= r.cursor || count == 0 || looks == 0 then []
    else if from !in r.pel then StaleIds(r, now, from + 1, count, looks)
    else if Stale(r, now, from) then [from] + StaleIds(r, now, from + 1, count - 1, looks - 1)
    else StaleIds(r, now, from + 1, count, looks - 1)
  }

  /** The ids one call of `reclaim_stale` claims: it starts from the beginning every time. */
  function ClaimIds(r: Redis, now: int): seq<EntryId> {
    StaleIds(r, now, 0, CLAIM_COUNT, LOOKS)
  }

  /** How many entries with ids from `from` up to `to` are pending. */
  function PendingIn(r: Redis, from: nat, to: nat): nat
    decreases to - from
  {
    if from >= to then 0 else PendingIn(r, from + 1, to) + (if from in r.pel then 1 else 0)
  }

  /** The selection is in id order and all stale; a stale entry is passed over only once the
      selection is full of lower ids, or `looks` pending entries come before it. */
  lemma {:induction false} StaleIdsSelected(r: Redis, now: int, from: nat, count: nat, looks: nat)
    ensures var ids := StaleIds(r, now, from, count, looks);
            && |ids| <= count
            && (forall i :: 0 <= i < |ids| ==> from <= ids[i] < r.cursor && Stale(r, now, ids[i]))
            && (forall i, j :: 0 <= i < j < |ids| ==> ids[i] < ids[j])
            && (forall e :: from <= e < r.cursor && Stale(r, now, e) && e !in ids ==>
                  (|ids| == count && forall i :: 0 <= i < |ids| ==> ids[i] < e) || PendingIn(r, from, e) >= looks)
    decreases r.cursor - from
  {
    if from < r.cursor && count > 0 && looks > 0 {
      StaleIdsSelected(r, now, from + 1, if Stale(r, now, from) then count - 1 else count,
                       if from in r.pel then looks - 1 else looks);
    }
  }

  /** When everything pending is stale, an entry is passed over only once the selection is full. */
  lemma {:induction false} AllStaleTaken(r: Redis, now: int, from: nat, count: nat, looks: nat)
    requires (forall e :: e in r.pel ==> Stale(r, now, e)) && count <= looks
    ensures var ids := StaleIds(r, now, from, count, looks);
            |ids| < count ==> forall e :: from <= e < r.cursor && e in r.pel ==> e in ids
    decreases r.cursor - from
  {
    if from < r.cursor && count > 0 {
      var stale := Stale(r, now, from);
      AllStaleTaken(r, now, from + 1, if stale then count - 1 else count, if stale then looks - 1 else looks);
    }
  }

  /** The deliveries a claim of `ids` makes. */
  function Tickets(r: Redis, ids: seq<EntryId>): seq<Ticket> {
    seq(|ids|, i requires 0 <= i < |ids| =>
      Ticket(ids[i], (if ids[i] in r.pel then r.pel[ids[i]].deliveries else 0) + 1))
  }

  function Add(r: Redis, job: Job): Redis {
    r.(stream := r.stream + [job])
  }

  /** XREADGROUP with id `>` and count 1: the entry at the cursor, if there is one. */
  function ReadNext(r: Redis, c: Consumer, now: int): Redis {
    if r.cursor < |r.stream|
    then r.(cursor := r.cursor + 1, pel := r.pel[r.cursor := Pending(c, 1, now)])
    else r
  }

  /** The pending list after XAUTOCLAIM moved `ids` to `c`. */
  function Bumped(pel: map<EntryId, Pending>, ids: seq<EntryId>, c: Consumer, now: int): map<EntryId, Pending> {
    map e | e in pel :: if e in ids then Pending(c, pel[e].deliveries + 1, now) else pel[e]
  }

  function Claim(r: Redis, c: Consumer, now: int): Redis {
    r.(pel := Bumped(r.pel, ClaimIds(r, now), c, now))
  }

  function Claimed(r: Redis, now: int): seq<Ticket> {
    Tickets(r, ClaimIds(r, now))
  }

  /** The delivery count `reclaim_stale` acts on: a missing pending record reads as 1. */
  function Deliveries(r: Redis, e: EntryId): nat {
    if e in r.pel then r.pel[e].deliveries else 1
  }

  function DeadLetter(r: Redis, e: EntryId): Redis {
    if e < |r.stream| then r.(dlq := r.dlq + [(e, r.stream[e])]) else r
  }

  function Ack(r: Redis, e: EntryId): Redis {
    r.(pel := r.pel - {e})
  }

  // ---------- one uninterrupted reclaim pass, in closed form ----------

  function LiveOf(ts: seq<Ticket>): seq<Ticket> {
    if ts == [] then []
    else if ts[0].number <= MAX_DELIVERIES then [ts[0]] + LiveOf(ts[1..])
    else LiveOf(ts[1..])
  }

  function PoisonOf(ts: seq<Ticket>): (poison: seq<Ticket>)
    ensures forall t :: t in poison <==> t in ts && t.number > MAX_DELIVERIES
  {
    if ts == [] then []
    else if ts[0].number > MAX_DELIVERIES then [ts[0]] + PoisonOf(ts[1..])
    else PoisonOf(ts[1..])
  }

  function Letters(stream: seq<Job>, ts: seq<Ticket>): seq<(EntryId, Job)> {
    if ts == [] then []
    else (if ts[0].id < |stream| then [(ts[0].id, stream[ts[0].id])] else []) + Letters(stream, ts[1..])
  }

  function Ids(ts: seq<Ticket>): set<EntryId> {
    set t | t in ts :: t.id
  }

  /** The poison tickets are copied to the dead-letter stream in claim order and acked. */
  ghost function Settle(r: Redis, poison: seq<Ticket>): Redis {
    r.(pel := r.pel - Ids(poison), dlq := r.dlq + Letters(r.stream, poison))
  }

  /** What looking up the tickets `ts` makes of the state after the claim. */
  ghost function AfterLookups(r: Redis, ts: seq<Ticket>): Redis {
    Settle(r, PoisonOf(ts))
  }

  /** A whole `reclaim_stale` pass. */
  ghost function AfterPass(r: Redis, c: Consumer, now: int): Redis {
    AfterLookups(Claim(r, c, now), Claimed(r, now))
  }

  // ---------- the queue module's own operations ----------

  class Broker {
    var stream: seq<Job>
    var cursor: nat
    var pel: map<EntryId, Pending>
    var dlq: seq<(EntryId, Job)>

    ghost function Abs(): Redis
      reads this
    {
      Redis(stream, cursor, pel, dlq)
    }

    constructor ()
      ensures Abs() == Redis([], 0, map[], [])
    {
      stream, cursor, pel, dlq := [], 0, map[], [];
    }

    method EnqueueAudit(job: Job) returns (id: EntryId)
      modifies this
      ensures Abs() == Add(old(Abs()), job)
      ensures id == |old(stream)| && stream[id] == job
    {
      id := |stream|;
      stream := stream + [job];
    }

    method ReadJobs(c: Consumer, now: int) returns (entries: seq<(EntryId, Job)>)
      requires WellFormed(Abs())
      modifies this
      ensures WellFormed(Abs()) && Abs() == ReadNext(old(Abs()), c, now)
      ensures entries == if old(cursor) < |old(stream)| then [(old(cursor), old(stream)[old(cursor)])] else []
    {
      if cursor == |stream| {
        return [];
      }
      entries := [(cursor, stream[cursor])];
      pel := pel[cursor := Pending(c, 1, now)];
      cursor := cursor + 1;
    }

    method AckEntry(id: EntryId)
      modifies this
      ensures Abs() == Ack(old(Abs()), id)
    {
      pel := pel - {id};
    }

    /** XAUTOCLAIM: the stale entries move to `c`, each with its count raised. */
    method AutoClaim(c: Consumer, now: int) returns (claimed: seq<Ticket>)
      modifies this
      ensures Abs() == Claim(old(Abs()), c, now) && claimed == Claimed(old(Abs()), now)
    {
      var ids := ClaimIds(Redis(stream, cursor, pel, dlq), now);
      claimed := Tickets(Redis(stream, cursor, pel, dlq), ids);
      pel := Bumped(pel, ids, c, now);
    }

    /** XADD to the dead-letter stream. */
    method AddDeadLetter(id: EntryId)
      modifies this
      ensures Abs() == DeadLetter(old(Abs()), id)
    {
      if id < |stream| {
        dlq := dlq + [(id, stream[id])];
      }
    }

    /** The claim, then the loop over what was claimed: look each entry up, route
        it to the dead-letter stream and ack it, or append it to `live`. */
    method ReclaimStale(c: Consumer, now: int) returns (live: seq<Ticket>)
      requires WellFormed(Abs())
      modifies this
      ensures WellFormed(Abs()) && Abs() == AfterPass(old(Abs()), c, now)
      ensures live == LiveOf(Claimed(old(Abs()), now))
    {
      ClaimIsFresh(Abs(), c, now);
      var claimed := AutoClaim(c, now);
      ghost var r1 := Abs();
      live := [];
      for i := 0 to |claimed|
        invariant live == LiveOf(claimed[..i])
        invariant Abs() == AfterLookups(r1, claimed[..i])
      {
        LookupStep(r1, claimed, i);
        var id := claimed[i].id;
        var deliveries := if id in pel then pel[id].deliveries else 1;
        if deliveries > MAX_DELIVERIES {
          AddDeadLetter(id);
          AckEntry(id);
        } else {
          live := live + [claimed[i]];
        }
      }
      assert claimed[..|claimed|] == claimed;
      SettlingKeepsWellFormed(r1, claimed);
    }
  }

  /** The tickets of one claim: increasing ids, each pending with the ticket's own number. */
  ghost predicate FreshClaim(r: Redis, ts: seq<Ticket>) {
    && (forall i :: 0 <= i < |ts| ==> ts[i].id in r.pel && r.pel[ts[i].id].deliveries == ts[i].number)
    && (forall i, j :: 0 <= i < j < |ts| ==> ts[i].id < ts[j].id)
    && (forall i :: 0 <= i < |ts| ==> ts[i].id < |r.stream|)
  }

  lemma ClaimIsFresh(r: Redis, c: Consumer, now: int)
    requires WellFormed(r)
    ensures WellFormed(Claim(r, c, now)) && FreshClaim(Claim(r, c, now), Claimed(r, now))
    ensures forall t :: t in Claimed(r, now) ==> t.id in r.pel && t.number == r.pel[t.id].deliveries + 1
  {
    StaleIdsSelected(r, now, 0, CLAIM_COUNT, LOOKS);
    var ids := ClaimIds(r, now);
    forall i | 0 <= i < |ids|
      ensures ids[i] in r.pel && Claim(r, c, now).pel[ids[i]].deliveries == Claimed(r, now)[i].number
    {
      assert Stale(r, now, ids[i]);
    }
  }

  lemma SettlingKeepsWellFormed(r: Redis, ts: seq<Ticket>)
    requires WellFormed(r) && FreshClaim(r, ts)
    ensures WellFormed(AfterLookups(r, ts))
  {
    forall t | t in PoisonOf(ts) ensures t.id < r.cursor {
      assert t in ts;
    }
    LettersAreCopies(r, PoisonOf(ts));
  }

  lemma {:induction false} LettersAreCopies(r: Redis, ts: seq<Ticket>)
    requires r.cursor <= |r.stream| && forall t :: t in ts ==> t.id < r.cursor
    ensures forall l :: l in Letters(r.stream, ts) ==> l.0 < r.cursor && l.1 == r.stream[l.0]
  {
    if ts != [] {
      LettersAreCopies(r, ts[1..]);
    }
  }

  /** One turn of the reclaim loop extends the closed form by one ticket. */
  lemma LookupStep(r: Redis, ts: seq<Ticket>, i: nat)
    requires i < |ts| && FreshClaim(r, ts)
    ensures var a := AfterLookups(r, ts[..i]); var t := ts[i];
            && t.id in a.pel && a.pel[t.id].deliveries == t.number
            && LiveOf(ts[..i + 1]) == LiveOf(ts[..i]) + (if t.number <= MAX_DELIVERIES then [t] else [])
            && AfterLookups(r, ts[..i + 1])
               == if t.number > MAX_DELIVERIES then Ack(DeadLetter(a, t.id), t.id) else a
  {
    SplitLast(ts, i);
    NotYetPoison(ts, i);
    if ts[i].number > MAX_DELIVERIES {
      PoisonStep(r, PoisonOf(ts[..i]), ts[i]);
    } else {
      assert PoisonOf(ts[..i + 1]) == PoisonOf(ts[..i]);
    }
  }

  lemma PoisonStep(r: Redis, poison: seq<Ticket>, t: Ticket)
    requires t.id < |r.stream|
    ensures Settle(r, poison + [t]) == Ack(DeadLetter(Settle(r, poison), t.id), t.id)
  {
    OneMorePoison(r, poison, t);
  }

  lemma NotYetPoison(ts: seq<Ticket>, i: nat)
    requires i < |ts| && forall j, k :: 0 <= j < k < |ts| ==> ts[j].id < ts[k].id
    ensures ts[i].id !in Ids(PoisonOf(ts[..i]))
  {
  }

  lemma OneMorePoison(r: Redis, poison: seq<Ticket>, t: Ticket)
    requires t.id < |r.stream|
    ensures Letters(r.stream, poison + [t]) == Letters(r.stream, poison) + [(t.id, r.stream[t.id])]
    ensures r.pel - Ids(poison + [t]) == r.pel - Ids(poison) - {t.id}
  {
    assert Ids(poison + [t]) == Ids(poison) + {t.id};
    LettersAppend(r.stream, poison, t);
  }

  lemma {:induction false} LettersAppend(stream: seq<Job>, ts: seq<Ticket>, t: Ticket)
    requires t.id < |stream|
    ensures Letters(stream, ts + [t]) == Letters(stream, ts) + [(t.id, stream[t.id])]
  {
    if ts == [] {
      assert ts + [t] == [t] && Letters(stream, [t][1..]) == [];
    } else {
      assert (ts + [t])[1..] == ts[1..] + [t];
      LettersAppend(stream, ts[1..], t);
    }
  }

  lemma {:induction false} SplitLast(ts: seq<Ticket>, i: nat)
    requires i < |ts|
    ensures LiveOf(ts[..i + 1]) == LiveOf(ts[..i]) + (if ts[i].number <= MAX_DELIVERIES then [ts[i]] else [])
    ensures PoisonOf(ts[..i + 1]) == PoisonOf(ts[..i]) + (if ts[i].number > MAX_DELIVERIES then [ts[i]] else [])
  {
    if i > 0 {
      SplitLast(ts[1..], i - 1);
      assert ts[..i + 1][1..] == ts[1..][..i] && ts[..i][1..] == ts[1..][..i - 1];
    }
  }
}
