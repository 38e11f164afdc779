/**
 How audits come to be queued: the scheduler's polls and owners' submissions, over the
 tables both use.  A poll and a submission are each one transaction; a flushed row is
 visible to the rest of its own transaction.  Times are in seconds.
 */
module Scheduler {
  import opened Arithmetic
  import opened AuditStatus
  import opened Common

  type DomainId = nat
  type ScheduleId = nat
  type TaskId = nat

  datatype Schedule = Schedule(domain: DomainId, cadence: string, enabled: bool, nextRunAt: int, lastRunAt: Option<int>)

  datatype Audit = Audit(domain: DomainId, status: Status)

  /** The tables, and the stream of task ids handed to the workers.  A task id is its audit's place. */
  datatype Db =
    Db(schedules: map<ScheduleId, Schedule>, verified: set<DomainId>, audits: seq<Audit>, queue: seq<TaskId>)

  const DAY := 86_400

  function Cadence(name: string): (seconds: int)
    ensures seconds >= DAY
  {
    if name == "daily" then DAY else if name == "monthly" then 30 * DAY else 7 * DAY
  }

  function NextRun(cadence: string, from: int): int {
    from + Cadence(cadence)
  }

  predicate Active(a: Audit) {
    a.status.Queued? || a.status.Crawling? || a.status.Analyzing? || a.status.Scored?
  }

  /** The running audit of a domain that a query finds. */
  function Running(audits: seq<Audit>, d: DomainId): (r: Option<TaskId>)
    ensures r.Some? ==> r.value < |audits| && audits[r.value].domain == d && Active(audits[r.value])
    ensures r.None? ==> forall i :: 0 <= i < |audits| && audits[i].domain == d ==> !Active(audits[i])
  {
    if audits == [] then None
    else if audits[|audits| - 1].domain == d && Active(audits[|audits| - 1]) then Some(|audits| - 1)
    else Running(audits[..|audits| - 1], d)
  }

  predicate Due(s: Schedule, now: int) {
    s.enabled && s.nextRunAt <= now
  }

  /** Queue one more audit of a domain. */
  function Queue(db: Db, d: DomainId): Db {
    db.(audits := db.audits + [Audit(d, Queued)], queue := db.queue + [|db.audits|])
  }

  predicate Eligible(db: Db, d: DomainId) {
    d in db.verified && Running(db.audits, d).None?
  }

  /** The scheduler's turn for one due schedule. */
  function Visit(db: Db, now: int, id: ScheduleId): Db {
    if id !in db.schedules then db
    else
      var s := db.schedules[id];
      var next := NextRun(s.cadence, now);
      if !Eligible(db, s.domain) then db.(schedules := db.schedules[id := s.(nextRunAt := next)])
      else Queue(db, s.domain).(schedules := db.schedules[id := s.(nextRunAt := next, lastRunAt := Some(now))])
  }

  /** The due schedules, in whatever order the query lists them. */
  ghost predicate ListsDue(db: Db, now: int, order: seq<ScheduleId>) {
    NoDup(order) && forall id :: id in order <==> id in db.schedules && Due(db.schedules[id], now)
  }

  function Pass(db: Db, now: int, order: seq<ScheduleId>): Db {
    if order == [] then db else Visit(Pass(db, now, order[..|order| - 1]), now, order[|order| - 1])
  }

  datatype Answer = Refused | AlreadyRunning(task: TaskId) | Accepted(task: TaskId)

  /** `allowed`: the caller's organisation owns the domain and the page quota permits the depth. */
  function Submit(db: Db, d: DomainId, allowed: bool): (Db, Answer) {
    if !allowed || d !in db.verified then (db, Refused)
    else
      match Running(db.audits, d)
      case Some(t) => (db, AlreadyRunning(t))
      case None => (Queue(db, d), Accepted(|db.audits|))
  }

  class AuditDesk {
    var schedules: map<ScheduleId, Schedule>
    var verified: set<DomainId>
    var audits: seq<Audit>
    var queue: seq<TaskId>

    ghost function View(): Db
      reads this
    {
      Db(schedules, verified, audits, queue)
    }

    constructor (schedules: map<ScheduleId, Schedule>, verified: set<DomainId>)
      ensures View() == Db(schedules, verified, [], [])
    {
      this.schedules, this.verified, audits, queue := schedules, verified, [], [];
    }

    method SubmitAudit(d: DomainId, allowed: bool) returns (answer: Answer)
      modifies this
      ensures (View(), answer) == Submit(old(View()), d, allowed)
    {
      if !allowed || d !in verified {
        return Refused;
      }
      var running := Running(audits, d);
      if running.Some? {
        return AlreadyRunning(running.value);
      }
      answer := Accepted(|audits|);
      audits := audits + [Audit(d, Queued)];
      queue := queue + [answer.task];
    }

    method EnqueueDue(now: int, due: seq<ScheduleId>) returns (tasks: seq<TaskId>)
      requires ListsDue(View(), now, due)
      modifies this
      ensures View() == Pass(old(View()), now, due)
      ensures queue == old(queue) + tasks
    {
      tasks := [];
      for i := 0 to |due|
        invariant View() == Pass(old(View()), now, due[..i]) && queue == old(queue) + tasks
        invariant forall id :: id in old(schedules) ==> id in schedules
      {
        assert due[..i + 1][..i] == due[..i];
        assert due[i] in due;
        var s := schedules[due[i]];
        if s.domain !in verified || Running(audits, s.domain).Some? {
          schedules := schedules[due[i] := s.(nextRunAt := NextRun(s.cadence, now))];
        } else {
          var task := |audits|;
          audits := audits + [Audit(s.domain, Queued)];
          queue := queue + [task];
          schedules := schedules[due[i] := s.(nextRunAt := NextRun(s.cadence, now), lastRunAt := Some(now))];
          tasks := tasks + [task];
        }
      }
      assert due[..|due|] == due;
    }
  }

  // ---------- one pass, whatever its order ----------

  /** The schedules in `order` move one cadence past `now`; the others stay as they are. */
  ghost predicate SchedulesMoved(db: Db, now: int, order: seq<ScheduleId>, after: Db) {
    && after.verified == db.verified && after.schedules.Keys == db.schedules.Keys
    && (forall id :: id in db.schedules && id !in order ==> after.schedules[id] == db.schedules[id])
    && (forall id :: id in db.schedules && id in order ==>
          var (s, s') := (db.schedules[id], after.schedules[id]);
          s'.(lastRunAt := s.lastRunAt) == s.(nextRunAt := NextRun(s.cadence, now)))
  }

  lemma {:induction false} PassMoves(db: Db, now: int, order: seq<ScheduleId>)
    requires NoDup(order) && forall id :: id in order ==> id in db.schedules
    ensures SchedulesMoved(db, now, order, Pass(db, now, order))
  {
    if order != [] {
      var front, last := order[..|order| - 1], order[|order| - 1];
      assert last in order && last !in front && forall id :: id in order <==> id in front || id == last;
      PassMoves(db, now, front);
    }
  }

  /** The audits a domain has from place `from` on. */
  function AuditsOf(audits: seq<Audit>, from: nat, d: DomainId): nat
    requires from <= |audits|
  {
    if |audits| == from then 0
    else AuditsOf(audits[..|audits| - 1], from, d) + (if audits[|audits| - 1].domain == d then 1 else 0)
  }

  lemma {:induction false} RunningAfter(audits: seq<Audit>, from: nat, d: DomainId)
    requires from <= |audits| && forall i :: from <= i < |audits| ==> audits[i].status == Queued
    ensures Running(audits, d).None? <==> Running(audits[..from], d).None? && AuditsOf(audits, from, d) == 0
  {
    if |audits| == from {
      assert audits[..from] == audits;
    } else {
      var front := audits[..|audits| - 1];
      assert front[..from] == audits[..from];
      RunningAfter(front, from, d);
    }
  }

  ghost predicate Wanted(db: Db, order: seq<ScheduleId>, d: DomainId) {
    exists id :: id in order && id in db.schedules && db.schedules[id].domain == d
  }

  /** The new audits come after the old, are queued, and have their task ids on the stream once each. */
  predicate AuditsAppended(db: Db, after: Db) {
    var n := |db.audits|;
    && n <= |after.audits| && after.audits[..n] == db.audits
    && (forall i :: n <= i < |after.audits| ==> after.audits[i].status == Queued)
    && |after.queue| == |db.queue| + |after.audits| - n && after.queue[..|db.queue|] == db.queue
    && (forall j :: |db.queue| <= j < |after.queue| ==> after.queue[j] == n + j - |db.queue|)
  }

  /** And a domain has one new audit if it was eligible and some schedule of it had its turn, and none
      otherwise. */
  ghost predicate AuditsAdded(db: Db, order: seq<ScheduleId>, after: Db) {
    && AuditsAppended(db, after)
    && forall d :: AuditsOf(after.audits, |db.audits|, d) == if Eligible(db, d) && Wanted(db, order, d) then 1 else 0
  }

  lemma VisitAppends(db: Db, now: int, id: ScheduleId, mid: Db)
    requires AuditsAppended(db, mid)
    ensures AuditsAppended(db, Visit(mid, now, id))
  {
    var after := Visit(mid, now, id);
    assert after.audits[..|db.audits|] == mid.audits[..|db.audits|];
    assert after.queue[..|db.queue|] == mid.queue[..|db.queue|];
  }

  lemma VisitAdds(db: Db, now: int, front: seq<ScheduleId>, id: ScheduleId, mid: Db)
    requires id in db.schedules && id !in front
    requires SchedulesMoved(db, now, front, mid) && AuditsAdded(db, front, mid)
    ensures AuditsAdded(db, front + [id], Visit(mid, now, id))
  {
    var after, n, e := Visit(mid, now, id), |db.audits|, db.schedules[id].domain;
    VisitAppends(db, now, id, mid);
    RunningAfter(mid.audits, n, e);
    assert after.audits != mid.audits ==> after.audits[..|after.audits| - 1] == mid.audits;
    forall d ensures AuditsOf(after.audits, n, d) == if Eligible(db, d) && Wanted(db, front + [id], d) then 1 else 0 {
      WantedMore(db, front, id, d);
    }
  }

  lemma WantedMore(db: Db, front: seq<ScheduleId>, id: ScheduleId, d: DomainId)
    requires id in db.schedules
    ensures Wanted(db, front + [id], d) <==> Wanted(db, front, d) || d == db.schedules[id].domain
  {
    if Wanted(db, front, d) {
      var x :| x in front && x in db.schedules && db.schedules[x].domain == d;
      assert x in front + [id];
    }
    assert id in front + [id];
  }

  lemma {:induction false} PassAdds(db: Db, now: int, order: seq<ScheduleId>)
    requires NoDup(order) && forall id :: id in order ==> id in db.schedules
    ensures AuditsAdded(db, order, Pass(db, now, order))
  {
    if order == [] {
      assert db.audits[..|db.audits|] == db.audits && db.queue[..|db.queue|] == db.queue;
    } else {
      var front, last := order[..|order| - 1], order[|order| - 1];
      assert last in order && last !in front && front + [last] == order;
      assert forall id :: id in front ==> id in order;
      PassAdds(db, now, front);
      PassMoves(db, now, front);
      VisitAdds(db, now, front, last, Pass(db, now, front));
    }
  }

  /** Some enabled schedule whose time has come names the domain. */
  ghost predicate DueFor(db: Db, now: int, d: DomainId) {
    exists id :: id in db.schedules && db.schedules[id].enabled && db.schedules[id].nextRunAt <= now
                 && db.schedules[id].domain == d
  }

  /** Every audit of the domain is over. */
  predicate Idle(audits: seq<Audit>, d: DomainId) {
    forall i :: 0 <= i < |audits| && audits[i].domain == d
                ==> audits[i].status in {Completed, Failed, InsufficientEvidence}
  }

  lemma RunningIsNotIdle(audits: seq<Audit>, d: DomainId)
    ensures Running(audits, d).None? <==> Idle(audits, d)
  {
    if Running(audits, d).Some? {
      assert Active(audits[Running(audits, d).value]);
    } else {
      assert forall i :: 0 <= i < |audits| && audits[i].domain == d ==> !Active(audits[i]);
    }
  }

  /** A poll, in whatever order the due schedules come: every one of them leaves due a day, thirty days
      or a week from now, no other schedule changes, and every verified domain without a running audit that
      a due schedule names gets exactly one new audit, every other domain none. */
  lemma PollOutcome(db: Db, now: int, order: seq<ScheduleId>)
    requires ListsDue(db, now, order)
    ensures var after := Pass(db, now, order);
            && after.schedules.Keys == db.schedules.Keys
            && (forall id :: id in db.schedules ==>
                  var (s, s') := (db.schedules[id], after.schedules[id]);
                  if s.enabled && s.nextRunAt <= now then
                    s'.nextRunAt == now + (if s.cadence == "daily" then 86_400
                                           else if s.cadence == "monthly" then 2_592_000 else 604_800)
                  else s' == s)
            && AuditsAppended(db, after)
            && forall d :: AuditsOf(after.audits, |db.audits|, d)
                           == if d in db.verified && Idle(db.audits, d) && DueFor(db, now, d) then 1 else 0
  {
    PassMoves(db, now, order);
    PassAdds(db, now, order);
    var after := Pass(db, now, order);
    forall d
      ensures AuditsOf(after.audits, |db.audits|, d)
              == if d in db.verified && Idle(db.audits, d) && DueFor(db, now, d) then 1 else 0
    {
      RunningIsNotIdle(db.audits, d);
      DueIsWanted(db, now, order, d);
    }
  }

  lemma DueIsWanted(db: Db, now: int, order: seq<ScheduleId>, d: DomainId)
    requires ListsDue(db, now, order)
    ensures Wanted(db, order, d) <==> DueFor(db, now, d)
  {
    if Wanted(db, order, d) {
      var x :| x in order && x in db.schedules && db.schedules[x].domain == d;
      assert Due(db.schedules[x], now);
    }
    if x :| x in db.schedules && db.schedules[x].domain == d
            && db.schedules[x].enabled && db.schedules[x].nextRunAt <= now {
      assert x in order;
    }
  }

  lemma HasElement<T>(xs: seq<T>)
    requires xs != []
    ensures exists x :: x in xs
  {
    assert xs[0] in xs;
  }

  /** A second poll less than a day later takes up none of the schedules the first one did, and one
      at the same instant does nothing at all. */
  lemma SecondPollIdle(db: Db, now: int, order: seq<ScheduleId>, later: int, again: seq<ScheduleId>)
    requires ListsDue(db, now, order) && ListsDue(Pass(db, now, order), later, again) && now <= later < now + DAY
    ensures forall id :: id in again ==> id !in order
    ensures later == now ==> again == [] && Pass(Pass(db, now, order), later, again) == Pass(db, now, order)
  {
    PollOutcome(db, now, order);
    if later == now && again != [] {
      HasElement(again);
      assert false;
    }
  }

  /** Schedule `id` gets an audit in this pass. */
  predicate Made(db: Db, now: int, order: seq<ScheduleId>, id: ScheduleId) {
    order != [] && (
      Made(db, now, order[..|order| - 1], id)
      || (order[|order| - 1] == id && id in db.schedules
          && Eligible(Pass(db, now, order[..|order| - 1]), db.schedules[id].domain)))
  }

  lemma {:induction false} MadeListed(db: Db, now: int, order: seq<ScheduleId>, id: ScheduleId)
    requires Made(db, now, order, id)
    ensures id in order && id in db.schedules
  {
    if Made(db, now, order[..|order| - 1], id) {
      MadeListed(db, now, order[..|order| - 1], id);
    }
  }

  lemma EligibleAfter(db: Db, now: int, order: seq<ScheduleId>, d: DomainId)
    requires NoDup(order) && forall id :: id in order ==> id in db.schedules
    ensures Eligible(Pass(db, now, order), d) <==> Eligible(db, d) && !Wanted(db, order, d)
  {
    PassMoves(db, now, order);
    PassAdds(db, now, order);
    RunningAfter(Pass(db, now, order).audits, |db.audits|, d);
  }

  /** Of the schedules that name one domain, a pass gives the audit to the first in its order, if the
      domain was eligible. */
  lemma {:induction false} FirstGetsTheAudit(db: Db, now: int, order: seq<ScheduleId>, k: nat)
    requires NoDup(order) && (forall id :: id in order ==> id in db.schedules) && k < |order|
    ensures var d := db.schedules[order[k]].domain;
            Made(db, now, order, order[k]) <==> Eligible(db, d) && !Wanted(db, order[..k], d)
  {
    var front, last := order[..|order| - 1], order[|order| - 1];
    forall id | id in front ensures id in db.schedules { assert id in order; }
    if k < |front| {
      assert front[..k] == order[..k] && front[k] == order[k] && last != order[k];
      FirstGetsTheAudit(db, now, front, k);
    } else {
      EligibleAfter(db, now, front, db.schedules[last].domain);
      if Made(db, now, front, last) {
        MadeListed(db, now, front, last);
      }
    }
  }

  /** And `last_run_at` moves for those schedules and for no other. */
  lemma {:induction false} LastRunMoves(db: Db, now: int, order: seq<ScheduleId>, id: ScheduleId)
    requires NoDup(order) && id in db.schedules
    ensures var after := Pass(db, now, order).schedules;
            && id in after && after[id].domain == db.schedules[id].domain
            && after[id].lastRunAt == if Made(db, now, order, id) then Some(now) else db.schedules[id].lastRunAt
  {
    if order != [] {
      var front, last := order[..|order| - 1], order[|order| - 1];
      LastRunMoves(db, now, front, id);
      if Made(db, now, front, id) {
        MadeListed(db, now, front, id);
      }
    }
  }

  // ---------- whole runs ----------

  datatype Event =
    | AddSchedule(id: ScheduleId, domain: DomainId, cadence: string, at: int)
    | RemoveSchedule(id: ScheduleId)
    | SetVerified(domain: DomainId, verified: bool)
    | Poll(now: int, order: seq<ScheduleId>)
    | SubmitFor(domain: DomainId, allowed: bool)
    | Begins(task: TaskId)
    | Advances(task: TaskId, to: Status)

  /** A worker's `process` sets `crawling` whatever the row's status was; from there it only
      moves on. */
  predicate Onward(from: Status, to: Status) {
    match from
    case Crawling => to.Analyzing? || to.Failed?
    case Analyzing => to.Scored? || to.InsufficientEvidence? || to.Failed?
    case Scored => to.Completed? || to.Failed?
    case _ => false
  }

  function SetStatus(db: Db, t: TaskId, to: Status): Db {
    if t < |db.audits| then db.(audits := db.audits[t := db.audits[t].(status := to)]) else db
  }

  function Next(db: Db, ev: Event): Db {
    match ev
    case AddSchedule(id, d, c, at) =>
      if id in db.schedules then db else db.(schedules := db.schedules[id := Schedule(d, c, true, at, None)])
    case RemoveSchedule(id) => db.(schedules := db.schedules - {id})
    case SetVerified(d, v) => db.(verified := if v then db.verified + {d} else db.verified - {d})
    case Poll(now, order) => Pass(db, now, order)
    case SubmitFor(d, allowed) => Submit(db, d, allowed).0
    case Begins(t) => SetStatus(db, t, Crawling)
    case Advances(t, to) => if t < |db.audits| && Onward(db.audits[t].status, to) then SetStatus(db, t, to) else db
  }

  const Empty := Db(map[], {}, [], [])

  function Exec(evs: seq<Event>): Db {
    if evs == [] then Empty else Next(Exec(evs[..|evs| - 1]), evs[|evs| - 1])
  }

  /** The cadence schedule `id` was created with. */
  function Created(evs: seq<Event>, id: ScheduleId): Option<string> {
    if evs == [] then None
    else
      var before, ev := Created(evs[..|evs| - 1], id), evs[|evs| - 1];
      if ev.AddSchedule? && ev.id == id && before.None? then Some(ev.cadence) else before
  }

  /** Polls visit exactly the due schedules, and a new schedule gets an id never used before. */
  ghost predicate Genuine(evs: seq<Event>) {
    evs != [] ==>
      var front, ev := evs[..|evs| - 1], evs[|evs| - 1];
      && Genuine(front)
      && (ev.Poll? ==> ListsDue(Exec(front), ev.now, ev.order))
      && (ev.AddSchedule? ==> Created(front, ev.id).None?)
  }

  // ---------- one active audit per domain ----------

  ghost predicate OneActive(audits: seq<Audit>) {
    forall i, j :: 0 <= i < j < |audits| && Active(audits[i]) && Active(audits[j])
                   ==> audits[i].domain != audits[j].domain
  }

  lemma {:induction false} PassKeepsOneActive(db: Db, now: int, order: seq<ScheduleId>)
    requires OneActive(db.audits)
    ensures OneActive(Pass(db, now, order).audits)
  {
    if order != [] {
      PassKeepsOneActive(db, now, order[..|order| - 1]);
    }
  }

  /** No other audit of the task's domain is active. */
  ghost predicate AloneInDomain(audits: seq<Audit>, t: TaskId) {
    t < |audits| ==>
      forall i :: 0 <= i < |audits| && i != t && audits[i].domain == audits[t].domain ==> !Active(audits[i])
  }

  /** Taking a task up again keeps one active audit per domain exactly when no other audit of that
      domain is active. */
  lemma BeginKeepsOneActive(db: Db, t: TaskId)
    requires OneActive(db.audits) && t < |db.audits|
    ensures OneActive(SetStatus(db, t, Crawling).audits) <==> AloneInDomain(db.audits, t)
  {
    var audits := SetStatus(db, t, Crawling).audits;
    if i :| 0 <= i < |db.audits| && i != t && db.audits[i].domain == db.audits[t].domain && Active(db.audits[i]) {
      assert Active(audits[i]) && Active(audits[t]) && audits[i].domain == audits[t].domain;
    }
  }

  /** Every task a worker takes up is, at that moment, the only one of its domain that is active
      or about to be. */
  ghost predicate NoStaleBegin(evs: seq<Event>) {
    evs != [] ==>
      && NoStaleBegin(evs[..|evs| - 1])
      && var ev := evs[|evs| - 1]; ev.Begins? ==> AloneInDomain(Exec(evs[..|evs| - 1]).audits, ev.task)
  }

  /** One active audit per domain holds all along a run exactly when no task is taken up while
      another audit of its domain is active. */
  lemma {:induction false} OneActivePerDomain(evs: seq<Event>)
    ensures NoStaleBegin(evs) <==> forall k :: 0 <= k <= |evs| ==> OneActive(Exec(evs[..k]).audits)
  {
    if evs == [] {
      assert evs[..0] == evs;
    } else {
      var front, ev := evs[..|evs| - 1], evs[|evs| - 1];
      OneActivePerDomain(front);
      assert forall k :: 0 <= k <= |front| ==> front[..k] == evs[..k];
      assert evs[..|evs|] == evs && evs[..|front|] == front;
      if OneActive(Exec(front).audits) {
        OneActiveStep(Exec(front), ev);
      }
    }
  }

  lemma OneActiveStep(db: Db, ev: Event)
    requires OneActive(db.audits)
    ensures OneActive(Next(db, ev).audits)
            <==> (ev.Begins? ==> AloneInDomain(db.audits, ev.task))
  {
    match ev
    case Begins(t) => if t < |db.audits| { BeginKeepsOneActive(db, t); }
    case Poll(now, order) => PassKeepsOneActive(db, now, order);
    case _ =>
  }

  /** Workers move audits only forward: a task is taken up only while its audit is active. */
  ghost predicate Forward(evs: seq<Event>) {
    evs != [] ==>
      var front, ev := evs[..|evs| - 1], evs[|evs| - 1];
      && Forward(front)
      && (ev.Begins? && ev.task < |Exec(front).audits| ==> Active(Exec(front).audits[ev.task]))
  }

  /** Over every run of submissions, polls, schedule and verification changes and forward worker
      steps a domain has at most one active audit. */
  lemma {:induction false} ForwardRunsKeepOneActive(evs: seq<Event>)
    requires Forward(evs)
    ensures OneActive(Exec(evs).audits)
  {
    if evs != [] {
      ForwardRunsKeepOneActive(evs[..|evs| - 1]);
      OneActiveStep(Exec(evs[..|evs| - 1]), evs[|evs| - 1]);
    }
  }

  lemma TakenUp() returns (evs: seq<Event>)
    ensures Exec(evs) == Db(map[], {0}, [Audit(0, Crawling)], [0])
  {
    evs := ExecAfter([], SetVerified(0, true), SubmitFor(0, true), Begins(0));
  }

  lemma TakenUpAgain(db: Db)
    requires db == Db(map[], {0}, [Audit(0, Crawling)], [0])
    ensures Next(Next(Next(db, Advances(0, Failed)), SubmitFor(0, true)), Begins(0)).audits
            == [Audit(0, Crawling), Audit(0, Queued)]
  {
    assert Next(db, Advances(0, Failed)).audits == [Audit(0, Failed)];
  }

  /** A task taken up again after it failed, while its domain's next audit runs, makes two. */
  lemma RedeliveryMakesTwo() returns (evs: seq<Event>)
    ensures !OneActive(Exec(evs).audits)
  {
    var before := TakenUp();
    TakenUpAgain(Exec(before));
    evs := ExecAfter(before, Advances(0, Failed), SubmitFor(0, true), Begins(0));
    assert Active(Exec(evs).audits[0]) && Active(Exec(evs).audits[1]);
  }

  lemma ExecAfter(evs: seq<Event>, a: Event, b: Event, c: Event) returns (more: seq<Event>)
    ensures Exec(more) == Next(Next(Next(Exec(evs), a), b), c)
  {
    ExecMore(evs, a);
    ExecMore(evs + [a], b);
    ExecMore(evs + [a] + [b], c);
    more := evs + [a] + [b] + [c];
  }

  lemma ExecMore(evs: seq<Event>, ev: Event)
    ensures Exec(evs + [ev]) == Next(Exec(evs), ev)
  {
    assert (evs + [ev])[..|evs|] == evs;
  }

  /** Each answer to a submission, exactly, and that only an accepted one changes anything: a queued audit
      is added and its task put on the stream. */
  lemma SubmitAnswers(db: Db, d: DomainId, allowed: bool)
    ensures var (after, answer) := Submit(db, d, allowed);
            && (answer == Refused <==> !allowed || d !in db.verified)
            && (answer.AlreadyRunning? <==> allowed && d in db.verified && !Idle(db.audits, d))
            && (answer.AlreadyRunning? ==>
                  && answer.task < |db.audits| && db.audits[answer.task].domain == d
                  && db.audits[answer.task].status in {Queued, Crawling, Analyzing, Scored})
            && (answer.Accepted? <==> allowed && d in db.verified && Idle(db.audits, d))
            && after == (if answer.Accepted? then db.(audits := db.audits + [Audit(d, Queued)],
                                                      queue := db.queue + [|db.audits|]) else db)
            && (answer.Accepted? ==> answer.task == |db.audits|)
  {
    RunningIsNotIdle(db.audits, d);
  }

  /** A new schedule is due at once, and waits its cadence after each poll that finds it due. */
  lemma NewScheduleIsDue(db: Db, id: ScheduleId, d: DomainId, cadence: string, at: int, now: int)
    requires id !in db.schedules
    ensures var after := Next(db, AddSchedule(id, d, cadence, at));
            && after.schedules == db.schedules[id := Schedule(d, cadence, true, at, None)]
            && (Due(after.schedules[id], now) <==> at <= now)
            && (at <= now && d in db.verified && Idle(db.audits, d) ==>
                  Visit(after, now, id).audits == db.audits + [Audit(d, Queued)])
  {
    RunningIsNotIdle(db.audits, d);
  }

  /** Submitting again answers with the same task and changes nothing, for as long as that task is
      active, whichever row the query happens to find. */
  lemma SubmitIsIdempotent(db: Db, d: DomainId, t: TaskId)
    requires OneActive(db.audits) && d in db.verified
    ensures var (once, answer) := Submit(db, d, true);
            && answer != Refused && Submit(once, d, true) == (once, AlreadyRunning(answer.task))
            && OneActive(once.audits)
    ensures t < |db.audits| && db.audits[t].domain == d && Active(db.audits[t])
            ==> Submit(db, d, true) == (db, AlreadyRunning(t))
  {
  }

  // ---------- spacing ----------

  /** When schedule `id` got its audits. */
  function RunsOf(evs: seq<Event>, id: ScheduleId): seq<int> {
    if evs == [] then []
    else
      var front, ev := evs[..|evs| - 1], evs[|evs| - 1];
      RunsOf(front, id) + if ev.Poll? && Made(Exec(front), ev.now, ev.order, id) then [ev.now] else []
  }

  /** The runs so far are a cadence apart, and while the schedule stands the next is not due before
      another cadence. */
  ghost predicate Spaced(db: Db, created: Option<string>, runs: seq<int>, id: ScheduleId) {
    && (id in db.schedules ==> created == Some(db.schedules[id].cadence))
    && (created.None? ==> runs == [])
    && (created.Some? && runs != [] ==>
          && (id in db.schedules ==> runs[|runs| - 1] + Cadence(created.value) <= db.schedules[id].nextRunAt)
          && forall i :: 0 <= i < |runs| - 1 ==> runs[i] + Cadence(created.value) <= runs[i + 1])
  }

  lemma SpacedPoll(db: Db, created: Option<string>, runs: seq<int>, id: ScheduleId, now: int, order: seq<ScheduleId>)
    requires Spaced(db, created, runs, id) && ListsDue(db, now, order)
    ensures Spaced(Pass(db, now, order), created, runs + if Made(db, now, order, id) then [now] else [], id)
  {
    PassMoves(db, now, order);
    if Made(db, now, order, id) {
      MadeListed(db, now, order, id);
    }
  }

  lemma {:induction false} RunSpaced(evs: seq<Event>, id: ScheduleId)
    requires Genuine(evs)
    ensures Spaced(Exec(evs), Created(evs, id), RunsOf(evs, id), id)
  {
    if evs != [] {
      var front, ev := evs[..|evs| - 1], evs[|evs| - 1];
      RunSpaced(front, id);
      if ev.Poll? {
        SpacedPoll(Exec(front), Created(front, id), RunsOf(front, id), id, ev.now, ev.order);
      } else {
        SpacedOtherwise(Exec(front), Created(front, id), Created(evs, id), RunsOf(front, id), id, ev);
      }
    }
  }

  lemma SpacedOtherwise(db: Db, before: Option<string>, after: Option<string>, runs: seq<int>,
                        id: ScheduleId, ev: Event)
    requires Spaced(db, before, runs, id) && !ev.Poll?
    requires if ev.AddSchedule? && ev.id == id then before == None && after == Some(ev.cadence) else after == before
    ensures Spaced(Next(db, ev), after, runs + [], id)
  {
    assert runs + [] == runs;
  }

  lemma {:induction false} GapsAddUp(runs: seq<int>, cadence: int, i: nat, j: nat)
    requires i <= j < |runs| && forall k :: 0 <= k < |runs| - 1 ==> runs[k] + cadence <= runs[k + 1]
    ensures Sum(j - i, cadence) <= runs[j] - runs[i]
  {
    if i < j {
      GapsAddUp(runs, cadence, i, j - 1);
    }
  }

  lemma RunsFit(runs: seq<int>, cadence: int, i: nat, j: nat, window: nat)
    requires cadence > 0 && i <= j < |runs| && runs[j] <= runs[i] + window
    requires forall k :: 0 <= k < |runs| - 1 ==> runs[k] + cadence <= runs[k + 1]
    ensures forall k :: i < k <= j ==> runs[k - 1] + cadence <= runs[k]
    ensures j - i + 1 <= window / cadence + 1
  {
    GapsAddUp(runs, cadence, i, j);
    SumIsProduct(j - i, cadence);
    StepsFit(j - i, cadence, window);
    forall k | i < k <= j ensures runs[k - 1] + cadence <= runs[k] {
      var m := k - 1;
      assert runs[m] + cadence <= runs[m + 1];
    }
  }

  /** Over every run of polls, with whatever the clock does between them, a schedule's audits are a
      cadence apart: those within `window` seconds are at most window / cadence + 1. */
  lemma AuditsAreSpaced(evs: seq<Event>, id: ScheduleId, i: nat, j: nat, window: nat)
    requires Genuine(evs) && i <= j < |RunsOf(evs, id)|
    requires RunsOf(evs, id)[j] <= RunsOf(evs, id)[i] + window
    ensures Created(evs, id).Some?
    ensures var runs, cadence := RunsOf(evs, id), Cadence(Created(evs, id).value);
            (forall k :: i < k <= j ==> runs[k - 1] + cadence <= runs[k]) && j - i + 1 <= window / cadence + 1
  {
    RunSpaced(evs, id);
    RunsFit(RunsOf(evs, id), Cadence(Created(evs, id).value), i, j, window);
  }
}
