/**
 The escalating sign-in lock-out: per account a failure counter, an escalation tier
 and a lock, each a Redis key with its own time to live.  Times are in milliseconds,
 the policy's lengths in seconds.
 */
module SignInThrottle {
  import opened Arithmetic
  import opened Common
  import opened Expiry

  datatype Policy = Policy(threshold: int, firstLock: nat, nextLock: nat)

  const DEFAULT := Policy(3, 600, 1200)

  const FAIL_LIFE := 3_600_000
  const TIER_LIFE := 86_400_000

  /** The three keys of one account; the lock's value is the instant at which it should lift. */
  datatype Account = Account(fail: Option<Entry<nat>>, tier: Option<Entry<nat>>, lock: Option<Entry<int>>)

  const Clean := Account(None, None, None)

  datatype Gate = Gate(locked: bool, retryAfter: int, captchaRequired: bool)

  datatype Outcome = Counted(remaining: int) | Locked(retryAfter: nat, tier: nat, captchaRequired: bool)

  /** Python's int(): whole seconds, truncated toward zero. */
  function WholeSeconds(ms: int): int {
    if ms >= 0 then ms / 1000 else -((-ms) / 1000)
  }

  function TierAt(a: Account, now: int): nat {
    var t := Get(a.tier, now);
    if t.Some? then t.value else 0
  }

  function Status(a: Account, now: int): Gate {
    var captcha := TierAt(a, now) >= 2;
    var lock := Get(a.lock, now);
    if lock.Some? && WholeSeconds(lock.value - now) > 0
    then Gate(true, WholeSeconds(lock.value - now), captcha)
    else Gate(false, 0, captcha)
  }

  function LockLength(p: Policy, tier: nat): nat {
    if tier == 1 then p.firstLock else p.nextLock
  }

  function RecordFailure(p: Policy, a: Account, now: int): (Account, Outcome) {
    var counter := Hit(a.fail, now, FAIL_LIFE);
    if counter.value >= p.threshold then
      var tier := TierAt(a, now) + 1;
      var length := LockLength(p, tier);
      (Account(None, Some(Entry(tier, now + TIER_LIFE)),
               Some(Entry(now + 1000 * length, now + 1000 * (length + 5)))),
       Locked(length, tier, tier >= 2))
    else (a.(fail := Some(counter)), Counted(p.threshold - counter.value))
  }

  // ---------- one call of verify_otp ----------

  /** `otpLive`: an unconsumed, unexpired code with attempts left exists. */
  datatype Attempt = Attempt(at: int, captchaSolved: bool, otpLive: bool, correct: bool)

  datatype Reply = Blocked | CaptchaNeeded | NoOtp | Wrong(outcome: Outcome) | SignedIn

  function Verify(p: Policy, a: Account, x: Attempt): (Account, Reply) {
    var gate := Status(a, x.at);
    if gate.locked then (a, Blocked)
    else if gate.captchaRequired && !x.captchaSolved then (a, CaptchaNeeded)
    else if !x.otpLive then (a, NoOtp)
    else if !x.correct then
      var (a', outcome) := RecordFailure(p, a, x.at);
      (a', Wrong(outcome))
    else (Clean, SignedIn)
  }

  /** A run on a clean account: where it ends, how many codes were checked and found wrong,
      and when the first of those was. */
  datatype Log = Log(account: Account, wrong: nat, firstWrong: int)

  function After(p: Policy, log: Log, x: Attempt): Log {
    var (a', reply) := Verify(p, log.account, x);
    if reply.Wrong? then Log(a', log.wrong + 1, if log.wrong == 0 then x.at else log.firstWrong)
    else Log(a', log.wrong, log.firstWrong)
  }

  function Play(p: Policy, xs: seq<Attempt>): Log {
    if xs == [] then Log(Clean, 0, 0) else After(p, Play(p, xs[..|xs| - 1]), xs[|xs| - 1])
  }

  // ---------- when a lock really lifts ----------

  /** The truncation to whole seconds opens the gate within the last second: a lock set at `at`
      for `length` seconds holds exactly while at least one full second is left, so it agrees with
      its stored end exactly outside that last second. */
  lemma LockHolds(p: Policy, a: Account, at: int, now: int)
    requires RecordFailure(p, a, at).1.Locked? && at <= now
    ensures var (a', outcome) := RecordFailure(p, a, at);
            && (Status(a', now).locked <==> now <= at + 1000 * outcome.retryAfter - 1000)
            && ((Status(a', now).locked <==> now < a'.lock.value.value)
                <==> !(a'.lock.value.value - 1000 < now < a'.lock.value.value))
            && Status(a', now).retryAfter
               == if now <= at + 1000 * outcome.retryAfter - 1000
                  then (at + 1000 * outcome.retryAfter - now) / 1000 else 0
  {
  }

  // ---------- what an attempt is answered ----------

  /** A full second of the account's lock is left. */
  predicate LockedAt(a: Account, now: int) {
    a.lock.Some? && now < a.lock.value.expires && now + 1000 <= a.lock.value.value
  }

  /** Two locks or more within a day of the last. */
  predicate Escalated(a: Account, now: int) {
    a.tier.Some? && now < a.tier.value.expires && a.tier.value.value >= 2
  }

  /** Each answer, exactly: a lock stops every attempt, then the CAPTCHA, then the want of a live code,
      and only a wrong code is counted and only a right one signs in, which clears the account. */
  lemma Answers(p: Policy, a: Account, x: Attempt)
    ensures var (a', reply) := Verify(p, a, x);
            && (reply == Blocked <==> LockedAt(a, x.at))
            && (reply == CaptchaNeeded <==> !LockedAt(a, x.at) && Escalated(a, x.at) && !x.captchaSolved)
            && (reply == NoOtp
                <==> !LockedAt(a, x.at) && (Escalated(a, x.at) ==> x.captchaSolved) && !x.otpLive)
            && (reply == SignedIn
                <==> !LockedAt(a, x.at) && (Escalated(a, x.at) ==> x.captchaSolved) && x.otpLive && x.correct)
            && (reply == Blocked || reply == CaptchaNeeded || reply == NoOtp ==> a' == a)
            && (reply == SignedIn ==> a' == Account(None, None, None))
            && (reply.Wrong? ==> (a', reply.outcome) == RecordFailure(p, a, x.at))
  {
    WholeSecondsLeft(if a.lock.Some? then a.lock.value.value - x.at else 0);
  }

  lemma WholeSecondsLeft(ms: int)
    ensures WholeSeconds(ms) > 0 <==> ms >= 1000
  {
  }

  /** After a failure that locks, every attempt, right or wrong, is blocked and changes nothing until
      the lock's last second. */
  lemma LockStopsEverything(p: Policy, a: Account, at: int, x: Attempt)
    requires RecordFailure(p, a, at).1.Locked? && at <= x.at <= at + 1000 * RecordFailure(p, a, at).1.retryAfter - 1000
    ensures var locked := RecordFailure(p, a, at).0; Verify(p, locked, x) == (locked, Blocked)
  {
    LockHolds(p, a, at, x.at);
  }

  /** A counter starts at its first failure and lasts an hour, whatever follows in it. */
  lemma CounterLastsAnHour(p: Policy, a: Account, first: int, second: int)
    requires p.threshold > 2 && Get(a.fail, first) == None && first <= second
    ensures var a' := RecordFailure(p, RecordFailure(p, a, first).0, second).0;
            a'.fail == Some(if second < first + 3_600_000 then Entry(2, first + 3_600_000)
                            else Entry(1, second + 3_600_000))
  {
    assert RecordFailure(p, a, first).0.fail == Some(Entry(1, first + 3_600_000));
  }

  // ---------- the bound on wrong checks ----------

  /** No attempt is made within the last second of a lock, up to `early` milliseconds before its end. */
  ghost predicate Patient(p: Policy, xs: seq<Attempt>, early: nat) {
    xs != [] ==>
      && Patient(p, xs[..|xs| - 1], early)
      && AwayFromEnd(Play(p, xs[..|xs| - 1]).account, xs[|xs| - 1], early)
  }

  predicate AwayFromEnd(a: Account, x: Attempt, early: nat) {
    var lock := Get(a.lock, x.at);
    lock.Some? ==> !(early < lock.value - x.at < 1000)
  }

  /** No attempt signs in; a right code may still be presented, and refused by the lock, the
      CAPTCHA or for want of a live code. */
  ghost predicate NoSignIn(p: Policy, xs: seq<Attempt>) {
    xs != [] ==>
      && NoSignIn(p, xs[..|xs| - 1])
      && Verify(p, Play(p, xs[..|xs| - 1]).account, xs[|xs| - 1]).1 != SignedIn
  }

  ghost predicate InOrder(xs: seq<Attempt>) {
    forall i, j :: 0 <= i < j < |xs| ==> xs[i].at <= xs[j].at
  }

  function Threshold(p: Policy): nat { if p.threshold > 1 then p.threshold else 1 }

  /** The least time from the start of one group of failures to the start of the next. */
  function Gap(p: Policy, early: nat): int {
    var locked := 1000 * ShorterLock(p) - early;
    if locked <= FAIL_LIFE then locked else FAIL_LIFE
  }

  function ShorterLock(p: Policy): nat { if p.firstLock <= p.nextLock then p.firstLock else p.nextLock }

  /** `groups` groups of failures so far, the last begun at `start`, with `wrong` checks in all:
      either its counter is running, or a lock closed it. */
  ghost predicate Grouped(p: Policy, a: Account, groups: nat, start: int, wrong: nat) {
    if groups == 0 then a == Clean && wrong == 0
    else if a.fail.Some? then
      && 1 <= a.fail.value.value < Threshold(p) && a.fail.value.expires == start + FAIL_LIFE
      && wrong <= Sum(groups - 1, Threshold(p)) + a.fail.value.value
    else
      && a.lock.Some? && start + 1000 * ShorterLock(p) <= a.lock.value.value <= a.lock.value.expires
      && wrong <= Sum(groups, Threshold(p))
  }

  lemma NewGroup(p: Policy, a: Account, groups: nat, start: int, wrong: nat, x: Attempt)
    requires wrong <= Sum(groups, Threshold(p))
    requires Get(a.fail, x.at) == None
    ensures Grouped(p, RecordFailure(p, a, x.at).0, groups + 1, x.at, wrong + 1)
  {
  }

  /** One attempt that does not sign in extends the current group, or begins one a gap later. */
  lemma GroupStep(p: Policy, log: Log, groups: nat, start: int, x: Attempt, early: nat)
    returns (groups': nat, start': int)
    requires Grouped(p, log.account, groups, start, log.wrong) && (groups > 0 ==> start <= x.at)
    requires Verify(p, log.account, x).1 != SignedIn
    requires AwayFromEnd(log.account, x, early) && (groups == 0 <==> log.wrong == 0)
    ensures Grouped(p, After(p, log, x).account, groups', start', After(p, log, x).wrong)
    ensures (groups' == groups && start' == start)
            || (groups' == groups + 1 && start' == x.at && (groups > 0 ==> start + Gap(p, early) <= x.at))
    ensures groups' == 0 <==> After(p, log, x).wrong == 0
    ensures groups' > 0 ==> After(p, log, x).firstWrong == if groups == 0 then x.at else log.firstWrong
  {
    var a := log.account;
    groups', start' := groups, start;
    if Verify(p, a, x).1.Wrong? && Get(a.fail, x.at) == None {
      NewGroup(p, a, groups, start, log.wrong, x);
      groups', start' := groups + 1, x.at;
    }
  }

  lemma {:induction false} GroupsOf(p: Policy, xs: seq<Attempt>, early: nat, gap: int) returns (groups: nat, start: int)
    requires InOrder(xs) && Patient(p, xs, early) && NoSignIn(p, xs) && gap == Gap(p, early)
    ensures Grouped(p, Play(p, xs).account, groups, start, Play(p, xs).wrong)
    ensures groups == 0 <==> Play(p, xs).wrong == 0
    ensures groups > 0 ==> xs != [] && start <= xs[|xs| - 1].at
    ensures groups > 0 ==> Play(p, xs).firstWrong + Sum(groups - 1, gap) <= start
  {
    groups, start := 0, 0;
    if xs != [] {
      var before, x := xs[..|xs| - 1], xs[|xs| - 1];
      var g, s := GroupsOf(p, before, early, gap);
      groups, start := GroupStep(p, Play(p, before), g, s, x, early);
    }
  }

  lemma GroupsFit(p: Policy, log: Log, groups: nat, start: int, gap: int, window: nat)
    requires gap > 0 && Grouped(p, log.account, groups, start, log.wrong)
    requires groups > 0 ==> log.firstWrong + Sum(groups - 1, gap) <= start <= log.firstWrong + window
    ensures log.wrong <= Threshold(p) * (window / gap + 1)
  {
    if groups == 0 {
      ProductOrdered(Threshold(p), 0, window / gap + 1);
    } else {
      SumsFit(groups, gap, window, Threshold(p));
    }
  }

  /** With no successful sign-in, the wrong checks within `window` ms of the first are at most
      threshold * (window / gap + 1), where a gap is the shorter lock less `early`, or the counter's
      life, for runs that make no attempt in a lock's last second before that. */
  lemma ThrottleBound(p: Policy, xs: seq<Attempt>, early: nat, window: nat)
    requires p.firstLock >= 1 && p.nextLock >= 1 && early <= 999
    requires InOrder(xs) && Patient(p, xs, early) && NoSignIn(p, xs)
    requires Play(p, xs).wrong > 0 ==> forall x :: x in xs ==> x.at <= Play(p, xs).firstWrong + window
    ensures Play(p, xs).wrong <= Threshold(p) * (window / Gap(p, early) + 1)
  {
    var groups, start := GroupsOf(p, xs, early, Gap(p, early));
    if groups > 0 {
      assert xs[|xs| - 1] in xs;
    }
    GroupsFit(p, Play(p, xs), groups, start, Gap(p, early), window);
  }

  /** Every run is patient up to the last second. */
  lemma {:induction false} AlwaysPatient(p: Policy, xs: seq<Attempt>)
    ensures Patient(p, xs, 999)
  {
    if xs != [] {
      AlwaysPatient(p, xs[..|xs| - 1]);
    }
  }

  /** For every timing of attempts: with no successful sign-in, the wrong checks within `window` ms
      of the first are at most threshold * (window / gap + 1), a gap being 999 ms short of the
      shorter lock, or the counter's life. */
  lemma ThrottleHolds(p: Policy, xs: seq<Attempt>, window: nat)
    requires p.firstLock >= 1 && p.nextLock >= 1 && InOrder(xs) && NoSignIn(p, xs)
    requires Play(p, xs).wrong > 0 ==> forall x :: x in xs ==> x.at <= Play(p, xs).firstWrong + window
    ensures var limit := if p.threshold > 1 then p.threshold else 1;
            var shorter := if p.firstLock <= p.nextLock then p.firstLock else p.nextLock;
            var gap := if 1000 * shorter - 999 <= 3_600_000 then 1000 * shorter - 999 else 3_600_000;
            Play(p, xs).wrong <= limit * (window / gap + 1)
  {
    AlwaysPatient(p, xs);
    ThrottleBound(p, xs, 999, window);
  }

  /** Under the default policy: three checks for every 599.001 seconds begun. */
  lemma DefaultThrottle(xs: seq<Attempt>, window: nat)
    requires InOrder(xs) && NoSignIn(DEFAULT, xs)
    requires Play(DEFAULT, xs).wrong > 0 ==> forall x :: x in xs ==> x.at <= Play(DEFAULT, xs).firstWrong + window
    ensures Play(DEFAULT, xs).wrong <= 3 * (window / 599_001 + 1)
  {
    ThrottleHolds(DEFAULT, xs, window);
  }

  lemma PlayMore(p: Policy, xs: seq<Attempt>, x: Attempt)
    ensures Play(p, xs + [x]) == After(p, Play(p, xs), x)
  {
    assert (xs + [x])[..|xs|] == xs;
  }

  /** `n` wrong codes at one instant, with every CAPTCHA solved and a live code. */
  function Guesses(n: nat, at: int): seq<Attempt> {
    if n == 0 then [] else Guesses(n - 1, at) + [Attempt(at, true, true, false)]
  }

  lemma {:induction false} GuessesAt(n: nat, at: int)
    ensures |Guesses(n, at)| == n && forall x :: x in Guesses(n, at) ==> x.at == at && !x.correct
  {
    if n > 0 {
      GuessesAt(n - 1, at);
    }
  }

  /** What `n` of them leave on an account that is not locked and has no live counter: a counter of
      `n`, or a lock once they are as many as the threshold. */
  predicate Guessed(p: Policy, before: Log, n: nat, at: int, after: Log) {
    && after.wrong == before.wrong + n
    && after.firstWrong == (if before.wrong == 0 && n > 0 then at else before.firstWrong)
    && if n == 0 then after == before
       else if n < Threshold(p) then
         after.account == before.account.(fail := Some(Entry(n, at + FAIL_LIFE)))
       else after.account.fail == None && TierAt(after.account, at) == TierAt(before.account, at) + 1
            && after.account.lock.Some?
            && after.account.lock.value.value == at + 1000 * LockLength(p, TierAt(before.account, at) + 1)
  }

  lemma {:induction false} GuessesCounted(p: Policy, xs: seq<Attempt>, n: nat, at: int)
    requires n <= Threshold(p)
    requires !Status(Play(p, xs).account, at).locked && Get(Play(p, xs).account.fail, at) == None
    ensures Guessed(p, Play(p, xs), n, at, Play(p, xs + Guesses(n, at)))
  {
    if n == 0 {
      assert xs + Guesses(0, at) == xs;
    } else {
      GuessesCounted(p, xs, n - 1, at);
      assert xs + Guesses(n, at) == xs + Guesses(n - 1, at) + [Attempt(at, true, true, false)];
      PlayMore(p, xs + Guesses(n - 1, at), Attempt(at, true, true, false));
      OneMoreGuess(p, Play(p, xs), n, at, Play(p, xs + Guesses(n - 1, at)));
    }
  }

  lemma OneMoreGuess(p: Policy, before: Log, n: nat, at: int, mid: Log)
    requires 0 < n <= Threshold(p) && Guessed(p, before, n - 1, at, mid)
    requires !Status(before.account, at).locked && Get(before.account.fail, at) == None
    ensures Guessed(p, before, n, at, After(p, mid, Attempt(at, true, true, false)))
  {
  }

  lemma TwoInstants(n: nat, late: nat)
    ensures var xs := Guesses(n, 0) + Guesses(n, late);
            InOrder(xs) && forall x :: x in xs ==> !x.correct && 0 <= x.at <= late
  {
    var xs := Guesses(n, 0) + Guesses(n, late);
    GuessesAt(n, 0);
    GuessesAt(n, late);
    forall i, j | 0 <= i < j < |xs| ensures xs[i].at <= xs[j].at {
      assert i < n ==> xs[i] in Guesses(n, 0);
      assert j >= n ==> xs[j] in Guesses(n, late);
      assert i >= n ==> xs[i] in Guesses(n, late);
      assert j < n ==> xs[j] in Guesses(n, 0);
    }
  }

  /** The gap of a second less than the lock is really taken: under every policy, twice the threshold
      of wrong codes is checked within 1000 * firstLock - 999 ms.  A bound by whole locks would allow
      only once the threshold in that time. */
  lemma LockEndsEarly(p: Policy) returns (xs: seq<Attempt>)
    requires p.firstLock >= 1
    ensures InOrder(xs) && forall x :: x in xs ==> !x.correct && 0 <= x.at <= 1000 * p.firstLock - 999
    ensures Play(p, xs).firstWrong == 0 && Play(p, xs).wrong == 2 * Threshold(p)
    ensures (1000 * p.firstLock - 999) / (1000 * p.firstLock) == 0
  {
    var t, late := Threshold(p), 1000 * p.firstLock - 999;
    xs := Guesses(t, 0) + Guesses(t, late);
    TwoInstants(t, late);
    assert [] + Guesses(t, 0) == Guesses(t, 0);
    GuessesCounted(p, [], t, 0);
    GuessesCounted(p, Guesses(t, 0), t, late);
    QuotientIs(late, 1000 * p.firstLock, 0, late);
  }

  // ---------- the escalation, in closed form ----------

  /** Failures recorded at the given times. */
  function Failures(p: Policy, a: Account, ats: seq<int>): Account {
    if ats == [] then a else RecordFailure(p, Failures(p, a, ats[..|ats| - 1]), ats[|ats| - 1]).0
  }

  /** No key expires along the way: at every failure the keys the account has are alive. */
  ghost predicate Unexpired(p: Policy, a: Account, ats: seq<int>) {
    ats != [] ==>
      var before, at := Failures(p, a, ats[..|ats| - 1]), ats[|ats| - 1];
      && Unexpired(p, a, ats[..|ats| - 1])
      && (before.fail.Some? ==> Get(before.fail, at).Some?)
      && (before.tier.Some? ==> Get(before.tier, at).Some?)
  }

  function CountOf(a: Account): nat { if a.fail.Some? then a.fail.value.value else 0 }

  function TierOf(a: Account): nat { if a.tier.Some? then a.tier.value.value else 0 }

  /** After m failures on a clean account the tier is m / threshold and the counter m % threshold. */
  lemma {:induction false} Escalation(p: Policy, ats: seq<int>)
    requires p.threshold >= 1 && Unexpired(p, Clean, ats)
    ensures var a := Failures(p, Clean, ats);
            TierOf(a) == |ats| / p.threshold && CountOf(a) == |ats| % p.threshold
  {
    if ats != [] {
      Escalation(p, ats[..|ats| - 1]);
      NextQuotient(|ats| - 1, p.threshold);
    }
  }

  /** So the failure that completes the k-th group locks, for the first length when k is 1 and the
      second afterwards, and asks for a CAPTCHA from the second lock on; any other only counts. */
  lemma EscalationOutcome(p: Policy, ats: seq<int>)
    requires p.threshold >= 1 && ats != [] && Unexpired(p, Clean, ats)
    ensures var k := |ats| / p.threshold;
            RecordFailure(p, Failures(p, Clean, ats[..|ats| - 1]), ats[|ats| - 1]).1
            == if |ats| % p.threshold == 0 then Locked(if k == 1 then p.firstLock else p.nextLock, k, k >= 2)
               else Counted(p.threshold - |ats| % p.threshold)
  {
    Escalation(p, ats[..|ats| - 1]);
    NextQuotient(|ats| - 1, p.threshold);
  }

  /** And the gate asks for a CAPTCHA from the second lock on, for a day after the latest lock. */
  lemma EscalationGate(p: Policy, ats: seq<int>, now: int)
    requires p.threshold >= 1 && ats != [] && Unexpired(p, Clean, ats)
    ensures var a := Failures(p, Clean, ats);
            (a.tier.Some? ==> now < a.tier.value.expires) ==>
              (Status(a, now).captchaRequired <==> |ats| / p.threshold >= 2)
    ensures |ats| % p.threshold == 0 ==>
              (Status(Failures(p, Clean, ats), now).captchaRequired
               <==> |ats| / p.threshold >= 2 && now < ats[|ats| - 1] + 86_400_000)
  {
    Escalation(p, ats);
    EscalationOutcome(p, ats);
  }

  // ---------- the keys in Redis ----------

  class AuthGuard {
    const policy: Policy
    var fails: map<string, Entry<nat>>
    var tiers: map<string, Entry<nat>>
    var locks: map<string, Entry<int>>

    ghost function AccountOf(email: string): Account
      reads this
    {
      Account(Find(fails, email), Find(tiers, email), Find(locks, email))
    }

    constructor (policy: Policy)
      ensures this.policy == policy && forall e :: AccountOf(e) == Clean
    {
      this.policy := policy;
      fails, tiers, locks := map[], map[], map[];
    }

    method GateFor(email: string, now: int) returns (gate: Gate)
      ensures gate == Status(AccountOf(email), now)
    {
      var tier := Get(Find(tiers, email), now);
      var captcha := tier.Some? && tier.value >= 2;
      var lock := Get(Find(locks, email), now);
      if lock.Some? {
        var remaining := WholeSeconds(lock.value - now);
        if remaining > 0 {
          return Gate(true, remaining, captcha);
        }
      }
      gate := Gate(false, 0, captcha);
    }

    method Fail(email: string, now: int) returns (outcome: Outcome)
      modifies this
      ensures (AccountOf(email), outcome) == RecordFailure(policy, old(AccountOf(email)), now)
      ensures forall e :: e != email ==> AccountOf(e) == old(AccountOf(e))
    {
      var counter := Hit(Find(fails, email), now, FAIL_LIFE);
      fails := fails[email := counter];
      if counter.value >= policy.threshold {
        var found := Get(Find(tiers, email), now);
        var tier := (if found.Some? then found.value else 0) + 1;
        var length := LockLength(policy, tier);
        tiers := tiers[email := Entry(tier, now + TIER_LIFE)];
        locks := locks[email := Entry(now + 1000 * length, now + 1000 * (length + 5))];
        fails := fails - {email};
        return Locked(length, tier, tier >= 2);
      }
      outcome := Counted(policy.threshold - counter.value);
    }

    method Reset(email: string)
      modifies this
      ensures AccountOf(email) == Clean && forall e :: e != email ==> AccountOf(e) == old(AccountOf(e))
    {
      fails, locks, tiers := fails - {email}, locks - {email}, tiers - {email};
    }

    method VerifyOtp(email: string, x: Attempt) returns (reply: Reply)
      modifies this
      ensures (AccountOf(email), reply) == Verify(policy, old(AccountOf(email)), x)
      ensures forall e :: e != email ==> AccountOf(e) == old(AccountOf(e))
    {
      var gate := GateFor(email, x.at);
      if gate.locked {
        return Blocked;
      }
      if gate.captchaRequired && !x.captchaSolved {
        return CaptchaNeeded;
      }
      if !x.otpLive {
        return NoOtp;
      }
      if !x.correct {
        var outcome := Fail(email, x.at);
        return Wrong(outcome);
      }
      Reset(email);
      reply := SignedIn;
    }
  }
}
