/**
 Free public scans and the built-in CAPTCHA: a fixed-window counter per address, and
 single-use arithmetic challenges that also gate sign-in attempts.  Each request is one
 step.  Times are in milliseconds.
 */
module FreeScans {
  import opened Arithmetic
  import opened Common
  import opened Expiry

  const CHALLENGE_LIFE := 300_000

  /** The settings an administrator can change at any time. */
  datatype Config = Config(limit: nat, window: nat, captchaEnabled: bool)

  /** The challenges waiting for an answer, by id, and the scan counters, by address. */
  datatype Redis = Redis(challenges: map<string, Entry<string>>, counters: map<string, Entry<nat>>)

  // ---------- tokens ----------

  predicate Space(c: char) { c == ' ' || c == '\t' || c == '\n' || c == '\r' }

  function TrimLeft(s: string): string {
    if s != [] && Space(s[0]) then TrimLeft(s[1..]) else s
  }

  function TrimRight(s: string): string {
    if s != [] && Space(s[|s| - 1]) then TrimRight(s[..|s| - 1]) else s
  }

  function Trim(s: string): string {
    TrimRight(TrimLeft(s))
  }

  /** "<id>:<answer>", cut at the first colon. */
  function Cut(token: string): (parts: Option<(string, string)>)
    ensures parts.Some? <==> ':' in token
    ensures parts.Some? ==> token == parts.value.0 + ":" + parts.value.1 && ':' !in parts.value.0
  {
    if token == [] then None
    else if token[0] == ':' then Some(("", token[1..]))
    else
      match Cut(token[1..])
      case None => None
      case Some((id, answer)) => Some(([token[0]] + id, answer))
  }

  lemma {:induction false} CutJoins(id: string, answer: string)
    requires ':' !in id
    ensures Cut(id + ":" + answer) == Some((id, answer))
  {
    var token := id + ":" + answer;
    if id == [] {
      assert token[1..] == answer;
    } else {
      assert token[1..] == id[1..] + ":" + answer;
      CutJoins(id[1..], answer);
      assert [id[0]] + id[1..] == id;
    }
  }

  predicate Digits(s: string) { forall i :: 0 <= i < |s| ==> '0' <= s[i] <= '9' }

  predicate Blank(s: string) {
    forall i :: 0 <= i < |s| ==> s[i] == ' ' || s[i] == '\t' || s[i] == '\n' || s[i] == '\r'
  }

  lemma {:induction false} BlankLeft(s: string, t: string)
    requires Blank(s) && (t == [] || '0' <= t[0] <= '9')
    ensures TrimLeft(s + t) == t
    decreases |s|
  {
    if s == [] {
      assert s + t == t;
    } else {
      assert (s + t)[1..] == s[1..] + t && (s + t)[0] == s[0];
      BlankLeft(s[1..], t);
    }
  }

  lemma {:induction false} BlankRight(t: string, s: string)
    requires Blank(s) && (t == [] || '0' <= t[|t| - 1] <= '9')
    ensures TrimRight(t + s) == t
    decreases |s|
  {
    if s == [] {
      assert t + s == t;
    } else {
      assert (t + s)[..|t + s| - 1] == t + s[..|s| - 1] && (t + s)[|t + s| - 1] == s[|s| - 1];
      BlankRight(t, s[..|s| - 1]);
    }
  }

  /** Trimming takes the blanks off an answer of digits, and nothing else. */
  lemma TrimTakesBlanks(before: string, answer: string, after: string)
    requires Blank(before) && answer != [] && Digits(answer) && Blank(after)
    ensures Trim(before + answer + after) == answer
  {
    assert before + answer + after == before + (answer + after);
    assert (answer + after)[0] == answer[0];
    BlankLeft(before, answer + after);
    BlankRight(answer, after);
  }

  // ---------- the requests ----------

  function Issue(r: Redis, id: string, answer: string, now: int): Redis {
    r.(challenges := r.challenges[id := Entry(answer, now + CHALLENGE_LIFE)])
  }

  /** Whatever the answer, a challenge that is found is used up. */
  function Verify(r: Redis, token: string, now: int): (Redis, bool) {
    match Cut(token)
    case None => (r, false)
    case Some((id, answer)) =>
      var stored := Get(Find(r.challenges, id), now);
      if stored.None? then (r, false)
      else (r.(challenges := r.challenges - {id}), Trim(answer) == Trim(stored.value))
  }

  function Count(r: Redis, ip: string, now: int): nat {
    var n := Get(Find(r.counters, ip), now);
    if n.Some? then n.value else 0
  }

  datatype Reply = Accepted(spent: bool) | CaptchaNeeded | QuotaUsed

  function CountedIn(r: Redis, ip: string, window: nat, now: int): Redis {
    r.(counters := r.counters[ip := Hit(Find(r.counters, ip), now, window)])
  }

  function Scan(r: Redis, cfg: Config, ip: string, token: string, now: int): (Redis, Reply) {
    if Count(r, ip, now) < cfg.limit then (CountedIn(r, ip, cfg.window, now), Accepted(false))
    else if !cfg.captchaEnabled then (r, QuotaUsed)
    else
      var (r', ok) := Verify(r, token, now);
      if ok then (CountedIn(r', ip, cfg.window, now), Accepted(true)) else (r', CaptchaNeeded)
  }

  /** The CAPTCHA gate before a sign-in attempt; `required` is the lock-out's word. */
  function Gate(r: Redis, cfg: Config, required: bool, token: string, now: int): (Redis, Reply) {
    if !(required && cfg.captchaEnabled) then (r, Accepted(false))
    else
      var (r', ok) := Verify(r, token, now);
      (r', if ok then Accepted(true) else CaptchaNeeded)
  }

  class PublicDesk {
    var challenges: map<string, Entry<string>>
    var counters: map<string, Entry<nat>>

    ghost function View(): Redis
      reads this
    {
      Redis(challenges, counters)
    }

    constructor ()
      ensures View() == Redis(map[], map[])
    {
      challenges, counters := map[], map[];
    }

    method IssueChallenge(id: string, answer: string, now: int)
      modifies this
      ensures View() == Issue(old(View()), id, answer, now)
    {
      challenges := challenges[id := Entry(answer, now + CHALLENGE_LIFE)];
    }

    method VerifyToken(token: string, now: int) returns (ok: bool)
      modifies this
      ensures (View(), ok) == Verify(old(View()), token, now)
    {
      var parts := Cut(token);
      if parts.None? {
        return false;
      }
      var stored := Get(Find(challenges, parts.value.0), now);
      if stored.None? {
        return false;
      }
      ok := Trim(parts.value.1) == Trim(stored.value);
      challenges := challenges - {parts.value.0};
    }

    method CreateScan(cfg: Config, ip: string, token: string, now: int) returns (reply: Reply)
      modifies this
      ensures (View(), reply) == Scan(old(View()), cfg, ip, token, now)
    {
      var used := Get(Find(counters, ip), now);
      var spent := false;
      if (if used.Some? then used.value else 0) >= cfg.limit {
        if !cfg.captchaEnabled {
          return QuotaUsed;
        }
        spent := VerifyToken(token, now);
        if !spent {
          return CaptchaNeeded;
        }
      }
      counters := counters[ip := Hit(Find(counters, ip), now, cfg.window)];
      reply := Accepted(spent);
    }

    method GateSignIn(cfg: Config, required: bool, token: string, now: int) returns (reply: Reply)
      modifies this
      ensures (View(), reply) == Gate(old(View()), cfg, required, token, now)
    {
      if required && cfg.captchaEnabled {
        var ok := VerifyToken(token, now);
        return if ok then Accepted(true) else CaptchaNeeded;
      }
      reply := Accepted(false);
    }
  }

  /** A token answers its challenge once: it verifies for five minutes, until it has been presented, and
      never after it was presented, rightly or wrongly, unless the id is issued again. */
  lemma ChallengeIsSingleUse(r: Redis, id: string, answer: string, issued: int, now: int, guess: string, later: int)
    requires ':' !in id && Trim(answer) == answer
    ensures var token := id + ":" + guess;
            var (r', ok) := Verify(Issue(r, id, answer, issued), token, now);
            && (ok <==> now < issued + 300_000 && Trim(guess) == answer)
            && (now < issued + 300_000 ==>
                  && r'.challenges == r.challenges - {id} && r'.counters == r.counters
                  && !Verify(r', id + ":" + answer, later).1)
  {
    CutJoins(id, guess);
    CutJoins(id, answer);
    assert r.challenges[id := Entry(answer, issued + CHALLENGE_LIFE)] - {id} == r.challenges - {id};
  }

  /** So an answer of digits, typed with blanks around it, is right exactly when it is the one asked for. */
  lemma RightAnswer(r: Redis, id: string, answer: string, issued: int, now: int,
                    before: string, typed: string, after: string)
    requires ':' !in id && answer != [] && Digits(answer) && typed != [] && Digits(typed)
    requires Blank(before) && Blank(after)
    ensures Verify(Issue(r, id, answer, issued), id + ":" + (before + typed + after), now).1
            <==> now < issued + 300_000 && typed == answer
  {
    TrimTakesBlanks([], answer, []);
    assert [] + answer + [] == answer;
    TrimTakesBlanks(before, typed, after);
    ChallengeIsSingleUse(r, id, answer, issued, now, before + typed + after, now);
  }

  /** A token verifies exactly when it is cut into the id of a live challenge and its answer; a token that
      names no live challenge changes nothing, and one that does uses it up. */
  lemma VerifyExactly(r: Redis, id: string, guess: string, now: int, junk: string)
    requires ':' !in id && ':' !in junk
    ensures var (r', ok) := Verify(r, id + ":" + guess, now);
            var live := id in r.challenges && now < r.challenges[id].expires;
            && (ok <==> live && Trim(guess) == Trim(r.challenges[id].value))
            && r' == (if live then r.(challenges := r.challenges - {id}) else r)
    ensures Verify(r, junk, now) == (r, false)
  {
    CutJoins(id, guess);
  }

  /** Each reply to a scan, exactly: the quota first, then the block or the CAPTCHA.  An accepted scan is
      counted, in a window that opens with the first. */
  lemma ScanReplies(r: Redis, cfg: Config, ip: string, token: string, now: int)
    ensures var live := ip in r.counters && now < r.counters[ip].expires;
            var within := (if live then r.counters[ip].value else 0) < cfg.limit;
            var right := Verify(r, token, now).1;
            var (r', reply) := Scan(r, cfg, ip, token, now);
            && (reply == Accepted(false) <==> within)
            && (reply == QuotaUsed <==> !within && !cfg.captchaEnabled)
            && (reply == Accepted(true) <==> !within && cfg.captchaEnabled && right)
            && (reply == CaptchaNeeded <==> !within && cfg.captchaEnabled && !right)
            && r'.counters == (if reply.Accepted? then
                                 r.counters[ip := if live then Entry(r.counters[ip].value + 1, r.counters[ip].expires)
                                                  else Entry(1, now + cfg.window)]
                               else r.counters)
            && r'.challenges == (if !within && cfg.captchaEnabled then Verify(r, token, now).0.challenges
                                 else r.challenges)
  {
    VerifyKeepsCounters(r, token, now);
  }

  lemma VerifyKeepsCounters(r: Redis, token: string, now: int)
    ensures Verify(r, token, now).0.counters == r.counters
  {
  }

  /** And to a sign-in attempt: the CAPTCHA only when it is required and enabled. */
  lemma GateReplies(r: Redis, cfg: Config, required: bool, token: string, now: int)
    ensures var asked := required && cfg.captchaEnabled; var right := Verify(r, token, now).1;
            var (r', reply) := Gate(r, cfg, required, token, now);
            && (reply == Accepted(false) <==> !asked)
            && (reply == Accepted(true) <==> asked && right)
            && (reply == CaptchaNeeded <==> asked && !right)
            && r' == (if asked then Verify(r, token, now).0 else r)
  {
  }

  // ---------- conservation ----------

  datatype Event =
    | Issues(id: string, answer: string, at: int)
    | Scans(cfg: Config, ip: string, token: string, at: int)
    | SignsIn(cfg: Config, required: bool, token: string, at: int)

  /** Challenges issued, those lost by reissuing a waiting id, those used up by a wrong answer, and
      what the rest bought. */
  datatype Tally = Tally(issued: nat, reissued: nat, wrong: nat, scans: nat, signIns: nat)

  datatype State = State(redis: Redis, tally: Tally)

  const Start := State(Redis(map[], map[]), Tally(0, 0, 0, 0, 0))

  function Next(s: State, ev: Event): State {
    match ev
    case Issues(id, answer, at) =>
      State(Issue(s.redis, id, answer, at),
            s.tally.(issued := s.tally.issued + 1,
                     reissued := s.tally.reissued + if id in s.redis.challenges then 1 else 0))
    case Scans(cfg, ip, token, at) =>
      var (r, reply) := Scan(s.redis, cfg, ip, token, at);
      State(r, if reply == Accepted(true) then s.tally.(scans := s.tally.scans + 1) else WrongTally(s, r))
    case SignsIn(cfg, required, token, at) =>
      var (r, reply) := Gate(s.redis, cfg, required, token, at);
      State(r, if reply == Accepted(true) then s.tally.(signIns := s.tally.signIns + 1) else WrongTally(s, r))
  }

  function WrongTally(s: State, r: Redis): Tally {
    if r.challenges != s.redis.challenges then s.tally.(wrong := s.tally.wrong + 1) else s.tally
  }

  function Exec(evs: seq<Event>): State {
    if evs == [] then Start else Next(Exec(evs[..|evs| - 1]), evs[|evs| - 1])
  }

  lemma VerifySpends(r: Redis, token: string, now: int)
    ensures var (r', ok) := Verify(r, token, now);
            && (ok ==> r'.challenges != r.challenges)
            && (r'.challenges != r.challenges ==> |r'.challenges| == |r.challenges| - 1)
  {
    var (r', _) := Verify(r, token, now);
    match Cut(token)
    case Some((id, _)) =>
      if id in r.challenges {
        assert r.challenges == r'.challenges[id := r.challenges[id]] || r' == r;
      }
    case None =>
  }

  predicate Balanced(s: State) {
    s.tally.issued == |s.redis.challenges| + s.tally.reissued + s.tally.wrong + s.tally.scans + s.tally.signIns
  }

  lemma BalancedStep(s: State, ev: Event)
    requires Balanced(s)
    ensures Balanced(Next(s, ev))
  {
    match ev
    case Issues(_, _, _) =>
    case Scans(_, _, token, at) => VerifySpends(s.redis, token, at);
    case SignsIn(_, _, token, at) => VerifySpends(s.redis, token, at);
  }

  /** Over every run, whatever the settings do meanwhile, every challenge issued is still waiting,
      was replaced, was answered wrongly, or bought exactly one thing: a scan over the quota or a
      gated sign-in attempt. */
  lemma {:induction false} ChallengesConserved(evs: seq<Event>)
    ensures var s := Exec(evs);
            s.tally.issued == |s.redis.challenges| + s.tally.reissued + s.tally.wrong + s.tally.scans + s.tally.signIns
  {
    if evs != [] {
      ChallengesConserved(evs[..|evs| - 1]);
      BalancedStep(Exec(evs[..|evs| - 1]), evs[|evs| - 1]);
    }
  }

  // ---------- the free quota ----------

  /** What one address got: whether any scan was accepted and when the first was, how many without
      spending a challenge, and how many of those since its counter was last created. */
  datatype Use = Use(used: bool, first: int, free: nat, inWindow: nat)

  function UseOf(evs: seq<Event>, ip: string): Use {
    if evs == [] then Use(false, 0, 0, 0)
    else More(Exec(evs[..|evs| - 1]).redis, UseOf(evs[..|evs| - 1], ip), evs[|evs| - 1], ip)
  }

  function More(r: Redis, u: Use, ev: Event, ip: string): Use {
    if !ev.Scans? || ev.ip != ip then u
    else
      match Scan(r, ev.cfg, ip, ev.token, ev.at).1
      case Accepted(spent) =>
        var created := Get(Find(r.counters, ip), ev.at).None?;
        var one := if spent then 0 else 1;
        Use(true, if u.used then u.first else ev.at, u.free + one, (if created then 0 else u.inWindow) + one)
      case _ => u
  }

  function AtMost(n: nat, limit: nat): nat { if n <= limit then n else limit }

  /** So far `windows` counter windows, the last opened at `start`. */
  predicate Counted(counter: Option<Entry<nat>>, windows: nat, start: int, u: Use, limit: nat, window: nat) {
    if windows == 0 then counter == None && u.free == 0 && !u.used
    else
      && u.used && counter.Some? && counter.value.expires == start + window
      && u.free <= Sum(windows - 1, limit) + AtMost(counter.value.value, limit)
      && u.first + Sum(windows - 1, window) <= start
  }

  lemma CountedStep(r: Redis, windows: nat, start: int, u: Use, ev: Event, ip: string, limit: nat, window: nat)
    returns (windows': nat, start': int)
    requires Counted(Find(r.counters, ip), windows, start, u, limit, window)
    requires ev.Scans? && ev.ip == ip ==> ev.cfg.limit == limit && ev.cfg.window == window
    ensures var r' := Next(State(r, Start.tally), ev).redis;
            Counted(Find(r'.counters, ip), windows', start', More(r, u, ev, ip), limit, window)
    ensures (start' == start && windows' == windows) || (ev.Scans? && ev.ip == ip && start' == ev.at)
  {
    windows', start' := windows, start;
    if ev.Scans? && ev.ip == ip {
      if Scan(r, ev.cfg, ip, ev.token, ev.at).1.Accepted? && Get(Find(r.counters, ip), ev.at).None? {
        windows', start' := windows + 1, ev.at;
      }
    }
  }

  lemma {:induction false} RunCounted(evs: seq<Event>, ip: string, limit: nat, window: nat, last: int)
    returns (windows: nat, start: int)
    requires forall e :: e in evs && e.Scans? && e.ip == ip
                         ==> e.cfg.limit == limit && e.cfg.window == window && e.at <= last
    ensures Counted(Find(Exec(evs).redis.counters, ip), windows, start, UseOf(evs, ip), limit, window)
    ensures windows > 0 ==> start <= last
  {
    windows, start := 0, 0;
    if evs != [] {
      var front, ev := evs[..|evs| - 1], evs[|evs| - 1];
      assert ev in evs && forall e :: e in front ==> e in evs;
      windows, start := RunCounted(front, ip, limit, window, last);
      windows, start := CountedStep(Exec(front).redis, windows, start, UseOf(front, ip), ev, ip, limit, window);
    }
  }

  lemma WindowsFit(counter: Option<Entry<nat>>, windows: nat, start: int, u: Use, limit: nat, window: nat, span: nat)
    requires window > 0 && Counted(counter, windows, start, u, limit, window)
    requires windows > 0 ==> start <= u.first + span
    ensures u.free <= limit * (span / window + 1)
  {
    if windows == 0 {
      ProductOrdered(limit, 0, span / window + 1);
    } else {
      SumsFit(windows, window, span, limit);
    }
  }

  /** Over every run, while an address's limit and window stay as they are, its scans that spend no
      challenge number at most limit * (span / window + 1) within `span` of the first accepted one. */
  lemma FreeScansBounded(evs: seq<Event>, ip: string, limit: nat, window: nat, span: nat)
    requires window > 0
    requires forall e :: e in evs && e.Scans? && e.ip == ip
                         ==> e.cfg.limit == limit && e.cfg.window == window && e.at <= UseOf(evs, ip).first + span
    ensures UseOf(evs, ip).free <= limit * (span / window + 1)
  {
    var windows, start := RunCounted(evs, ip, limit, window, UseOf(evs, ip).first + span);
    WindowsFit(Find(Exec(evs).redis.counters, ip), windows, start, UseOf(evs, ip), limit, window, span);
  }

  predicate WindowCounted(counter: Option<Entry<nat>>, inWindow: nat, limit: nat) {
    inWindow <= if counter.Some? then AtMost(counter.value.value, limit) else 0
  }

  /** At any point of any run, the scans an address got without spending a challenge since its counter
      was last created are at most the largest limit it met: so at most the limit in every window,
      whatever the window's length and however settings change. */
  lemma {:induction false} FreeScansInAnyWindow(evs: seq<Event>, ip: string, limit: nat)
    requires forall e :: e in evs && e.Scans? && e.ip == ip ==> e.cfg.limit <= limit
    ensures UseOf(evs, ip).inWindow <= limit
    ensures WindowCounted(Find(Exec(evs).redis.counters, ip), UseOf(evs, ip).inWindow, limit)
  {
    if evs != [] {
      var front, ev := evs[..|evs| - 1], evs[|evs| - 1];
      assert ev in evs && forall e :: e in front ==> e in evs;
      FreeScansInAnyWindow(front, ip, limit);
      WindowStep(Exec(front), UseOf(front, ip), ev, ip, limit);
    }
  }

  lemma WindowStep(s: State, u: Use, ev: Event, ip: string, limit: nat)
    requires WindowCounted(Find(s.redis.counters, ip), u.inWindow, limit)
    requires ev.Scans? && ev.ip == ip ==> ev.cfg.limit <= limit
    ensures WindowCounted(Find(Next(s, ev).redis.counters, ip), More(s.redis, u, ev, ip).inWindow, limit)
  {
  }
}
