/**
 Device-bound sessions with rotating refresh tokens.  Each endpoint is one database
 transaction.  Token hashing is injective, so a session is keyed by its token; tokens,
 devices and families are drawn fresh, so an event naming a used one cannot happen.
 */
module Sessions {
  import opened Common
  import opened Expiry

  type Token = nat
  type User = nat
  type Device = nat
  type Family = nat

  datatype Session = Session(user: User, device: Device, family: Family, expires: int, revokedAt: Option<int>)

  /** Sixty days in milliseconds. */
  const REFRESH_TTL := 5_184_000_000

  datatype Event =
    | SignIn(user: User, device: Device, family: Family, token: Token, at: int)
    | Refresh(presented: Token, minted: Token, at: int)
    | RevokeDevice(user: User, device: Device, at: int)
    | Erase(user: User)

  datatype Answer = Done | Rotated | NoSession | ReuseDetected | Expired

  /** The sessions table. */
  type Table = map<Token, Session>

  function Revoked(t: Table, dead: set<Token>, at: int): Table {
    map k | k in t :: if k in dead then t[k].(revokedAt := Some(at)) else t[k]
  }

  function LiveOfFamily(t: Table, f: Family): set<Token> {
    set k | k in t && t[k].family == f && t[k].revokedAt.None?
  }

  function OfDevice(t: Table, u: User, d: Device): set<Token> {
    set k | k in t && t[k].device == d && t[k].user == u
  }

  /** One transaction. */
  function Next(t: Table, ev: Event): (Table, Answer) {
    match ev
    case SignIn(u, d, f, k, at) => (t[k := Session(u, d, f, at + REFRESH_TTL, None)], Done)
    case Refresh(k, k2, at) =>
      if k !in t then (t, NoSession)
      else if t[k].revokedAt.Some? then (Revoked(t, LiveOfFamily(t, t[k].family), at), ReuseDetected)
      else if t[k].expires < at then (t, Expired)
      else
        var s := t[k];
        (t[k := s.(revokedAt := Some(at))][k2 := s.(expires := at + REFRESH_TTL)], Rotated)
    case RevokeDevice(u, d, at) => (Revoked(t, OfDevice(t, u, d), at), Done)
    case Erase(u) => (map k | k in t && t[k].user != u :: t[k], Done)
  }

  class AuthSessions {
    var sessions: Table

    constructor ()
      ensures sessions == map[]
    {
      sessions := map[];
    }

    method SignInDevice(user: User, device: Device, family: Family, token: Token, now: int)
      modifies this
      ensures (sessions, Done) == Next(old(sessions), SignIn(user, device, family, token, now))
    {
      sessions := sessions[token := Session(user, device, family, now + REFRESH_TTL, None)];
    }

    /** `minted` is the token the generator would draw. */
    method RefreshToken(presented: Token, minted: Token, now: int) returns (answer: Answer)
      modifies this
      ensures (sessions, answer) == Next(old(sessions), Refresh(presented, minted, now))
    {
      if presented !in sessions {
        return NoSession;
      }
      var sess := sessions[presented];
      if sess.revokedAt.Some? {
        var live := set k | k in sessions && sessions[k].family == sess.family && sessions[k].revokedAt.None?;
        sessions := Revoked(sessions, live, now);
        return ReuseDetected;
      }
      if sess.expires < now {
        return Expired;
      }
      sessions := sessions[presented := sess.(revokedAt := Some(now))];
      sessions := sessions[minted := Session(sess.user, sess.device, sess.family, now + REFRESH_TTL, None)];
      return Rotated;
    }

    method RevokeDeviceOf(user: User, device: Device, now: int)
      modifies this
      ensures (sessions, Done) == Next(old(sessions), RevokeDevice(user, device, now))
    {
      var mine := set k | k in sessions && sessions[k].device == device && sessions[k].user == user;
      sessions := Revoked(sessions, mine, now);
    }

    method EraseMyData(user: User)
      modifies this
      ensures (sessions, Done) == Next(old(sessions), Erase(user))
    {
      var kept := map k | k in sessions && sessions[k].user != user :: sessions[k];
      assert kept == Next(sessions, Erase(user)).0;
      sessions := kept;
    }
  }

  // ---------- what has happened, kept apart from the table ----------

  /** What a token was issued for, and when. */
  datatype Issue = Issue(user: User, device: Device, family: Family, at: int)

  /** Every token ever issued, the newest token of each family, and what befell them: `redeemed`
      tokens were rotated, a family is `burnt` when a dead token of it was presented, a
      user's device is `cut` when they revoked it, and `erased` tokens had their user's data erased. */
  datatype History = History(issued: map<Token, Issue>, newest: map<Family, Token>, redeemed: set<Token>,
                             burnt: set<Family>, cut: set<(User, Device)>, erased: set<Token>)

  function Record(h: History, ev: Event, answer: Answer): History {
    match ev
    case SignIn(u, d, f, k, at) =>
      h.(issued := h.issued[k := Issue(u, d, f, at)], newest := h.newest[f := k])
    case Refresh(k, k2, at) =>
      if k !in h.issued then h
      else if answer == Rotated then
        h.(issued := h.issued[k2 := h.issued[k].(at := at)],
           newest := h.newest[h.issued[k].family := k2],
           redeemed := h.redeemed + {k})
      else if answer == ReuseDetected then h.(burnt := h.burnt + {h.issued[k].family})
      else h
    case RevokeDevice(u, d, at) =>
      h.(cut := h.cut + set k | k in h.issued && h.issued[k].device == d && h.issued[k].user == u :: (u, d))
    case Erase(u) => h.(erased := h.erased + set k | k in h.issued && h.issued[k].user == u)
  }

  datatype State = State(table: Table, hist: History)

  const Start := State(map[], History(map[], map[], {}, {}, {}, {}))

  function Step(s: State, ev: Event): State {
    var (t, answer) := Next(s.table, ev);
    State(t, Record(s.hist, ev, answer))
  }

  function Exec(s: State, evs: seq<Event>): State {
    if evs == [] then s else Step(Exec(s, evs[..|evs| - 1]), evs[|evs| - 1])
  }

  /** Drawn fresh: no event reuses a token, and a sign-in brings its own device and family. */
  ghost predicate FreshEvent(h: History, ev: Event) {
    match ev
    case SignIn(u, d, f, k, at) =>
      k !in h.issued && f !in h.newest && forall x :: x in h.issued ==> h.issued[x].device != d
    case Refresh(k, k2, at) => k2 !in h.issued
    case _ => true
  }

  ghost predicate FreshRun(s: State, evs: seq<Event>) {
    evs != [] ==>
      FreshRun(s, evs[..|evs| - 1]) && FreshEvent(Exec(s, evs[..|evs| - 1]).hist, evs[|evs| - 1])
  }

  // ---------- the table is what happened ----------

  /** A token can still be redeemed, as far as the history says. */
  predicate Usable(h: History, k: Token) {
    && k in h.issued && k !in h.redeemed && k !in h.erased
    && h.issued[k].family !in h.burnt && (h.issued[k].user, h.issued[k].device) !in h.cut
  }

  predicate RowAgrees(h: History, k: Token, row: Session)
    requires k in h.issued
  {
    && row.user == h.issued[k].user && row.device == h.issued[k].device && row.family == h.issued[k].family
    && row.expires == h.issued[k].at + 5_184_000_000
    && (row.revokedAt.None? <==> Usable(h, k))
  }

  ghost predicate Agrees(s: State) {
    && (forall k :: k in s.table <==> k in s.hist.issued && k !in s.hist.erased)
    && (forall k :: k in s.table ==> RowAgrees(s.hist, k, s.table[k]))
  }

  /** The fates name only what was issued. */
  ghost predicate Known(h: History) {
    && h.redeemed <= h.issued.Keys && h.erased <= h.issued.Keys && h.burnt <= h.newest.Keys
    && forall o :: o in h.cut ==> exists k :: k in h.issued && h.issued[k].device == o.1
  }

  /** A token belongs to its family: same owner and device as the newest one, and usable only
      if it is the newest one. */
  predicate Belongs(h: History, k: Token)
    requires k in h.issued
  {
    var f := h.issued[k].family;
    && f in h.newest && h.newest[f] in h.issued
    && h.issued[h.newest[f]].(at := 0) == h.issued[k].(at := 0)
    && (Usable(h, k) ==> h.newest[f] == k)
  }

  ghost predicate Good(s: State) {
    Agrees(s) && Known(s.hist) && forall k :: k in s.hist.issued ==> Belongs(s.hist, k)
  }

  lemma SignInFates(h: History, h': History, ev: Event)
    requires ev.SignIn? && Known(h) && FreshEvent(h, ev) && h' == Record(h, ev, Done)
    requires forall k :: k in h.issued ==> Belongs(h, k)
    ensures Known(h') && (forall k :: k in h'.issued ==> Belongs(h', k)) && Usable(h', ev.token)
    ensures forall k :: k in h.issued ==> h'.issued[k] == h.issued[k] && (Usable(h', k) <==> Usable(h, k))
  {
    assert (ev.user, ev.device) !in h.cut;
    CutKnown(h, h');
    forall k | k in h'.issued ensures Belongs(h', k) {
      assert k == ev.token || Belongs(h, k);
    }
  }

  lemma CutKnown(h: History, h': History)
    requires Known(h) && h'.cut == h.cut
    requires forall k :: k in h.issued ==> k in h'.issued && h'.issued[k] == h.issued[k]
    ensures forall o :: o in h'.cut ==> exists k :: k in h'.issued && h'.issued[k].device == o.1
  {
    forall o | o in h'.cut ensures exists k :: k in h'.issued && h'.issued[k].device == o.1 {
      var k :| k in h.issued && h.issued[k].device == o.1;
      assert k in h'.issued;
    }
  }

  lemma SignInAgrees(s: State, ev: Event)
    requires ev.SignIn? && Good(s) && FreshEvent(s.hist, ev)
    ensures Good(Step(s, ev))
  {
    SignInFates(s.hist, Step(s, ev).hist, ev);
  }

  lemma RotationFates(h: History, h': History, ev: Event)
    requires ev.Refresh? && Known(h) && FreshEvent(h, ev) && Usable(h, ev.presented) && h' == Record(h, ev, Rotated)
    requires forall k :: k in h.issued ==> Belongs(h, k)
    ensures Known(h') && (forall k :: k in h'.issued ==> Belongs(h', k)) && Usable(h', ev.minted)
    ensures forall k :: k in h.issued ==>
              h'.issued[k] == h.issued[k] && (Usable(h', k) <==> Usable(h, k) && k != ev.presented)
  {
    CutKnown(h, h');
    assert Belongs(h, ev.presented);
    forall k | k in h'.issued ensures Belongs(h', k) {
      assert k == ev.minted || Belongs(h, k);
    }
  }

  lemma RotationAgrees(s: State, ev: Event)
    requires ev.Refresh? && Good(s) && FreshEvent(s.hist, ev)
    requires Next(s.table, ev).1 == Rotated
    ensures Good(Step(s, ev))
  {
    assert RowAgrees(s.hist, ev.presented, s.table[ev.presented]);
    RotationFates(s.hist, Step(s, ev).hist, ev);
  }

  lemma ReuseAgrees(s: State, ev: Event)
    requires ev.Refresh? && Good(s)
    requires Next(s.table, ev).1 == ReuseDetected
    ensures Good(Step(s, ev))
  {
    var (h, h') := (s.hist, Step(s, ev).hist);
    assert RowAgrees(h, ev.presented, s.table[ev.presented]) && Belongs(h, ev.presented);
    var f := h.issued[ev.presented].family;
    assert forall k :: Usable(h', k) <==> Usable(h, k) && h.issued[k].family != f;
  }

  lemma RevocationAgrees(s: State, ev: Event)
    requires ev.RevokeDevice? && Good(s)
    ensures Good(Step(s, ev))
  {
  }

  lemma ErasureAgrees(s: State, ev: Event)
    requires ev.Erase? && Good(s)
    ensures Good(Step(s, ev))
  {
    var (h, h') := (s.hist, Step(s, ev).hist);
    assert forall k :: Usable(h', k) <==> Usable(h, k) && h.issued[k].user != ev.user;
  }

  lemma StepAgrees(s: State, ev: Event)
    requires Good(s) && FreshEvent(s.hist, ev)
    ensures Good(Step(s, ev))
  {
    match ev
    case SignIn(_, _, _, _, _) => SignInAgrees(s, ev);
    case Refresh(_, _, _) =>
      if Next(s.table, ev).1 == Rotated {
        RotationAgrees(s, ev);
      } else if Next(s.table, ev).1 == ReuseDetected {
        ReuseAgrees(s, ev);
      }
    case RevokeDevice(_, _, _) => RevocationAgrees(s, ev);
    case Erase(_) => ErasureAgrees(s, ev);
  }

  lemma {:induction false} RunAgrees(evs: seq<Event>)
    requires FreshRun(Start, evs)
    ensures Good(Exec(Start, evs))
  {
    if evs != [] {
      RunAgrees(evs[..|evs| - 1]);
      StepAgrees(Exec(Start, evs[..|evs| - 1]), evs[|evs| - 1]);
    }
  }

  // ---------- nothing that died comes back ----------

  /** `g` extends `h`: issues stand, and fates only accumulate. */
  ghost predicate Extends(h: History, g: History) {
    && (forall k :: k in h.issued ==> k in g.issued && g.issued[k] == h.issued[k])
    && h.redeemed <= g.redeemed && h.burnt <= g.burnt && h.cut <= g.cut && h.erased <= g.erased
  }

  lemma StepExtends(s: State, ev: Event)
    requires FreshEvent(s.hist, ev)
    ensures Extends(s.hist, Step(s, ev).hist)
  {
  }

  /** How the i-th transaction of a run was answered. */
  function AnswerAt(evs: seq<Event>, i: nat): Answer
    requires i < |evs|
  {
    Next(Exec(Start, evs[..i]).table, evs[i]).1
  }

  lemma {:induction false} PrefixFresh(evs: seq<Event>, i: nat)
    requires i <= |evs| && FreshRun(Start, evs)
    ensures FreshRun(Start, evs[..i])
    ensures Extends(Exec(Start, evs[..i]).hist, Exec(Start, evs).hist)
  {
    if i == |evs| {
      assert evs[..i] == evs;
    } else {
      var front := evs[..|evs| - 1];
      PrefixFresh(front, i);
      assert front[..i] == evs[..i];
      StepExtends(Exec(Start, front), evs[|evs| - 1]);
    }
  }

  lemma PrefixStep(evs: seq<Event>, i: nat)
    requires i < |evs|
    ensures Exec(Start, evs[..i + 1]) == Step(Exec(Start, evs[..i]), evs[i])
  {
    assert evs[..i + 1][..i] == evs[..i];
  }

  lemma AfterStep(evs: seq<Event>, i: nat)
    requires i < |evs| && FreshRun(Start, evs)
    ensures Good(Exec(Start, evs[..i])) && Good(Exec(Start, evs))
    ensures Extends(Step(Exec(Start, evs[..i]), evs[i]).hist, Exec(Start, evs).hist)
  {
    PrefixFresh(evs, i);
    PrefixFresh(evs, i + 1);
    PrefixStep(evs, i);
    RunAgrees(evs);
    RunAgrees(evs[..i]);
  }

  /** What a state says of one token. */
  lemma OutcomeIn(s: State, k: Token, k2: Token, at: int)
    requires Good(s)
    ensures var answer := Next(s.table, Refresh(k, k2, at)).1;
            && (answer == NoSession <==> k !in s.hist.issued || k in s.hist.erased)
            && (answer == Rotated <==> Usable(s.hist, k) && at <= s.hist.issued[k].at + 5_184_000_000)
            && (answer == Expired <==> Usable(s.hist, k) && s.hist.issued[k].at + 5_184_000_000 < at)
  {
    assert k in s.table ==> RowAgrees(s.hist, k, s.table[k]);
  }

  /** Over every run, what presenting a token is answered depends exactly on what befell it, and on
      whether sixty days have passed since it was issued. */
  lemma RefreshOutcome(evs: seq<Event>, k: Token, k2: Token, at: int)
    requires FreshRun(Start, evs)
    ensures var s := Exec(Start, evs); var h := s.hist; var answer := Next(s.table, Refresh(k, k2, at)).1;
            && (answer == NoSession <==> k !in h.issued || k in h.erased)
            && (answer == Rotated <==> Usable(h, k) && at <= h.issued[k].at + 5_184_000_000)
            && (answer == Expired <==> Usable(h, k) && h.issued[k].at + 5_184_000_000 < at)
            && (answer == ReuseDetected <==> k in h.issued && k !in h.erased && !Usable(h, k))
  {
    RunAgrees(evs);
    OutcomeIn(Exec(Start, evs), k, k2, at);
  }

  lemma OneLiveIn(s: State, j: Token, k: Token)
    requires Good(s) && j in s.table && k in s.table && s.table[j].family == s.table[k].family
    ensures s.table[j].user == s.table[k].user && s.table[j].device == s.table[k].device
    ensures s.table[j].revokedAt.None? && s.table[k].revokedAt.None? ==> j == k
  {
    assert RowAgrees(s.hist, j, s.table[j]) && RowAgrees(s.hist, k, s.table[k]);
    assert Belongs(s.hist, j) && Belongs(s.hist, k);
  }

  /** Over every run, two rows of one family share user and device, and at most one is unrevoked. */
  lemma OneLiveSessionPerFamily(evs: seq<Event>, j: Token, k: Token)
    requires FreshRun(Start, evs)
    requires var t := Exec(Start, evs).table; j in t && k in t && t[j].family == t[k].family
    ensures var t := Exec(Start, evs).table;
            && t[j].user == t[k].user && t[j].device == t[k].device
            && (t[j].revokedAt.None? && t[k].revokedAt.None? ==> j == k)
  {
    RunAgrees(evs);
    OneLiveIn(Exec(Start, evs), j, k);
  }

  /** A token that was rotated once is never rotated again, whatever happens in between. */
  lemma RedeemedOnce(evs: seq<Event>, i: nat, j: nat)
    requires FreshRun(Start, evs) && i < j < |evs|
    requires evs[i].Refresh? && evs[j].Refresh? && evs[i].presented == evs[j].presented
    requires AnswerAt(evs, i) == Rotated
    ensures AnswerAt(evs, j) != Rotated
  {
    var front := evs[..j];
    PrefixFresh(evs, j);
    AfterStep(front, i);
    assert front[..i] == evs[..i];
    var k := evs[i].presented;
    OutcomeIn(Exec(Start, evs[..i]), k, evs[i].minted, evs[i].at);
    assert k in Exec(Start, front).hist.redeemed;
    OutcomeIn(Exec(Start, front), k, evs[j].minted, evs[j].at);
  }

  /** A transaction stamps the rows it revokes with its own time, a refresh only ones that were
      not revoked; it adds at most one row, which is not revoked, and leaves every other row as
      it is or, for an erasure, deletes it. */
  lemma RowsTouched(t: Table, ev: Event, k: Token)
    requires ev.SignIn? ==> ev.token !in t
    requires ev.Refresh? ==> ev.minted !in t
    ensures var t' := Next(t, ev).0;
            && (k in t && k in t' ==> t'[k] == t[k] || (!ev.Erase? && t'[k] == t[k].(revokedAt := Some(ev.at))))
            && (k in t && k in t' && t[k].revokedAt.Some? && ev.Refresh? ==> t'[k] == t[k])
            && (k in t && k !in t' ==> ev.Erase? && t[k].user == ev.user)
            && (k !in t && k in t' ==>
                  && t'[k].revokedAt == None
                  && ((ev.SignIn? && k == ev.token) || (ev.Refresh? && k == ev.minted)))
  {
  }

  /** Once a dead token is presented, no token its family ever issues, before or after, is
      rotated again. */
  lemma ReuseKillsTheFamily(evs: seq<Event>, i: nat, j: nat)
    requires FreshRun(Start, evs) && i < j < |evs| && evs[i].Refresh? && evs[j].Refresh?
    requires AnswerAt(evs, i) == ReuseDetected
    requires var h := Exec(Start, evs[..j]).hist;
             && evs[i].presented in h.issued && evs[j].presented in h.issued
             && h.issued[evs[j].presented].family == h.issued[evs[i].presented].family
    ensures AnswerAt(evs, j) != Rotated
  {
    var front := evs[..j];
    PrefixFresh(evs, j);
    AfterStep(front, i);
    assert front[..i] == evs[..i];
    var (h, g) := (Exec(Start, evs[..i]).hist, Exec(Start, front).hist);
    OutcomeIn(Exec(Start, evs[..i]), evs[i].presented, evs[i].minted, evs[i].at);
    assert g.issued[evs[i].presented].family in g.burnt;
    OutcomeIn(Exec(Start, front), evs[j].presented, evs[j].minted, evs[j].at);
  }

  /** Once a user revokes a device they have signed in on, no token that device ever holds,
      before or after, is rotated again. */
  lemma RevokedDeviceStaysOut(evs: seq<Event>, i: nat, j: nat)
    requires FreshRun(Start, evs) && i < j < |evs| && evs[i].RevokeDevice? && evs[j].Refresh?
    requires exists k :: var h := Exec(Start, evs[..i]).hist;
                         k in h.issued && h.issued[k].user == evs[i].user && h.issued[k].device == evs[i].device
    requires var h := Exec(Start, evs[..j]).hist;
             && evs[j].presented in h.issued
             && h.issued[evs[j].presented].user == evs[i].user && h.issued[evs[j].presented].device == evs[i].device
    ensures AnswerAt(evs, j) != Rotated
  {
    var front := evs[..j];
    PrefixFresh(evs, j);
    AfterStep(front, i);
    assert front[..i] == evs[..i];
    var (h, g) := (Exec(Start, evs[..i]).hist, Exec(Start, front).hist);
    assert (evs[i].user, evs[i].device) in g.cut;
    OutcomeIn(Exec(Start, front), evs[j].presented, evs[j].minted, evs[j].at);
  }

  /** Erasure signs every session of the user out for good; tokens of later sign-ins are new. */
  lemma ErasedTokensAreUnknown(evs: seq<Event>, i: nat, j: nat)
    requires FreshRun(Start, evs) && i < j < |evs| && evs[i].Erase? && evs[j].Refresh?
    requires var h := Exec(Start, evs[..i]).hist;
             evs[j].presented in h.issued && h.issued[evs[j].presented].user == evs[i].user
    ensures AnswerAt(evs, j) == NoSession
  {
    var front := evs[..j];
    PrefixFresh(evs, j);
    AfterStep(front, i);
    assert front[..i] == evs[..i];
    assert evs[j].presented in Exec(Start, front).hist.erased;
    OutcomeIn(Exec(Start, front), evs[j].presented, evs[j].minted, evs[j].at);
  }
}
