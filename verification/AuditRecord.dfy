/**
 One audit's stored record under processing, redelivery, failure, crash and expert
 review.  `process` works on a session whose writes reach the database only at its
 commits; its exception handler commits whatever was written so far, plus the
 status `failed`.  Every event below ends in at most one commit.
 */
module AuditRecord {
  import opened AuditStatus
  import opened Common
  import opened Scoring

  datatype AuditRow = AuditRow(status: Status, overall: Option<real>, band: Option<Band>, guardrail: bool,
                               compliance: Option<Compliance>, how: Method, confidence: Confidence)

  /** The audit row, its score rows, and its stored critical accessibility findings. */
  datatype Db = Db(row: AuditRow, scores: Scores, criticals: nat)

  /** One assignment or insertion in a session; `Other` touches nothing modelled here. */
  datatype Write =
    | SetStatus(status: Status)
    | SetOverall(overall: Option<real>)
    | SetBand(band: Option<Band>)
    | SetGuardrail(guardrail: bool)
    | SetCompliance(compliance: Compliance)
    | SetHow(how: Method)
    | SetConfidence(confidence: Confidence)
    | PutScore(category: Category, score: real)
    | AddCritical
    | Other

  function Apply(db: Db, w: Write): Db {
    match w
    case SetStatus(x) => db.(row := db.row.(status := x))
    case SetOverall(x) => db.(row := db.row.(overall := x))
    case SetBand(x) => db.(row := db.row.(band := x))
    case SetGuardrail(x) => db.(row := db.row.(guardrail := x))
    case SetCompliance(x) => db.(row := db.row.(compliance := Some(x)))
    case SetHow(x) => db.(row := db.row.(how := x))
    case SetConfidence(x) => db.(row := db.row.(confidence := x))
    case PutScore(c, x) => db.(scores := db.scores[c := x])
    case AddCritical => db.(criticals := db.criticals + 1)
    case Other => db
  }

  function ApplyAll(db: Db, ws: seq<Write>): Db {
    if ws == [] then db else Apply(ApplyAll(db, ws[..|ws| - 1]), ws[|ws| - 1])
  }

  lemma {:induction false} ApplyAppends(db: Db, a: seq<Write>, b: seq<Write>)
    ensures ApplyAll(db, a + b) == ApplyAll(ApplyAll(db, a), b)
  {
    if b == [] {
      assert a + b == a;
    } else {
      assert (a + b)[..|a + b| - 1] == a + b[..|b| - 1];
      ApplyAppends(db, a, b[..|b| - 1]);
    }
  }

  /** What one run of the engine and the checks beside it found.  `captured` is the evidence
      gate's condition; `categories` are the scores after the design and field-data overrides. */
  datatype Evidence = Evidence(captured: bool, categories: Scores, criticals: nat, flagged: bool)

  /** As the pipeline produces it: all eight categories, in range, at one decimal. */
  ghost predicate Proper(e: Evidence) {
    Full(e.categories) && InRange(e.categories) && OneDecimal(e.categories)
  }

  function VerdictOf(e: Evidence): Verdict {
    ComplianceVerdict(ComputeScore(e.categories).categories, e.criticals, false, e.flagged)
  }

  /** The session's writes between the `analyzing` commit and the refusal commit, in order. */
  function RefusalWrites(): seq<Write> {
    [SetStatus(InsufficientEvidence), SetOverall(None), SetBand(None), SetCompliance(NotAssessed)]
    + [SetHow(Automated), Other, Other, Other]
  }

  function ScoreWrites(s: Scores, cs: seq<Category>): seq<Write>
    requires Full(s)
  {
    if cs == [] then [] else ScoreWrites(s, cs[..|cs| - 1]) + [PutScore(cs[|cs| - 1], s[cs[|cs| - 1]])]
  }

  function FindingWrites(n: nat): seq<Write> {
    if n == 0 then [] else FindingWrites(n - 1) + [AddCritical]
  }

  function VerdictWrites(e: Evidence): seq<Write> {
    var v, r := VerdictOf(e), ComputeScore(e.categories);
    [SetCompliance(v.status), SetHow(v.how), SetConfidence(v.confidence), Other]
    + [SetOverall(Some(r.overall)), SetBand(Some(r.band)), SetGuardrail(r.guardrailActive), SetStatus(Completed)]
  }

  /** The session's writes between the `scoring` commit and the `completed` commit, in order. */
  function CompletionWrites(e: Evidence): seq<Write> {
    StoredRows(e.categories);
    ScoreWrites(ComputeScore(e.categories).categories, CATEGORIES) + FindingWrites(e.criticals) + VerdictWrites(e)
  }

  // ---------- the life of the record ----------

  datatype Phase = Idle | AtEngine | AtGate(e: Evidence) | AtScore(e: Evidence) | InTail

  datatype State = State(db: Db, phase: Phase)

  datatype Event =
    | Begin
    | EngineRaises
    | EngineReturns(e: Evidence)
    | GateRefuses
    | GatePasses
    | GateRaises(written: nat)
    | Complete
    | ScoreRaises(written: nat)
    | TailRaises
    | Finish
    | Crash
    | Review(approved: bool)

  const NewAudit := State(Db(AuditRow(Queued, None, None, false, None, Automated, AutomatedOnly), map[], 0), Idle)

  function Take(ws: seq<Write>, n: nat): seq<Write> {
    if n <= |ws| then ws[..n] else ws
  }

  function Fail(db: Db, written: seq<Write>): Db {
    Apply(ApplyAll(db, written), SetStatus(Failed))
  }

  /** Only a completed audit can be reviewed; the verdict is re-derived from what is stored. */
  function Reviewed(db: Db, approved: bool): Db {
    if db.row.status != Completed then db
    else
      var v := if approved then ComplianceVerdict(db.scores, db.criticals, true, false)
               else Verdict(NonCompliant, ExpertReviewed, ExpertVerified);
      ApplyAll(db, [SetCompliance(v.status), SetHow(v.how), SetConfidence(v.confidence), Other])
  }

  function Next(s: State, ev: Event): State {
    match (ev, s.phase)
    case (Begin, Idle) => State(Apply(s.db, SetStatus(Crawling)), AtEngine)
    case (EngineRaises, AtEngine) => State(Fail(s.db, []), Idle)
    case (EngineReturns(e), AtEngine) => State(Apply(s.db, SetStatus(Analyzing)), AtGate(e))
    case (GateRefuses, AtGate(e)) => if e.captured then s else State(ApplyAll(s.db, RefusalWrites()), InTail)
    case (GatePasses, AtGate(e)) => if e.captured then State(Apply(s.db, SetStatus(Scored)), AtScore(e)) else s
    case (GateRaises(n), AtGate(e)) => State(Fail(s.db, if e.captured then [] else Take(RefusalWrites(), n)), Idle)
    case (Complete, AtScore(e)) => State(ApplyAll(s.db, CompletionWrites(e)), InTail)
    case (ScoreRaises(n), AtScore(e)) => State(Fail(s.db, Take(CompletionWrites(e), n)), Idle)
    case (TailRaises, InTail) => State(Fail(s.db, []), Idle)
    case (Finish, InTail) => State(s.db, Idle)
    case (Crash, _) => State(s.db, Idle)
    case (Review(ok), _) => State(Reviewed(s.db, ok), s.phase)
    case _ => s
  }

  function Exec(s: State, evs: seq<Event>): State {
    if evs == [] then s else Next(Exec(s, evs[..|evs| - 1]), evs[|evs| - 1])
  }

  // ---------- what the writes do ----------

  /** The rows of `cs` hold the scores `s`; nothing else changed. */
  ghost predicate HoldsScores(db: Db, d: Db, s: Scores, cs: seq<Category>)
    requires Full(s)
  {
    && d.row == db.row && d.criticals == db.criticals
    && (forall c :: c in d.scores <==> c in db.scores || c in cs)
    && (forall c :: c in d.scores ==> d.scores[c] == if c in cs then s[c] else db.scores[c])
  }

  lemma OneScoreWritten(db: Db, d: Db, s: Scores, cs: seq<Category>, last: Category)
    requires Full(s) && HoldsScores(db, d, s, cs)
    ensures HoldsScores(db, Apply(d, PutScore(last, s[last])), s, cs + [last])
  {
  }

  lemma {:induction false} ScoresWritten(db: Db, s: Scores, cs: seq<Category>)
    requires Full(s)
    ensures HoldsScores(db, ApplyAll(db, ScoreWrites(s, cs)), s, cs)
  {
    if cs != [] {
      var front, last := cs[..|cs| - 1], cs[|cs| - 1];
      ScoresWritten(db, s, front);
      OneScoreWritten(db, ApplyAll(db, ScoreWrites(s, front)), s, front, last);
      ApplyMore(db, ScoreWrites(s, front), PutScore(last, s[last]));
      assert cs == front + [last];
    }
  }

  lemma ApplyMore(db: Db, ws: seq<Write>, w: Write)
    ensures ApplyAll(db, ws + [w]) == Apply(ApplyAll(db, ws), w)
  {
    assert (ws + [w])[..|ws|] == ws;
  }

  lemma {:induction false} FindingsWritten(db: Db, n: nat)
    ensures ApplyAll(db, FindingWrites(n)) == db.(criticals := db.criticals + n)
  {
    if n > 0 {
      FindingsWritten(db, n - 1);
      assert FindingWrites(n)[..|FindingWrites(n)| - 1] == FindingWrites(n - 1);
    }
  }

  lemma ApplyFour(db: Db, a: Write, b: Write, c: Write, d: Write)
    ensures ApplyAll(db, [a, b, c, d]) == Apply(Apply(Apply(Apply(db, a), b), c), d)
  {
    assert [a][..0] == [] && [a, b][..1] == [a] && [a, b, c][..2] == [a, b] && [a, b, c, d][..3] == [a, b, c];
    assert ApplyAll(db, [a]) == Apply(db, a);
    assert ApplyAll(db, [a, b]) == Apply(Apply(db, a), b);
    assert ApplyAll(db, [a, b, c]) == Apply(Apply(Apply(db, a), b), c);
  }

  lemma RefusalWritten(db: Db)
    ensures ApplyAll(db, RefusalWrites())
            == db.(row := AuditRow(InsufficientEvidence, None, None, db.row.guardrail, Some(NotAssessed),
                                   Automated, db.row.confidence))
  {
    var ws := RefusalWrites();
    ApplyAppends(db, ws[..4], ws[4..]);
    ApplyFour(db, ws[0], ws[1], ws[2], ws[3]);
    ApplyFour(ApplyAll(db, ws[..4]), ws[4], ws[5], ws[6], ws[7]);
  }

  /** The row a completing run leaves: a function of its evidence alone. */
  function CompletedRow(e: Evidence): AuditRow {
    var v, r := VerdictOf(e), ComputeScore(e.categories);
    AuditRow(Completed, Some(r.overall), Some(r.band), r.guardrailActive, Some(v.status), v.how, v.confidence)
  }

  lemma VerdictWritten(db: Db, e: Evidence)
    ensures ApplyAll(db, VerdictWrites(e)) == db.(row := CompletedRow(e))
  {
    var ws := VerdictWrites(e);
    ApplyAppends(db, ws[..4], ws[4..]);
    ApplyFour(db, ws[0], ws[1], ws[2], ws[3]);
    ApplyFour(ApplyAll(db, ws[..4]), ws[4], ws[5], ws[6], ws[7]);
  }

  lemma CompletionWritten(db: Db, e: Evidence)
    ensures ApplyAll(db, CompletionWrites(e))
            == Db(CompletedRow(e), ComputeScore(e.categories).categories, db.criticals + e.criticals)
  {
    var stored := ComputeScore(e.categories).categories;
    StoredRows(e.categories);
    var scoring, findings := ScoreWrites(stored, CATEGORIES), FindingWrites(e.criticals);
    var d1 := ApplyAll(db, scoring);
    ScoresWritten(db, stored, CATEGORIES);
    forall c: Category ensures c in CATEGORIES { EveryCategoryListed(c); }
    assert d1.scores == stored;
    ApplyAppends(db, scoring, findings);
    FindingsWritten(d1, e.criticals);
    ApplyAppends(db, scoring + findings, VerdictWrites(e));
    VerdictWritten(ApplyAll(db, scoring + findings), e);
  }

  lemma ReviewWritten(db: Db, approved: bool)
    requires db.row.status == Completed
    ensures var v := if approved then ComplianceVerdict(db.scores, db.criticals, true, false)
                     else Verdict(NonCompliant, ExpertReviewed, ExpertVerified);
            Reviewed(db, approved)
            == db.(row := db.row.(compliance := Some(v.status), how := v.how, confidence := v.confidence))
  {
    var v := if approved then ComplianceVerdict(db.scores, db.criticals, true, false)
             else Verdict(NonCompliant, ExpertReviewed, ExpertVerified);
    ApplyFour(db, SetCompliance(v.status), SetHow(v.how), SetConfidence(v.confidence), Other);
  }

  // ---------- the invariant ----------

  /** A compliant verdict, on a record in any status, came from an expert. */
  ghost predicate ExpertBehindCompliant(row: AuditRow) {
    row.compliance == Some(Compliant) ==> row.how == ExpertReviewed && row.confidence == ExpertVerified
  }

  /** A completed record is scored, and re-scoring its eight stored rows gives that score, band and guard-rail flag. */
  ghost predicate ScoredFromRows(db: Db) {
    && Full(db.scores)
    && db.row.overall == Some(ComputeScore(db.scores).overall)
    && db.row.band == Some(ComputeScore(db.scores).band)
    && db.row.guardrail == ComputeScore(db.scores).guardrailActive
    && ComputeScore(db.scores).categories == db.scores
    && db.row.compliance.Some? && db.row.compliance != Some(NotAssessed)
  }

  ghost predicate CompliantOnRows(db: Db) {
    db.row.compliance == Some(Compliant) ==>
      Full(db.scores) && db.scores[Accessibility] >= A11Y_PASS && db.criticals == 0
  }

  ghost predicate RecordOk(db: Db) {
    && ExpertBehindCompliant(db.row)
    && (db.row.status == Completed ==> ScoredFromRows(db) && CompliantOnRows(db))
    && (db.row.status == InsufficientEvidence
        ==> db.row.overall == None && db.row.band == None && db.row.compliance == Some(NotAssessed))
  }

  /** While a run is between its first and last commit the record is not completed, so no review can
      interleave; in the tail it holds the run's outcome. */
  ghost predicate PhaseOk(s: State) {
    match s.phase
    case Idle => true
    case AtEngine => s.db.row.status == Crawling
    case AtGate(e) => s.db.row.status == Analyzing && Proper(e)
    case AtScore(e) => s.db.row.status == Scored && Proper(e)
    case InTail => s.db.row.status == Completed || s.db.row.status == InsufficientEvidence
  }

  ghost predicate Ok(s: State) { RecordOk(s.db) && PhaseOk(s) }

  ghost predicate ProperEvent(ev: Event) { ev.EngineReturns? ==> Proper(ev.e) }

  /** Writes that cannot leave an unreviewed compliant verdict at any prefix: they replace the verdict
      at place `i`, never by `compliant`, and touch method or confidence only after that. */
  ghost predicate Careful(ws: seq<Write>, i: nat)
    requires i <= |ws|
  {
    && (forall k :: 0 <= k < |ws| && ws[k].SetCompliance? ==> ws[k].compliance != Compliant)
    && (forall k :: 0 <= k < |ws| && (ws[k].SetHow? || ws[k].SetConfidence?) ==> i < k)
    && (forall k :: 0 <= k < i ==> !ws[k].SetCompliance?)
    && (i < |ws| ==> ws[i].SetCompliance?)
  }

  lemma WriteKeepsExpert(db: Db, before: Db, ws: seq<Write>, i: nat, n: nat)
    requires i <= |ws| && Careful(ws, i) && n < |ws|
    requires ExpertBehindCompliant(db.row) ==> ExpertBehindCompliant(before.row)
    requires before.row.compliance == Some(Compliant) <==> db.row.compliance == Some(Compliant) && n <= i
    ensures var after := Apply(before, ws[n]);
            && (ExpertBehindCompliant(db.row) ==> ExpertBehindCompliant(after.row))
            && (after.row.compliance == Some(Compliant) <==> db.row.compliance == Some(Compliant) && n + 1 <= i)
  {
  }

  lemma {:induction false} PrefixKeepsExpert(db: Db, ws: seq<Write>, i: nat, n: nat)
    requires i <= |ws| && Careful(ws, i) && n <= |ws|
    ensures ExpertBehindCompliant(db.row) ==> ExpertBehindCompliant(ApplyAll(db, ws[..n]).row)
    ensures ApplyAll(db, ws[..n]).row.compliance == Some(Compliant) <==> db.row.compliance == Some(Compliant) && n <= i
  {
    if n > 0 {
      PrefixKeepsExpert(db, ws, i, n - 1);
      WriteKeepsExpert(db, ApplyAll(db, ws[..n - 1]), ws, i, n - 1);
      ApplyMore(db, ws[..n - 1], ws[n - 1]);
      assert ws[..n] == ws[..n - 1] + [ws[n - 1]];
    }
  }

  lemma {:induction false} ScoreWritesOnlyScores(s: Scores, cs: seq<Category>)
    requires Full(s)
    ensures |ScoreWrites(s, cs)| == |cs| && forall w :: w in ScoreWrites(s, cs) ==> w.PutScore?
  {
    if cs != [] {
      ScoreWritesOnlyScores(s, cs[..|cs| - 1]);
    }
  }

  lemma {:induction false} FindingWritesOnlyFindings(n: nat)
    ensures |FindingWrites(n)| == n && forall w :: w in FindingWrites(n) ==> w.AddCritical?
  {
    if n > 0 {
      FindingWritesOnlyFindings(n - 1);
    }
  }

  lemma CompletionCareful(e: Evidence)
    ensures |CATEGORIES| + e.criticals < |CompletionWrites(e)|
    ensures Careful(CompletionWrites(e), |CATEGORIES| + e.criticals)
  {
    StoredRows(e.categories);
    var stored := ComputeScore(e.categories).categories;
    var ws := CompletionWrites(e);
    var front := ScoreWrites(stored, CATEGORIES) + FindingWrites(e.criticals);
    ScoreWritesOnlyScores(stored, CATEGORIES);
    FindingWritesOnlyFindings(e.criticals);
    forall k | 0 <= k < |front| ensures ws[k].PutScore? || ws[k].AddCritical? {
      assert ws[k] == front[k];
      assert front[k] in ScoreWrites(stored, CATEGORIES) || front[k] in FindingWrites(e.criticals);
    }
    forall k | |front| <= k < |ws| ensures ws[k] == VerdictWrites(e)[k - |front|] {
    }
  }

  lemma FailKeepsRecord(db: Db, ws: seq<Write>, i: nat, n: nat)
    requires RecordOk(db) && i <= |ws| && Careful(ws, i)
    ensures RecordOk(Fail(db, Take(ws, n)))
  {
    PrefixKeepsExpert(db, ws, i, if n <= |ws| then n else |ws|);
    assert ws[..|ws|] == ws;
  }

  lemma CompletionKeepsRecord(db: Db, e: Evidence)
    requires Proper(e)
    ensures RecordOk(ApplyAll(db, CompletionWrites(e)))
    ensures ApplyAll(db, CompletionWrites(e)).row.status == Completed
  {
    CompletionWritten(db, e);
    StoredRows(e.categories);
    RescoringReproduces(e.categories);
  }

  lemma ReviewKeepsRecord(db: Db, approved: bool)
    requires RecordOk(db)
    ensures RecordOk(Reviewed(db, approved)) && Reviewed(db, approved).row.status == db.row.status
  {
    if db.row.status == Completed {
      ReviewWritten(db, approved);
    }
  }

  lemma Step(s: State, ev: Event)
    requires Ok(s) && ProperEvent(ev)
    ensures Ok(Next(s, ev))
  {
    match (ev, s.phase)
    case (EngineRaises, AtEngine) => FailKeepsRecord(s.db, [], 0, 0);
    case (GateRefuses, AtGate(e)) => RefusalWritten(s.db);
    case (GateRaises(n), AtGate(e)) =>
      FailKeepsRecord(s.db, [], 0, 0);
      FailKeepsRecord(s.db, RefusalWrites(), 3, n);
    case (Complete, AtScore(e)) => CompletionKeepsRecord(s.db, e);
    case (ScoreRaises(n), AtScore(e)) =>
      CompletionCareful(e);
      FailKeepsRecord(s.db, CompletionWrites(e), |CATEGORIES| + e.criticals, n);
    case (TailRaises, InTail) => FailKeepsRecord(s.db, [], 0, 0);
    case (Review(ok), _) => ReviewKeepsRecord(s.db, ok);
    case _ =>
  }

  /** Over every run of processing, redelivery, failure, crash and review. */
  lemma {:induction false} RecordInvariant(evs: seq<Event>)
    requires forall ev :: ev in evs ==> ProperEvent(ev)
    ensures Ok(Exec(NewAudit, evs))
  {
    if evs != [] {
      var last := evs[|evs| - 1];
      forall ev | ev in evs[..|evs| - 1] ensures ProperEvent(ev) { assert ev in evs; }
      RecordInvariant(evs[..|evs| - 1]);
      assert last in evs;
      Step(Exec(NewAudit, evs[..|evs| - 1]), last);
    }
  }

  /** A redelivered run that completes with the same evidence leaves the same row and score
      rows, whatever the record held before; only the stored findings accumulate. */
  lemma CompletionIsIdempotent(db1: Db, db2: Db, e: Evidence)
    ensures var d1, d2 := ApplyAll(db1, CompletionWrites(e)), ApplyAll(db2, CompletionWrites(e));
            d1.row == d2.row && d1.scores == d2.scores
            && d1.criticals - db1.criticals == d2.criticals - db2.criticals
  {
    CompletionWritten(db1, e);
    CompletionWritten(db2, e);
  }

  // ---------- what a review can and cannot certify ----------

  /** Approval certifies exactly on the stored accessibility score and the stored critical
      findings; the integrity flag of the run plays no part. */
  lemma ApprovalVerdict(db: Db)
    requires db.row.status == Completed && Full(db.scores)
    ensures Reviewed(db, true).row.compliance == Some(Compliant)
            <==> db.scores[Accessibility] >= A11Y_PASS && db.criticals == 0
  {
    ReviewWritten(db, true);
  }

  /** What a review stores: nothing unless the audit is completed; then an expert's verdict, which without
      approval is non-compliant and with it follows the stored rows. */
  lemma ReviewVerdict(db: Db, approved: bool)
    requires db.row.status == Completed ==> Full(db.scores)
    ensures db.row.status != Completed ==> Reviewed(db, approved) == db
    ensures db.row.status == Completed ==>
              var d := Reviewed(db, approved);
              && d.scores == db.scores && d.criticals == db.criticals
              && d.row == db.row.(compliance := d.row.compliance, how := ExpertReviewed, confidence := ExpertVerified)
              && (d.row.compliance == Some(NonCompliant)
                  <==> !approved || db.criticals > 0 || db.scores[Accessibility] < 50.0)
              && (d.row.compliance == Some(Compliant)
                  <==> approved && db.criticals == 0 && db.scores[Accessibility] >= 90.0)
              && d.row.compliance.Some? && d.row.compliance != Some(NotAssessed)
  {
    if db.row.status == Completed {
      ReviewWritten(db, approved);
    }
  }

  lemma {:induction false} CriticalsOnlyGrow(db: Db, ws: seq<Write>)
    ensures db.criticals <= ApplyAll(db, ws).criticals
  {
    if ws != [] {
      CriticalsOnlyGrow(db, ws[..|ws| - 1]);
    }
  }

  lemma {:induction false} CriticalsNeverDrop(s: State, evs: seq<Event>)
    ensures s.db.criticals <= Exec(s, evs).db.criticals
  {
    if evs != [] {
      var before := Exec(s, evs[..|evs| - 1]);
      CriticalsNeverDrop(s, evs[..|evs| - 1]);
      match (evs[|evs| - 1], before.phase)
      case (GateRefuses, AtGate(e)) => CriticalsOnlyGrow(before.db, RefusalWrites());
      case (GateRaises(n), AtGate(e)) => CriticalsOnlyGrow(before.db, Take(RefusalWrites(), n));
      case (Complete, AtScore(e)) => CriticalsOnlyGrow(before.db, CompletionWrites(e));
      case (ScoreRaises(n), AtScore(e)) => CriticalsOnlyGrow(before.db, Take(CompletionWrites(e), n));
      case (Review(ok), _) => if before.db.row.status == Completed { ReviewWritten(before.db, ok); }
      case _ =>
    }
  }

  lemma {:induction false} ExecAppends(s: State, a: seq<Event>, b: seq<Event>)
    ensures Exec(s, a + b) == Exec(Exec(s, a), b)
  {
    if b == [] {
      assert a + b == a;
    } else {
      assert (a + b)[..|a + b| - 1] == a + b[..|b| - 1];
      ExecAppends(s, a, b[..|b| - 1]);
    }
  }

  /** Findings outlive the run that stored them: once any run, even a failed one, stored a
      critical accessibility finding, the audit is never again completed and compliant,
      whatever later runs find. */
  lemma CriticalOnceNeverCompliant(evs: seq<Event>, later: seq<Event>)
    requires forall ev :: ev in evs + later ==> ProperEvent(ev)
    requires Exec(NewAudit, evs).db.criticals > 0
    ensures var row := Exec(NewAudit, evs + later).db.row;
            !(row.status == Completed && row.compliance == Some(Compliant))
  {
    RecordInvariant(evs + later);
    ExecAppends(NewAudit, evs, later);
    CriticalsNeverDrop(Exec(NewAudit, evs), later);
  }

  function FullRun(e: Evidence): seq<Event> {
    [Begin, EngineReturns(e), GatePasses, Complete, Finish]
  }

  lemma ExecOne(s: State, a: Event)
    ensures Exec(s, [a]) == Next(s, a)
  {
    assert [a][..0] == [];
  }

  lemma ExecMore(s: State, before: seq<Event>, a: Event)
    ensures Exec(s, before + [a]) == Next(Exec(s, before), a)
  {
    ExecAppends(s, before, [a]);
    ExecOne(Exec(s, before), a);
  }

  lemma ExecThree(s: State, a: Event, b: Event, c: Event)
    ensures Exec(s, [a, b]) == Next(Next(s, a), b)
    ensures Exec(s, [a, b, c]) == Next(Next(Next(s, a), b), c)
  {
    ExecOne(s, a);
    ExecMore(s, [a], b);
    ExecMore(s, [a, b], c);
    assert [a] + [b] == [a, b] && [a, b] + [c] == [a, b, c];
  }

  lemma ExecFive(s: State, a: Event, b: Event, c: Event, d: Event, e: Event)
    ensures Exec(s, [a, b, c, d]) == Next(Next(Next(Next(s, a), b), c), d)
    ensures Exec(s, [a, b, c, d, e]) == Next(Next(Next(Next(Next(s, a), b), c), d), e)
  {
    ExecThree(s, a, b, c);
    ExecMore(s, [a, b, c], d);
    ExecMore(s, [a, b, c, d], e);
    assert [a, b, c] + [d] == [a, b, c, d] && [a, b, c, d] + [e] == [a, b, c, d, e];
  }

  lemma AtScoring(db: Db, e: Evidence) returns (s3: State)
    requires e.captured
    ensures s3 == Exec(State(db, Idle), [Begin, EngineReturns(e), GatePasses])
    ensures s3 == State(Apply(Apply(Apply(db, SetStatus(Crawling)), SetStatus(Analyzing)), SetStatus(Scored)),
                        AtScore(e))
  {
    ExecThree(State(db, Idle), Begin, EngineReturns(e), GatePasses);
    s3 := Exec(State(db, Idle), [Begin, EngineReturns(e), GatePasses]);
  }

  lemma FaultedOutcome(s0: State, s3: State, e: Evidence, raise: Event)
    requires s3 == Exec(s0, [Begin, EngineReturns(e), GatePasses])
    ensures Exec(s0, [Begin, EngineReturns(e), GatePasses, raise]) == Next(s3, raise)
  {
    ExecMore(s0, [Begin, EngineReturns(e), GatePasses], raise);
    assert [Begin, EngineReturns(e), GatePasses] + [raise] == [Begin, EngineReturns(e), GatePasses, raise];
  }

  lemma CompletedOutcome(s0: State, s3: State, e: Evidence, end: Event)
    requires s3 == Exec(s0, [Begin, EngineReturns(e), GatePasses])
    ensures Exec(s0, [Begin, EngineReturns(e), GatePasses, Complete, end]) == Next(Next(s3, Complete), end)
  {
    ExecThree(s0, Begin, EngineReturns(e), GatePasses);
    ExecFive(s0, Begin, EngineReturns(e), GatePasses, Complete, end);
  }

  /** An undisturbed run on whatever the record held. */
  lemma RunCompletes(s: State, e: Evidence)
    requires s.phase == Idle && e.captured
    ensures Exec(s, FullRun(e))
            == State(Db(CompletedRow(e), ComputeScore(e.categories).categories, s.db.criticals + e.criticals), Idle)
  {
    var s3 := AtScoring(s.db, e);
    CompletedOutcome(s, s3, e, Finish);
    CompletionWritten(s3.db, e);
  }

  /** The verdict a run stores: non-compliant for a critical accessibility finding or a score under 50,
      else partially compliant, and never more without an expert. */
  lemma RunVerdict(e: Evidence)
    requires Proper(e)
    ensures var row := CompletedRow(e);
            && row.compliance == Some(if e.criticals > 0 || e.categories[Accessibility] < 50.0 then NonCompliant
                                      else PartiallyCompliant)
            && row.how == Automated && row.confidence == AutomatedOnly
  {
    StoredRows(e.categories);
    assert Round1(e.categories[Accessibility]) == e.categories[Accessibility];
  }

  /** So an undisturbed run stores it whatever the record held. */
  lemma RunStoresVerdict(s: State, e: Evidence)
    requires s.phase == Idle && e.captured && Proper(e)
    ensures var row := Exec(s, FullRun(e)).db.row;
            && row.status == Completed && row.how == Automated && row.confidence == AutomatedOnly
            && (row.compliance == Some(NonCompliant) <==> e.criticals > 0 || e.categories[Accessibility] < 50.0)
            && (row.compliance == Some(PartiallyCompliant) <==> e.criticals == 0 && e.categories[Accessibility] >= 50.0)
  {
    RunCompletes(s, e);
    RunVerdict(e);
  }

  /** A site with perfect scores behind an accessibility overlay. */
  function OverlaySite(): Evidence { Evidence(true, Flat(100.0), 0, true) }

  lemma FlatStored(x: real)
    requires Round1(x) == x
    ensures Full(Flat(x)) && OneDecimal(Flat(x)) && ComputeScore(Flat(x)).categories == Flat(x)
  {
    forall c: Category ensures c in CATEGORIES { EveryCategoryListed(c); }
    StoredRows(Flat(x));
  }

  lemma OverlaySiteRun()
    ensures Proper(OverlaySite())
    ensures var s := Exec(NewAudit, FullRun(OverlaySite()));
            s.db.row.status == Completed && s.db.row.compliance == Some(PartiallyCompliant) && s.phase == Idle
            && Full(s.db.scores) && s.db.scores[Accessibility] == 100.0 && s.db.criticals == 0
  {
    NearestOfWhole(1000);
    FlatStored(100.0);
    RunCompletes(NewAudit, OverlaySite());
    assert VerdictOf(OverlaySite()).status == PartiallyCompliant;
  }

  /** The comment in `compliance_verdict` says an integrity-flagged site can never be certified
      compliant.  The run caps it, but a review does not pass the flag on, and certifies it. */
  lemma FlaggedSiteCertified()
    ensures var row := Exec(NewAudit, FullRun(OverlaySite()) + [Review(true)]).db.row;
            row.status == Completed && row.compliance == Some(Compliant)
  {
    OverlaySiteRun();
    ExecMore(NewAudit, FullRun(OverlaySite()), Review(true));
    var s := Exec(NewAudit, FullRun(OverlaySite()));
    ReviewWritten(s.db, true);
    ApprovalVerdict(s.db);
  }

  /** `compliant` outlives `completed`: a certified audit whose job is redelivered and whose
      engine then fails is stored as failed and compliant. */
  lemma FailedYetCompliant()
    ensures var row := Exec(NewAudit, FullRun(OverlaySite()) + [Review(true)] + [Begin] + [EngineRaises]).db.row;
            row.status == Failed && row.compliance == Some(Compliant)
  {
    var evs := FullRun(OverlaySite()) + [Review(true)];
    FlaggedSiteCertified();
    OverlaySiteRun();
    ExecMore(NewAudit, FullRun(OverlaySite()), Review(true));
    ExecMore(NewAudit, evs, Begin);
    ExecMore(NewAudit, evs + [Begin], EngineRaises);
    var s := Exec(NewAudit, evs);
    assert s.phase == Idle;
    assert Next(s, Begin) == State(Apply(s.db, SetStatus(Crawling)), AtEngine);
  }

  // ---------- `process` as the worker runs it ----------

  /** Where an exception strikes, counted in writes made since the last commit. */
  datatype Fault = NoFault | EngineFault | GateFault(written: nat) | ScoreFault(written: nat) | TailFault

  /** The events of one uninterrupted call of `process`. */
  function ProcessEvents(e: Evidence, fault: Fault): seq<Event> {
    match fault
    case EngineFault => [Begin, EngineRaises]
    case GateFault(n) => [Begin, EngineReturns(e), GateRaises(n)]
    case _ =>
      if !e.captured then [Begin, EngineReturns(e), GateRefuses, if fault.TailFault? then TailRaises else Finish]
      else match fault
        case ScoreFault(n) => [Begin, EngineReturns(e), GatePasses, ScoreRaises(n)]
        case TailFault => [Begin, EngineReturns(e), GatePasses, Complete, TailRaises]
        case _ => FullRun(e)
  }

  class AuditStore {
    var row: AuditRow
    var scores: Scores
    var criticals: nat

    ghost function Abs(): Db
      reads this
    {
      Db(row, scores, criticals)
    }

    constructor ()
      ensures Abs() == NewAudit.db
    {
      row, scores, criticals := NewAudit.db.row, map[], 0;
    }

    /** Flush a session's writes, in order. */
    method Commit(ws: seq<Write>)
      modifies this
      ensures Abs() == ApplyAll(old(Abs()), ws)
    {
      for i := 0 to |ws|
        invariant Abs() == ApplyAll(old(Abs()), ws[..i])
      {
        assert ws[..i + 1][..i] == ws[..i];
        match ws[i] {
          case SetStatus(x) => row := row.(status := x);
          case SetOverall(x) => row := row.(overall := x);
          case SetBand(x) => row := row.(band := x);
          case SetGuardrail(x) => row := row.(guardrail := x);
          case SetCompliance(x) => row := row.(compliance := Some(x));
          case SetHow(x) => row := row.(how := x);
          case SetConfidence(x) => row := row.(confidence := x);
          case PutScore(c, x) => scores := scores[c := x];
          case AddCritical => criticals := criticals + 1;
          case Other =>
        }
      }
      assert ws[..|ws|] == ws;
    }

    /** One call of `process`: the commits in order and, when a fault strikes, the handler's
        commit of whatever the session had written plus `failed`.  `ok` is false when it raises. */
    method Process(e: Evidence, fault: Fault) returns (ok: bool)
      modifies this
      ensures State(Abs(), Idle) == Exec(State(old(Abs()), Idle), ProcessEvents(e, fault))
      ensures ok <==> fault.NoFault? || (!e.captured && fault.ScoreFault?)
      ensures row.status == if !ok then Failed else if e.captured then Completed else InsufficientEvidence
      ensures ok && e.captured && Proper(e) ==>
                && (row.compliance == Some(NonCompliant) <==> e.criticals > 0 || e.categories[Accessibility] < 50.0)
                && (row.compliance == Some(PartiallyCompliant)
                    <==> e.criticals == 0 && e.categories[Accessibility] >= 50.0)
                && row.how == Automated && row.confidence == AutomatedOnly
    {
      ProcessOutcome(Abs(), e, fault);
      Set(SetStatus(Crawling));
      if fault.EngineFault? {
        Handle([]);
        return false;
      }
      Set(SetStatus(Analyzing));
      if fault.GateFault? {
        Handle(if e.captured then [] else Take(RefusalWrites(), fault.written));
        return false;
      }
      if !e.captured {
        RefusalWritten(Abs());
        Commit(RefusalWrites());
        if fault.TailFault? {
          Handle([]);
          return false;
        }
        return true;
      }
      Set(SetStatus(Scored));
      if fault.ScoreFault? {
        Handle(Take(CompletionWrites(e), fault.written));
        return false;
      }
      CompletionWritten(Abs(), e);
      Commit(CompletionWrites(e));
      if fault.TailFault? {
        Handle([]);
        return false;
      }
      if Proper(e) {
        RunVerdict(e);
      }
      ok := true;
    }

    /** A single assignment and its commit. */
    method Set(w: Write)
      modifies this
      ensures Abs() == Apply(old(Abs()), w)
    {
      Commit([w]);
      assert [w][..0] == [];
    }

    /** The exception handler: mark the audit failed and commit, with what was already written. */
    method Handle(written: seq<Write>)
      modifies this
      ensures Abs() == Fail(old(Abs()), written) && row.status == Failed
    {
      ApplyAppends(Abs(), written, [SetStatus(Failed)]);
      assert [SetStatus(Failed)][..0] == [];
      Commit(written + [SetStatus(Failed)]);
    }
  }

  /** The database after one uninterrupted call. */
  function AfterProcess(db: Db, e: Evidence, fault: Fault): Db {
    var d1 := Apply(db, SetStatus(Crawling));
    var d2 := Apply(d1, SetStatus(Analyzing));
    var d3 := Apply(d2, SetStatus(Scored));
    match fault
    case EngineFault => Fail(d1, [])
    case GateFault(n) => Fail(d2, if e.captured then [] else Take(RefusalWrites(), n))
    case _ =>
      if !e.captured then
        var d := ApplyAll(d2, RefusalWrites());
        if fault.TailFault? then Fail(d, []) else d
      else match fault
        case ScoreFault(n) => Fail(d3, Take(CompletionWrites(e), n))
        case TailFault => Fail(ApplyAll(d3, CompletionWrites(e)), [])
        case _ => ApplyAll(d3, CompletionWrites(e))
  }

  lemma ProcessOutcome(db: Db, e: Evidence, fault: Fault)
    ensures Exec(State(db, Idle), ProcessEvents(e, fault)) == State(AfterProcess(db, e, fault), Idle)
  {
    var s0 := State(db, Idle);
    match fault
    case EngineFault => ExecThree(s0, Begin, EngineRaises, Crash);
    case GateFault(n) => ExecThree(s0, Begin, EngineReturns(e), GateRaises(n));
    case _ =>
      if e.captured {
        ScoredOutcome(db, e, fault);
      } else {
        ExecFive(s0, Begin, EngineReturns(e), GateRefuses, if fault.TailFault? then TailRaises else Finish, Crash);
      }
  }

  lemma ScoredOutcome(db: Db, e: Evidence, fault: Fault)
    requires e.captured && !fault.EngineFault? && !fault.GateFault?
    ensures Exec(State(db, Idle), ProcessEvents(e, fault)) == State(AfterProcess(db, e, fault), Idle)
  {
    var s0 := State(db, Idle);
    var s3 := AtScoring(db, e);
    match fault
    case ScoreFault(n) => FaultedOutcome(s0, s3, e, ScoreRaises(n));
    case TailFault => CompletedOutcome(s0, s3, e, TailRaises);
    case _ => CompletedOutcome(s0, s3, e, Finish);
  }

  /** What a fault leaves: before the evidence is used nothing but the status changes, and after the
      last commit only the status of what that stored. */
  lemma FaultLeaves(db: Db, e: Evidence, fault: Fault)
    ensures fault == EngineFault || (e.captured && fault.GateFault?) ==>
              AfterProcess(db, e, fault) == db.(row := db.row.(status := Failed))
    ensures fault == TailFault && e.captured ==>
              AfterProcess(db, e, fault) ==
              Db(CompletedRow(e).(status := Failed), ComputeScore(e.categories).categories,
                 db.criticals + e.criticals)
    ensures fault == TailFault && !e.captured ==>
              AfterProcess(db, e, fault).row.status == Failed
              && AfterProcess(db, e, fault).row.compliance == Some(NotAssessed)
              && AfterProcess(db, e, fault).row.overall == None && AfterProcess(db, e, fault).row.band == None
              && AfterProcess(db, e, fault).scores == db.scores
  {
    var d2 := Apply(Apply(db, SetStatus(Crawling)), SetStatus(Analyzing));
    RefusalWritten(d2);
    CompletionWritten(Apply(d2, SetStatus(Scored)), e);
  }

  /** The call raised before it wrote its own verdict. */
  predicate RaisedBeforeVerdict(e: Evidence, fault: Fault) {
    match fault
    case EngineFault => true
    case GateFault(n) => e.captured || n <= 3
    case ScoreFault(n) => e.captured && n <= |CATEGORIES| + e.criticals
    case _ => false
  }

  /** Whatever a call meets, the record is compliant after it exactly when it was before and the call
      raised before writing its own verdict; it is then stored as failed. */
  lemma VerdictSurvives(db: Db, e: Evidence, fault: Fault)
    ensures AfterProcess(db, e, fault).row.compliance == Some(Compliant)
            <==> db.row.compliance == Some(Compliant) && RaisedBeforeVerdict(e, fault)
    ensures RaisedBeforeVerdict(e, fault) ==> AfterProcess(db, e, fault).row.status == Failed
  {
    var d2 := Apply(Apply(db, SetStatus(Crawling)), SetStatus(Analyzing));
    var d3 := Apply(d2, SetStatus(Scored));
    match fault
    case GateFault(n) => PrefixVerdict(d2, RefusalWrites(), 3, n);
    case ScoreFault(n) =>
      CompletionCareful(e);
      PrefixVerdict(d3, CompletionWrites(e), |CATEGORIES| + e.criticals, n);
      RefusalWritten(d2);
    case _ =>
      RefusalWritten(d2);
      CompletionWritten(d3, e);
  }

  lemma PrefixVerdict(db: Db, ws: seq<Write>, i: nat, n: nat)
    requires i < |ws| && Careful(ws, i)
    ensures ApplyAll(db, Take(ws, n)).row.compliance == Some(Compliant)
            <==> db.row.compliance == Some(Compliant) && n <= i
  {
    PrefixKeepsExpert(db, ws, i, if n <= |ws| then n else |ws|);
    assert ws[..|ws|] == ws;
  }
}
