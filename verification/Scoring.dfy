/**
 The scoring engine: eight weighted categories, rounding, the guard-rail that caps
 the band, the explanation of a score, and the separate legal verdict.  Scores are
 exact reals; `Nearest` rounds half to even, as Python's `round` does.
 */
module Scoring {
  datatype Category =
    Accessibility | Usability | Gigw | Design | Performance | Responsiveness | Content | Trust

  /** In the order of CATEGORY_WEIGHTS. */
  const CATEGORIES: seq<Category> :=
    [Accessibility, Usability, Gigw, Design, Performance, Responsiveness, Content, Trust]

  /** A category's weight times `x`. */
  function Weighted(c: Category, x: real): real {
    match c
    case Accessibility => 22.0 * x
    case Usability => 17.0 * x
    case Gigw => 15.0 * x
    case Design => 11.0 * x
    case Performance => 12.0 * x
    case Responsiveness => 10.0 * x
    case Content => 7.0 * x
    case Trust => 6.0 * x
  }

  /** The weights sum to this; `MeanUnfolded` depends on it. */
  const TOTAL_WEIGHT := 100.0

  const GUARDRAIL := 50.0
  const A11Y_FAIL := 50.0
  const A11Y_PASS := 90.0

  datatype Band = A | B | C | D | E

  /** Category scores as measured; a category may be missing. */
  type Scores = map<Category, real>

  datatype ScoreResult = ScoreResult(overall: real, band: Band, guardrailActive: bool, categories: Scores)

  // ---------- rounding ----------

  function Nearest(x: real): int {
    var f := x.Floor;
    var part := x - f as real;
    if part < 0.5 || (part == 0.5 && f % 2 == 0) then f else f + 1
  }

  function Round1(x: real): real { Nearest(x * 10.0) as real / 10.0 }

  function Round2(x: real): real { Nearest(x * 100.0) as real / 100.0 }

  lemma NearestWithinHalf(x: real)
    ensures -0.5 <= Nearest(x) as real - x <= 0.5
  {
  }

  lemma NearestIs(x: real, n: int)
    requires -0.5 < x - n as real < 0.5
    ensures Nearest(x) == n
  {
  }

  lemma NearestMonotone(x: real, y: real)
    requires x <= y
    ensures Nearest(x) <= Nearest(y)
  {
    assert x.Floor <= y.Floor;
  }

  lemma NearestOfWhole(n: int)
    ensures Nearest(n as real) == n
  {
  }

  lemma Round1Monotone(x: real, y: real)
    requires x <= y
    ensures Round1(x) <= Round1(y)
  {
    NearestMonotone(x * 10.0, y * 10.0);
  }

  // ---------- the score ----------

  function ScoreOf(s: Scores, c: Category): real {
    if c in s then s[c] else 0.0
  }

  function WeightedSum(s: Scores, cs: seq<Category>): real {
    if cs == [] then 0.0 else Weighted(cs[0], ScoreOf(s, cs[0])) + WeightedSum(s, cs[1..])
  }

  function Mean(s: Scores): real { WeightedSum(s, CATEGORIES) / TOTAL_WEIGHT }

  function BandFor(score: real): Band {
    if score >= 90.0 then A else if score >= 75.0 then B else if score >= 60.0 then C
    else if score >= 40.0 then D else E
  }

  function Rank(b: Band): nat {
    match b case A => 0 case B => 1 case C => 2 case D => 3 case E => 4
  }

  function CapBand(band: Band, cap: Band): Band {
    if Rank(band) >= Rank(cap) then band else cap
  }

  /** A missing guarded category counts as 100 here, though as 0 in the mean. */
  predicate GuardrailActive(s: Scores) {
    || (Accessibility in s && s[Accessibility] < GUARDRAIL)
    || (Trust in s && s[Trust] < GUARDRAIL)
  }

  function RoundAll(s: Scores, cs: seq<Category>): Scores {
    if cs == [] then map[] else RoundAll(s, cs[1..])[cs[0] := Round1(ScoreOf(s, cs[0]))]
  }

  function ComputeScore(s: Scores): (r: ScoreResult)
    ensures r.band == A <==> r.overall >= 90.0 && !r.guardrailActive
    ensures r.band == B <==> 75.0 <= r.overall < 90.0 && !r.guardrailActive
    ensures r.band == C <==> r.overall >= 60.0 && (r.guardrailActive || r.overall < 75.0)
    ensures r.band == D <==> 40.0 <= r.overall < 60.0
  {
    var overall := Round1(Mean(s));
    var guarded := GuardrailActive(s);
    var band := BandFor(overall);
    ScoreResult(overall, if guarded then CapBand(band, C) else band, guarded, RoundAll(s, CATEGORIES))
  }

  predicate Full(s: Scores) { forall c: Category :: c in s }

  /** Every present category lies in 0..100. */
  predicate InRange(s: Scores) { forall c :: c in s ==> 0.0 <= s[c] <= 100.0 }

  predicate OneDecimal(s: Scores) { forall c :: c in s ==> Round1(s[c]) == s[c] }

  lemma EveryCategoryListed(c: Category)
    ensures c in CATEGORIES
  {
    match c
    case Accessibility => assert CATEGORIES[0] == c;
    case Usability => assert CATEGORIES[1] == c;
    case Gigw => assert CATEGORIES[2] == c;
    case Design => assert CATEGORIES[3] == c;
    case Performance => assert CATEGORIES[4] == c;
    case Responsiveness => assert CATEGORIES[5] == c;
    case Content => assert CATEGORIES[6] == c;
    case Trust => assert CATEGORIES[7] == c;
  }

  lemma {:induction false} SumMonotone(a: Scores, b: Scores, cs: seq<Category>)
    requires forall c :: c in cs ==> ScoreOf(a, c) <= ScoreOf(b, c)
    ensures WeightedSum(a, cs) <= WeightedSum(b, cs)
  {
    if cs != [] {
      SumMonotone(a, b, cs[1..]);
      assert cs[0] in cs;
    }
  }

  lemma MeanUnfolded(s: Scores)
    ensures Mean(s) * 100.0
            == 22.0 * ScoreOf(s, Accessibility) + 17.0 * ScoreOf(s, Usability) + 15.0 * ScoreOf(s, Gigw)
               + 11.0 * ScoreOf(s, Design) + 12.0 * ScoreOf(s, Performance) + 10.0 * ScoreOf(s, Responsiveness)
               + 7.0 * ScoreOf(s, Content) + 6.0 * ScoreOf(s, Trust)
  {
    SumCons(s, Trust, []);
    SumCons(s, Content, [Trust]);
    SumCons(s, Responsiveness, [Content, Trust]);
    SumCons(s, Performance, [Responsiveness, Content, Trust]);
    SumCons(s, Design, [Performance, Responsiveness, Content, Trust]);
    SumCons(s, Gigw, [Design, Performance, Responsiveness, Content, Trust]);
    SumCons(s, Usability, [Gigw, Design, Performance, Responsiveness, Content, Trust]);
    SumCons(s, Accessibility, [Usability, Gigw, Design, Performance, Responsiveness, Content, Trust]);
  }

  lemma SumCons(s: Scores, c: Category, rest: seq<Category>)
    ensures WeightedSum(s, [c] + rest) == Weighted(c, ScoreOf(s, c)) + WeightedSum(s, rest)
  {
    assert ([c] + rest)[1..] == rest;
  }

  function Flat(x: real): Scores {
    map c | c in CATEGORIES :: x
  }

  /** The weights average: the mean of a flat vector is its value. */
  lemma FlatMean(x: real)
    ensures Mean(Flat(x)) == x
  {
    forall c: Category ensures c in CATEGORIES { EveryCategoryListed(c); }
    MeanUnfolded(Flat(x));
  }

  /** The overall score is the weighted mean to the nearest tenth. */
  lemma OverallIsMean(s: Scores)
    ensures var overall := ComputeScore(s).overall;
            && overall * 10.0 == (overall * 10.0).Floor as real
            && -0.05 <= overall - (22.0 * ScoreOf(s, Accessibility) + 17.0 * ScoreOf(s, Usability)
                                   + 15.0 * ScoreOf(s, Gigw) + 11.0 * ScoreOf(s, Design)
                                   + 12.0 * ScoreOf(s, Performance) + 10.0 * ScoreOf(s, Responsiveness)
                                   + 7.0 * ScoreOf(s, Content) + 6.0 * ScoreOf(s, Trust)) / 100.0 <= 0.05
  {
    MeanUnfolded(s);
    NearestTenth(Mean(s));
  }

  lemma WholeOver(n: int, d: int)
    requires d == 10 || d == 100
    ensures n as real / d as real * d as real == n as real
    ensures (n as real / d as real * d as real).Floor == n
  {
  }

  lemma NearestTenth(x: real)
    ensures Round1(x) * 10.0 == (Round1(x) * 10.0).Floor as real && -0.05 <= Round1(x) - x <= 0.05
  {
    WholeOver(Nearest(x * 10.0), 10);
    NearestWithinHalf(x * 10.0);
  }

  /** A category moves the mean by its weight in a hundred. */
  lemma MeanOfChange(s: Scores, c: Category, y: real)
    ensures Mean(s[c := y]) == Mean(s) + Weighted(c, y - ScoreOf(s, c)) / 100.0
  {
    MeanUnfolded(s);
    MeanUnfolded(s[c := y]);
  }

  /** A vector of hundreds but for one category. */
  lemma AllButOne(c: Category, y: real) returns (s: Scores)
    requires 0.0 <= y <= 100.0
    ensures Full(s) && InRange(s) && s[c] == y && forall d: Category :: d != c ==> s[d] == 100.0
    ensures Mean(s) == 100.0 + Weighted(c, y - 100.0) / 100.0
  {
    var hundreds := FlatFull(100.0);
    s := hundreds[c := y];
    MeanOfChange(hundreds, c, y);
  }

  lemma FlatFull(x: real) returns (s: Scores)
    ensures Full(s) && Mean(s) == x && forall d: Category :: s[d] == x
  {
    s := Flat(x);
    forall d: Category ensures d in CATEGORIES { EveryCategoryListed(d); }
    FlatMean(x);
  }

  /** Without it. */
  lemma OneMissing(s: Scores, c: Category)
    requires c in s
    ensures Mean(s - {c}) == Mean(s) - Weighted(c, s[c]) / 100.0
  {
    MeanOfChange(s - {c}, c, s[c]);
    assert (s - {c})[c := s[c]] == s;
  }

  /** The overall score lies between the rounded lowest and highest category. */
  lemma OverallBetween(s: Scores, lo: real, hi: real)
    requires Full(s) && forall c :: c in s ==> lo <= s[c] <= hi
    ensures Round1(lo) <= ComputeScore(s).overall <= Round1(hi)
  {
    SumMonotone(Flat(lo), s, CATEGORIES);
    SumMonotone(s, Flat(hi), CATEGORIES);
    FlatMean(lo);
    FlatMean(hi);
    Round1Monotone(lo, Mean(s));
    Round1Monotone(Mean(s), hi);
  }

  /** Scores that are nowhere lower, a missing one counting as 0, never give a lower overall score; and
      they give a worse band exactly when they switch the guard-rail on over a score of 75 or more. */
  lemma BandWorsens(a: Scores, b: Scores)
    requires forall c: Category :: ScoreOf(a, c) <= ScoreOf(b, c)
    ensures ComputeScore(a).overall <= ComputeScore(b).overall
    ensures Rank(ComputeScore(b).band) > Rank(ComputeScore(a).band)
            <==> !GuardrailActive(a) && GuardrailActive(b) && ComputeScore(a).overall >= 75.0
  {
    SumMonotone(a, b, CATEGORIES);
    Round1Monotone(Mean(a), Mean(b));
  }

  /** Raising any categories of a full vector cannot switch it on, so it never worsens the band. */
  lemma ScoreMonotone(a: Scores, b: Scores)
    requires Full(a) && Full(b) && forall c: Category :: a[c] <= b[c]
    ensures ComputeScore(a).overall <= ComputeScore(b).overall
    ensures Rank(ComputeScore(b).band) <= Rank(ComputeScore(a).band)
  {
    forall c: Category ensures ScoreOf(a, c) <= ScoreOf(b, c) {}
    BandWorsens(a, b);
  }

  /** On partial vectors it can: a missing accessibility score keeps the guard-rail off,
      and supplying one below 50 raises the overall score but drops the band from B to C. */
  lemma AddingEvidenceCanWorsenBand() returns (a: Scores, b: Scores)
    ensures a.Keys < b.Keys && InRange(b) && forall c :: c in a ==> b[c] == a[c]
    ensures ComputeScore(a).overall < ComputeScore(b).overall
    ensures ComputeScore(a).band == B && ComputeScore(b).band == C
  {
    b := AllButOne(Accessibility, 49.0);
    a := b - {Accessibility};
    OneMissing(b, Accessibility);
    NearestIs(Mean(a) * 10.0, 780);
    NearestIs(Mean(b) * 10.0, 888);
    assert Accessibility in b && Accessibility !in a;
  }

  // ---------- re-scoring the stored rows ----------

  lemma {:induction false} RoundAllAt(s: Scores, cs: seq<Category>)
    ensures forall c :: c in RoundAll(s, cs) <==> c in cs
    ensures forall c :: c in cs ==> RoundAll(s, cs)[c] == Round1(ScoreOf(s, c))
  {
    if cs != [] {
      RoundAllAt(s, cs[1..]);
    }
  }

  /** The rows a run stores: all eight categories, each rounded, a missing one as 0. */
  lemma StoredRows(s: Scores)
    ensures Full(ComputeScore(s).categories)
    ensures forall c: Category :: ComputeScore(s).categories[c] == Round1(ScoreOf(s, c))
  {
    RoundAllAt(s, CATEGORIES);
    forall c: Category ensures c in CATEGORIES { EveryCategoryListed(c); }
  }

  lemma {:induction false} SumDependsOnScores(a: Scores, b: Scores, cs: seq<Category>)
    requires forall c :: c in cs ==> ScoreOf(a, c) == ScoreOf(b, c)
    ensures WeightedSum(a, cs) == WeightedSum(b, cs)
  {
    if cs != [] {
      SumDependsOnScores(a, b, cs[1..]);
      assert cs[0] in cs;
    }
  }

  /** Re-scoring the stored rows of one-decimal scores gives back the same result exactly when
      no guarded category was missing, or the guard-rail was active all the same. */
  lemma RescoringReproduces(s: Scores)
    requires OneDecimal(s)
    ensures ComputeScore(ComputeScore(s).categories) == ComputeScore(s)
            <==> (Accessibility in s && Trust in s) || GuardrailActive(s)
  {
    var r := ComputeScore(s);
    StoredRows(s);
    StoredRows(r.categories);
    NearestOfWhole(0);
    forall c: Category
      ensures ScoreOf(r.categories, c) == ScoreOf(s, c)
    {
    }
    SumDependsOnScores(s, r.categories, CATEGORIES);
    assert ComputeScore(r.categories).overall == r.overall;
    assert ComputeScore(r.categories).categories == r.categories;
  }

  lemma RoundsBelow(x: real, n: int)
    requires n % 2 == 0
    ensures Nearest(x) < n <==> x < n as real - 0.5
  {
  }

  /** Whatever the decimals, the stored rows are under the guard-rail exactly when a guarded category
      scored under 49.95, a missing one counting as 0: so 49.96 is guarded when scored and not when stored. */
  lemma StoredGuardrail(s: Scores)
    ensures GuardrailActive(ComputeScore(s).categories)
            <==> ScoreOf(s, Accessibility) < 49.95 || ScoreOf(s, Trust) < 49.95
  {
    StoredRows(s);
    RoundsBelow(ScoreOf(s, Accessibility) * 10.0, 500);
    RoundsBelow(ScoreOf(s, Trust) * 10.0, 500);
  }

  // ---------- the explanation ----------

  datatype Row =
    Row(category: Category, weight: real, score: real, contribution: real, maxContribution: real, lost: real)

  function RowFor(s: Scores, c: Category): Row {
    var x := ScoreOf(s, c);
    Row(c, Weighted(c, 1.0), Round1(x),
        Round2(Weighted(c, x) / TOTAL_WEIGHT),
        Round2(Weighted(c, 100.0) / TOTAL_WEIGHT),
        Round2(Weighted(c, 100.0 - x) / TOTAL_WEIGHT))
  }

  function RowsFor(s: Scores, cs: seq<Category>): seq<Row> {
    if cs == [] then [] else [RowFor(s, cs[0])] + RowsFor(s, cs[1..])
  }

  /** Stable, biggest loss first: `r` goes before rows that lose no more than it does. */
  function Insert(r: Row, rows: seq<Row>): seq<Row> {
    if rows == [] || r.lost >= rows[0].lost then [r] + rows else [rows[0]] + Insert(r, rows[1..])
  }

  function SortByLost(rows: seq<Row>): seq<Row> {
    if rows == [] then [] else Insert(rows[0], SortByLost(rows[1..]))
  }

  function Contributions(rows: seq<Row>): real {
    if rows == [] then 0.0 else rows[0].contribution + Contributions(rows[1..])
  }

  function Index(c: Category): nat {
    match c
    case Accessibility => 0 case Usability => 1 case Gigw => 2 case Design => 3
    case Performance => 4 case Responsiveness => 5 case Content => 6 case Trust => 7
  }

  /** `q` loses more, or as much and comes first in CATEGORY_WEIGHTS. */
  predicate Before(q: Row, r: Row) {
    q.lost > r.lost || (q.lost == r.lost && Index(q.category) < Index(r.category))
  }

  /** Ranked by points lost; categories losing the same keep the order of CATEGORY_WEIGHTS. */
  ghost predicate Ranked(rows: seq<Row>) {
    forall i, j :: 0 <= i < j < |rows| ==> Before(rows[i], rows[j])
  }

  lemma {:induction false} InsertPermutes(r: Row, rows: seq<Row>)
    ensures multiset(Insert(r, rows)) == multiset([r] + rows)
    ensures Contributions(Insert(r, rows)) == r.contribution + Contributions(rows)
  {
    if rows == [] || r.lost >= rows[0].lost {
      assert ([r] + rows)[1..] == rows;
    } else {
      InsertPermutes(r, rows[1..]);
      assert rows == [rows[0]] + rows[1..];
    }
  }

  lemma {:induction false} InsertRanks(r: Row, rows: seq<Row>)
    requires Ranked(rows) && forall q :: q in rows ==> Index(r.category) < Index(q.category)
    ensures Ranked(Insert(r, rows))
  {
    if rows != [] && r.lost < rows[0].lost {
      var rest := Insert(r, rows[1..]);
      InsertRanks(r, rows[1..]);
      InsertPermutes(r, rows[1..]);
      forall q | q in rest ensures Before(rows[0], q) {
        assert q in multiset(rest);
        assert q == r || q in rows[1..];
      }
    }
  }

  lemma {:induction false} SortPermutes(rows: seq<Row>)
    ensures multiset(SortByLost(rows)) == multiset(rows)
    ensures Contributions(SortByLost(rows)) == Contributions(rows)
  {
    if rows != [] {
      SortPermutes(rows[1..]);
      InsertPermutes(rows[0], SortByLost(rows[1..]));
      assert rows == [rows[0]] + rows[1..];
    }
  }

  lemma {:induction false} SortRanks(rows: seq<Row>)
    requires forall i, j :: 0 <= i < j < |rows| ==> Index(rows[i].category) < Index(rows[j].category)
    ensures Ranked(SortByLost(rows))
  {
    if rows != [] {
      SortRanks(rows[1..]);
      SortPermutes(rows[1..]);
      forall q | q in SortByLost(rows[1..]) ensures Index(rows[0].category) < Index(q.category) {
        assert q in multiset(SortByLost(rows[1..]));
        assert q in rows[1..];
      }
      InsertRanks(rows[0], SortByLost(rows[1..]));
    }
  }

  lemma {:induction false} RowsInOrder(s: Scores, cs: seq<Category>)
    ensures |RowsFor(s, cs)| == |cs|
    ensures forall i :: 0 <= i < |cs| ==> RowsFor(s, cs)[i] == RowFor(s, cs[i])
  {
    if cs != [] {
      RowsInOrder(s, cs[1..]);
    }
  }

  /** Each contribution is rounded by at most half a hundredth. */
  lemma {:induction false} ContributionsNearSum(s: Scores, cs: seq<Category>)
    ensures -0.005 * |cs| as real <= Contributions(RowsFor(s, cs)) - WeightedSum(s, cs) / 100.0 <= 0.005 * |cs| as real
  {
    if cs != [] {
      ContributionsNearSum(s, cs[1..]);
      assert RowsFor(s, cs)[1..] == RowsFor(s, cs[1..]);
      NearestWithinHalf(Weighted(cs[0], ScoreOf(s, cs[0])) / TOTAL_WEIGHT * 100.0);
    }
  }

  lemma RowsIndexed(s: Scores, cs: seq<Category>)
    requires forall i, j :: 0 <= i < j < |cs| ==> Index(cs[i]) < Index(cs[j])
    ensures |RowsFor(s, cs)| == |cs|
    ensures forall i, j :: 0 <= i < j < |cs| ==> Index(RowsFor(s, cs)[i].category) < Index(RowsFor(s, cs)[j].category)
  {
    RowsInOrder(s, cs);
  }

  lemma SortedAccount(s: Scores, rows: seq<Row>)
    requires forall r :: r in rows ==> Accounts(r, s)
    ensures forall r :: r in SortByLost(rows) ==> Accounts(r, s)
  {
    SortPermutes(rows);
    forall r | r in SortByLost(rows) ensures Accounts(r, s) {
      assert r in multiset(SortByLost(rows));
    }
  }

  lemma RowsSorted(s: Scores, cs: seq<Category>)
    requires forall i, j :: 0 <= i < j < |cs| ==> Index(cs[i]) < Index(cs[j])
    ensures var rows := SortByLost(RowsFor(s, cs));
            && Ranked(rows) && multiset(rows) == multiset(RowsFor(s, cs)) && |rows| == |cs|
            && Contributions(rows) == Contributions(RowsFor(s, cs))
  {
    var rows := RowsFor(s, cs);
    RowsIndexed(s, cs);
    SortPermutes(rows);
    SortRanks(rows);
    assert |multiset(SortByLost(rows))| == |multiset(rows)|;
  }

  /** The loop over the weights, one row per category. */
  method BuildRows(s: Scores, cs: seq<Category>) returns (rows: seq<Row>)
    ensures rows == RowsFor(s, cs)
  {
    rows := [];
    for i := 0 to |cs|
      invariant |rows| == i && forall k :: 0 <= k < i ==> rows[k] == RowFor(s, cs[k])
    {
      rows := rows + [RowFor(s, cs[i])];
    }
    RowsInOrder(s, cs);
  }

  predicate Hundredths(x: real) { x * 100.0 == (x * 100.0).Floor as real }

  /** What a row says of its category: the points out of its weight that the score earns and loses, each
      the nearest hundredth. */
  predicate Accounts(r: Row, s: Scores) {
    var w, x := Weighted(r.category, 1.0), ScoreOf(s, r.category);
    && r.weight == w && r.maxContribution == w && r.score == Round1(x)
    && Hundredths(r.contribution) && -0.005 <= r.contribution - Weighted(r.category, x) / 100.0 <= 0.005
    && Hundredths(r.lost) && -0.005 <= r.lost - (w - Weighted(r.category, x) / 100.0) <= 0.005
  }

  lemma NearestHundredth(x: real)
    ensures Hundredths(Round2(x)) && -0.005 <= Round2(x) - x <= 0.005
  {
    WholeOver(Nearest(x * 100.0), 100);
    NearestWithinHalf(x * 100.0);
  }

  lemma WeightedComplement(c: Category, x: real)
    ensures Weighted(c, 100.0 - x) / 100.0 == Weighted(c, 1.0) - Weighted(c, x) / 100.0
    ensures Weighted(c, 100.0) / 100.0 == Weighted(c, 1.0)
  {
  }

  lemma RowAccounts(s: Scores, c: Category)
    ensures Accounts(RowFor(s, c), s) && RowFor(s, c).category == c
  {
    var x := ScoreOf(s, c);
    WeightedComplement(c, x);
    NearestHundredth(Weighted(c, x) / 100.0);
    NearestHundredth(Weighted(c, 100.0 - x) / 100.0);
    WholeWeight(c);
  }

  lemma WholeWeight(c: Category)
    ensures Round2(Weighted(c, 1.0)) == Weighted(c, 1.0)
  {
    NearestOfWhole(WholeWeighted(c, 100));
    assert Weighted(c, 1.0) * 100.0 == WholeWeighted(c, 100) as real;
  }

  lemma {:induction false} RowsAccount(s: Scores, cs: seq<Category>)
    ensures forall r :: r in RowsFor(s, cs) ==> Accounts(r, s)
  {
    if cs != [] {
      RowAccounts(s, cs[0]);
      RowsAccount(s, cs[1..]);
    }
  }

  /** A lower score in a category never loses fewer points. */
  lemma LostMonotone(s: Scores, t: Scores, c: Category)
    requires ScoreOf(t, c) <= ScoreOf(s, c)
    ensures RowFor(t, c).lost >= RowFor(s, c).lost
  {
    var a, b := Weighted(c, 100.0 - ScoreOf(s, c)) / 100.0, Weighted(c, 100.0 - ScoreOf(t, c)) / 100.0;
    assert a <= b;
    Round2Monotone(a, b);
  }

  lemma Round2Monotone(x: real, y: real)
    requires x <= y
    ensures Round2(x) <= Round2(y)
  {
    NearestMonotone(x * 100.0, y * 100.0);
  }

  /** The rows, and their sort by points lost: ranked, one per category, and summing to the
      overall score up to rounding. */
  method Explain(s: Scores) returns (rows: seq<Row>)
    ensures Ranked(rows) && multiset(rows) == multiset(RowsFor(s, CATEGORIES))
    ensures |rows| == |CATEGORIES|
    ensures forall r :: r in rows ==>
              var w, x := Weighted(r.category, 1.0), ScoreOf(s, r.category);
              && r.weight == w && r.maxContribution == w && r.score == Round1(x)
              && -0.005 <= r.lost - (w - Weighted(r.category, x) / 100.0) <= 0.005
              && -0.01 <= r.contribution + r.lost - w <= 0.01
    ensures -0.09 <= Contributions(rows) - ComputeScore(s).overall <= 0.09
    ensures Contributions(rows) == Contributions(RowsFor(s, CATEGORIES))
  {
    rows := BuildRows(s, CATEGORIES);
    RowsSorted(s, CATEGORIES);
    RowsAccount(s, CATEGORIES);
    SortedAccount(s, rows);
    rows := SortByLost(rows);
    ContributionsNearOverall(s, CATEGORIES);
  }

  lemma ContributionsNearMean(s: Scores, cs: seq<Category>)
    requires cs == CATEGORIES
    ensures -0.04 <= Contributions(RowsFor(s, cs)) - Mean(s) <= 0.04
  {
    ContributionsNearSum(s, cs);
  }

  lemma ContributionsNearOverall(s: Scores, cs: seq<Category>)
    requires cs == CATEGORIES
    ensures -0.09 <= Contributions(RowsFor(s, cs)) - ComputeScore(s).overall <= 0.09
  {
    ContributionsNearMean(s, cs);
    NearestWithinHalf(Mean(s) * 10.0);
  }

  // ---------- when the contributions add up exactly ----------

  /** The contributions in hundredths: each weighted score rounded on its own. */
  function Cents(s: Scores, cs: seq<Category>): int {
    if cs == [] then 0 else Nearest(Weighted(cs[0], ScoreOf(s, cs[0]))) + Cents(s, cs[1..])
  }

  lemma RowInCents(s: Scores, c: Category)
    ensures RowFor(s, c).contribution == Nearest(Weighted(c, ScoreOf(s, c))) as real / 100.0
  {
    var w := Weighted(c, ScoreOf(s, c));
    assert w / TOTAL_WEIGHT * 100.0 == w;
  }

  lemma {:induction false} ContributionsAreCents(s: Scores, cs: seq<Category>)
    ensures Contributions(RowsFor(s, cs)) == Cents(s, cs) as real / 100.0
  {
    if cs != [] {
      ContributionsAreCents(s, cs[1..]);
      assert RowsFor(s, cs)[1..] == RowsFor(s, cs[1..]);
      RowInCents(s, cs[0]);
    }
  }

  /** A number of hundredths that is within 0.04 of a mean is the mean rounded to tenths exactly
      when it is a whole number of tenths. */
  lemma WholeTenths(cents: int, mean: real)
    requires -0.04 <= cents as real / 100.0 - mean <= 0.04
    ensures cents as real / 100.0 == Round1(mean) <==> cents % 10 == 0
  {
    var k := Nearest(mean * 10.0);
    if cents % 10 == 0 {
      assert cents == 10 * (cents / 10);
      NearestIs(mean * 10.0, cents / 10);
    }
    assert cents as real / 100.0 == k as real / 10.0 <==> cents == 10 * k;
  }

  /** For every score vector the contributions sum to the overall score exactly when their
      hundredths add up to a whole number of tenths. */
  lemma ContributionsExact(s: Scores)
    ensures Contributions(RowsFor(s, CATEGORIES)) == ComputeScore(s).overall <==> Cents(s, CATEGORIES) % 10 == 0
  {
    ContributionsAreCents(s, CATEGORIES);
    ContributionsNearMean(s, CATEGORIES);
    WholeTenths(Cents(s, CATEGORIES), Mean(s));
  }

  function WholeWeighted(c: Category, x: int): int {
    match c
    case Accessibility => 22 * x
    case Usability => 17 * x
    case Gigw => 15 * x
    case Design => 11 * x
    case Performance => 12 * x
    case Responsiveness => 10 * x
    case Content => 7 * x
    case Trust => 6 * x
  }

  /** n tenths rounded to a whole number, half to even, in integers. */
  function NearestTenths(n: int): int {
    if n % 10 < 5 || (n % 10 == 5 && n / 10 % 2 == 0) then n / 10 else n / 10 + 1
  }

  lemma TenthsRounded(n: int)
    ensures Nearest(n as real / 10.0) == NearestTenths(n)
  {
    assert n == 10 * (n / 10) + n % 10;
    assert (n as real / 10.0).Floor == n / 10;
  }

  /** A score's tenths. */
  function Tenths(s: Scores, c: Category): int { (ScoreOf(s, c) * 10.0).Floor }

  /** The same hundredths for one-decimal scores, in integers. */
  function CentsOfTenths(s: Scores, cs: seq<Category>): int {
    if cs == [] then 0 else NearestTenths(WholeWeighted(cs[0], Tenths(s, cs[0]))) + CentsOfTenths(s, cs[1..])
  }

  lemma OneDecimalWeighted(s: Scores, c: Category)
    requires OneDecimal(s)
    ensures Weighted(c, ScoreOf(s, c)) == WholeWeighted(c, Tenths(s, c)) as real / 10.0
  {
    var k := Tenths(s, c);
    assert ScoreOf(s, c) == k as real / 10.0;
  }

  lemma {:induction false} CentsInIntegers(s: Scores, cs: seq<Category>)
    requires OneDecimal(s)
    ensures Cents(s, cs) == CentsOfTenths(s, cs)
  {
    if cs != [] {
      CentsInIntegers(s, cs[1..]);
      OneDecimalWeighted(s, cs[0]);
      TenthsRounded(WholeWeighted(cs[0], Tenths(s, cs[0])));
    }
  }

  /** For one-decimal scores, as the stored rows are: with k the tenths of each category and w its
      weight, exactly when the w * k / 10, each rounded to a whole number, sum to a multiple of ten. */
  lemma ContributionsExactInTenths(s: Scores)
    requires OneDecimal(s)
    ensures Contributions(RowsFor(s, CATEGORIES)) == ComputeScore(s).overall <==> CentsOfTenths(s, CATEGORIES) % 10 == 0
  {
    ContributionsExact(s);
    CentsInIntegers(s, CATEGORIES);
  }

  ghost predicate WholeNumbers(s: Scores) {
    forall c: Category :: ScoreOf(s, c) == ScoreOf(s, c).Floor as real
  }

  lemma WeightedWhole(c: Category, x: real)
    requires x == x.Floor as real
    ensures Nearest(Weighted(c, x)) as real == Weighted(c, x)
  {
    assert Weighted(c, x) == WholeWeighted(c, x.Floor) as real;
    NearestOfWhole(WholeWeighted(c, x.Floor));
  }

  lemma {:induction false} CentsOfWhole(s: Scores, cs: seq<Category>)
    requires WholeNumbers(s)
    ensures Cents(s, cs) as real == WeightedSum(s, cs)
  {
    if cs != [] {
      CentsOfWhole(s, cs[1..]);
      WeightedWhole(cs[0], ScoreOf(s, cs[0]));
    }
  }

  lemma WholeContributionsAreMean(s: Scores)
    requires WholeNumbers(s)
    ensures Contributions(RowsFor(s, CATEGORIES)) == Mean(s)
  {
    ContributionsAreCents(s, CATEGORIES);
    CentsOfWhole(s, CATEGORIES);
  }

  /** For whole-number scores nothing is rounded, and it is the weighted sum that must be a multiple of ten. */
  lemma ContributionsExactWhole(s: Scores)
    requires WholeNumbers(s)
    ensures Contributions(RowsFor(s, CATEGORIES)) == ComputeScore(s).overall
            <==> WeightedSum(s, CATEGORIES).Floor % 10 == 0
  {
    ContributionsExact(s);
    CentsOfWhole(s, CATEGORIES);
  }

  /** So they need not: one point lost on trust leaves 99.94 of contributions for a score of 99.9. */
  lemma ContributionsCanMissOverall() returns (s: Scores)
    ensures Full(s) && InRange(s) && WholeNumbers(s)
    ensures Contributions(RowsFor(s, CATEGORIES)) == 99.94 && ComputeScore(s).overall == 99.9
  {
    s := AllButOne(Trust, 99.0);
    WholeContributionsAreMean(s);
    NearestIs(999.4, 999);
  }

  // ---------- the legal verdict ----------

  datatype Compliance = Compliant | PartiallyCompliant | NonCompliant | NotAssessed

  datatype Method = Automated | ExpertReviewed

  datatype Confidence = AutomatedOnly | ExpertVerified

  datatype Verdict = Verdict(status: Compliance, how: Method, confidence: Confidence)

  predicate Failing(s: Scores, criticals: nat) {
    criticals > 0 || ScoreOf(s, Accessibility) < A11Y_FAIL
  }

  function ComplianceVerdict(s: Scores, criticals: nat, reviewed: bool, flagged: bool): (v: Verdict)
    ensures v.status == Compliant
            <==> reviewed && !flagged && criticals == 0 && ScoreOf(s, Accessibility) >= 90.0
    ensures v.status == NonCompliant <==> criticals > 0 || ScoreOf(s, Accessibility) < 50.0
    ensures v.status != NotAssessed
    ensures v.how == ExpertReviewed <==> reviewed
    ensures v.confidence == ExpertVerified <==> reviewed
  {
    var how := if reviewed then ExpertReviewed else Automated;
    var confidence := if reviewed then ExpertVerified else AutomatedOnly;
    if flagged && !Failing(s, criticals) then Verdict(PartiallyCompliant, how, confidence)
    else if Failing(s, criticals) then Verdict(NonCompliant, how, confidence)
    else if !reviewed then Verdict(PartiallyCompliant, how, confidence)
    else if ScoreOf(s, Accessibility) < A11Y_PASS then Verdict(PartiallyCompliant, how, confidence)
    else Verdict(Compliant, how, confidence)
  }
}
