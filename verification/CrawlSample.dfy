/**
 The crawl set of an audit: the pool of candidate URLs, the round-robin sample across
 site sections, and the de-duplication of findings.  URL parsing is a parameter: `seg`
 gives the top-level path section of a URL.
 */
module CrawlSample {
  import opened Arithmetic
  import opened Common

  type Url = string
  type Section = string

  /** The URLs of one section, in order. */
  function InSection(urls: seq<Url>, seg: Url -> Section, k: Section): seq<Url> {
    if urls == [] then []
    else (if seg(urls[0]) == k then [urls[0]] else []) + InSection(urls[1..], seg, k)
  }

  /** The sections in the order they first occur. */
  function Sections(urls: seq<Url>, seg: Url -> Section): seq<Section> {
    if urls == [] then []
    else
      var rest, k := Sections(urls[..|urls| - 1], seg), seg(urls[|urls| - 1]);
      if k in rest then rest else rest + [k]
  }

  lemma {:induction false} SectionsDistinct(urls: seq<Url>, seg: Url -> Section)
    ensures var keys := Sections(urls, seg);
            && (forall i, j :: 0 <= i < j < |keys| ==> keys[i] != keys[j])
            && (forall u :: u in urls ==> seg(u) in keys)
  {
    if urls != [] {
      SectionsDistinct(urls[..|urls| - 1], seg);
      assert urls == urls[..|urls| - 1] + [urls[|urls| - 1]];
    }
  }

  /** Place `i` holds the first URL of the section. */
  predicate FirstOfSection(urls: seq<Url>, seg: Url -> Section, key: Section, i: nat) {
    i < |urls| && seg(urls[i]) == key && forall j :: 0 <= j < i ==> seg(urls[j]) != key
  }

  ghost predicate SectionsAt(urls: seq<Url>, seg: Url -> Section, keys: seq<Section>, at: seq<nat>) {
    && |at| == |keys| && (forall k :: 0 <= k < |at| ==> FirstOfSection(urls, seg, keys[k], at[k]))
    && forall k, m :: 0 <= k < m < |at| ==> at[k] < at[m]
  }

  lemma SectionsAtMore(front: seq<Url>, u: Url, seg: Url -> Section, keys: seq<Section>, at: seq<nat>)
    requires SectionsAt(front, seg, keys, at) && forall x :: x in front ==> seg(x) in keys
    ensures SectionsAt(front + [u], seg, keys, at)
    ensures seg(u) !in keys ==> SectionsAt(front + [u], seg, keys + [seg(u)], at + [|front|])
  {
    var urls := front + [u];
    forall k | 0 <= k < |at| ensures FirstOfSection(urls, seg, keys[k], at[k]) {
      assert FirstOfSection(front, seg, keys[k], at[k]);
    }
    if seg(u) !in keys {
      forall j | 0 <= j < |front| ensures seg(urls[j]) != seg(u) {
        assert front[j] in front;
      }
      assert FirstOfSection(urls, seg, seg(u), |front|);
    }
  }

  /** The sections stand in the order of their first URLs. */
  lemma {:induction false} SectionsInOrder(urls: seq<Url>, seg: Url -> Section) returns (at: seq<nat>)
    ensures SectionsAt(urls, seg, Sections(urls, seg), at)
  {
    at := [];
    if urls != [] {
      var front, u := urls[..|urls| - 1], urls[|urls| - 1];
      at := SectionsInOrder(front, seg);
      SectionsDistinct(front, seg);
      SectionsAtMore(front, u, seg, Sections(front, seg), at);
      assert urls == front + [u];
      if seg(u) !in Sections(front, seg) {
        at := at + [|front|];
      }
    }
  }

  // ---------- round-robin, stated without the loop ----------

  /** Items of round `r` from the buckets before `j`: each bucket's r-th item, if it has one. */
  function Round(buckets: seq<seq<Url>>, r: nat, j: nat): seq<Url>
    requires j <= |buckets|
  {
    if j == 0 then []
    else Round(buckets, r, j - 1) + (if r < |buckets[j - 1]| then [buckets[j - 1][r]] else [])
  }

  /** All items of rounds before `r`. */
  function Rounds(buckets: seq<seq<Url>>, r: nat): seq<Url> {
    if r == 0 then [] else Rounds(buckets, r - 1) + Round(buckets, r - 1, |buckets|)
  }

  function Total(buckets: seq<seq<Url>>): nat {
    if buckets == [] then 0 else |buckets[0]| + Total(buckets[1..])
  }

  function Longest(buckets: seq<seq<Url>>): nat {
    if buckets == [] then 0
    else if |buckets[0]| >= Longest(buckets[1..]) then |buckets[0]| else Longest(buckets[1..])
  }

  function Min(a: nat, b: nat): nat { if a <= b then a else b }

  /** How many items bucket `b` has given once `r` full rounds and the first `j` turns of the next are over. */
  function Share(b: seq<Url>, r: nat, j: nat, at: nat): nat {
    Min(|b|, if at < j then r + 1 else r)
  }

  /** What is left of every bucket then. */
  function Left(buckets: seq<seq<Url>>, r: nat, j: nat): (left: seq<seq<Url>>)
    ensures |left| == |buckets|
    ensures forall k :: 0 <= k < |left| ==> left[k] == buckets[k][Share(buckets[k], r, j, k)..]
  {
    seq(|buckets|, k requires 0 <= k < |buckets| => buckets[k][Share(buckets[k], r, j, k)..])
  }

  /** The buckets in key order. */
  function Buckets(urls: seq<Url>, seg: Url -> Section, keys: seq<Section>): (bs: seq<seq<Url>>)
    ensures |bs| == |keys| && forall k :: 0 <= k < |keys| ==> bs[k] == InSection(urls, seg, keys[k])
  {
    seq(|keys|, k requires 0 <= k < |keys| => InSection(urls, seg, keys[k]))
  }

  /** The whole round-robin order: every first item, then every second item, and so on. */
  function Order(urls: seq<Url>, seg: Url -> Section): seq<Url> {
    var bs := Buckets(urls, seg, Sections(urls, seg));
    Rounds(bs, Longest(bs))
  }

  /** What has been picked once `r` full rounds and `j` turns of the next are over. */
  function Upto(buckets: seq<seq<Url>>, r: nat, j: nat): seq<Url>
    requires j <= |buckets|
  {
    Rounds(buckets, r) + Round(buckets, r, j)
  }

  lemma {:induction false} LongestBounds(buckets: seq<seq<Url>>, k: nat)
    requires k < |buckets|
    ensures |buckets[k]| <= Longest(buckets)
  {
    if k > 0 {
      LongestBounds(buckets[1..], k - 1);
    }
  }

  lemma {:induction false} InSectionConcat(a: seq<Url>, b: seq<Url>, seg: Url -> Section, k: Section)
    ensures InSection(a + b, seg, k) == InSection(a, seg, k) + InSection(b, seg, k)
  {
    if a == [] {
      assert a + b == b;
    } else {
      assert (a + b)[1..] == a[1..] + b;
      InSectionConcat(a[1..], b, seg, k);
    }
  }

  lemma InSectionAppend(urls: seq<Url>, u: Url, seg: Url -> Section, k: Section)
    ensures InSection(urls + [u], seg, k) == InSection(urls, seg, k) + (if seg(u) == k then [u] else [])
  {
    InSectionConcat(urls, [u], seg, k);
    assert InSection([u][1..], seg, k) == [];
  }

  /** One turn, at bucket `j` of round `r`: what is picked, and what is left. */
  lemma TurnPicks(buckets: seq<seq<Url>>, r: nat, j: nat)
    requires j < |buckets|
    ensures Upto(buckets, r, j + 1) == Upto(buckets, r, j) + (if r < |buckets[j]| then [buckets[j][r]] else [])
    ensures j + 1 == |buckets| ==> Upto(buckets, r, j + 1) == Upto(buckets, r + 1, 0)
  {
  }

  lemma TurnLeaves(buckets: seq<seq<Url>>, r: nat, j: nat)
    requires j < |buckets|
    ensures var left := Left(buckets, r, j);
            && (left[j] == [] <==> |buckets[j]| <= r)
            && (left[j] != [] ==> left[j][0] == buckets[j][r])
            && Left(buckets, r, j + 1) == left[j := if left[j] == [] then [] else left[j][1..]]
    ensures j + 1 == |buckets| ==> Left(buckets, r, j + 1) == Left(buckets, r + 1, 0)
  {
    var left, after := Left(buckets, r, j), Left(buckets, r, j + 1);
    forall k | 0 <= k < |buckets|
      ensures after[k] == if k != j then left[k] else if left[j] == [] then [] else left[j][1..]
    {
    }
  }

  lemma {:induction false} TotalUpdate(buckets: seq<seq<Url>>, k: nat, b: seq<Url>)
    requires k < |buckets|
    ensures Total(buckets[k := b]) == Total(buckets) - |buckets[k]| + |b|
  {
    if k == 0 {
      assert buckets[0 := b][1..] == buckets[1..];
    } else {
      assert buckets[k := b][1..] == buckets[1..][k - 1 := b];
      TotalUpdate(buckets[1..], k - 1, b);
    }
  }

  lemma {:induction false} NothingLeft(buckets: seq<seq<Url>>)
    ensures Total(buckets) == 0 <==> forall k :: 0 <= k < |buckets| ==> buckets[k] == []
  {
    if buckets != [] {
      NothingLeft(buckets[1..]);
      if Total(buckets) == 0 {
        forall k | 0 <= k < |buckets| ensures buckets[k] == [] {
          if k > 0 { assert buckets[k] == buckets[1..][k - 1]; }
        }
      }
    }
  }

  lemma TurnConserves(buckets: seq<seq<Url>>, r: nat, j: nat)
    requires j < |buckets|
    ensures Held(buckets, r, j + 1) == Held(buckets, r, j)
  {
    var left := Left(buckets, r, j);
    TurnPicks(buckets, r, j);
    TurnLeaves(buckets, r, j);
    TotalUpdate(left, j, if left[j] == [] then [] else left[j][1..]);
  }

  lemma NoTurns(buckets: seq<seq<Url>>)
    ensures Left(buckets, 0, 0) == buckets && Upto(buckets, 0, 0) == []
  {
  }

  lemma RoundEnds(buckets: seq<seq<Url>>, r: nat)
    ensures Upto(buckets, r + 1, 0) == Upto(buckets, r, |buckets|)
    ensures Left(buckets, r + 1, 0) == Left(buckets, r, |buckets|)
  {
    assert Round(buckets, r + 1, 0) == [];
  }

  /** What is picked and what is left, together. */
  function Held(buckets: seq<seq<Url>>, r: nat, j: nat): nat
    requires j <= |buckets|
  {
    |Upto(buckets, r, j)| + Total(Left(buckets, r, j))
  }

  /** Whole rounds conserve it... */
  lemma {:induction false} RoundConserves(buckets: seq<seq<Url>>, r: nat, j: nat)
    requires j <= |buckets|
    ensures Held(buckets, r, j) == Held(buckets, r, 0)
  {
    if j > 0 {
      RoundConserves(buckets, r, j - 1);
      TurnConserves(buckets, r, j - 1);
    }
  }

  lemma NothingHeld(buckets: seq<seq<Url>>)
    ensures Held(buckets, 0, 0) == Total(buckets)
  {
    NoTurns(buckets);
  }

  /** ...so at any turn what is picked plus what is left is everything. */
  lemma {:induction false} PickedPlusLeft(buckets: seq<seq<Url>>, r: nat, j: nat)
    requires j <= |buckets|
    ensures Held(buckets, r, j) == Total(buckets)
    decreases r
  {
    RoundConserves(buckets, r, j);
    if r == 0 {
      NothingHeld(buckets);
    } else {
      RoundEnds(buckets, r - 1);
      PickedPlusLeft(buckets, r - 1, |buckets|);
    }
  }

  lemma {:induction false} RoundIsPrefix(buckets: seq<seq<Url>>, r: nat, j: nat, j2: nat)
    requires j <= j2 <= |buckets|
    ensures Round(buckets, r, j) <= Round(buckets, r, j2)
    decreases j2 - j
  {
    if j < j2 { RoundIsPrefix(buckets, r, j, j2 - 1); }
  }

  lemma {:induction false} RoundsArePrefix(buckets: seq<seq<Url>>, r: nat, r2: nat)
    requires r <= r2
    ensures Rounds(buckets, r) <= Rounds(buckets, r2)
    decreases r2 - r
  {
    if r < r2 { RoundsArePrefix(buckets, r, r2 - 1); }
  }

  /** Every stage of the loop is a prefix of the whole order. */
  lemma StageIsPrefix(buckets: seq<seq<Url>>, r: nat, j: nat, all: nat)
    requires j <= |buckets| && (r < all || (r == all && j == 0))
    ensures Upto(buckets, r, j) <= Rounds(buckets, all)
  {
    if r < all {
      RoundIsPrefix(buckets, r, j, |buckets|);
      RoundsArePrefix(buckets, r + 1, all);
    }
  }

  lemma OneMoreUrl(urls: seq<Url>, n: nat, seg: Url -> Section)
    requires n < |urls|
    ensures forall k :: InSection(urls[..n + 1], seg, k)
                        == InSection(urls[..n], seg, k) + (if seg(urls[n]) == k then [urls[n]] else [])
    ensures Sections(urls[..n + 1], seg)
            == Sections(urls[..n], seg) + (if seg(urls[n]) in Sections(urls[..n], seg) then [] else [seg(urls[n])])
  {
    assert urls[..n + 1] == urls[..n] + [urls[n]];
    assert urls[..n + 1][..|urls[..n + 1]| - 1] == urls[..n];
    forall k
      ensures InSection(urls[..n + 1], seg, k)
              == InSection(urls[..n], seg, k) + (if seg(urls[n]) == k then [urls[n]] else [])
    {
      InSectionAppend(urls[..n], urls[n], seg, k);
    }
  }

  method FillBuckets(urls: seq<Url>, seg: Url -> Section) returns (buckets: map<Section, seq<Url>>, keys: seq<Section>)
    ensures keys == Sections(urls, seg)
    ensures forall k :: k in keys <==> k in buckets
    ensures forall k :: k in keys ==> buckets[k] == InSection(urls, seg, k)
  {
    buckets, keys := map[], [];
    for n := 0 to |urls|
      invariant keys == Sections(urls[..n], seg)
      invariant forall k :: k in keys <==> k in buckets
      invariant forall k :: k in keys ==> buckets[k] == InSection(urls[..n], seg, k)
      invariant forall k :: k !in keys ==> InSection(urls[..n], seg, k) == []
    {
      var u, s := urls[n], seg(urls[n]);
      OneMoreUrl(urls, n, seg);
      if s !in buckets {
        buckets := buckets[s := []];
        keys := keys + [s];
      }
      buckets := buckets[s := buckets[s] + [u]];
    }
    assert urls[..|urls|] == urls;
  }

  /** The round-robin: while the cap is not reached and some section has URLs left, take one
      from the section whose turn it is, if it has any. */
  method RoundRobin(sections: map<Section, seq<Url>>, keys: seq<Section>, cap: nat, ghost bs: seq<seq<Url>>)
    returns (picked: seq<Url>)
    requires forall k :: k in keys ==> k in sections
    requires Remaining(bs, 0, 0, keys, sections)
    ensures |picked| == Min(cap, |Rounds(bs, Longest(bs))|)
    ensures picked <= Rounds(bs, Longest(bs))
  {
    var buckets := sections;
    picked := [];
    var i := 0;
    ghost var r: nat, j: nat := 0, 0;
    while |picked| < cap && exists k :: k in keys && |buckets[k]| > 0
      invariant forall k :: k in keys ==> k in buckets
      invariant Remaining(bs, r, j, keys, buckets)
      invariant j <= |bs| && picked == Upto(bs, r, j) && |picked| <= cap
      invariant 0 <= i && (keys != [] ==> j == i % |keys|) && (keys == [] ==> j == 0)
      invariant r < Longest(bs) || (j == 0 && r == Longest(bs))
      decreases Longest(bs) - r, |keys| - j
    {
      SomeBucketLeft(bs, r, j, keys, buckets);
      TurnTaken(bs, r, j, keys, buckets);
      NextQuotient(i, |keys|);
      var key := keys[i % |keys|];
      if |buckets[key]| > 0 {
        picked := picked + [buckets[key][0]];
        buckets := buckets[key := buckets[key][1..]];
      }
      i := i + 1;
      r, j := NextRound(r, j, |keys|), NextBucket(j, |keys|);
    }
    SampleEnds(bs, r, j, cap, keys, buckets);
  }

  /** The round-robin order of the URLs, cut at the cap. */
  function Sample(urls: seq<Url>, seg: Url -> Section, cap: nat): seq<Url> {
    Order(urls, seg)[..Min(cap, |Order(urls, seg)|)]
  }

  method Diversify(urls: seq<Url>, cap: nat, seg: Url -> Section) returns (picked: seq<Url>)
    ensures picked == Sample(urls, seg, cap)
  {
    var buckets, keys := FillBuckets(urls, seg);
    ghost var bs := Buckets(urls, seg, keys);
    LoopStart(urls, seg, keys, buckets);
    picked := RoundRobin(buckets, keys, cap, bs);
    SampleIsCut(urls, seg, cap, bs, Rounds(bs, Longest(bs)), picked);
  }

  lemma SampleIsCut(urls: seq<Url>, seg: Url -> Section, cap: nat, bs: seq<seq<Url>>, order: seq<Url>, picked: seq<Url>)
    requires bs == Buckets(urls, seg, Sections(urls, seg)) && order == Rounds(bs, Longest(bs))
    requires |picked| == Min(cap, |order|) && picked <= order
    ensures picked == Sample(urls, seg, cap)
  {
    assert order == Order(urls, seg);
  }

  lemma LoopStart(urls: seq<Url>, seg: Url -> Section, keys: seq<Section>, buckets: map<Section, seq<Url>>)
    requires keys == Sections(urls, seg)
    requires forall k :: k in keys ==> k in buckets && buckets[k] == InSection(urls, seg, k)
    ensures Remaining(Buckets(urls, seg, keys), 0, 0, keys, buckets)
  {
    SectionsDistinct(urls, seg);
    NoTurns(Buckets(urls, seg, keys));
  }

  function NextRound(r: nat, j: nat, n: nat): nat { if j + 1 == n then r + 1 else r }

  function NextBucket(j: nat, n: nat): nat { if j + 1 == n then 0 else j + 1 }

  /** When the loop stops, the cap is reached or nothing is left. */
  lemma SampleEnds(bs: seq<seq<Url>>, r: nat, j: nat, cap: nat, keys: seq<Section>, buckets: map<Section, seq<Url>>)
    requires Remaining(bs, r, j, keys, buckets) && j <= |bs| && |Upto(bs, r, j)| <= cap
    requires forall k :: k in keys ==> k in buckets
    requires r < Longest(bs) || (j == 0 && r == Longest(bs))
    requires |Upto(bs, r, j)| < cap ==> forall k :: k in keys ==> |buckets[k]| == 0
    ensures |Upto(bs, r, j)| == Min(cap, |Rounds(bs, Longest(bs))|)
    ensures Upto(bs, r, j) <= Rounds(bs, Longest(bs))
  {
    PickedPlusLeft(bs, r, j);
    PickedPlusLeft(bs, Longest(bs), 0);
    assert Upto(bs, Longest(bs), 0) == Rounds(bs, Longest(bs));
    NothingBeyondLongest(bs);
    StageIsPrefix(bs, r, j, Longest(bs));
    if |Upto(bs, r, j)| < cap {
      forall k | 0 <= k < |bs| ensures Left(bs, r, j)[k] == [] { assert keys[k] in keys; }
      NothingLeft(Left(bs, r, j));
    }
  }

  /** The map the loop shifts from holds exactly what is left of every bucket. */
  ghost predicate Remaining(bs: seq<seq<Url>>, r: nat, j: nat, keys: seq<Section>, buckets: map<Section, seq<Url>>) {
    && |bs| == |keys|
    && (forall k :: 0 <= k < |keys| ==> keys[k] in buckets && buckets[keys[k]] == Left(bs, r, j)[k])
    && (forall i, k :: 0 <= i < k < |keys| ==> keys[i] != keys[k])
  }

  lemma TurnTaken(bs: seq<seq<Url>>, r: nat, j: nat, keys: seq<Section>, buckets: map<Section, seq<Url>>)
    requires Remaining(bs, r, j, keys, buckets) && j < |keys|
    ensures var b := buckets[keys[j]]; var r', j' := NextRound(r, j, |keys|), NextBucket(j, |keys|);
            && Remaining(bs, r', j', keys, if |b| > 0 then buckets[keys[j] := b[1..]] else buckets)
            && Upto(bs, r', j') == Upto(bs, r, j) + (if |b| > 0 then [b[0]] else [])
  {
    TurnPicks(bs, r, j);
    TurnLeaves(bs, r, j);
  }

  lemma SomeBucketLeft(bs: seq<seq<Url>>, r: nat, j: nat, keys: seq<Section>, buckets: map<Section, seq<Url>>)
    requires Remaining(bs, r, j, keys, buckets) && forall k :: k in keys ==> k in buckets
    requires exists k :: k in keys && |buckets[k]| > 0
    ensures r < Longest(bs)
  {
    var key :| key in keys && |buckets[key]| > 0;
    var k :| 0 <= k < |keys| && keys[k] == key;
    LongestBounds(bs, k);
  }

  /** Once every bucket had as many rounds as the longest is long, nothing is left. */
  lemma NothingBeyondLongest(bs: seq<seq<Url>>)
    ensures Total(Left(bs, Longest(bs), 0)) == 0
  {
    forall k | 0 <= k < |bs| ensures Left(bs, Longest(bs), 0)[k] == [] { LongestBounds(bs, k); }
    NothingLeft(Left(bs, Longest(bs), 0));
  }

  // ---------- fairness ----------

  /** Buckets whose items belong to distinct sections. */
  ghost predicate Sorted(bs: seq<seq<Url>>, keys: seq<Section>, seg: Url -> Section) {
    && |bs| == |keys|
    && (forall i, j :: 0 <= i < j < |keys| ==> keys[i] != keys[j])
    && (forall k, n :: 0 <= k < |bs| && 0 <= n < |bs[k]| ==> seg(bs[k][n]) == keys[k])
  }

  /** What turn `j` of round `r` adds. */
  function Turn(bs: seq<seq<Url>>, r: nat, j: nat): seq<Url>
    requires j < |bs|
  {
    if r < |bs[j]| then [bs[j][r]] else []
  }

  lemma TurnOfSection(bs: seq<seq<Url>>, keys: seq<Section>, seg: Url -> Section, r: nat, j: nat, k: nat)
    requires Sorted(bs, keys, seg) && j < |bs| && k < |bs|
    ensures InSection(Turn(bs, r, j), seg, keys[k]) == if k == j then Turn(bs, r, j) else []
  {
    if r < |bs[j]| {
      assert InSection([bs[j][r]][1..], seg, keys[k]) == [];
    }
  }

  lemma RoundSplits(bs: seq<seq<Url>>, r: nat, j: nat)
    requires j < |bs|
    ensures Round(bs, r, j + 1) == Round(bs, r, j) + Turn(bs, r, j)
  {
  }

  lemma {:induction false} RoundOfSection(bs: seq<seq<Url>>, keys: seq<Section>, seg: Url -> Section,
                                          r: nat, j: nat, k: nat)
    requires Sorted(bs, keys, seg) && j <= |bs| && k < |bs|
    ensures InSection(Round(bs, r, j), seg, keys[k]) == if k < j then Turn(bs, r, k) else []
  {
    if j > 0 {
      var before, turn := Round(bs, r, j - 1), Turn(bs, r, j - 1);
      RoundSplits(bs, r, j - 1);
      RoundOfSection(bs, keys, seg, r, j - 1, k);
      TurnOfSection(bs, keys, seg, r, j - 1, k);
      SectionOfConcat(before, turn, seg, keys[k]);
    }
  }

  /** When either half has nothing of the section. */
  lemma SectionOfConcat(a: seq<Url>, b: seq<Url>, seg: Url -> Section, k: Section)
    ensures InSection(a, seg, k) == [] ==> InSection(a + b, seg, k) == InSection(b, seg, k)
    ensures InSection(b, seg, k) == [] ==> InSection(a + b, seg, k) == InSection(a, seg, k)
  {
    InSectionConcat(a, b, seg, k);
    assert [] + InSection(b, seg, k) == InSection(b, seg, k) && InSection(a, seg, k) + [] == InSection(a, seg, k);
  }

  /** After `r` full rounds and `j` turns, section k has given its first min(size, r + 1) URLs
      if its turn came (k < j), else its first min(size, r), in their own order. */
  lemma {:induction false} StageShares(bs: seq<seq<Url>>, keys: seq<Section>, seg: Url -> Section,
                                       r: nat, j: nat, k: nat)
    requires Sorted(bs, keys, seg) && j <= |bs| && k < |bs|
    ensures InSection(Upto(bs, r, j), seg, keys[k]) == bs[k][..Share(bs[k], r, j, k)]
    decreases r
  {
    assert InSection(Rounds(bs, r), seg, keys[k]) == bs[k][..Min(|bs[k]|, r)] by {
      if r > 0 {
        StageShares(bs, keys, seg, r - 1, |bs|, k);
        assert Upto(bs, r - 1, |bs|) == Rounds(bs, r);
      }
    }
    InSectionConcat(Rounds(bs, r), Round(bs, r, j), seg, keys[k]);
    RoundOfSection(bs, keys, seg, r, j, k);
    TakeOneMore(bs[k], r);
  }

  lemma TakeOneMore(b: seq<Url>, r: nat)
    ensures b[..Min(|b|, r)] + (if r < |b| then [b[r]] else []) == b[..Min(|b|, r + 1)]
  {
  }

  lemma {:induction false} SectionMembers(urls: seq<Url>, seg: Url -> Section, k: Section)
    ensures forall u :: u in InSection(urls, seg, k) ==> u in urls && seg(u) == k
    ensures forall u :: multiset(InSection(urls, seg, k))[u] == if seg(u) == k then multiset(urls)[u] else 0
  {
    if urls != [] {
      SectionMembers(urls[1..], seg, k);
      assert urls == [urls[0]] + urls[1..];
      assert InSection(urls, seg, k) == (if seg(urls[0]) == k then [urls[0]] else []) + InSection(urls[1..], seg, k);
    }
  }

  /** Every prefix of the order is a stage of the round-robin. */
  lemma {:induction false} PrefixIsStage(bs: seq<seq<Url>>, n: nat, all: nat) returns (r: nat, j: nat)
    requires n <= |Rounds(bs, all)|
    ensures j <= |bs| && Upto(bs, r, j) == Rounds(bs, all)[..n]
  {
    if n == |Rounds(bs, all)| {
      r, j := all, 0;
    } else if n < |Rounds(bs, all - 1)| {
      RoundsArePrefix(bs, all - 1, all);
      r, j := PrefixIsStage(bs, n, all - 1);
    } else {
      r := all - 1;
      j := TurnReaching(bs, r, n - |Rounds(bs, r)|);
    }
  }

  /** Every prefix of a round ends after some turn. */
  lemma TurnReaching(bs: seq<seq<Url>>, r: nat, n: nat) returns (j: nat)
    requires n <= |Round(bs, r, |bs|)|
    ensures j <= |bs| && Round(bs, r, j) == Round(bs, r, |bs|)[..n]
  {
    j := 0;
    while |Round(bs, r, j)| < n
      invariant j <= |bs| && |Round(bs, r, j)| <= n
      decreases |bs| - j
    {
      j := j + 1;
    }
    RoundIsPrefix(bs, r, j, |bs|);
  }

  /** Fairness of any sample: for some r and j every section contributes its first min(size, r)
      URLs, or min(size, r + 1) for the first j sections, in their own order. */
  lemma SampleIsFair(urls: seq<Url>, seg: Url -> Section, n: nat) returns (r: nat, j: nat)
    requires n <= |Order(urls, seg)|
    ensures var keys := Sections(urls, seg);
            forall k :: 0 <= k < |keys| ==>
              var own := InSection(urls, seg, keys[k]);
              InSection(Order(urls, seg)[..n], seg, keys[k]) == own[..Share(own, r, j, k)]
  {
    var keys := Sections(urls, seg);
    var bs := Buckets(urls, seg, keys);
    r, j := PrefixIsStage(bs, n, Longest(bs));
    SectionsDistinct(urls, seg);
    forall k | 0 <= k < |keys| ensures forall m :: 0 <= m < |bs[k]| ==> seg(bs[k][m]) == keys[k] {
      SectionMembers(urls, seg, keys[k]);
      forall m | 0 <= m < |bs[k]| ensures seg(bs[k][m]) == keys[k] { assert bs[k][m] in InSection(urls, seg, keys[k]); }
    }
    forall k | 0 <= k < |keys|
      ensures InSection(Order(urls, seg)[..n], seg, keys[k]) == InSection(urls, seg, keys[k])[..Share(bs[k], r, j, k)]
    {
      StageShares(bs, keys, seg, r, j, k);
    }
  }

  // ---------- nothing lost, nothing repeated ----------

  lemma {:induction false} RoundMembers(bs: seq<seq<Url>>, r: nat, j: nat)
    requires j <= |bs|
    ensures forall u :: u in Round(bs, r, j) ==> exists k :: 0 <= k < |bs| && u in bs[k]
  {
    if j > 0 {
      RoundMembers(bs, r, j - 1);
    }
  }

  lemma {:induction false} RoundsMembers(bs: seq<seq<Url>>, r: nat)
    ensures forall u :: u in Rounds(bs, r) ==> exists k :: 0 <= k < |bs| && u in bs[k]
  {
    if r > 0 {
      RoundsMembers(bs, r - 1);
      RoundMembers(bs, r - 1, |bs|);
    }
  }

  lemma BucketsHoldTheirSections(urls: seq<Url>, seg: Url -> Section)
    ensures var keys := Sections(urls, seg); Sorted(Buckets(urls, seg, keys), keys, seg)
  {
    var keys := Sections(urls, seg);
    var bs := Buckets(urls, seg, keys);
    SectionsDistinct(urls, seg);
    forall k, m | 0 <= k < |keys| && 0 <= m < |bs[k]| ensures seg(bs[k][m]) == keys[k] {
      SectionMembers(urls, seg, keys[k]);
      assert bs[k][m] in InSection(urls, seg, keys[k]);
    }
  }

  /** The whole order holds each section's URLs, in their own order. */
  lemma OrderOfSection(urls: seq<Url>, seg: Url -> Section, k: nat)
    requires k < |Sections(urls, seg)|
    ensures InSection(Order(urls, seg), seg, Sections(urls, seg)[k]) == InSection(urls, seg, Sections(urls, seg)[k])
  {
    var keys := Sections(urls, seg);
    var bs := Buckets(urls, seg, keys);
    BucketsHoldTheirSections(urls, seg);
    LongestBounds(bs, k);
    StageShares(bs, keys, seg, Longest(bs), 0, k);
    assert Upto(bs, Longest(bs), 0) == Rounds(bs, Longest(bs)) && bs[k][..|bs[k]|] == bs[k];
  }

  lemma OrderMembersListed(urls: seq<Url>, seg: Url -> Section, u: Url)
    requires u in Order(urls, seg)
    ensures seg(u) in Sections(urls, seg)
  {
    var keys := Sections(urls, seg);
    var bs := Buckets(urls, seg, keys);
    RoundsMembers(bs, Longest(bs));
    var k :| 0 <= k < |bs| && u in bs[k];
    SectionMembers(urls, seg, keys[k]);
  }

  lemma CountsAgree(urls: seq<Url>, seg: Url -> Section, u: Url)
    ensures multiset(Order(urls, seg))[u] == multiset(urls)[u]
  {
    var keys, order := Sections(urls, seg), Order(urls, seg);
    if seg(u) in keys {
      var k :| 0 <= k < |keys| && keys[k] == seg(u);
      OrderOfSection(urls, seg, k);
      SectionMembers(urls, seg, seg(u));
      SectionMembers(order, seg, seg(u));
    } else {
      SectionsDistinct(urls, seg);
      if u in order { OrderMembersListed(urls, seg, u); }
      assert u !in urls && u !in order;
    }
  }

  /** The round-robin order is a permutation of the URLs, so a sample has
      min(cap, number of URLs) of them. */
  lemma OrderPermutes(urls: seq<Url>, seg: Url -> Section)
    ensures multiset(Order(urls, seg)) == multiset(urls) && |Order(urls, seg)| == |urls|
  {
    forall u ensures multiset(Order(urls, seg))[u] == multiset(urls)[u] {
      CountsAgree(urls, seg, u);
    }
    assert multiset(Order(urls, seg)) == multiset(urls);
    assert |multiset(Order(urls, seg))| == |Order(urls, seg)| && |multiset(urls)| == |urls|;
  }

  lemma {:induction false} CountsOfDistinct<T>(xs: seq<T>)
    ensures NoDup(xs) <==> forall x :: multiset(xs)[x] <= 1
  {
    if xs != [] {
      var rest := xs[1..];
      assert xs == [xs[0]] + rest;
      CountsOfDistinct(rest);
      if NoDup(xs) {
        assert xs[0] !in rest;
      }
      if forall x :: multiset(xs)[x] <= 1 {
        assert multiset(xs)[xs[0]] == 1 + multiset(rest)[xs[0]];
        forall x ensures multiset(rest)[x] <= 1 { assert multiset(rest)[x] <= multiset(xs)[x]; }
        assert xs[0] !in multiset(rest);
      }
    }
  }

  // ---------- first occurrences: `dedupe`, and JavaScript's `[...new Set(xs)]` ----------

  /** The items whose key is not in `seen` nor repeated, in order. */
  function FirstBy<T, K(==)>(xs: seq<T>, key: T -> K, seen: set<K>): seq<T> {
    if xs == [] then []
    else if key(xs[0]) in seen then FirstBy(xs[1..], key, seen)
    else [xs[0]] + FirstBy(xs[1..], key, seen + {key(xs[0])})
  }

  /** What remains has new keys only... */
  lemma {:induction false} FirstByNew<T, K>(xs: seq<T>, key: T -> K, seen: set<K>)
    ensures forall x :: x in FirstBy(xs, key, seen) ==> x in xs && key(x) !in seen
    decreases |xs|
  {
    if xs != [] {
      FirstByNew(xs[1..], key, if key(xs[0]) in seen then seen else seen + {key(xs[0])});
    }
  }

  /** No two items share a key. */
  ghost predicate DistinctBy<T(!new), K>(xs: seq<T>, key: T -> K) {
    xs != [] ==> (forall y :: y in xs[1..] ==> key(y) != key(xs[0])) && DistinctBy(xs[1..], key)
  }

  /** ...each once... */
  lemma {:induction false} FirstByDistinct<T(!new), K>(xs: seq<T>, key: T -> K, seen: set<K>)
    ensures DistinctBy(FirstBy(xs, key, seen), key)
    decreases |xs|
  {
    if xs != [] {
      var seen' := if key(xs[0]) in seen then seen else seen + {key(xs[0])};
      FirstByDistinct(xs[1..], key, seen');
      FirstByNew(xs[1..], key, seen');
    }
  }

  /** ...and no new key is lost. */
  lemma {:induction false} FirstByCovers<T, K>(xs: seq<T>, key: T -> K, seen: set<K>, x: T)
    requires x in xs && key(x) !in seen
    ensures exists y :: y in FirstBy(xs, key, seen) && key(y) == key(x)
    decreases |xs|
  {
    if key(x) == key(xs[0]) {
      assert xs[0] in FirstBy(xs, key, seen);
    } else {
      assert x in xs[1..];
      var seen' := if key(xs[0]) in seen then seen else seen + {key(xs[0])};
      FirstByCovers(xs[1..], key, seen', x);
    }
  }

  lemma {:induction false} DistinctIsKept<T(!new), K>(xs: seq<T>, key: T -> K, seen: set<K>)
    requires DistinctBy(xs, key) && forall x :: x in xs ==> key(x) !in seen
    ensures FirstBy(xs, key, seen) == xs
    decreases |xs|
  {
    if xs != [] {
      DistinctIsKept(xs[1..], key, seen + {key(xs[0])});
    }
  }

  /** `ys` are the items of `xs` at the places `at`, in order. */
  ghost predicate Places<T>(xs: seq<T>, ys: seq<T>, at: seq<nat>) {
    && |at| == |ys| && (forall k :: 0 <= k < |at| ==> at[k] < |xs| && ys[k] == xs[at[k]])
    && forall k, m :: 0 <= k < m < |at| ==> at[k] < at[m]
  }

  function Shift(at: seq<nat>): (moved: seq<nat>)
    ensures |moved| == |at| && forall k :: 0 <= k < |at| ==> moved[k] == at[k] + 1
  {
    seq(|at|, k requires 0 <= k < |at| => at[k] + 1)
  }

  lemma PlacesSkip<T>(xs: seq<T>, ys: seq<T>, at: seq<nat>)
    requires xs != [] && Places(xs[1..], ys, at)
    ensures Places(xs, ys, Shift(at))
  {
  }

  lemma PlacesTake<T>(xs: seq<T>, ys: seq<T>, at: seq<nat>)
    requires xs != [] && Places(xs[1..], ys, at)
    ensures Places(xs, [xs[0]] + ys, [0] + Shift(at))
  {
    PlacesSkip(xs, ys, at);
  }

  /** No item before place `i` has its key, and it is none of `seen`. */
  ghost predicate FirstAt<T, K>(xs: seq<T>, key: T -> K, seen: set<K>, i: nat)
    requires i < |xs|
  {
    key(xs[i]) !in seen && forall j :: 0 <= j < i ==> key(xs[j]) != key(xs[i])
  }

  lemma ShiftedIn(at: seq<nat>, i: nat)
    ensures i in Shift(at) <==> i > 0 && i - 1 in at
  {
    if i > 0 && i - 1 in at {
      var k :| 0 <= k < |at| && at[k] == i - 1;
      assert Shift(at)[k] == i;
    }
  }

  lemma FirstAfterHead<T, K>(xs: seq<T>, key: T -> K, seen: set<K>, i: nat)
    requires 0 < i < |xs|
    ensures FirstAt(xs[1..], key, if key(xs[0]) in seen then seen else seen + {key(xs[0])}, i - 1)
            <==> FirstAt(xs, key, seen, i)
  {
    var rest := xs[1..];
    assert forall j :: 0 <= j < i ==> rest[j] == xs[j + 1];
    assert forall j :: 0 < j < i ==> xs[j] == rest[j - 1];
  }

  /** The items kept are those at the places where a key is first, in order. */
  lemma {:induction false} FirstByPlaces<T, K>(xs: seq<T>, key: T -> K, seen: set<K>) returns (at: seq<nat>)
    ensures Places(xs, FirstBy(xs, key, seen), at)
    ensures forall i :: 0 <= i < |xs| ==> (i in at <==> FirstAt(xs, key, seen, i))
    decreases |xs|
  {
    if xs == [] {
      at := [];
    } else {
      var old' := key(xs[0]) in seen;
      var rest := FirstByPlaces(xs[1..], key, if old' then seen else seen + {key(xs[0])});
      at := if old' then Shift(rest) else [0] + Shift(rest);
      FirstByHead(xs, key, seen, rest);
      forall i | 0 <= i < |xs| ensures i in at <==> FirstAt(xs, key, seen, i) {
        ShiftedIn(rest, i);
        if i > 0 {
          FirstAfterHead(xs, key, seen, i);
        }
      }
    }
  }

  lemma FirstByHead<T, K>(xs: seq<T>, key: T -> K, seen: set<K>, rest: seq<nat>)
    requires xs != []
    requires Places(xs[1..], FirstBy(xs[1..], key, if key(xs[0]) in seen then seen else seen + {key(xs[0])}), rest)
    ensures Places(xs, FirstBy(xs, key, seen), if key(xs[0]) in seen then Shift(rest) else [0] + Shift(rest))
  {
    FirstByStep(xs, key, seen);
    if key(xs[0]) in seen {
      PlacesSkip(xs, FirstBy(xs[1..], key, seen), rest);
    } else {
      PlacesTake(xs, FirstBy(xs[1..], key, seen + {key(xs[0])}), rest);
    }
  }

  /** De-duplicating twice changes nothing. */
  lemma DedupeIdempotent<T(!new), K>(xs: seq<T>, key: T -> K)
    ensures FirstBy(FirstBy(xs, key, {}), key, {}) == FirstBy(xs, key, {})
  {
    FirstByDistinct(xs, key, {});
    DistinctIsKept(FirstBy(xs, key, {}), key, {});
  }

  /** The findings kept: the first of each key. */
  method Dedupe<T(!new), K(==)>(xs: seq<T>, key: T -> K) returns (out: seq<T>)
    ensures out == FirstBy(xs, key, {})
  {
    var seen: set<K> := {};
    out := [];
    for i := 0 to |xs|
      invariant out + FirstBy(xs[i..], key, seen) == FirstBy(xs, key, {})
    {
      FirstByStep(xs[i..], key, seen);
      assert xs[i..][0] == xs[i] && xs[i..][1..] == xs[i + 1..];
      ghost var before, rest := out, FirstBy(xs[i..], key, seen);
      if key(xs[i]) !in seen {
        seen := seen + {key(xs[i])};
        out := out + [xs[i]];
      }
      assert out + FirstBy(xs[i + 1..], key, seen) == before + rest;
    }
  }

  lemma FirstByStep<T, K>(xs: seq<T>, key: T -> K, seen: set<K>)
    requires xs != []
    ensures FirstBy(xs, key, seen)
            == if key(xs[0]) in seen then FirstBy(xs[1..], key, seen)
               else [xs[0]] + FirstBy(xs[1..], key, seen + {key(xs[0])})
  {
  }

  // ---------- the crawl set ----------

  const MAX_CRAWL := 25

  /** Drop the audited URL itself and document links. */
  function Pages(urls: seq<Url>, home: Url, isDocument: Url -> bool): (pool: seq<Url>)
    ensures forall u :: u in pool <==> u in urls && u != home && !isDocument(u)
  {
    if urls == [] then []
    else (if urls[0] != home && !isDocument(urls[0]) then [urls[0]] else []) + Pages(urls[1..], home, isDocument)
  }

  lemma {:induction false} PagesDistinct(urls: seq<Url>, home: Url, isDocument: Url -> bool)
    requires NoDup(urls)
    ensures NoDup(Pages(urls, home, isDocument))
  {
    if urls != [] {
      PagesDistinct(urls[1..], home, isDocument);
      assert urls[0] !in urls[1..];
    }
  }

  /** `input.depth` of 0 (or none) means the maximum, and more than it is cut. */
  function Depth(requested: int): int {
    var d := if requested == 0 then MAX_CRAWL else requested;
    if d < MAX_CRAWL then d else MAX_CRAWL
  }

  function Identity(u: Url): Url { u }

  /** The candidates: sitemap and home-page links, each once, without the home page and documents. */
  function Pool(home: Url, fromSitemap: seq<Url>, links: seq<Url>, isDocument: Url -> bool): seq<Url> {
    Pages(FirstBy(fromSitemap + links, Identity, {}), home, isDocument)
  }

  lemma {:induction false} DistinctItems(xs: seq<Url>, key: Url -> Url)
    requires DistinctBy(xs, key)
    ensures NoDup(xs)
  {
    if xs != [] {
      DistinctItems(xs[1..], key);
      var rest := xs[1..];
      forall y | y in rest ensures y != xs[0] { assert key(y) != key(xs[0]); }
      forall i, j | 0 <= i < j < |xs| ensures xs[i] != xs[j] {
        assert xs[j] == rest[j - 1] && rest[j - 1] in rest;
        if i > 0 { assert xs[i] == rest[i - 1]; }
      }
    }
  }

  lemma PoolIsCandidates(home: Url, fromSitemap: seq<Url>, links: seq<Url>, isDocument: Url -> bool)
    ensures var pool := Pool(home, fromSitemap, links, isDocument);
            NoDup(pool) && forall u :: u in pool <==> u in fromSitemap + links && u != home && !isDocument(u)
  {
    var all := fromSitemap + links;
    var unique := FirstBy(all, Identity, {});
    FirstByDistinct(all, Identity, {});
    FirstByNew(all, Identity, {});
    DistinctItems(unique, Identity);
    PagesDistinct(unique, home, isDocument);
    forall u | u in all ensures u in unique { FirstByCovers(all, Identity, {}, u); }
  }

  /** How many pages besides the home page. */
  function Extra(requested: int): nat {
    if Depth(requested) > 1 then Depth(requested) - 1 else 0
  }

  lemma {:induction false} PagesPlaces(urls: seq<Url>, home: Url, isDocument: Url -> bool) returns (at: seq<nat>)
    ensures Places(urls, Pages(urls, home, isDocument), at)
  {
    if urls == [] {
      at := [];
    } else {
      var rest := PagesPlaces(urls[1..], home, isDocument);
      var pages := Pages(urls[1..], home, isDocument);
      if urls[0] != home && !isDocument(urls[0]) {
        at := [0] + Shift(rest);
        PlacesTake(urls, pages, rest);
      } else {
        at := Shift(rest);
        PlacesSkip(urls, pages, rest);
        assert [] + pages == pages;
      }
    }
  }

  /** The pool keeps the order in which the candidates first occur, sitemap before home-page links. */
  lemma PoolInOrder(home: Url, fromSitemap: seq<Url>, links: seq<Url>, isDocument: Url -> bool) returns (at: seq<nat>)
    ensures Places(fromSitemap + links, Pool(home, fromSitemap, links, isDocument), at)
    ensures forall k, j :: 0 <= k < |at| && 0 <= j < at[k] ==>
              (fromSitemap + links)[j] != Pool(home, fromSitemap, links, isDocument)[k]
  {
    var all := fromSitemap + links;
    var first := FirstByPlaces(all, Identity, {});
    var page := PagesPlaces(FirstBy(all, Identity, {}), home, isDocument);
    at := seq(|page|, k requires 0 <= k < |page| => first[page[k]]);
    forall k, j | 0 <= k < |at| && 0 <= j < at[k] ensures all[j] != all[at[k]] {
      assert at[k] in first && FirstAt(all, Identity, {}, at[k]);
      assert Identity(all[j]) != Identity(all[at[k]]);
    }
  }

  /** The pages an audit visits: the home page first, then a sample of the pool, none twice,
      and as many as the depth and the pool allow. */
  method CrawlSet(home: Url, fromSitemap: seq<Url>, links: seq<Url>, requested: int,
                  seg: Url -> Section, isDocument: Url -> bool)
    returns (visited: seq<Url>)
    ensures var pool := Pool(home, fromSitemap, links, isDocument);
            && visited == [home] + Sample(pool, seg, Extra(requested))
            && NoDup(visited) && (forall u :: u in visited[1..] ==> u in pool)
            && |visited| == 1 + Min(if requested == 0 || requested > 25 then 24
                                    else if requested >= 1 then requested - 1 else 0, |pool|)
  {
    var unique := Dedupe(fromSitemap + links, Identity);
    var pool := Pages(unique, home, isDocument);
    var extra := Diversify(pool, Extra(requested), seg);
    PoolIsCandidates(home, fromSitemap, links, isDocument);
    SampleDistinct(pool, seg, |extra|);
    visited := [home] + extra;
    assert visited[1..] == extra;
    assert home !in extra;
  }

  lemma SampleDistinct(urls: seq<Url>, seg: Url -> Section, n: nat)
    requires NoDup(urls) && n <= |Order(urls, seg)|
    ensures |Order(urls, seg)| == |urls|
    ensures NoDup(Order(urls, seg)[..n]) && forall u :: u in Order(urls, seg)[..n] ==> u in urls
  {
    var order := Order(urls, seg);
    OrderPermutes(urls, seg);
    CountsOfDistinct(urls);
    CountsOfDistinct(order);
    forall u | u in order[..n] ensures u in urls {
      assert u in multiset(order);
    }
  }
}
