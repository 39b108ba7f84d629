/** Deterministic ranking of candidates: score, sort, number, and explain. */
module Ranking {
  import opened Prelude
  import opened Ordering
  import opened Capability
  import opened Portability
  import opened Compatibility
  import opened CompatibilityTheorems

  type U32 = n: nat | n < 0x1_0000_0000
  type U64 = n: nat | n < 0x1_0000_0000_0000_0000

  datatype Weights = Weights(
    nativeBonus: int, stepPenalty: int, costPenalty: int, syntheticPenalty: int, distancePenalty: int, memoryBonus: int,
    useMemory: bool, useDistance: bool)

  const DEFAULT_WEIGHTS := Weights(1000, 250, 1, 500, 100, 10, false, false)

  /** `accelerator` is the 128-bit identity, as the number it is compared by. */
  datatype Candidate = Candidate(
    accelerator: nat, outcome: CompatibilityOutcome, portability: PortabilityClass, provenance: Provenance, decisionScore: int,
    distance: U32, freeMemory: U64, cost: U32)

  datatype Dimension = PortabilityBonus | TransformationPenalty | CostPenalty | EvidencePenalty | DistancePenalty | MemoryGain
                     | DecisionScore | Exclusion

  /** One line of an explanation: what a dimension added to the score. */
  datatype Line = Line(dimension: Dimension, amount: int)

  datatype Ranked = Ranked(
    rank: nat, accelerator: nat, score: int, outcome: CompatibilityOutcome, portability: PortabilityClass, provenance: Provenance,
    rationale: seq<Line>)

  datatype RankingResult = RankingResult(ranked: seq<Ranked>, excluded: seq<Ranked>)

  const MAX_CANDIDATES := 1_000_000

  // ---- The score of one candidate ---------------------------------------------------------

  /** Division of the source language: toward zero. */
  function Halve(n: int): int { if n >= 0 then n / 2 else -(-n / 2) }

  const GIB := 1_073_741_824

  function PortabilityLines(c: Candidate, w: Weights): seq<Line> {
    if c.portability == Native then [Line(PortabilityBonus, w.nativeBonus)]
    else if c.portability == LiveMigrationSupported then [Line(PortabilityBonus, Halve(w.nativeBonus))]
    else []
  }

  function StepLines(c: Candidate, w: Weights): seq<Line> {
    var steps := TransformationSteps(c.portability);
    if steps != 0 && steps != 255 then [Line(TransformationPenalty, -(steps * w.stepPenalty))] else []
  }

  function CostLines(c: Candidate, w: Weights): seq<Line> {
    if c.cost != 0 then [Line(CostPenalty, -(c.cost * w.costPenalty))] else []
  }

  function EvidenceLines(c: Candidate, w: Weights): seq<Line> {
    if c.provenance == Synthetic then [Line(EvidencePenalty, -w.syntheticPenalty)]
    else if c.provenance == NoEvidence then [Line(EvidencePenalty, -(w.syntheticPenalty * 2))]
    else []
  }

  function DistanceLines(c: Candidate, w: Weights): seq<Line> {
    if w.useDistance && c.distance != 0 then [Line(DistancePenalty, -(c.distance * w.distancePenalty))] else []
  }

  function MemoryLines(c: Candidate, w: Weights): seq<Line> {
    if w.useMemory && c.freeMemory != 0 then [Line(MemoryGain, c.freeMemory / GIB * w.memoryBonus)] else []
  }

  function DecisionLines(c: Candidate): seq<Line> {
    if c.decisionScore != 0 then [Line(DecisionScore, c.decisionScore)] else []
  }

  function LinesFor(c: Candidate, w: Weights): seq<Line> {
    PortabilityLines(c, w) + StepLines(c, w) + CostLines(c, w) + EvidenceLines(c, w) + DistanceLines(c, w)
    + MemoryLines(c, w) + DecisionLines(c)
  }

  function Total(lines: seq<Line>): int {
    if lines == [] then 0 else Total(lines[..|lines| - 1]) + lines[|lines| - 1].amount
  }

  lemma TotalSnoc(lines: seq<Line>, l: Line)
    ensures Total(lines + [l]) == Total(lines) + l.amount
  {
    assert (lines + [l])[..|lines|] == lines;
  }

  method ScoreForm(c: Candidate, w: Weights) returns (score: int, rationale: seq<Line>)
    ensures rationale == PortabilityLines(c, w) + StepLines(c, w) && score == Total(rationale)
  {
    hide Total, TransformationSteps;
    assert Total([]) == 0 by { EmptyTotal(); }
    score, rationale := 0, [];
    if c.portability == Native {
      score, rationale := AddLine(score, rationale, PortabilityBonus, w.nativeBonus);
    } else if c.portability == LiveMigrationSupported {
      score, rationale := AddLine(score, rationale, PortabilityBonus, Halve(w.nativeBonus));
    }
    assert rationale == PortabilityLines(c, w);
    var steps := TransformationSteps(c.portability);
    if steps != 0 && steps != 255 {
      score, rationale := AddLine(score, rationale, TransformationPenalty, -(steps * w.stepPenalty));
    }
  }

  method ScoreBurden(c: Candidate, w: Weights, before: int, lines: seq<Line>) returns (score: int, rationale: seq<Line>)
    requires before == Total(lines)
    ensures rationale == lines + CostLines(c, w) + EvidenceLines(c, w) && score == Total(rationale)
  {
    hide Total;
    score, rationale := before, lines;
    if c.cost != 0 {
      score, rationale := AddLine(score, rationale, CostPenalty, -(c.cost * w.costPenalty));
    }
    assert rationale == lines + CostLines(c, w);
    if c.provenance == Synthetic {
      score, rationale := AddLine(score, rationale, EvidencePenalty, -w.syntheticPenalty);
    } else if c.provenance == NoEvidence {
      score, rationale := AddLine(score, rationale, EvidencePenalty, -(w.syntheticPenalty * 2));
    }
  }

  method ScorePlace(c: Candidate, w: Weights, before: int, lines: seq<Line>) returns (score: int, rationale: seq<Line>)
    requires before == Total(lines)
    ensures rationale == lines + DistanceLines(c, w) + MemoryLines(c, w) && score == Total(rationale)
  {
    hide Total;
    score, rationale := before, lines;
    if w.useDistance && c.distance != 0 {
      score, rationale := AddLine(score, rationale, DistancePenalty, -(c.distance * w.distancePenalty));
    }
    assert rationale == lines + DistanceLines(c, w);
    if w.useMemory && c.freeMemory != 0 {
      score, rationale := AddLine(score, rationale, MemoryGain, c.freeMemory / GIB * w.memoryBonus);
    }
  }

  /** The score is exactly what its explanation adds up to. */
  method ScoreCandidate(c: Candidate, w: Weights) returns (score: int, rationale: seq<Line>)
    ensures rationale == LinesFor(c, w) && score == Total(rationale)
  {
    hide Total, PortabilityLines, StepLines, CostLines, EvidenceLines, DistanceLines, MemoryLines;
    score, rationale := ScoreForm(c, w);
    score, rationale := ScoreBurden(c, w, score, rationale);
    score, rationale := ScorePlace(c, w, score, rationale);
    if c.decisionScore != 0 {
      score, rationale := AddLine(score, rationale, DecisionScore, c.decisionScore);
    }
  }

  lemma EmptyTotal()
    ensures Total([]) == 0
  {
  }

  method AddLine(score: int, rationale: seq<Line>, dimension: Dimension, amount: int) returns (score': int, rationale': seq<Line>)
    requires score == Total(rationale)
    ensures rationale' == rationale + [Line(dimension, amount)] && score' == Total(rationale')
  {
    TotalSnoc(rationale, Line(dimension, amount));
    return score + amount, rationale + [Line(dimension, amount)];
  }

  // ---- The whole ranking ------------------------------------------------------------------

  /** What a candidate becomes before ranks are assigned. */
  function EntryOf(c: Candidate, w: Weights): Ranked {
    if c.outcome == Eligible then Ranked(0, c.accelerator, Total(LinesFor(c, w)), c.outcome, c.portability, c.provenance, LinesFor(c, w))
    else Ranked(0, c.accelerator, 0, c.outcome, c.portability, c.provenance, [Line(Exclusion, 0)])
  }

  /** Higher score first, then the stronger class, then the smaller identity. */
  predicate Better(a: Ranked, b: Ranked) {
    if a.score != b.score then a.score > b.score
    else if a.portability != b.portability then Strength(a.portability) > Strength(b.portability)
    else a.accelerator < b.accelerator
  }

  predicate Earlier(a: Ranked, b: Ranked) { a.accelerator < b.accelerator }

  /** The entries of the candidates whose eligibility is `eligible`, in input order. */
  function Entries(cs: seq<Candidate>, w: Weights, eligible: bool): seq<Ranked> {
    if cs == [] then []
    else
      var rest, c := Entries(cs[..|cs| - 1], w, eligible), cs[|cs| - 1];
      if (c.outcome == Eligible) == eligible then rest + [EntryOf(c, w)] else rest
  }

  function Numbered(s: seq<Ranked>): seq<Ranked> { seq(|s|, i requires 0 <= i < |s| => s[i].(rank := i + 1)) }

  function Rank(cs: seq<Candidate>, w: Weights): RankingResult {
    RankingResult(Numbered(Sort(Better, Entries(cs, w, true))), Sort(Earlier, Entries(cs, w, false)))
  }

  method RankCandidates(cs: seq<Candidate>, w: Weights) returns (r: Result<RankingResult>)
    ensures |cs| > MAX_CANDIDATES ==> r == Err(BoundsExceeded)
    ensures |cs| <= MAX_CANDIDATES ==> r == Ok(Rank(cs, w))
  {
    hide LinesFor, Total, Better, Earlier;
    if |cs| > MAX_CANDIDATES { return Err(BoundsExceeded); }
    var ranked, excluded: seq<Ranked> := [], [];
    assert cs[..0] == [];
    for i := 0 to |cs|
      invariant ranked == Entries(cs[..i], w, true) && excluded == Entries(cs[..i], w, false)
    {
      var c := cs[i];
      assert cs[..i + 1][..i] == cs[..i];
      if c.outcome != Eligible {
        excluded := excluded + [Ranked(0, c.accelerator, 0, c.outcome, c.portability, c.provenance, [Line(Exclusion, 0)])];
      } else {
        var score, rationale := ScoreCandidate(c, w);
        ranked := ranked + [Ranked(0, c.accelerator, score, c.outcome, c.portability, c.provenance, rationale)];
      }
    }
    assert cs[..|cs|] == cs;
    ranked := Sort(Better, ranked);
    ranked := AssignRanks(ranked);
    excluded := Sort(Earlier, excluded);
    return Ok(RankingResult(ranked, excluded));
  }

  method AssignRanks(s: seq<Ranked>) returns (ranked: seq<Ranked>)
    ensures ranked == Numbered(s)
  {
    ranked := s;
    for i := 0 to |s|
      invariant |ranked| == |s|
      invariant forall j :: 0 <= j < |s| ==> ranked[j] == if j < i then s[j].(rank := j + 1) else s[j]
    {
      ranked := ranked[i := ranked[i].(rank := i + 1)];
    }
  }

  // ---- Orders -----------------------------------------------------------------------------

  lemma BetterIsWeakOrder()
    ensures WeakOrder(Better)
  {
    assert forall c, d :: Strength(c) == Strength(d) ==> c == d;
    hide Strength;
  }

  lemma EarlierIsWeakOrder()
    ensures WeakOrder(Earlier)
  {
  }

  ghost predicate DistinctAccelerators(cs: seq<Candidate>) {
    forall i, j :: 0 <= i < j < |cs| ==> cs[i].accelerator != cs[j].accelerator
  }

  lemma {:induction false} EntryComesFrom(cs: seq<Candidate>, w: Weights, eligible: bool, k: nat)
    requires k < |Entries(cs, w, eligible)|
    ensures exists i :: 0 <= i < |cs| && (cs[i].outcome == Eligible) == eligible && Entries(cs, w, eligible)[k] == EntryOf(cs[i], w)
  {
    hide EntryOf;
    var front, c := cs[..|cs| - 1], cs[|cs| - 1];
    if k < |Entries(front, w, eligible)| {
      EntryComesFrom(front, w, eligible, k);
      var i :| 0 <= i < |front| && (front[i].outcome == Eligible) == eligible && Entries(front, w, eligible)[k] == EntryOf(front[i], w);
      assert cs[i] == front[i];
    }
  }

  lemma EntryKeepsAccelerator(c: Candidate, w: Weights)
    ensures EntryOf(c, w).accelerator == c.accelerator
  {
    hide LinesFor, Total;
  }

  /** Entries with the same accelerator are the same entry. */
  lemma EntriesAreDistinct(cs: seq<Candidate>, w: Weights, eligible: bool, k: nat, l: nat)
    requires DistinctAccelerators(cs) && k < |Entries(cs, w, eligible)| && l < |Entries(cs, w, eligible)|
    requires Entries(cs, w, eligible)[k].accelerator == Entries(cs, w, eligible)[l].accelerator
    ensures Entries(cs, w, eligible)[k] == Entries(cs, w, eligible)[l]
  {
    hide EntryOf, Entries;
    EntryComesFrom(cs, w, eligible, k);
    EntryComesFrom(cs, w, eligible, l);
    var i :| 0 <= i < |cs| && (cs[i].outcome == Eligible) == eligible && Entries(cs, w, eligible)[k] == EntryOf(cs[i], w);
    var j :| 0 <= j < |cs| && (cs[j].outcome == Eligible) == eligible && Entries(cs, w, eligible)[l] == EntryOf(cs[j], w);
    EntryKeepsAccelerator(cs[i], w);
    EntryKeepsAccelerator(cs[j], w);
  }

  lemma EntriesSeparate(cs: seq<Candidate>, w: Weights, eligible: bool)
    requires DistinctAccelerators(cs)
    ensures Separates(Better, Entries(cs, w, eligible)) && Separates(Earlier, Entries(cs, w, eligible))
  {
    var s := Entries(cs, w, eligible);
    forall i, j | 0 <= i < |s| && 0 <= j < |s| && s[i] != s[j]
      ensures s[i].accelerator != s[j].accelerator
    {
      hide Entries, EntryOf, Better, Earlier;
      if s[i].accelerator == s[j].accelerator { EntriesAreDistinct(cs, w, eligible, i, j); }
    }
    hide Entries, EntryOf;
    assert forall c, d :: Strength(c) == Strength(d) ==> c == d;
    hide Strength;
  }

  // ---- The order of the input does not matter ---------------------------------------------

  ghost function Share(c: Candidate, w: Weights, eligible: bool): multiset<Ranked> {
    if (c.outcome == Eligible) == eligible then multiset{EntryOf(c, w)} else multiset{}
  }

  lemma EntriesSnoc(cs: seq<Candidate>, c: Candidate, w: Weights, eligible: bool)
    ensures multiset(Entries(cs + [c], w, eligible)) == multiset(Entries(cs, w, eligible)) + Share(c, w, eligible)
  {
    hide EntryOf;
    assert (cs + [c])[..|cs|] == cs;
  }

  lemma {:induction false} EntriesWithout(cs: seq<Candidate>, w: Weights, eligible: bool, j: nat)
    requires j < |cs|
    ensures multiset(Entries(cs, w, eligible)) == multiset(Entries(RemoveAt(cs, j), w, eligible)) + Share(cs[j], w, eligible)
    decreases |cs|
  {
    hide Entries, EntryOf, Share;
    var front, last := cs[..|cs| - 1], cs[|cs| - 1];
    assert cs == front + [last];
    EntriesSnoc(front, last, w, eligible);
    if j == |cs| - 1 {
      assert RemoveAt(cs, j) == front;
    } else {
      EntriesWithout(front, w, eligible, j);
      assert RemoveAt(cs, j) == RemoveAt(front, j) + [last];
      EntriesSnoc(RemoveAt(front, j), last, w, eligible);
    }
  }

  lemma {:induction false} EntriesPermute(cs: seq<Candidate>, ds: seq<Candidate>, w: Weights, eligible: bool)
    requires multiset(cs) == multiset(ds)
    ensures multiset(Entries(cs, w, eligible)) == multiset(Entries(ds, w, eligible))
    decreases |cs|
  {
    hide EntryOf, Share;
    assert |cs| == |multiset(cs)| == |multiset(ds)| == |ds|;
    if cs != [] {
      hide Entries;
      var front, last := cs[..|cs| - 1], cs[|cs| - 1];
      assert cs == front + [last];
      var j := FindIn(cs, ds, |cs| - 1);
      RemoveCounts(ds, j);
      RemoveCounts(cs, |cs| - 1);
      assert RemoveAt(cs, |cs| - 1) == front;
      EntriesPermute(front, RemoveAt(ds, j), w, eligible);
      EntriesSnoc(front, last, w, eligible);
      EntriesWithout(ds, w, eligible, j);
    }
  }

  /** For candidates with distinct accelerators the ranking is the same for every order in which
      they are given. */
  lemma RankingIgnoresOrder(cs: seq<Candidate>, ds: seq<Candidate>, w: Weights)
    requires multiset(cs) == multiset(ds) && DistinctAccelerators(cs)
    ensures Rank(cs, w) == Rank(ds, w)
  {
    hide Entries, Better, Earlier, Numbered;
    BetterIsWeakOrder();
    EarlierIsWeakOrder();
    EntriesSeparate(cs, w, true);
    EntriesSeparate(cs, w, false);
    EntriesPermute(cs, ds, w, true);
    EntriesPermute(cs, ds, w, false);
    SortIgnoresOrder(Better, Entries(cs, w, true), Entries(ds, w, true));
    SortIgnoresOrder(Earlier, Entries(cs, w, false), Entries(ds, w, false));
  }

  // ---- Every candidate appears once -------------------------------------------------------

  function Unnumbered(s: seq<Ranked>): seq<Ranked> { seq(|s|, i requires 0 <= i < |s| => s[i].(rank := 0)) }

  ghost function AllEntries(cs: seq<Candidate>, w: Weights): multiset<Ranked> {
    if cs == [] then multiset{} else AllEntries(cs[..|cs| - 1], w) + multiset{EntryOf(cs[|cs| - 1], w)}
  }

  lemma {:induction false} EntriesPartition(cs: seq<Candidate>, w: Weights)
    ensures multiset(Entries(cs, w, true)) + multiset(Entries(cs, w, false)) == AllEntries(cs, w)
  {
    hide EntryOf;
    if cs != [] { EntriesPartition(cs[..|cs| - 1], w); }
  }

  lemma {:induction false} EntriesAreUnranked(cs: seq<Candidate>, w: Weights, k: nat)
    requires k < |Entries(cs, w, true)|
    ensures Entries(cs, w, true)[k].rank == 0 && Entries(cs, w, true)[k].outcome == Eligible
    ensures Entries(cs, w, true)[k].score == Total(Entries(cs, w, true)[k].rationale)
  {
    hide Entries, LinesFor, Total;
    EntryComesFrom(cs, w, true, k);
  }

  /** Ranked and excluded together hold the entry of every candidate exactly once. */
  lemma RankingConserves(cs: seq<Candidate>, w: Weights)
    ensures multiset(Unnumbered(Rank(cs, w).ranked)) + multiset(Rank(cs, w).excluded) == AllEntries(cs, w)
  {
    hide Entries, AllEntries, Better, Earlier, Sort;
    var sorted := Sort(Better, Entries(cs, w, true));
    SortPermutes(Better, Entries(cs, w, true));
    SortPermutes(Earlier, Entries(cs, w, false));
    EntriesPartition(cs, w);
    forall i | 0 <= i < |sorted|
      ensures sorted[i].rank == 0
    {
      SortedEntry(cs, w, i);
    }
    assert Unnumbered(Numbered(sorted)) == sorted;
  }

  lemma SortedEntry(cs: seq<Candidate>, w: Weights, i: nat)
    requires i < |Sort(Better, Entries(cs, w, true))|
    ensures
      var x := Sort(Better, Entries(cs, w, true))[i];
      x.rank == 0 && x.outcome == Eligible && x.score == Total(x.rationale)
  {
    hide Entries, Better, Sort, Total;
    var entries := Entries(cs, w, true);
    SortPermutes(Better, entries);
    assert Sort(Better, entries)[i] in multiset(entries);
    var k :| 0 <= k < |entries| && entries[k] == Sort(Better, entries)[i];
    EntriesAreUnranked(cs, w, k);
  }

  /** A higher score, or the same score and a stronger class, or the same strength too and a smaller
      identity. */
  ghost predicate Ahead(a: Ranked, b: Ranked) {
    || a.score > b.score
    || (a.score == b.score && Strength(a.portability) > Strength(b.portability))
    || (a.score == b.score && Strength(a.portability) == Strength(b.portability) && a.accelerator < b.accelerator)
  }

  lemma BetterIsAhead(a: Ranked, b: Ranked)
    requires Better(a, b)
    ensures Ahead(a, b)
  {
  }

  /** Only eligible candidates are ranked, with ranks 1, 2, ..., each strictly ahead of all after it,
      and every score is the sum of its explanation. */
  lemma RankingIsSound(cs: seq<Candidate>, w: Weights)
    requires DistinctAccelerators(cs)
    ensures
      var r := Rank(cs, w).ranked;
      && (forall i :: 0 <= i < |r| ==> r[i].rank == i + 1 && r[i].outcome == Eligible && r[i].score == Total(r[i].rationale))
      && (forall i, j :: 0 <= i < j < |r| ==> Ahead(r[i], r[j]))
  {
    hide Entries, Better, Earlier, Total, Sort, Ahead;
    var sorted := Sort(Better, Entries(cs, w, true));
    forall i | 0 <= i < |sorted|
      ensures sorted[i].outcome == Eligible && sorted[i].score == Total(sorted[i].rationale)
    {
      SortedEntry(cs, w, i);
    }
    SortedStrictly(cs, w);
    forall i, j | 0 <= i < j < |sorted|
      ensures Ahead(Numbered(sorted)[i], Numbered(sorted)[j])
    {
      BetterIsAhead(sorted[i], sorted[j]);
      AheadIgnoresRank(sorted[i], sorted[j], i + 1, j + 1);
    }
  }

  lemma AheadIgnoresRank(a: Ranked, b: Ranked, i: nat, j: nat)
    requires Ahead(a, b)
    ensures Ahead(a.(rank := i), b.(rank := j))
  {
  }

  lemma {:induction false} EntriesNeverRepeat(cs: seq<Candidate>, w: Weights, k: nat, l: nat)
    requires DistinctAccelerators(cs) && k < l < |Entries(cs, w, true)|
    ensures Entries(cs, w, true)[k].accelerator != Entries(cs, w, true)[l].accelerator
  {
    hide EntryOf;
    var front, c := cs[..|cs| - 1], cs[|cs| - 1];
    if l < |Entries(front, w, true)| {
      EntriesNeverRepeat(front, w, k, l);
    } else {
      EntryComesFrom(front, w, true, k);
      var i :| 0 <= i < |front| && (front[i].outcome == Eligible) == true && Entries(front, w, true)[k] == EntryOf(front[i], w);
      assert cs[i] == front[i];
      EntryKeepsAccelerator(cs[i], w);
      EntryKeepsAccelerator(c, w);
    }
  }

  lemma OncePerEntry(cs: seq<Candidate>, w: Weights, x: Ranked)
    requires DistinctAccelerators(cs)
    ensures multiset(Entries(cs, w, true))[x] <= 1
  {
    hide Entries;
    var s := Entries(cs, w, true);
    forall k, l | 0 <= k < l < |s|
      ensures s[k] != s[l]
    {
      EntriesNeverRepeat(cs, w, k, l);
    }
    DistinctMeansOnce(s, x);
  }

  lemma {:induction false} DistinctMeansOnce<T>(s: seq<T>, x: T)
    requires forall k, l :: 0 <= k < l < |s| ==> s[k] != s[l]
    ensures multiset(s)[x] <= 1
  {
    if s != [] {
      var front, last := s[..|s| - 1], s[|s| - 1];
      assert s == front + [last];
      DistinctMeansOnce(front, x);
      if x == last { assert x !in front; }
    }
  }

  lemma SortedStrictly(cs: seq<Candidate>, w: Weights)
    requires DistinctAccelerators(cs)
    ensures
      var sorted := Sort(Better, Entries(cs, w, true));
      forall i, j :: 0 <= i < j < |sorted| ==> Better(sorted[i], sorted[j])
  {
    hide Entries, Better;
    var entries := Entries(cs, w, true);
    var sorted := Sort(Better, entries);
    BetterIsWeakOrder();
    SortSorts(Better, entries);
    SortPermutes(Better, entries);
    EntriesSeparate(cs, w, true);
    forall i, j | 0 <= i < j < |sorted|
      ensures Better(sorted[i], sorted[j])
    {
      assert sorted[i] in multiset(entries) && sorted[j] in multiset(entries);
      if sorted[i] == sorted[j] {
        OncePerEntry(cs, w, sorted[i]);
        TwiceInMultiset(sorted, sorted[i], i, j);
      }
    }
  }

  // ---- What the order means ---------------------------------------------------------------

  /** Nothing that comes later is ahead of what comes before, and on equal scores and strength the
      smaller identity comes first. */
  ghost predicate InOrder(a: Ranked, b: Ranked) {
    && a.score >= b.score
    && (a.score == b.score ==> Strength(a.portability) >= Strength(b.portability))
    && (a.score == b.score && Strength(a.portability) == Strength(b.portability) ==> a.accelerator <= b.accelerator)
  }

  lemma NotBetterIsInOrder(a: Ranked, b: Ranked)
    requires !Better(b, a)
    ensures InOrder(a, b)
  {
    assert forall c, d :: Strength(c) == Strength(d) ==> c == d;
    hide Strength;
  }

  lemma InOrderIgnoresRank(a: Ranked, b: Ranked, i: nat, j: nat)
    requires InOrder(a, b)
    ensures InOrder(a.(rank := i), b.(rank := j))
  {
  }

  /** Of any two ranked entries the first has the higher score, or on equal scores the stronger
      class, or on equal strength the smaller identity. The excluded are listed by identity. */
  lemma RankingIsOrdered(cs: seq<Candidate>, w: Weights)
    ensures forall i, j :: 0 <= i < j < |Rank(cs, w).ranked| ==> InOrder(Rank(cs, w).ranked[i], Rank(cs, w).ranked[j])
    ensures forall i, j :: 0 <= i < j < |Rank(cs, w).excluded| ==> Rank(cs, w).excluded[i].accelerator <= Rank(cs, w).excluded[j].accelerator
  {
    hide Entries, Sort, Better, InOrder;
    var sorted, excluded := Sort(Better, Entries(cs, w, true)), Sort(Earlier, Entries(cs, w, false));
    BetterIsWeakOrder();
    EarlierIsWeakOrder();
    SortSorts(Better, Entries(cs, w, true));
    SortSorts(Earlier, Entries(cs, w, false));
    forall i, j | 0 <= i < j < |sorted|
      ensures InOrder(Numbered(sorted)[i], Numbered(sorted)[j])
    {
      NotBetterIsInOrder(sorted[i], sorted[j]);
      InOrderIgnoresRank(sorted[i], sorted[j], i + 1, j + 1);
    }
    forall i, j | 0 <= i < j < |excluded|
      ensures excluded[i].accelerator <= excluded[j].accelerator
    {
      assert !Earlier(excluded[j], excluded[i]);
    }
  }

  /** The candidate is at this place of the ranking, counted from zero. */
  ghost predicate PlacedAt(r: seq<Ranked>, c: Candidate, w: Weights, i: int) {
    0 <= i < |r| && r[i] == Ranked(i + 1, c.accelerator, Total(LinesFor(c, w)), Eligible, c.portability, c.provenance, LinesFor(c, w))
  }

  lemma {:induction false} EntryIsThere(cs: seq<Candidate>, w: Weights, k: nat)
    requires k < |cs| && cs[k].outcome == Eligible
    ensures EntryOf(cs[k], w) in Entries(cs, w, true)
    decreases |cs|
  {
    hide EntryOf;
    var front, c := cs[..|cs| - 1], cs[|cs| - 1];
    if k < |front| {
      EntryIsThere(front, w, k);
      assert front[k] == cs[k];
    }
  }

  /** Every eligible candidate has a place, with the score its own lines add up to. */
  lemma EveryEligibleIsPlaced(cs: seq<Candidate>, w: Weights, c: Candidate)
    requires c in cs && c.outcome == Eligible
    ensures exists i :: PlacedAt(Rank(cs, w).ranked, c, w, i)
  {
    hide Entries, Sort, Better, LinesFor, Total;
    var entries := Entries(cs, w, true);
    var sorted := Sort(Better, entries);
    SortPermutes(Better, entries);
    var k :| 0 <= k < |cs| && cs[k] == c;
    EntryIsThere(cs, w, k);
    assert EntryOf(c, w) in multiset(entries);
    assert EntryOf(c, w) in multiset(sorted);
    var i :| 0 <= i < |sorted| && sorted[i] == EntryOf(c, w);
    assert PlacedAt(Rank(cs, w).ranked, c, w, i);
  }

  /** Of two placed candidates the one with the higher score has the smaller rank. */
  lemma HigherScoreRanksFirst(cs: seq<Candidate>, w: Weights, a: Candidate, b: Candidate, i: int, j: int)
    requires PlacedAt(Rank(cs, w).ranked, a, w, i) && PlacedAt(Rank(cs, w).ranked, b, w, j)
    requires Total(LinesFor(a, w)) > Total(LinesFor(b, w))
    ensures i < j
  {
    hide Rank, LinesFor, Total;
    RankingIsOrdered(cs, w);
    assert i != j;
  }

  // ---- Better placed candidates score higher ----------------------------------------------

  lemma {:induction false} TotalConcat(a: seq<Line>, b: seq<Line>)
    ensures Total(a + b) == Total(a) + Total(b)
    decreases |b|
  {
    if b == [] {
      assert a + b == a;
    } else {
      var front, last := b[..|b| - 1], b[|b| - 1];
      assert a + b == (a + front) + [last] && b == front + [last];
      TotalConcat(a, front);
      TotalSnoc(a + front, last);
      TotalSnoc(front, last);
    }
  }

  lemma Parts(c: Candidate, w: Weights)
    ensures Total(LinesFor(c, w)) ==
            Total(PortabilityLines(c, w)) + Total(StepLines(c, w)) + Total(CostLines(c, w)) + Total(EvidenceLines(c, w))
            + Total(DistanceLines(c, w)) + Total(MemoryLines(c, w)) + Total(DecisionLines(c))
  {
    hide PortabilityLines, StepLines, CostLines, EvidenceLines, DistanceLines, MemoryLines, DecisionLines, Total;
    var a, b, d, e, f, g, h := PortabilityLines(c, w), StepLines(c, w), CostLines(c, w), EvidenceLines(c, w), DistanceLines(c, w), MemoryLines(c, w), DecisionLines(c);
    TotalConcat(a, b);
    TotalConcat(a + b, d);
    TotalConcat(a + b + d, e);
    TotalConcat(a + b + d + e, f);
    TotalConcat(a + b + d + e + f, g);
    TotalConcat(a + b + d + e + f + g, h);
  }

  lemma OneLine(l: Line)
    ensures Total([l]) == l.amount && Total([]) == 0
  {
    assert [l][..0] == [];
  }

  /** What a candidate is worth: the native bonus or half of it, less its transformations, its cost and
      its doubt, less its distance and plus its free gibibytes where these count, plus its decision. */
  function Worth(c: Candidate, w: Weights): int {
    (match c.portability case Native => w.nativeBonus case LiveMigrationSupported => Halve(w.nativeBonus) case _ => 0)
    - (if c.portability in {NotPortable, UnknownPortability} then 0 else TransformationSteps(c.portability)) * w.stepPenalty
    - c.cost * w.costPenalty - Doubt(c.provenance) * w.syntheticPenalty
    - (if w.useDistance then c.distance else 0) * w.distancePenalty
    + (if w.useMemory then c.freeMemory / GIB else 0) * w.memoryBonus
    + c.decisionScore
  }

  lemma ScoreIsWorth(c: Candidate, w: Weights)
    ensures Total(LinesFor(c, w)) == Worth(c, w)
  {
    hide LinesFor, Total;
    Parts(c, w);
    forall l ensures Total([l]) == l.amount && Total([]) == 0 { OneLine(l); }
    Nothing(w.stepPenalty);
    Nothing(w.costPenalty);
    Nothing(w.distancePenalty);
    Nothing(w.memoryBonus);
  }

  lemma Nothing(weight: int)
    ensures 0 * weight == 0
  {
  }

  lemma Grows(small: nat, large: nat, weight: nat)
    requires small <= large
    ensures small * weight <= large * weight
  {
  }

  function Doubt(p: Provenance): nat { match p case Real => 0 case Synthetic => 1 case NoEvidence => 2 }

  predicate Rewarding(w: Weights) {
    w.nativeBonus >= 0 && w.stepPenalty >= 0 && w.costPenalty >= 0 && w.syntheticPenalty >= 0 && w.distancePenalty >= 0 && w.memoryBonus >= 0
  }

  /** At least as good in every respect: nearer, cheaper, roomier, better attested, better judged,
      native or as portable. */
  ghost predicate AsGoodAs(a: Candidate, b: Candidate) {
    && a.cost <= b.cost && a.distance <= b.distance && a.freeMemory >= b.freeMemory && a.decisionScore >= b.decisionScore
    && Doubt(a.provenance) <= Doubt(b.provenance) && (a.portability == Native || a.portability == b.portability)
  }

  /** With weights that are not negative, a candidate that is at least as good in every respect never
      scores lower. */
  lemma BetterPlacedScoresHigher(a: Candidate, b: Candidate, w: Weights)
    requires Rewarding(w) && AsGoodAs(a, b)
    ensures Total(LinesFor(a, w)) >= Total(LinesFor(b, w))
  {
    Parts(a, w);
    Parts(b, w);
    FormGrows(a, b, w);
    BurdenGrows(a, b, w);
    PlaceGrows(a, b, w);
    hide *;
  }

  /** An advantage that the weights pay for. */
  ghost predicate PaidAdvantage(a: Candidate, b: Candidate, w: Weights) {
    || (w.costPenalty > 0 && a.cost < b.cost)
    || (w.syntheticPenalty > 0 && Doubt(a.provenance) < Doubt(b.provenance))
    || (w.useDistance && w.distancePenalty > 0 && a.distance < b.distance)
    || (w.useMemory && w.memoryBonus > 0 && a.freeMemory / GIB > b.freeMemory / GIB)
    || a.decisionScore > b.decisionScore
    || (a.portability == Native && b.portability != Native && w.nativeBonus > 0)
  }

  lemma Strictly(small: nat, large: nat, weight: nat)
    requires small < large && weight > 0
    ensures small * weight < large * weight
  {
  }

  lemma AdvantagePays(a: Candidate, b: Candidate, w: Weights)
    requires Rewarding(w) && AsGoodAs(a, b) && PaidAdvantage(a, b, w)
    ensures Total(LinesFor(a, w)) > Total(LinesFor(b, w))
  {
    Parts(a, w);
    Parts(b, w);
    FormGrows(a, b, w);
    BurdenGrows(a, b, w);
    PlaceGrows(a, b, w);
    if w.costPenalty > 0 && a.cost < b.cost {
      CostPays(a, b, w);
    } else if w.syntheticPenalty > 0 && Doubt(a.provenance) < Doubt(b.provenance) {
      EvidencePays(a, b, w);
    } else if w.useDistance && w.distancePenalty > 0 && a.distance < b.distance {
      DistancePays(a, b, w);
    } else if w.useMemory && w.memoryBonus > 0 && a.freeMemory / GIB > b.freeMemory / GIB {
      MemoryPays(a, b, w);
    } else if a.decisionScore > b.decisionScore {
      DecisionPays(a, b, w);
    } else {
      FormPays(a, b, w);
    }
    hide *;
  }

  lemma CostPays(a: Candidate, b: Candidate, w: Weights)
    requires w.costPenalty > 0 && a.cost < b.cost
    ensures Total(CostLines(a, w)) > Total(CostLines(b, w))
  {
    hide Total;
    forall l ensures Total([l]) == l.amount && Total([]) == 0 { OneLine(l); }
    Strictly(a.cost, b.cost, w.costPenalty);
  }

  lemma EvidencePays(a: Candidate, b: Candidate, w: Weights)
    requires w.syntheticPenalty > 0 && Doubt(a.provenance) < Doubt(b.provenance)
    ensures Total(EvidenceLines(a, w)) > Total(EvidenceLines(b, w))
  {
    hide Total;
    forall l ensures Total([l]) == l.amount && Total([]) == 0 { OneLine(l); }
  }

  lemma DistancePays(a: Candidate, b: Candidate, w: Weights)
    requires w.useDistance && w.distancePenalty > 0 && a.distance < b.distance
    ensures Total(DistanceLines(a, w)) > Total(DistanceLines(b, w))
  {
    hide Total;
    forall l ensures Total([l]) == l.amount && Total([]) == 0 { OneLine(l); }
    Strictly(a.distance, b.distance, w.distancePenalty);
  }

  lemma MemoryPays(a: Candidate, b: Candidate, w: Weights)
    requires w.useMemory && w.memoryBonus > 0 && a.freeMemory / GIB > b.freeMemory / GIB
    ensures Total(MemoryLines(a, w)) > Total(MemoryLines(b, w))
  {
    hide Total;
    forall l ensures Total([l]) == l.amount && Total([]) == 0 { OneLine(l); }
    Strictly(b.freeMemory / GIB, a.freeMemory / GIB, w.memoryBonus);
  }

  lemma DecisionPays(a: Candidate, b: Candidate, w: Weights)
    requires a.decisionScore > b.decisionScore
    ensures Total(DecisionLines(a)) > Total(DecisionLines(b))
  {
    hide Total;
    forall l ensures Total([l]) == l.amount && Total([]) == 0 { OneLine(l); }
  }

  lemma FormPays(a: Candidate, b: Candidate, w: Weights)
    requires Rewarding(w) && a.portability == Native && b.portability != Native && w.nativeBonus > 0
    ensures Total(PortabilityLines(a, w)) + Total(StepLines(a, w)) > Total(PortabilityLines(b, w)) + Total(StepLines(b, w))
  {
    hide Total;
    forall l ensures Total([l]) == l.amount && Total([]) == 0 { OneLine(l); }
    Grows(0, TransformationSteps(b.portability), w.stepPenalty);
  }

  /** With weights that are not negative, a candidate at least as good in every respect never ranks
      behind one with another score, and an advantage that the weights pay for puts it in front. */
  lemma BetterPlacedRanksFirst(cs: seq<Candidate>, w: Weights, a: Candidate, b: Candidate, i: int, j: int)
    requires Rewarding(w) && AsGoodAs(a, b) && PlacedAt(Rank(cs, w).ranked, a, w, i) && PlacedAt(Rank(cs, w).ranked, b, w, j)
    ensures Total(LinesFor(a, w)) != Total(LinesFor(b, w)) ==> i < j
    ensures PaidAdvantage(a, b, w) ==> i < j
  {
    hide Rank, LinesFor, Total, PlacedAt, PaidAdvantage, AsGoodAs, Rewarding;
    BetterPlacedScoresHigher(a, b, w);
    if PaidAdvantage(a, b, w) { AdvantagePays(a, b, w); }
    if Total(LinesFor(a, w)) != Total(LinesFor(b, w)) { HigherScoreRanksFirst(cs, w, a, b, i, j); }
  }

  lemma FormGrows(a: Candidate, b: Candidate, w: Weights)
    requires Rewarding(w) && (a.portability == Native || a.portability == b.portability)
    ensures Total(PortabilityLines(a, w)) + Total(StepLines(a, w)) >= Total(PortabilityLines(b, w)) + Total(StepLines(b, w))
  {
    hide Total;
    forall l ensures Total([l]) == l.amount && Total([]) == 0 { OneLine(l); }
    Grows(0, TransformationSteps(b.portability), w.stepPenalty);
  }

  lemma BurdenGrows(a: Candidate, b: Candidate, w: Weights)
    requires Rewarding(w) && a.cost <= b.cost && Doubt(a.provenance) <= Doubt(b.provenance)
    ensures Total(CostLines(a, w)) >= Total(CostLines(b, w)) && Total(EvidenceLines(a, w)) >= Total(EvidenceLines(b, w))
  {
    hide Total;
    forall l ensures Total([l]) == l.amount && Total([]) == 0 { OneLine(l); }
    Grows(a.cost, b.cost, w.costPenalty);
  }

  lemma PlaceGrows(a: Candidate, b: Candidate, w: Weights)
    requires Rewarding(w) && a.distance <= b.distance && a.freeMemory >= b.freeMemory && a.decisionScore >= b.decisionScore
    ensures Total(DistanceLines(a, w)) >= Total(DistanceLines(b, w)) && Total(MemoryLines(a, w)) >= Total(MemoryLines(b, w))
    ensures Total(DecisionLines(a)) >= Total(DecisionLines(b))
  {
    hide Total;
    forall l ensures Total([l]) == l.amount && Total([]) == 0 { OneLine(l); }
    Grows(a.distance, b.distance, w.distancePenalty);
    assert b.freeMemory / GIB <= a.freeMemory / GIB;
    Grows(b.freeMemory / GIB, a.freeMemory / GIB, w.memoryBonus);
  }

  // ---- Scores fit 64 bits -----------------------------------------------------------------

  ghost predicate Fits64(n: int) { -0x8000_0000_0000_0000 <= n < 0x8000_0000_0000_0000 }

  const DECISION_BOUND: int := 0x4000_0000_0000_0000

  const LINE_BOUND: int := 0x100_0000_0000

  ghost predicate SmallLines(lines: seq<Line>) { forall i :: 0 <= i < |lines| ==> -LINE_BOUND <= lines[i].amount <= LINE_BOUND }

  lemma {:induction false} TotalBound(lines: seq<Line>)
    requires SmallLines(lines)
    ensures -LINE_BOUND * |lines| <= Total(lines) <= LINE_BOUND * |lines|
  {
    if lines != [] { TotalBound(lines[..|lines| - 1]); }
  }

  /** Everything that is added before the decision's own score. */
  function EarlyLines(c: Candidate, w: Weights): seq<Line> {
    PortabilityLines(c, w) + StepLines(c, w) + CostLines(c, w) + EvidenceLines(c, w) + DistanceLines(c, w) + MemoryLines(c, w)
  }

  ghost predicate SmallLine(lines: seq<Line>) { |lines| <= 1 && SmallLines(lines) }

  lemma EachLineIsSmall(c: Candidate, w: Weights)
    requires w == DEFAULT_WEIGHTS.(useMemory := w.useMemory, useDistance := w.useDistance)
    ensures SmallLine(PortabilityLines(c, w)) && SmallLine(StepLines(c, w)) && SmallLine(CostLines(c, w))
    ensures SmallLine(EvidenceLines(c, w)) && SmallLine(DistanceLines(c, w)) && SmallLine(MemoryLines(c, w))
  {
  }

  lemma AppendSmall(lines: seq<Line>, line: seq<Line>)
    requires SmallLines(lines) && SmallLine(line)
    ensures SmallLines(lines + line) && |lines + line| <= |lines| + 1
  {
  }

  lemma EarlyLinesAreSmall(c: Candidate, w: Weights)
    requires w == DEFAULT_WEIGHTS.(useMemory := w.useMemory, useDistance := w.useDistance)
    ensures SmallLines(EarlyLines(c, w)) && |EarlyLines(c, w)| <= 6
  {
    hide PortabilityLines, StepLines, CostLines, EvidenceLines, DistanceLines, MemoryLines, SmallLines;
    EachLineIsSmall(c, w);
    var lines := PortabilityLines(c, w);
    AppendSmall(lines, StepLines(c, w));
    lines := lines + StepLines(c, w);
    AppendSmall(lines, CostLines(c, w));
    lines := lines + CostLines(c, w);
    AppendSmall(lines, EvidenceLines(c, w));
    lines := lines + EvidenceLines(c, w);
    AppendSmall(lines, DistanceLines(c, w));
    lines := lines + DistanceLines(c, w);
    AppendSmall(lines, MemoryLines(c, w));
  }

  /** With the default weights, no candidate's score can overflow, at any point of its
      accumulation, even with every dimension switched on. */
  lemma DefaultScoreFits64(c: Candidate, w: Weights, n: nat)
    requires w == DEFAULT_WEIGHTS.(useMemory := w.useMemory, useDistance := w.useDistance)
    requires -DECISION_BOUND <= c.decisionScore <= DECISION_BOUND && n <= |LinesFor(c, w)|
    ensures Fits64(Total(LinesFor(c, w)[..n]))
  {
    assert LinesFor(c, w) == EarlyLines(c, w) + DecisionLines(c);
    EarlyLinesAreSmall(c, w);
    hide EarlyLines, LinesFor;
    var early := EarlyLines(c, w);
    if n <= |early| {
      assert LinesFor(c, w)[..n] == early[..n];
      TotalBound(early[..n]);
    } else {
      assert LinesFor(c, w)[..n] == early + [Line(DecisionScore, c.decisionScore)];
      TotalSnoc(early, Line(DecisionScore, c.decisionScore));
      TotalBound(early);
    }
  }

  /** In particular when the candidate carries the decision of a valid workload. */
  lemma RankedDecisionFits64(c: Candidate, weights: Weights, w: Workload, p: PolicyBody, t: Target, caps: CapabilitySet, source: Option<Source>, n: nat)
    requires weights == DEFAULT_WEIGHTS.(useMemory := weights.useMemory, useDistance := weights.useDistance)
    requires WorkloadValid(w) && c.decisionScore == ScoreOf(w, p, t, caps, source) && n <= |LinesFor(c, weights)|
    ensures Fits64(c.decisionScore) && Fits64(Total(LinesFor(c, weights)[..n]))
  {
    hide LinesFor, Total, ScoreOf, WorkloadValid;
    ScoreFits64Bits(w, p, t, caps, source, 0);
    DefaultScoreFits64(c, weights, n);
  }
}
