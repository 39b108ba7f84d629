/** One workload against a whole fleet. */
module Fleet {
  import opened Prelude
  import opened Ordering
  import opened Compatibility

  const MAX_TARGETS := 1_000_000

  /** The 128-bit number of an identity, by which identities are ordered. */
  type Numbering = AcceleratorId -> nat

  ghost predicate Injective(number: Numbering) { forall a, b :: number(a) == number(b) ==> a == b }

  predicate Before(number: Numbering, a: Target, b: Target) {
    if a.accelerator != b.accelerator then number(a.accelerator) < number(b.accelerator)
    else if a.deviceGeneration != b.deviceGeneration then a.deviceGeneration < b.deviceGeneration
    else a.capabilityGeneration < b.capabilityGeneration
  }

  function Order(number: Numbering): (Target, Target) -> bool { (a: Target, b: Target) => Before(number, a, b) }

  datatype Cell = Cell(accelerator: AcceleratorId, decision: Decision)

  datatype Evaluation = Evaluation(workload: WorkloadId, revision: Revision, cells: seq<Cell>, eligible: nat, ineligible: nat, undecided: nat)

  predicate HasRepeat(ts: seq<Target>) { exists i :: 1 <= i < |ts| && ts[i].accelerator == ts[i - 1].accelerator }

  /** One decision per target, or the first error. */
  function CellsFor(w: Workload, c: Context, ts: seq<Target>): Result<seq<Cell>> {
    if ts == [] then Ok([])
    else
      var last := ts[|ts| - 1];
      match CellsFor(w, c, ts[..|ts| - 1])
      case Err(e) => Err(e)
      case Ok(cells) =>
        match Evaluate(w, c.(target := last)) case Err(e) => Err(e) case Ok(d) => Ok(cells + [Cell(last.accelerator, d)])
  }

  function CountOf(cells: seq<Cell>, outcome: CompatibilityOutcome): nat {
    if cells == [] then 0
    else CountOf(cells[..|cells| - 1], outcome) + if cells[|cells| - 1].decision.outcome == outcome then 1 else 0
  }

  function Summary(w: Workload, c: Context, cells: seq<Cell>): Evaluation {
    Evaluation(w.classId, c.revision, cells, CountOf(cells, Eligible), CountOf(cells, Ineligible), CountOf(cells, Undecided))
  }

  function FleetResult(w: Workload, c: Context, ts: seq<Target>, number: Numbering): Result<Evaluation> {
    if |ts| > MAX_TARGETS then Err(BoundsExceeded)
    else
      var sorted := Sort(Order(number), ts);
      if HasRepeat(sorted) then Err(DuplicateIdentity)
      else match CellsFor(w, c, sorted) case Err(e) => Err(e) case Ok(cells) => Ok(Summary(w, c, cells))
  }

  lemma CountSnoc(cells: seq<Cell>, cell: Cell, outcome: CompatibilityOutcome)
    ensures CountOf(cells + [cell], outcome) == CountOf(cells, outcome) + if cell.decision.outcome == outcome then 1 else 0
  {
    assert (cells + [cell])[..|cells|] == cells;
  }

  lemma CellsSnoc(w: Workload, c: Context, ts: seq<Target>, k: nat, cells: seq<Cell>)
    requires k < |ts| && CellsFor(w, c, ts[..k]) == Ok(cells)
    ensures
      CellsFor(w, c, ts[..k + 1]) ==
        match Evaluate(w, c.(target := ts[k])) case Err(e) => Err(e) case Ok(d) => Ok(cells + [Cell(ts[k].accelerator, d)])
  {
    hide Evaluate;
    assert ts[..k + 1][..k] == ts[..k];
  }

  /** Decides and counts target by target. */
  method FillCells(w: Workload, c: Context, ts: seq<Target>) returns (r: Result<Evaluation>)
    ensures r == match CellsFor(w, c, ts) case Err(e) => Err(e) case Ok(cells) => Ok(Summary(w, c, cells))
  {
    hide Evaluate, CellsFor, CountOf;
    var cells: seq<Cell> := [];
    var eligible, ineligible, undecided := 0, 0, 0;
    assert ts[..0] == [];
    NothingYet(w, c);
    for k := 0 to |ts|
      invariant CellsFor(w, c, ts[..k]) == Ok(cells)
      invariant eligible == CountOf(cells, Eligible) && ineligible == CountOf(cells, Ineligible) && undecided == CountOf(cells, Undecided)
    {
      CellsSnoc(w, c, ts, k, cells);
      var d := EvaluateCompatibility(w, c.(target := ts[k]));
      if d.Err? { ErrorIsFinal(w, c, ts, k + 1); return Err(d.code); }
      var cell := Cell(ts[k].accelerator, d.value);
      CountSnoc(cells, cell, Eligible);
      CountSnoc(cells, cell, Ineligible);
      CountSnoc(cells, cell, Undecided);
      match d.value.outcome {
        case Eligible => eligible := eligible + 1;
        case Ineligible => ineligible := ineligible + 1;
        case Undecided => undecided := undecided + 1;
      }
      cells := cells + [cell];
    }
    assert ts[..|ts|] == ts;
    return Ok(Evaluation(w.classId, c.revision, cells, eligible, ineligible, undecided));
  }

  lemma NothingYet(w: Workload, c: Context)
    ensures CellsFor(w, c, []) == Ok([]) && forall o :: CountOf([], o) == 0
  {
  }

  method EvaluateFleet(w: Workload, c: Context, ts: seq<Target>, number: Numbering) returns (r: Result<Evaluation>)
    ensures r == FleetResult(w, c, ts, number)
  {
    hide CellsFor, Order, Sort;
    if |ts| > MAX_TARGETS { return Err(BoundsExceeded); }
    var sorted := Sort(Order(number), ts);
    var i := 1;
    while i < |sorted|
      invariant 1 <= i && forall j :: 1 <= j < i && j < |sorted| ==> sorted[j].accelerator != sorted[j - 1].accelerator
    {
      if sorted[i].accelerator == sorted[i - 1].accelerator { return Err(DuplicateIdentity); }
      i := i + 1;
    }
    r := FillCells(w, c, sorted);
  }

  lemma {:induction false} ErrorIsFinal(w: Workload, c: Context, ts: seq<Target>, k: nat)
    requires k <= |ts| && CellsFor(w, c, ts[..k]).Err?
    ensures CellsFor(w, c, ts) == CellsFor(w, c, ts[..k])
    decreases |ts|
  {
    hide Evaluate;
    if k == |ts| {
      assert ts[..k] == ts;
    } else {
      var front := ts[..|ts| - 1];
      assert front[..k] == ts[..k];
      ErrorIsFinal(w, c, front, k);
    }
  }

  // ---- The order of the targets does not matter -------------------------------------------

  lemma OrderIsWeak(number: Numbering)
    requires Injective(number)
    ensures WeakOrder(Order(number))
  {
  }

  lemma {:induction false} SortedIsStrict(ts: seq<Target>, number: Numbering, i: nat, j: nat)
    requires Sorted(Order(number), ts) && !HasRepeat(ts) && Injective(number) && i < j < |ts|
    ensures number(ts[i].accelerator) < number(ts[j].accelerator)
    decreases j
  {
    assert !Order(number)(ts[j], ts[j - 1]) && ts[j].accelerator != ts[j - 1].accelerator;
    if i < j - 1 { SortedIsStrict(ts, number, i, j - 1); }
  }

  lemma SortsAlike(ts: seq<Target>, us: seq<Target>, number: Numbering)
    requires multiset(ts) == multiset(us) && Injective(number) && !HasRepeat(Sort(Order(number), ts))
    ensures Sort(Order(number), ts) == Sort(Order(number), us)
  {
    hide Sort, Before;
    var less := Order(number);
    OrderIsWeak(number);
    SortSorts(less, ts);
    SortSorts(less, us);
    SortPermutes(less, ts);
    SortPermutes(less, us);
    var s := Sort(less, ts);
    forall i, j | 0 <= i < |s| && 0 <= j < |s| && s[i] != s[j]
      ensures less(s[i], s[j]) || less(s[j], s[i])
    {
      if i < j { SortedIsStrict(s, number, i, j); } else { SortedIsStrict(s, number, j, i); }
      DistinctAreOrdered(number, s[i], s[j]);
    }
    SortedUnique(less, s, Sort(less, us));
  }

  lemma DistinctAreOrdered(number: Numbering, a: Target, b: Target)
    requires number(a.accelerator) != number(b.accelerator)
    ensures Before(number, a, b) || Before(number, b, a)
  {
  }

  /** The evaluation of a fleet is the same for every order of its targets, errors included. */
  lemma FleetIgnoresOrder(w: Workload, c: Context, ts: seq<Target>, us: seq<Target>, number: Numbering)
    requires multiset(ts) == multiset(us) && Injective(number)
    ensures FleetResult(w, c, ts, number) == FleetResult(w, c, us, number)
  {
    hide Sort, CellsFor, HasRepeat, Order, Injective;
    assert |ts| == |multiset(ts)| == |multiset(us)| == |us|;
    if !HasRepeat(Sort(Order(number), ts)) {
      SortsAlike(ts, us, number);
    } else if !HasRepeat(Sort(Order(number), us)) {
      SortsAlike(us, ts, number);
    }
  }

  // ---- Every target is counted once -------------------------------------------------------

  /** The cell holds this target's own decision. */
  ghost predicate CellIsFor(w: Workload, c: Context, cell: Cell, t: Target) {
    cell.accelerator == t.accelerator && Evaluate(w, c.(target := t)) == Ok(cell.decision)
  }

  ghost predicate HasCell(w: Workload, c: Context, cells: seq<Cell>, t: Target) {
    exists k :: 0 <= k < |cells| && CellIsFor(w, c, cells[k], t)
  }

  lemma {:induction false} CellsMatch(w: Workload, c: Context, ts: seq<Target>)
    requires CellsFor(w, c, ts).Ok?
    ensures |CellsFor(w, c, ts).value| == |ts|
    ensures forall i :: 0 <= i < |ts| ==> CellIsFor(w, c, CellsFor(w, c, ts).value[i], ts[i])
  {
    hide Evaluate;
    if ts != [] {
      var front := ts[..|ts| - 1];
      CellsMatch(w, c, front);
      assert forall i :: 0 <= i < |front| ==> front[i] == ts[i];
    }
  }

  lemma {:induction false} CountsAddUp(cells: seq<Cell>)
    ensures CountOf(cells, Eligible) + CountOf(cells, Ineligible) + CountOf(cells, Undecided) == |cells|
  {
    if cells != [] { CountsAddUp(cells[..|cells| - 1]); }
  }

  /** A successful evaluation holds each target's own decision and counts each target once. */
  lemma FleetIsComplete(w: Workload, c: Context, ts: seq<Target>, number: Numbering)
    requires FleetResult(w, c, ts, number).Ok?
    ensures
      var e := FleetResult(w, c, ts, number).value;
      && |e.cells| == |ts| == e.eligible + e.ineligible + e.undecided
      && forall i :: 0 <= i < |ts| ==> HasCell(w, c, e.cells, ts[i])
  {
    hide Evaluate, Sort, CellsFor, CountOf, HasRepeat, Order, CellIsFor;
    var sorted := Sort(Order(number), ts);
    SortPermutes(Order(number), ts);
    CellsMatch(w, c, sorted);
    var cells := CellsFor(w, c, sorted).value;
    CountsAddUp(cells);
    assert FleetResult(w, c, ts, number).value.cells == cells;
    forall i | 0 <= i < |ts|
      ensures HasCell(w, c, cells, ts[i])
    {
      var k := FindIn(ts, sorted, i);
      assert CellIsFor(w, c, cells[k], sorted[k]);
    }
  }

  ghost function CellsWith(cells: seq<Cell>, outcome: CompatibilityOutcome): set<int> {
    set i | 0 <= i < |cells| && cells[i].decision.outcome == outcome
  }

  lemma {:induction false} CountIsCount(cells: seq<Cell>, outcome: CompatibilityOutcome)
    ensures CountOf(cells, outcome) == |CellsWith(cells, outcome)|
  {
    if cells == [] {
      assert CellsWith(cells, outcome) == {};
    } else {
      var n := |cells| - 1;
      CountIsCount(cells[..n], outcome);
      assert CellsWith(cells, outcome) == CellsWith(cells[..n], outcome) + if cells[n].decision.outcome == outcome then {n} else {};
    }
  }

  /** The cells ascend by identity, none twice, and each count is the number of cells with that outcome. */
  lemma FleetIsOrdered(w: Workload, c: Context, ts: seq<Target>, number: Numbering, e: Evaluation)
    requires FleetResult(w, c, ts, number) == Ok(e) && Injective(number)
    ensures e.workload == w.classId && e.revision == c.revision
    ensures forall i, j :: 0 <= i < j < |e.cells| ==> number(e.cells[i].accelerator) < number(e.cells[j].accelerator)
    ensures e.eligible == |CellsWith(e.cells, Eligible)|
    ensures e.ineligible == |CellsWith(e.cells, Ineligible)| && e.undecided == |CellsWith(e.cells, Undecided)|
  {
    hide Evaluate, Sort, CellsFor, CountOf, HasRepeat, Before, Injective;
    var sorted := Sort(Order(number), ts);
    OrderIsWeak(number);
    SortSorts(Order(number), ts);
    CellsMatch(w, c, sorted);
    forall i, j | 0 <= i < j < |e.cells|
      ensures number(e.cells[i].accelerator) < number(e.cells[j].accelerator)
    {
      SortedIsStrict(sorted, number, i, j);
      assert CellIsFor(w, c, e.cells[i], sorted[i]) && CellIsFor(w, c, e.cells[j], sorted[j]);
    }
    CountIsCount(e.cells, Eligible);
    CountIsCount(e.cells, Ineligible);
    CountIsCount(e.cells, Undecided);
  }

  ghost predicate Repeats(ts: seq<Target>) { exists i, j :: 0 <= i < j < |ts| && ts[i].accelerator == ts[j].accelerator }

  lemma RepeatsCarry(ts: seq<Target>, us: seq<Target>)
    requires multiset(ts) == multiset(us) && Repeats(ts)
    ensures Repeats(us)
  {
    var i, j :| 0 <= i < j < |ts| && ts[i].accelerator == ts[j].accelerator;
    if ts[i] == ts[j] {
      TwiceInMultiset(ts, ts[i], i, j);
      var k, l := TwiceInSequence(us, ts[i]);
    } else {
      var k := FindIn(ts, us, i);
      var l := FindIn(ts, us, j);
      assert us[k].accelerator == us[l].accelerator && k != l;
    }
  }

  lemma UnrepeatedNeverRepeats(sorted: seq<Target>, number: Numbering)
    requires Injective(number) && Sorted(Order(number), sorted)
    ensures HasRepeat(sorted) <==> Repeats(sorted)
  {
    hide Before, Sorted, Injective;
    if HasRepeat(sorted) {
      var i :| 1 <= i < |sorted| && sorted[i].accelerator == sorted[i - 1].accelerator;
      assert 0 <= i - 1 < i < |sorted|;
    } else if Repeats(sorted) {
      var i, j :| 0 <= i < j < |sorted| && sorted[i].accelerator == sorted[j].accelerator;
      SortedIsStrict(sorted, number, i, j);
      assert false;
    }
  }

  /** A fleet is refused for a repeated identity exactly when two of its targets share one. */
  lemma RepeatsAreRefused(ts: seq<Target>, number: Numbering)
    requires Injective(number)
    ensures HasRepeat(Sort(Order(number), ts)) <==> Repeats(ts)
  {
    hide Sort, Before, HasRepeat, Repeats, Injective;
    var sorted := Sort(Order(number), ts);
    OrderIsWeak(number);
    SortSorts(Order(number), ts);
    SortPermutes(Order(number), ts);
    UnrepeatedNeverRepeats(sorted, number);
    if Repeats(sorted) { RepeatsCarry(sorted, ts); }
    if Repeats(ts) { RepeatsCarry(ts, sorted); }
  }
}
