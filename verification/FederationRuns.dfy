/** Whole runs of a federation: any sequence of operations, failed and successful writes,
    crashes and reopens. Reachable states, faithful generations and the decision cache. */
module FederationRuns {
  import opened Prelude
  import opened Compatibility
  import opened Migration
  import opened Federation
  import opened FederationInvariants
  import opened FederationSteps

  // ---- Runs -------------------------------------------------------------------------------

  ghost predicate IsStep(w: World, e: Event, v: World) { StepEnabled(w, e) && v == NextWorld(w, e) }

  /** A run starts with nothing stored and nothing running. A crash needs no event of its own:
      opening again forgets whatever was running. */
  ghost predicate IsRun(ws: seq<World>, es: seq<Event>) {
    && |ws| == |es| + 1
    && ws[0] == World(None, None)
    && (forall i :: 0 <= i < |es| ==> IsStep(ws[i], es[i], ws[i + 1]))
  }

  /** The world at a point of a run. */
  function At(ws: seq<World>, i: int): World { if 0 <= i < |ws| then ws[i] else World(None, None) }

  function EventAt(es: seq<Event>, i: int): Event { if 0 <= i < |es| then es[i] else Run(Persist, false) }

  /** The instance that is running at a point of a run. */
  ghost predicate LiveAt(ws: seq<World>, i: int, f: Fed) { 0 <= i < |ws| && ws[i].live == Some(f) }

  /** No epoch has reached the end of its 64-bit range. */
  ghost predicate EpochsRemain(ws: seq<World>) { forall i :: 0 <= i < |ws| ==> Renewable(ws[i].disk) }

  /** Only operations between two points of a run: no crash, no reopen. */
  ghost predicate InProcess(es: seq<Event>, i: int, j: int) {
    0 <= i <= j <= |es| && forall k :: i <= k < j ==> es[k].Run?
  }

  /** The event is this operation, it ran on this instance, and it was accepted. */
  ghost predicate Accepts(w: World, e: Event, f: Fed, op: Op) { w.live == Some(f) && IsOp(e, op) && Refusal(f, op).None? }

  predicate IsOp(e: Event, op: Op) { match e case Run(o, _) => o == op case Open(_, _) => false }

  ghost predicate OpAt(es: seq<Event>, i: int, op: Op) { 0 <= i < |es| && IsOp(es[i], op) }

  /** What an operation makes of a world. */
  lemma OperationStep(w: World, op: Op, writeOk: bool, v: World, f: Fed)
    requires IsStep(w, Run(op, writeOk), v) && w.live == Some(f)
    ensures Enabled(f, op) && v.live == Some(After(f, op))
    ensures v.disk == w.disk || v.disk == Some(SnapshotOf(After(f, op)))
  {
    hide Enabled, After, Refusal, Writes;
  }

  /** Operations need an instance. */
  lemma OperationRuns(w: World, op: Op, writeOk: bool, v: World)
    requires IsStep(w, Run(op, writeOk), v)
    ensures w.live.Some?
  {
    hide Enabled, NextWorld;
  }

  lemma ReopenStep(w: World, c: Config, writeOk: bool, v: World)
    requires IsStep(w, Open(c, writeOk), v)
    ensures v.live.None? || (v.live == Some(Opened(w.disk, c)) && OpenRefusal(w.disk, c).None?)
    ensures v.disk == w.disk || (v.live == Some(Opened(w.disk, c)) && v.disk == Some(SnapshotOf(Opened(w.disk, c))))
    ensures c.durable && c.eager ==> v.live.None? || v.disk == Some(SnapshotOf(Opened(w.disk, c)))
  {
    hide OpenRefusal;
    OpenedModes(w.disk, c);
    hide Opened;
  }

  lemma OpenedModes(disk: Option<Snapshot>, c: Config)
    ensures Opened(disk, c).durable == c.durable && Opened(disk, c).eager == c.eager
  {
  }

  /** The step that leads to a point. */
  ghost predicate Stepped(ws: seq<World>, es: seq<Event>, j: int) {
    && 0 < j <= |es| && |ws| == |es| + 1 && IsStep(ws[j - 1], es[j - 1], ws[j])
    && (es[j - 1].Run? ==> ws[j - 1].live.Some?)
  }

  lemma StepTo(ws: seq<World>, es: seq<Event>, j: nat, f: Fed)
    requires IsRun(ws, es) && LiveAt(ws, j, f)
    ensures Stepped(ws, es, j)
  {
    hide IsStep;
    assert IsStep(ws[j - 1], es[j - 1], ws[j - 1 + 1]);
    if es[j - 1].Run? { OperationRuns(ws[j - 1], es[j - 1].op, es[j - 1].writeOk, ws[j]); }
  }

  // ---- Every reachable state satisfies the invariant --------------------------------------

  lemma {:induction false} Reachable(ws: seq<World>, es: seq<Event>, i: nat)
    requires IsRun(ws, es) && EpochsRemain(ws)
    ensures WorldInv(At(ws, i))
  {
    hide Inv, SnapshotInv, StepEnabled, NextWorld;
    if 0 < i < |ws| {
      Reachable(ws, es, i - 1);
      assert IsStep(ws[i - 1], es[i - 1], ws[i - 1 + 1]);
      StepInv(ws[i - 1], es[i - 1]);
    }
  }

  lemma LiveInv(ws: seq<World>, es: seq<Event>, i: nat, f: Fed)
    requires IsRun(ws, es) && EpochsRemain(ws) && LiveAt(ws, i, f)
    ensures Inv(f)
  {
    hide Inv, SnapshotInv, IsRun, EpochsRemain;
    Reachable(ws, es, i);
  }

  // ---- Generations version content --------------------------------------------------------

  ghost predicate Follows(f: Option<Fed>, g: Option<Fed>) { f.Some? && g.Some? && Versioned(f.value, g.value) }

  /** While one process runs, its generation never falls, and two points with the same
      generation hold the same members, policy, workloads and plans. */
  lemma {:induction false} GenerationNamesContent(ws: seq<World>, es: seq<Event>, i: nat, j: nat, f: Fed)
    requires IsRun(ws, es) && InProcess(es, i, j) && LiveAt(ws, i, f)
    ensures Follows(Some(f), At(ws, j).live)
    decreases j
  {
    hide IsStep, After, Enabled, SnapshotOf;
    if i < j {
      GenerationNamesContent(ws, es, i, j - 1, f);
      assert IsStep(ws[j - 1], es[j - 1], ws[j - 1 + 1]);
      var g := ws[j - 1].live.value;
      OperationStep(ws[j - 1], es[j - 1].op, es[j - 1].writeOk, ws[j], g);
      StepVersioned(g, es[j - 1].op);
      VersionedTransitive(f, g, After(g, es[j - 1].op));
    }
  }

  // ---- The decision cache agrees with fresh evaluation ------------------------------------

  /** Every cached decision of the current generation is what evaluating now would return. */
  ghost predicate Coherent(f: Fed) {
    forall d :: d in f.decisions && d.federationGeneration == f.generation ==> Explained(f, d)
  }

  /** Evaluation reads only the content that generations version. */
  lemma SameContentSameDecision(f: Fed, g: Fed, p: Profile, a: AcceleratorId, source: Option<AcceleratorId>, current: bool)
    requires Versioned(f, g) && f.generation == g.generation < MAX_GENERATION
    ensures EvaluateWith(f, p, a, source, current) == EvaluateWith(g, p, a, source, current)
  {
    hide Evaluate;
  }

  lemma ReproducesStill(f: Fed, g: Fed, d: Decision, source: Option<AcceleratorId>, current: bool)
    requires Versioned(f, g) && f.generation == g.generation < MAX_GENERATION && Reproduces(f, d, source, current)
    ensures Reproduces(g, d, source, current)
  {
    hide EvaluateWith;
    SameContentSameDecision(f, g, f.workloads[d.workload], d.accelerator, source, current);
  }

  lemma ExplainedCarriesOver(f: Fed, g: Fed, d: Decision)
    requires Versioned(f, g) && f.generation == g.generation < MAX_GENERATION && Explained(f, d)
    ensures Explained(g, d)
  {
    hide Reproduces;
    var source, current :| Reproduces(f, d, source, current);
    ReproducesStill(f, g, d, source, current);
  }

  lemma CoherentAfter(f: Fed, op: Op)
    requires Inv(f) && Coherent(f) && f.generation < MAX_GENERATION && After(f, op).generation < MAX_GENERATION
    ensures Coherent(After(f, op))
  {
    hide After, Explained, EvaluateWith, Makes, MembersOk, WorkloadsOk, PlansOk;
    var g := After(f, op);
    StepVersioned(f, op);
    forall d | d in g.decisions && d.federationGeneration == g.generation
      ensures Explained(g, d)
    {
      if d in f.decisions {
        assert DecisionOk(f, d);
      } else {
        DecisionsComeFrom(f, op, d);
        var source, current :| Makes(f, op, d, source, current);
        MadeIsExplained(f, op, d, source, current);
      }
      assert f.generation == g.generation;
      ExplainedCarriesOver(f, g, d);
    }
  }

  lemma OpenedHasNoDecisions(disk: Option<Snapshot>, c: Config)
    ensures Opened(disk, c).decisions == map[]
  {
  }

  lemma {:induction false} CacheIsCoherent(ws: seq<World>, es: seq<Event>, j: nat, f: Fed)
    requires IsRun(ws, es) && EpochsRemain(ws) && LiveAt(ws, j, f) && f.generation < MAX_GENERATION
    ensures Coherent(f)
  {
    hide Inv, IsStep, After, Enabled, Explained, Opened, OpenRefusal, SnapshotOf, EpochsRemain;
    StepTo(ws, es, j, f);
    match es[j - 1]
    case Run(op, writeOk) =>
      var g := ws[j - 1].live.value;
      OperationStep(ws[j - 1], op, writeOk, ws[j], g);
      StepVersioned(g, op);
      CacheIsCoherent(ws, es, j - 1, g);
      LiveInv(ws, es, j - 1, g);
      CoherentAfter(g, op);
    case Open(c, writeOk) =>
      ReopenStep(ws[j - 1], c, writeOk, ws[j]);
      OpenedHasNoDecisions(ws[j - 1].disk, c);
  }

  lemma CurrencyIsOneComparison(f: Fed, d: Decision)
    requires Inv(f) && Coherent(f) && d in f.decisions
    ensures DecisionIsCurrent(f, d) <==> d.federationGeneration == f.generation
    ensures SweepKeeps(f, d) <==> d.federationGeneration == f.generation
  {
    hide EvaluateWith, MembersOk, WorkloadsOk, PlansOk;
    assert DecisionOk(f, d);
    if d.federationGeneration == f.generation {
      var source, current :| Reproduces(f, d, source, current);
      EvaluationBinds(f, f.workloads[d.workload], d.accelerator, source, current, d);
    }
  }

  /** Evaluating again from this source returns this decision at every moment with this
      freshness verdict. */
  ghost predicate ReturnsAgain(f: Fed, d: Decision, source: Option<AcceleratorId>, current: bool) {
    forall now :: FreshAt(f, d.accelerator, now) == current ==> EvaluateNow(f, d.workload, d.accelerator, source, now) == Ok(d)
  }

  /** The decision was made by an operation of this very process, from this source and with this
      freshness verdict. */
  ghost predicate MadeAt(ws: seq<World>, es: seq<Event>, m: int, j: int, f: Fed, op: Op, d: Decision, source: Option<AcceleratorId>, current: bool) {
    m < j && InProcess(es, m, j) && LiveAt(ws, m, f) && OpAt(es, m, op) && Makes(f, op, d, source, current)
  }

  /** Every cached decision was made by an operation of this very process. */
  lemma {:induction false} DecisionsAreMadeHere(ws: seq<World>, es: seq<Event>, j: nat, g: Fed, d: Decision)
    requires IsRun(ws, es) && LiveAt(ws, j, g) && d in g.decisions
    ensures exists m, f, op, source, current :: MadeAt(ws, es, m, j, f, op, d, source, current)
  {
    hide IsStep, After, Enabled, Opened, Makes, OpenRefusal, SnapshotOf;
    StepTo(ws, es, j, g);
    match es[j - 1]
    case Run(op, writeOk) =>
      var f := ws[j - 1].live.value;
      OperationStep(ws[j - 1], op, writeOk, ws[j], f);
      if d in f.decisions {
        DecisionsAreMadeHere(ws, es, j - 1, f, d);
        var m, h, o, source, current :| MadeAt(ws, es, m, j - 1, h, o, d, source, current);
        assert MadeAt(ws, es, m, j, h, o, d, source, current);
      } else {
        DecisionsComeFrom(f, op, d);
        var source, current :| Makes(f, op, d, source, current);
        assert MadeAt(ws, es, j - 1, j, f, op, d, source, current);
      }
    case Open(c, writeOk) =>
      ReopenStep(ws[j - 1], c, writeOk, ws[j]);
      OpenedHasNoDecisions(ws[j - 1].disk, c);
  }

  /** In every reachable state, a cached decision that is reported current was made earlier in this
      process, and is exactly what evaluating now returns, from the source it was made for and with
      the freshness verdict it was made with. */
  lemma CurrentDecisionsAreFresh(ws: seq<World>, es: seq<Event>, j: nat, g: Fed, d: Decision)
    requires IsRun(ws, es) && EpochsRemain(ws) && LiveAt(ws, j, g) && g.generation < MAX_GENERATION && !g.shutdown
    requires d in g.decisions && DecisionIsCurrent(g, d)
    ensures exists m, f, op, source, current :: MadeAt(ws, es, m, j, f, op, d, source, current) && ReturnsAgain(g, d, source, current)
  {
    hide Inv, FreshAt, EpochsRemain, IsRun, Makes, Explained, ReturnsAgain, Reproduces, DecisionIsCurrent;
    DecisionsAreMadeHere(ws, es, j, g, d);
    var m, f, op, source, current :| MadeAt(ws, es, m, j, f, op, d, source, current);
    LiveInv(ws, es, m, f);
    GenerationNamesContent(ws, es, m, j, f);
    MadeIsExplained(f, op, d, source, current);
    CurrentMeansGeneration(g, d);
    ReproducesStill(f, g, d, source, current);
    ReproducesReturns(f, g, d, source, current);
    assert MadeAt(ws, es, m, j, f, op, d, source, current) && ReturnsAgain(g, d, source, current);
  }

  lemma CurrentMeansGeneration(f: Fed, d: Decision)
    requires DecisionIsCurrent(f, d)
    ensures d.federationGeneration == f.generation
  {
  }

  lemma ReproducesReturns(f: Fed, g: Fed, d: Decision, source: Option<AcceleratorId>, current: bool)
    requires Reproduces(g, d, source, current) && SourceHeld(f, source) && f.members == g.members && !g.shutdown
    ensures ReturnsAgain(g, d, source, current)
  {
    hide FreshAt, Evaluate;
  }

  /** The same, followed through the run: what an evaluation returned once, it returns again
      for as long as the generation stands still and the freshness verdict is the same. */
  lemma EvaluationIsStable(ws: seq<World>, es: seq<Event>, i: nat, j: nat, f: Fed, g: Fed,
                           w: WorkloadId, a: AcceleratorId, source: Option<AcceleratorId>, now: int, later: int)
    requires IsRun(ws, es) && InProcess(es, i, j) && LiveAt(ws, i, f) && LiveAt(ws, j, g)
    requires f.generation == g.generation < MAX_GENERATION && !f.shutdown && !g.shutdown
    requires FreshAt(f, a, now) == FreshAt(g, a, later)
    ensures EvaluateNow(f, w, a, source, now) == EvaluateNow(g, w, a, source, later)
  {
    hide IsRun, FreshAt, EvaluateWith;
    GenerationNamesContent(ws, es, i, j, f);
    if w in f.workloads {
      SameContentSameDecision(f, g, f.workloads[w], a, source, FreshAt(f, a, now));
    }
  }

  /** The bulk sweep, which never looks at evidence generations, keeps exactly the decisions
      that the precise check accepts. */
  lemma SweepIsExact(ws: seq<World>, es: seq<Event>, j: nat, f: Fed, d: Decision)
    requires IsRun(ws, es) && EpochsRemain(ws) && LiveAt(ws, j, f) && f.generation < MAX_GENERATION && d in f.decisions
    ensures d in SweepEffect(f).decisions <==> DecisionIsCurrent(f, d)
  {
    hide Inv, Coherent, IsRun, EpochsRemain, SweepKeeps, DecisionIsCurrent;
    LiveInv(ws, es, j, f);
    CacheIsCoherent(ws, es, j, f);
    CurrencyIsOneComparison(f, d);
  }
}
