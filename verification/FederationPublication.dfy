/** How far the store follows the live state. A failed write is reported but not undone, so what a
    reader sees of the live state may not be stored; here is exactly when it is. */
module FederationPublication {
  import opened Prelude
  import opened Compatibility
  import opened Migration
  import opened Federation
  import opened FederationInvariants
  import opened FederationSteps
  import opened FederationRuns

  /** The store holds everything of the live state but the recorded decisions. */
  ghost predicate Published(w: World) {
    && w.live.Some? && w.disk.Some?
    && w.disk.value == SnapshotOf(w.live.value).(decisions := w.disk.value.decisions)
  }

  /** The event wrote the store. */
  ghost predicate Wrote(w: World, e: Event) {
    match e
    case Run(op, writeOk) =>
      (match w.live
       case None => false
       case Some(f) => Refusal(f, op).None? && Writes(f, op) && f.durable && (f.eager || op.Persist?) && writeOk)
    case Open(c, writeOk) => OpenRefusal(w.disk, c).None? && c.durable && c.eager && writeOk
  }

  lemma RunWrites(w: World, op: Op, writeOk: bool, v: World, f: Fed)
    requires IsStep(w, Run(op, writeOk), v) && w.live == Some(f)
    ensures v.live == Some(After(f, op))
    ensures v.disk == if Wrote(w, Run(op, writeOk)) then Some(SnapshotOf(After(f, op))) else w.disk
  {
    hide Refusal, Writes, Enabled, After, SnapshotOf;
  }

  lemma OpenWrites(w: World, c: Config, writeOk: bool, v: World)
    requires IsStep(w, Open(c, writeOk), v)
    ensures v.live.None? || v.live == Some(Opened(w.disk, c))
    ensures Wrote(w, Open(c, writeOk)) ==> v == World(Some(SnapshotOf(Opened(w.disk, c))), Some(Opened(w.disk, c)))
    ensures !Wrote(w, Open(c, writeOk)) ==> v.disk == w.disk
  {
    hide OpenRefusal;
    OpenedModes(w.disk, c);
    hide Opened, SnapshotOf;
  }

  lemma OpeningMovesOn(disk: Option<Snapshot>, c: Config)
    ensures match disk case Some(s) => Opened(disk, c).generation == Next(s.generation) case None => true
  {
  }

  /** The store is never ahead of the live state. */
  ghost predicate StoreFollows(w: World) {
    w.live.Some? && w.disk.Some? ==> w.disk.value.generation <= w.live.value.generation
  }

  lemma {:induction false} StoreNeverLeads(ws: seq<World>, es: seq<Event>, j: nat)
    requires IsRun(ws, es)
    ensures StoreFollows(At(ws, j))
  {
    hide IsStep, Wrote, After, Opened;
    if 0 < j < |ws| {
      StoreNeverLeads(ws, es, j - 1);
      assert IsStep(ws[j - 1], es[j - 1], ws[j - 1 + 1]);
      match es[j - 1]
      case Run(op, writeOk) =>
        OperationRuns(ws[j - 1], op, writeOk, ws[j]);
        var f := ws[j - 1].live.value;
        RunWrites(ws[j - 1], op, writeOk, ws[j], f);
        StepVersioned(f, op);
      case Open(c, writeOk) =>
        OpenWrites(ws[j - 1], c, writeOk, ws[j]);
        OpeningMovesOn(ws[j - 1].disk, c);
    }
  }

  lemma WrittenIsPublished(w: World, e: Event, v: World)
    requires IsStep(w, e, v) && Wrote(w, e)
    ensures Published(v)
  {
    hide IsStep, Wrote, After, Opened;
    match e
    case Run(op, writeOk) =>
      OperationRuns(w, op, writeOk, v);
      RunWrites(w, op, writeOk, v, w.live.value);
    case Open(c, writeOk) => OpenWrites(w, c, writeOk, v);
  }

  lemma SameSnapshot(f: Fed, g: Fed, s: Snapshot)
    requires Versioned(f, g) && f.generation == g.generation < MAX_GENERATION
    ensures s == SnapshotOf(f).(decisions := s.decisions) <==> s == SnapshotOf(g).(decisions := s.decisions)
  {
  }

  /** Without a write, an operation leaves the state published only if it does not move the
      generation. */
  lemma UnwrittenStep(w: World, op: Op, writeOk: bool, v: World, f: Fed, g: Fed)
    requires IsStep(w, Run(op, writeOk), v) && !Wrote(w, Run(op, writeOk)) && StoreFollows(w)
    requires w.live == Some(f) && v.live == Some(g) && g.generation < MAX_GENERATION
    ensures f.generation <= g.generation && (Published(v) <==> Published(w) && g.generation == f.generation)
  {
    hide IsStep, Wrote, After;
    RunWrites(w, op, writeOk, v, f);
    StepVersioned(f, op);
    if g.generation == f.generation && w.disk.Some? { SameSnapshot(f, g, w.disk.value); }
  }

  /** A write since the process opened the store, of the generation that is live now. */
  ghost predicate WrittenAt(ws: seq<World>, es: seq<Event>, m: int, j: int) {
    && 0 <= m < j && InProcess(es, m + 1, j) && Wrote(At(ws, m), EventAt(es, m)) && SameGeneration(At(ws, m + 1), At(ws, j))
  }

  ghost predicate SameGeneration(w: World, v: World) {
    w.live.Some? && v.live.Some? && w.live.value.generation == v.live.value.generation
  }

  ghost predicate WrittenSince(ws: seq<World>, es: seq<Event>, j: int) { exists m :: WrittenAt(ws, es, m, j) }

  /** At any point of any run the store holds the live members, workloads, policy and plans
      exactly when this process wrote it since the generation last moved. */
  lemma {:induction false} PublishedIffWritten(ws: seq<World>, es: seq<Event>, j: nat, g: Fed)
    requires IsRun(ws, es) && LiveAt(ws, j, g) && g.generation < MAX_GENERATION
    ensures Published(At(ws, j)) <==> WrittenSince(ws, es, j)
  {
    hide IsStep, Wrote, Published, StoreFollows;
    StepTo(ws, es, j, g);
    var w, e, v := ws[j - 1], es[j - 1], ws[j];
    if Wrote(w, e) {
      WrittenIsPublished(w, e, v);
      assert WrittenAt(ws, es, j - 1, j);
    } else {
      match e
      case Open(c, writeOk) => UnwrittenOpen(w, c, writeOk, v, g);
      case Run(op, writeOk) =>
        var f := w.live.value;
        StoreNeverLeads(ws, es, j - 1);
        UnwrittenStep(w, op, writeOk, v, f, g);
        PublishedIffWritten(ws, es, j - 1, f);
        CarryWritten(ws, es, j, f, g);
    }
  }

  lemma UnwrittenOpen(w: World, c: Config, writeOk: bool, v: World, g: Fed)
    requires IsStep(w, Open(c, writeOk), v) && !Wrote(w, Open(c, writeOk)) && v.live == Some(g) && g.generation < MAX_GENERATION
    ensures !Published(v)
  {
    hide IsStep, Wrote, Opened;
    OpenWrites(w, c, writeOk, v);
    OpeningMovesOn(w.disk, c);
  }

  /** After an operation that did not write, only a write of a generation that still stands counts. */
  lemma CarryWritten(ws: seq<World>, es: seq<Event>, j: nat, f: Fed, g: Fed)
    requires IsRun(ws, es) && InProcess(es, j - 1, j) && !Wrote(At(ws, j - 1), EventAt(es, j - 1))
    requires LiveAt(ws, j - 1, f) && LiveAt(ws, j, g) && f.generation <= g.generation
    ensures WrittenSince(ws, es, j) <==> WrittenSince(ws, es, j - 1) && f.generation == g.generation
  {
    hide IsStep, Wrote;
    if m :| WrittenAt(ws, es, m, j) {
      assert m < j - 1;
      GenerationNamesContent(ws, es, m + 1, j - 1, ws[m + 1].live.value);
      assert WrittenAt(ws, es, m, j - 1);
    }
    if WrittenSince(ws, es, j - 1) && f.generation == g.generation {
      var m :| WrittenAt(ws, es, m, j - 1);
      assert WrittenAt(ws, es, m, j);
    }
  }

  // ---- Generations that nobody writes -----------------------------------------------------

  predicate PlansToItself(op: Op) { match op case Plan(_, s, x, _, _, _, _) => s == x case _ => false }

  /** An accepted operation moves the generation without attempting a write exactly when it plans a
      migration of an accelerator to itself, and then it changes nothing else. */
  lemma OnlySelfPlansMoveUnwritten(f: Fed, op: Op)
    requires Inv(f) && f.generation < MAX_GENERATION && Refusal(f, op).None?
    ensures !Writes(f, op) && Effect(f, op).generation != f.generation <==> PlansToItself(op)
    ensures PlansToItself(op) ==> Effect(f, op) == f.(generation := Next(f.generation))
  {
    hide ObserveRefusal, TransitionRefusal, UpdateRefusal, SetPolicyRefusal, RegisterRefusal, EvaluateNow, PlanRefusal;
    hide AdvanceRefusal, AbortRefusal, PlanResult, PlanCache, Keep, Inv;
    hide ObserveEffect, UpdateEffect, SetPolicyEffect, RegisterEffect, EvaluateEffect, SweepKeeps, AbortEffect;
    match op
    case Plan(w, s, x, now, _, c, _) => SelfPlanFails(f, w, s, x, now, c);
    case _ =>
  }
}
