/** The stored forms of member records and migration plans. Enumerations travel as the numbers of
    their constants, and identities as their sixteen bytes. */
module RecordCodec {
  import opened Prelude
  import opened Bytes

  type Id = s: seq<Byte> | |s| == 16 witness seq(16, _ => 0)

  type U8 = n: nat | n < 256
  type U16 = n: nat | n < 0x1_0000
  type U32 = n: nat | n < 0x1_0000_0000
  type U64 = n: nat | n < 0x1_0000_0000_0000_0000
  type I64 = i: int | -0x8000_0000_0000_0000 <= i < 0x8000_0000_0000_0000

  predicate IsNil(id: Id) { forall i :: 0 <= i < 16 ==> id[i] == 0 }

  const NAME := 256
  const TOKEN := 128
  const DESCRIPTION := 8192
  const MAX_STEPS := 4096

  // ---- Lists of rows ----------------------------------------------------------------------

  /** A row is refused as malformed when its fields, all readable, are not acceptable. */
  type Accept = seq<Item> -> bool

  function TakeRow(c: Cursor, shapes: seq<Shape>, accept: Accept): (r: Read<seq<Item>>)
    requires InBounds(c)
    ensures Sound(c, r) && (r.value.Some? ==> AllFit(shapes, r.value.value) && accept(r.value.value))
  {
    var r := TakeItems(c, shapes);
    if r.value.Some? && !accept(r.value.value) then Read(Failed(r.cursor, MalformedData), None) else r
  }

  function TakeRows(c: Cursor, n: nat, shapes: seq<Shape>, accept: Accept): (r: Read<seq<seq<Item>>>)
    requires InBounds(c)
    ensures Sound(c, r)
    decreases n
  {
    if c.error.Some? then Read(c, None)
    else if n == 0 then Read(c, Some([]))
    else
      var first := TakeRow(c, shapes, accept);
      if first.value.None? then Read(first.cursor, None)
      else
        var rest := TakeRows(first.cursor, n - 1, shapes, accept);
        Read(rest.cursor, match rest.value case Some(rows) => Some([first.value.value] + rows) case None => None)
  }

  function TakeList(c: Cursor, most: nat, rowBytes: nat, shapes: seq<Shape>, accept: Accept): (r: Read<seq<seq<Item>>>)
    requires InBounds(c)
    ensures Sound(c, r)
  {
    var n := TakeCount(c, most, rowBytes);
    if n.value.None? then Read(n.cursor, None) else TakeRows(n.cursor, n.value.value, shapes, accept)
  }

  ghost predicate RowsFit(rows: seq<seq<Item>>, shapes: seq<Shape>, accept: Accept) {
    forall i :: 0 <= i < |rows| ==> AllFit(shapes, rows[i]) && accept(rows[i])
  }

  ghost function EncodedRows(rows: seq<seq<Item>>, shapes: seq<Shape>, accept: Accept): seq<Byte>
    requires RowsFit(rows, shapes, accept)
  {
    if rows == [] then [] else EncodedAll(shapes, rows[0]) + EncodedRows(rows[1..], shapes, accept)
  }

  ghost function EncodedList(rows: seq<seq<Item>>, shapes: seq<Shape>, accept: Accept): seq<Byte>
    requires RowsFit(rows, shapes, accept)
  {
    Little(|rows|, 4) + EncodedRows(rows, shapes, accept)
  }

  lemma {:induction false} RowsRoundTrip(c: Cursor, rows: seq<seq<Item>>, shapes: seq<Shape>, accept: Accept)
    requires RowsFit(rows, shapes, accept) && At(c, EncodedRows(rows, shapes, accept))
    ensures TakeRows(c, |rows|, shapes, accept) == Read(Past(c, EncodedRows(rows, shapes, accept)), Some(rows))
    decreases |rows|
  {
    hide EncodedAll, TakeItems, AllFit;
    if rows != [] {
      var first, rest := EncodedAll(shapes, rows[0]), EncodedRows(rows[1..], shapes, accept);
      AtParts(c, first, rest);
      ItemsRoundTrip(c, shapes, rows[0]);
      RowsRoundTrip(Past(c, first), rows[1..], shapes, accept);
      assert rows == [rows[0]] + rows[1..];
    }
  }

  /** The fewest bytes a field can take. */
  function Least(shape: Shape): nat {
    match shape
    case Word(n) => n
    case Flag => 1
    case Signed => 8
    case Block(n) => n
    case Text(_) => 4
  }

  function LeastRow(shapes: seq<Shape>): nat { if shapes == [] then 0 else Least(shapes[0]) + LeastRow(shapes[1..]) }

  lemma {:induction false} RowIsLong(shapes: seq<Shape>, items: seq<Item>)
    requires AllFit(shapes, items)
    ensures LeastRow(shapes) <= |EncodedAll(shapes, items)|
    decreases |shapes|
  {
    hide Little, TextBytes, Range, IsText;
    if shapes != [] { RowIsLong(shapes[1..], items[1..]); }
  }

  lemma {:induction false} RowsAreLong(rows: seq<seq<Item>>, shapes: seq<Shape>, accept: Accept)
    requires RowsFit(rows, shapes, accept)
    ensures |rows| * LeastRow(shapes) <= |EncodedRows(rows, shapes, accept)|
    decreases |rows|
  {
    hide EncodedAll, AllFit, LeastRow;
    if rows != [] {
      RowIsLong(shapes, rows[0]);
      RowsAreLong(rows[1..], shapes, accept);
      assert |rows| * LeastRow(shapes) == LeastRow(shapes) + (|rows| - 1) * LeastRow(shapes);
    }
  }

  lemma ListRoundTrip(c: Cursor, rows: seq<seq<Item>>, shapes: seq<Shape>, accept: Accept, most: nat, rowBytes: nat)
    requires RowsFit(rows, shapes, accept) && At(c, EncodedList(rows, shapes, accept))
    requires |rows| <= most < 0x1_0000_0000 && rowBytes <= LeastRow(shapes)
    ensures TakeList(c, most, rowBytes, shapes, accept) == Read(Past(c, EncodedList(rows, shapes, accept)), Some(rows))
  {
    hide EncodedRows, RowsFit, LeastRow, TakeRows, TakeCount, Little;
    var body := EncodedRows(rows, shapes, accept);
    RowsAreLong(rows, shapes, accept);
    Scale(|rows|, rowBytes, LeastRow(shapes));
    CountRoundTrip(c, |rows|, most, rowBytes, body);
    AtParts(c, Little(|rows|, 4), body);
    RowsRoundTrip(Past(c, Little(|rows|, 4)), rows, shapes, accept);
  }

  lemma Scale(n: nat, a: nat, b: nat)
    requires a <= b
    ensures n * a <= n * b
  {
  }

  /** A list longer than its limit is refused, whatever it holds. */
  lemma LongListIsRefused(c: Cursor, rows: seq<seq<Item>>, shapes: seq<Shape>, accept: Accept, most: nat, rowBytes: nat)
    requires RowsFit(rows, shapes, accept) && At(c, EncodedList(rows, shapes, accept)) && most < |rows| < 0x1_0000_0000
    ensures TakeList(c, most, rowBytes, shapes, accept).value == None
    ensures TakeList(c, most, rowBytes, shapes, accept).cursor.error == Some(BoundsExceeded)
  {
    hide EncodedRows, RowsFit, Little, TakeRows;
    RangeOfEight();
    AtParts(c, Little(|rows|, 4), EncodedRows(rows, shapes, accept));
    WordRoundTrip(c, |rows|, 4);
  }

  // ---- Member records ---------------------------------------------------------------------

  datatype MemberRow = MemberRow(
    federation: Id, federationGeneration: U64, epoch: U64,
    agent: Id, boot: Id, agentGeneration: U64,
    accelerator: Id, physical: Id,
    deviceGeneration: U64, capabilityGeneration: U64, evidenceGeneration: U64, policyGeneration: U64,
    state: U8, stateGeneration: U64, support: U8, provenance: U8,
    admittedAt: I64, updatedAt: I64,
    history: seq<string>)

  const MEMBER_OWNER: seq<Shape> := [Block(16), Word(8), Word(8), Block(16), Block(16), Word(8), Block(16), Block(16)]

  const MEMBER_STATUS: seq<Shape> :=
    [Word(8), Word(8), Word(8), Word(8), Word(1), Word(8), Word(1), Word(1), Signed, Signed]

  const HISTORY_ROW: seq<Shape> := [Text(DESCRIPTION)]

  predicate AnyRow(row: seq<Item>) { true }

  function OwnerItems(m: MemberRow): seq<Item> {
    [Raw(m.federation), Number(m.federationGeneration), Number(m.epoch), Raw(m.agent), Raw(m.boot), Number(m.agentGeneration),
     Raw(m.accelerator), Raw(m.physical)]
  }

  function StatusItems(m: MemberRow): seq<Item> {
    [Number(m.deviceGeneration), Number(m.capabilityGeneration), Number(m.evidenceGeneration), Number(m.policyGeneration),
     Number(m.state), Number(m.stateGeneration), Number(m.support), Number(m.provenance), Quantity(m.admittedAt), Quantity(m.updatedAt)]
  }

  function MemberFrom(owner: seq<Item>, status: seq<Item>, history: seq<string>): MemberRow
    requires AllFit(MEMBER_OWNER, owner) && AllFit(MEMBER_STATUS, status)
  {
    MemberRow(
      Bytes16(owner[0]), Word64(owner[1]), Word64(owner[2]), Bytes16(owner[3]), Bytes16(owner[4]), Word64(owner[5]),
      Bytes16(owner[6]), Bytes16(owner[7]), Word64(status[0]), Word64(status[1]), Word64(status[2]), Word64(status[3]),
      Word8(status[4]), Word64(status[5]), Word8(status[6]), Word8(status[7]), Int64(status[8]), Int64(status[9]), history)
  }

  lemma RangeOfOne()
    ensures Range(1) == 256 && Range(2) == 0x1_0000
  {
    assert Range(0) == 1;
  }

  function Bytes16(i: Item): Id
    requires Fits(Block(16), i)
  {
    i.raw
  }

  function Word8(i: Item): U8
    requires Fits(Word(1), i)
  {
    RangeOfOne();
    i.number
  }

  function Word64(i: Item): U64
    requires Fits(Word(8), i)
  {
    RangeOfEight();
    i.number
  }

  function Int64(i: Item): I64
    requires Fits(Signed, i)
  {
    i.quantity
  }

  function TextRow(s: string): seq<Item> { [Str(s)] }

  function TextRows(ss: seq<string>): seq<seq<Item>> { seq(|ss|, i requires 0 <= i < |ss| => TextRow(ss[i])) }

  function TextOf(row: seq<Item>): string { if |row| == 1 && row[0].Str? then row[0].str else "" }

  function TextsOf(rows: seq<seq<Item>>): seq<string> { seq(|rows|, i requires 0 <= i < |rows| => TextOf(rows[i])) }

  lemma TextsRoundTrip(ss: seq<string>)
    ensures TextsOf(TextRows(ss)) == ss
  {
  }

  predicate StateInDomain(m: MemberRow) { m.state <= 7 && m.support <= 4 && m.provenance <= 2 }

  predicate Identified(m: MemberRow) { !IsNil(m.accelerator) && !IsNil(m.agent) }

  /** Reads a member record: fixed fields, their domains, the history, the required identities. */
  function DecodeMember(c: Cursor): (r: Read<MemberRow>)
    requires InBounds(c)
    ensures Sound(c, r)
  {
    var owner := TakeItems(c, MEMBER_OWNER);
    if owner.value.None? then Read(owner.cursor, None)
    else
      var status := TakeItems(owner.cursor, MEMBER_STATUS);
      if status.value.None? then Read(status.cursor, None)
      else if !StateInDomain(MemberFrom(owner.value.value, status.value.value, [])) then Read(Failed(status.cursor, MalformedData), None)
      else
        var history := TakeList(status.cursor, MAX_HISTORY, 4, HISTORY_ROW, AnyRow);
        if history.value.None? then Read(history.cursor, None)
        else
          var m := MemberFrom(owner.value.value, status.value.value, TextsOf(history.value.value));
          if !Identified(m) then Read(Failed(history.cursor, MalformedData), None) else Read(history.cursor, Some(m))
  }

  ghost predicate HistoryFits(m: MemberRow) { forall i :: 0 <= i < |m.history| ==> Fits(Text(DESCRIPTION), Str(m.history[i])) }

  lemma MemberItemsFit(m: MemberRow)
    ensures AllFit(MEMBER_OWNER, OwnerItems(m)) && AllFit(MEMBER_STATUS, StatusItems(m))
  {
    RangeOfEight();
    RangeOfOne();
    hide Range;
  }

  lemma MemberReturns(m: MemberRow, history: seq<string>)
    requires AllFit(MEMBER_OWNER, OwnerItems(m)) && AllFit(MEMBER_STATUS, StatusItems(m))
    ensures MemberFrom(OwnerItems(m), StatusItems(m), history) == m.(history := history)
  {
    hide Range, AllFit;
  }

  lemma HistoryRowsFit(m: MemberRow)
    requires HistoryFits(m)
    ensures RowsFit(TextRows(m.history), HISTORY_ROW, AnyRow)
  {
  }

  ghost function EncodeMember(m: MemberRow): seq<Byte>
    requires HistoryFits(m)
  {
    MemberItemsFit(m);
    HistoryRowsFit(m);
    EncodedAll(MEMBER_OWNER, OwnerItems(m)) + (EncodedAll(MEMBER_STATUS, StatusItems(m)) + EncodedList(TextRows(m.history), HISTORY_ROW, AnyRow))
  }

  /** What the decoder has found when it comes to the history. */
  lemma FixedPart(c: Cursor, m: MemberRow)
    requires HistoryFits(m) && At(c, EncodeMember(m))
    ensures AllFit(MEMBER_OWNER, OwnerItems(m)) && AllFit(MEMBER_STATUS, StatusItems(m)) && RowsFit(TextRows(m.history), HISTORY_ROW, AnyRow)
    ensures
      var a, b := EncodedAll(MEMBER_OWNER, OwnerItems(m)), EncodedAll(MEMBER_STATUS, StatusItems(m));
      && TakeItems(c, MEMBER_OWNER) == Read(Past(c, a), Some(OwnerItems(m)))
      && TakeItems(Past(c, a), MEMBER_STATUS) == Read(Past(Past(c, a), b), Some(StatusItems(m)))
      && At(Past(Past(c, a), b), EncodedList(TextRows(m.history), HISTORY_ROW, AnyRow))
      && Past(Past(Past(c, a), b), EncodedList(TextRows(m.history), HISTORY_ROW, AnyRow)) == Past(c, EncodeMember(m))
  {
    hide MEMBER_OWNER, MEMBER_STATUS, OwnerItems, StatusItems, EncodedAll, EncodedList, TextRows, HISTORY_ROW, HistoryFits, RowsFit, AllFit, TakeItems, At;
    MemberItemsFit(m);
    HistoryRowsFit(m);
    var a, b, l := EncodedAll(MEMBER_OWNER, OwnerItems(m)), EncodedAll(MEMBER_STATUS, StatusItems(m)), EncodedList(TextRows(m.history), HISTORY_ROW, AnyRow);
    AtParts(c, a, b + l);
    AtParts(Past(c, a), b, l);
    ItemsRoundTrip(c, MEMBER_OWNER, OwnerItems(m));
    ItemsRoundTrip(Past(c, a), MEMBER_STATUS, StatusItems(m));
  }

  /** Decoding an encoded member record, whatever follows it, returns the record and consumes
      exactly its bytes. */
  lemma MemberRoundTrip(c: Cursor, m: MemberRow)
    requires HistoryFits(m) && StateInDomain(m) && Identified(m) && |m.history| <= MAX_HISTORY
    requires At(c, EncodeMember(m))
    ensures DecodeMember(c) == Read(Past(c, EncodeMember(m)), Some(m))
  {
    hide MEMBER_OWNER, MEMBER_STATUS, OwnerItems, StatusItems, MemberFrom, EncodeMember, EncodedAll, EncodedList, TextRows, TextsOf, HISTORY_ROW;
    hide HistoryFits, RowsFit, AllFit, TakeItems, TakeList, At, IsNil;
    FixedPart(c, m);
    MemberReturns(m, []);
    MemberReturns(m, m.history);
    TextsRoundTrip(m.history);
    LeastText();
    RowsCount(m.history);
    var here := Past(Past(c, EncodedAll(MEMBER_OWNER, OwnerItems(m))), EncodedAll(MEMBER_STATUS, StatusItems(m)));
    ListRoundTrip(here, TextRows(m.history), HISTORY_ROW, AnyRow, MAX_HISTORY, 4);
  }

  lemma RowsCount(ss: seq<string>)
    ensures |TextRows(ss)| == |ss|
  {
  }

  lemma LeastText()
    ensures LeastRow(HISTORY_ROW) == 4
  {
    assert HISTORY_ROW[1..] == [];
  }

  /** A history that outgrew the decoder's limit makes the record unreadable. */
  lemma LongHistoryIsRefused(c: Cursor, m: MemberRow)
    requires HistoryFits(m) && StateInDomain(m) && MAX_HISTORY < |m.history| < 0x1_0000_0000
    requires At(c, EncodeMember(m))
    ensures DecodeMember(c).value == None && DecodeMember(c).cursor.error == Some(BoundsExceeded)
  {
    hide MEMBER_OWNER, MEMBER_STATUS, OwnerItems, StatusItems, MemberFrom, EncodeMember, EncodedAll, EncodedList, TextRows, TextsOf, HISTORY_ROW;
    hide HistoryFits, RowsFit, AllFit, TakeItems, TakeList, At, IsNil;
    FixedPart(c, m);
    MemberReturns(m, []);
    RowsCount(m.history);
    var here := Past(Past(c, EncodedAll(MEMBER_OWNER, OwnerItems(m))), EncodedAll(MEMBER_STATUS, StatusItems(m)));
    LongListIsRefused(here, TextRows(m.history), HISTORY_ROW, AnyRow, MAX_HISTORY, 4);
  }

  // ---- Migration plans --------------------------------------------------------------------

  datatype StepRow = StepRow(kind: string, description: string, capability: string)

  datatype ReasonRow = ReasonRow(code: U16, subject: string, detail: string, strength: U8, observed: U8)

  datatype PlanRow = PlanRow(
    id: Id, generation: U64, federation: Id, federationGeneration: U64, epoch: U64,
    source: Id, sourceGeneration: U64, sourceCapabilityGeneration: U64,
    destination: Id, destinationGeneration: U64, destinationCapabilityGeneration: U64,
    workload: Id, workloadRevision: U64, sourceDecision: Id, destinationDecision: Id,
    portability: U8, outcome: U8, state: U8, policy: Id, policyGeneration: U64, provenance: U8, cost: U32,
    steps: seq<StepRow>, reasons: seq<ReasonRow>, createdAt: I64)

  const PLAN_AUTHORITY: seq<Shape> := [Block(16), Word(8), Block(16), Word(8), Word(8)]

  const PLAN_ENDPOINTS: seq<Shape> :=
    [Block(16), Word(8), Word(8), Block(16), Word(8), Word(8), Block(16), Word(8), Block(16), Block(16)]

  const PLAN_VERDICT: seq<Shape> := [Word(1), Word(1), Word(1), Block(16), Word(8), Word(1), Word(4)]

  const STEP_ROW: seq<Shape> := [Text(TOKEN), Text(DESCRIPTION), Text(NAME)]

  const REASON_ROW: seq<Shape> := [Word(2), Text(NAME), Text(DESCRIPTION), Word(1), Word(1)]

  const LAST_ERROR_CODE := 145

  predicate StepOk(row: seq<Item>) { |row| == 3 && row[0].Str? && row[0].str != "" }

  predicate ReasonOk(row: seq<Item>) {
    && |row| == 5 && row[0].Number? && row[3].Number? && row[4].Number?
    && row[0].number <= LAST_ERROR_CODE && row[3].number <= 1 && row[4].number <= 3
  }

  function AuthorityItems(p: PlanRow): seq<Item> {
    [Raw(p.id), Number(p.generation), Raw(p.federation), Number(p.federationGeneration), Number(p.epoch)]
  }

  function EndpointItems(p: PlanRow): seq<Item> {
    [Raw(p.source), Number(p.sourceGeneration), Number(p.sourceCapabilityGeneration), Raw(p.destination), Number(p.destinationGeneration),
     Number(p.destinationCapabilityGeneration), Raw(p.workload), Number(p.workloadRevision), Raw(p.sourceDecision), Raw(p.destinationDecision)]
  }

  function VerdictItems(p: PlanRow): seq<Item> {
    [Number(p.portability), Number(p.outcome), Number(p.state), Raw(p.policy), Number(p.policyGeneration), Number(p.provenance), Number(p.cost)]
  }

  function Word32(i: Item): U32
    requires Fits(Word(4), i)
  {
    RangeOfEight();
    i.number
  }

  function Word16(i: Item): U16
    requires Fits(Word(2), i)
  {
    RangeOfOne();
    i.number
  }

  function Words(i: Item): string { if i.Str? then i.str else "" }

  function StepItems(s: StepRow): seq<Item> { [Str(s.kind), Str(s.description), Str(s.capability)] }

  function StepFrom(row: seq<Item>): StepRow
    requires AllFit(STEP_ROW, row)
  {
    StepRow(Words(row[0]), Words(row[1]), Words(row[2]))
  }

  function ReasonItems(r: ReasonRow): seq<Item> { [Number(r.code), Str(r.subject), Str(r.detail), Number(r.strength), Number(r.observed)] }

  function ReasonFrom(row: seq<Item>): ReasonRow
    requires AllFit(REASON_ROW, row)
  {
    ReasonRow(Word16(row[0]), Words(row[1]), Words(row[2]), Word8(row[3]), Word8(row[4]))
  }

  /** The fixed fields; lists and the time stamp are added as they are read. */
  function PlanFrom(a: seq<Item>, e: seq<Item>, v: seq<Item>, steps: seq<StepRow>, reasons: seq<ReasonRow>, createdAt: I64): PlanRow
    requires AllFit(PLAN_AUTHORITY, a) && AllFit(PLAN_ENDPOINTS, e) && AllFit(PLAN_VERDICT, v)
  {
    PlanRow(
      Bytes16(a[0]), Word64(a[1]), Bytes16(a[2]), Word64(a[3]), Word64(a[4]),
      Bytes16(e[0]), Word64(e[1]), Word64(e[2]), Bytes16(e[3]), Word64(e[4]), Word64(e[5]), Bytes16(e[6]), Word64(e[7]), Bytes16(e[8]), Bytes16(e[9]),
      Word8(v[0]), Word8(v[1]), Word8(v[2]), Bytes16(v[3]), Word64(v[4]), Word8(v[5]), Word32(v[6]),
      steps, reasons, createdAt)
  }

  predicate VerdictInDomain(p: PlanRow) { p.portability <= 9 && p.outcome <= 7 && p.state <= 7 && p.provenance <= 2 }

  function TakeSteps(c: Cursor): (r: Read<seq<StepRow>>)
    requires InBounds(c)
    ensures Sound(c, r)
  {
    var rows := TakeList(c, MAX_STEPS, 8, STEP_ROW, StepOk);
    Read(rows.cursor, match rows.value case None => None case Some(s) => Some(StepsFrom(s)))
  }

  function StepsFrom(rows: seq<seq<Item>>): seq<StepRow> {
    seq(|rows|, i requires 0 <= i < |rows| => if AllFit(STEP_ROW, rows[i]) then StepFrom(rows[i]) else StepRow("", "", ""))
  }

  function TakeReasons(c: Cursor): (r: Read<seq<ReasonRow>>)
    requires InBounds(c)
    ensures Sound(c, r)
  {
    var rows := TakeList(c, MAX_STEPS, 6, REASON_ROW, ReasonOk);
    Read(rows.cursor, match rows.value case None => None case Some(s) => Some(ReasonsFrom(s)))
  }

  function ReasonsFrom(rows: seq<seq<Item>>): seq<ReasonRow> {
    seq(|rows|, i requires 0 <= i < |rows| => if AllFit(REASON_ROW, rows[i]) then ReasonFrom(rows[i]) else ReasonRow(0, "", "", 0, 0))
  }

  /** Reads a plan and checks that it carries the identity its content has under `identify`. */
  function DecodePlan(c: Cursor, identify: PlanRow -> Id): (r: Read<PlanRow>)
    requires InBounds(c)
    ensures Sound(c, r)
  {
    var a := TakeItems(c, PLAN_AUTHORITY);
    if a.value.None? then Read(a.cursor, None) else
    var e := TakeItems(a.cursor, PLAN_ENDPOINTS);
    if e.value.None? then Read(e.cursor, None) else
    var v := TakeItems(e.cursor, PLAN_VERDICT);
    if v.value.None? then Read(v.cursor, None) else
    if !VerdictInDomain(PlanFrom(a.value.value, e.value.value, v.value.value, [], [], 0)) then Read(Failed(v.cursor, MalformedData), None) else
    var steps := TakeSteps(v.cursor);
    if steps.value.None? then Read(steps.cursor, None) else
    var reasons := TakeReasons(steps.cursor);
    if reasons.value.None? then Read(reasons.cursor, None) else
    var at := TakeItem(reasons.cursor, Signed);
    if at.value.None? then Read(at.cursor, None) else
    var p := PlanFrom(a.value.value, e.value.value, v.value.value, steps.value.value, reasons.value.value, Int64(at.value.value));
    if p.id != identify(p) then Read(Failed(at.cursor, IntegrityFailure), None) else Read(at.cursor, Some(p))
  }

  ghost predicate StepsFit(p: PlanRow) {
    |p.steps| <= MAX_STEPS && forall i :: 0 <= i < |p.steps| ==> AllFit(STEP_ROW, StepItems(p.steps[i])) && p.steps[i].kind != ""
  }

  ghost predicate ReasonsFit(p: PlanRow) {
    |p.reasons| <= MAX_STEPS && forall i :: 0 <= i < |p.reasons| ==> AllFit(REASON_ROW, ReasonItems(p.reasons[i])) && ReasonOk(ReasonItems(p.reasons[i]))
  }

  function StepRows(p: PlanRow): seq<seq<Item>> { seq(|p.steps|, i requires 0 <= i < |p.steps| => StepItems(p.steps[i])) }

  function ReasonRows(p: PlanRow): seq<seq<Item>> { seq(|p.reasons|, i requires 0 <= i < |p.reasons| => ReasonItems(p.reasons[i])) }

  lemma StepRowsFit(p: PlanRow)
    requires StepsFit(p)
    ensures RowsFit(StepRows(p), STEP_ROW, StepOk) && |StepRows(p)| == |p.steps| && StepsFrom(StepRows(p)) == p.steps
  {
    hide AllFit;
    forall i | 0 <= i < |p.steps|
      ensures AllFit(STEP_ROW, StepItems(p.steps[i])) && StepFrom(StepItems(p.steps[i])) == p.steps[i]
    {
    }
  }

  lemma ReasonRowsFit(p: PlanRow)
    requires ReasonsFit(p)
    ensures RowsFit(ReasonRows(p), REASON_ROW, ReasonOk) && |ReasonRows(p)| == |p.reasons| && ReasonsFrom(ReasonRows(p)) == p.reasons
  {
    hide AllFit;
    forall i | 0 <= i < |p.reasons|
      ensures AllFit(REASON_ROW, ReasonItems(p.reasons[i])) && ReasonFrom(ReasonItems(p.reasons[i])) == p.reasons[i]
    {
    }
  }

  lemma PlanItemsFit(p: PlanRow)
    ensures AllFit(PLAN_AUTHORITY, AuthorityItems(p)) && AllFit(PLAN_ENDPOINTS, EndpointItems(p)) && AllFit(PLAN_VERDICT, VerdictItems(p))
  {
    RangeOfEight();
    RangeOfOne();
    hide Range;
  }

  lemma PlanReturns(p: PlanRow, steps: seq<StepRow>, reasons: seq<ReasonRow>, at: I64)
    requires AllFit(PLAN_AUTHORITY, AuthorityItems(p)) && AllFit(PLAN_ENDPOINTS, EndpointItems(p)) && AllFit(PLAN_VERDICT, VerdictItems(p))
    ensures PlanFrom(AuthorityItems(p), EndpointItems(p), VerdictItems(p), steps, reasons, at) == p.(steps := steps, reasons := reasons, createdAt := at)
  {
    hide Range, AllFit;
  }

  ghost function EncodePlanFixed(p: PlanRow): seq<Byte> {
    PlanItemsFit(p);
    EncodedAll(PLAN_AUTHORITY, AuthorityItems(p)) + (EncodedAll(PLAN_ENDPOINTS, EndpointItems(p)) + EncodedAll(PLAN_VERDICT, VerdictItems(p)))
  }

  ghost function EncodePlanLists(p: PlanRow): seq<Byte>
    requires StepsFit(p) && ReasonsFit(p)
  {
    StepRowsFit(p);
    ReasonRowsFit(p);
    EncodedList(StepRows(p), STEP_ROW, StepOk) + (EncodedList(ReasonRows(p), REASON_ROW, ReasonOk) + Encoded(Signed, Quantity(p.createdAt)))
  }

  ghost function EncodePlan(p: PlanRow): seq<Byte>
    requires StepsFit(p) && ReasonsFit(p)
  {
    EncodePlanFixed(p) + EncodePlanLists(p)
  }

  lemma PlanFixedRoundTrip(c: Cursor, p: PlanRow)
    requires At(c, EncodePlanFixed(p))
    ensures AllFit(PLAN_AUTHORITY, AuthorityItems(p)) && AllFit(PLAN_ENDPOINTS, EndpointItems(p)) && AllFit(PLAN_VERDICT, VerdictItems(p))
    ensures
      var a := TakeItems(c, PLAN_AUTHORITY);
      var e := TakeItems(a.cursor, PLAN_ENDPOINTS);
      && a.value == Some(AuthorityItems(p)) && e.value == Some(EndpointItems(p))
      && TakeItems(e.cursor, PLAN_VERDICT) == Read(Past(c, EncodePlanFixed(p)), Some(VerdictItems(p)))
  {
    hide PLAN_AUTHORITY, PLAN_ENDPOINTS, PLAN_VERDICT, AuthorityItems, EndpointItems, VerdictItems, EncodedAll, AllFit, TakeItems, At;
    PlanItemsFit(p);
    var a, e, v := EncodedAll(PLAN_AUTHORITY, AuthorityItems(p)), EncodedAll(PLAN_ENDPOINTS, EndpointItems(p)), EncodedAll(PLAN_VERDICT, VerdictItems(p));
    AtParts(c, a, e + v);
    AtParts(Past(c, a), e, v);
    ItemsRoundTrip(c, PLAN_AUTHORITY, AuthorityItems(p));
    ItemsRoundTrip(Past(c, a), PLAN_ENDPOINTS, EndpointItems(p));
    ItemsRoundTrip(Past(Past(c, a), e), PLAN_VERDICT, VerdictItems(p));
  }

  lemma PlanRowsAreLong()
    ensures LeastRow(STEP_ROW) == 12 && LeastRow(REASON_ROW) == 12
  {
    LeastOfMore(Text(NAME), []);
    LeastOfMore(Text(DESCRIPTION), [Text(NAME)]);
    LeastOfMore(Text(TOKEN), [Text(DESCRIPTION), Text(NAME)]);
    LeastOfMore(Word(1), []);
    LeastOfMore(Word(1), [Word(1)]);
    LeastOfMore(Text(DESCRIPTION), [Word(1), Word(1)]);
    LeastOfMore(Text(NAME), [Text(DESCRIPTION), Word(1), Word(1)]);
    LeastOfMore(Word(2), [Text(NAME), Text(DESCRIPTION), Word(1), Word(1)]);
  }

  lemma LeastOfMore(shape: Shape, rest: seq<Shape>)
    ensures [shape] + rest != [] && LeastRow([shape] + rest) == Least(shape) + LeastRow(rest)
  {
    assert ([shape] + rest)[1..] == rest;
  }

  lemma PlanListsRoundTrip(c: Cursor, p: PlanRow)
    requires StepsFit(p) && ReasonsFit(p) && At(c, EncodePlanLists(p))
    ensures
      var steps := TakeSteps(c);
      var reasons := TakeReasons(steps.cursor);
      && steps.value == Some(p.steps) && reasons.value == Some(p.reasons)
      && TakeItem(reasons.cursor, Signed) == Read(Past(c, EncodePlanLists(p)), Some(Quantity(p.createdAt)))
  {
    hide EncodedList, StepRows, ReasonRows, StepsFrom, ReasonsFrom, STEP_ROW, REASON_ROW, StepsFit, ReasonsFit, RowsFit, TakeList, Encoded, At, TakeItem;
    StepRowsFit(p);
    ReasonRowsFit(p);
    PlanRowsAreLong();
    var s, r, t := EncodedList(StepRows(p), STEP_ROW, StepOk), EncodedList(ReasonRows(p), REASON_ROW, ReasonOk), Encoded(Signed, Quantity(p.createdAt));
    AtParts(c, s, r + t);
    AtParts(Past(c, s), r, t);
    StepsBounded(p);
    ListRoundTrip(c, StepRows(p), STEP_ROW, StepOk, MAX_STEPS, 8);
    ListRoundTrip(Past(c, s), ReasonRows(p), REASON_ROW, ReasonOk, MAX_STEPS, 6);
    ItemRoundTrip(Past(Past(c, s), r), Signed, Quantity(p.createdAt));
  }

  lemma StepsBounded(p: PlanRow)
    requires StepsFit(p) && ReasonsFit(p)
    ensures |p.steps| <= MAX_STEPS && |p.reasons| <= MAX_STEPS
  {
  }

  /** Decoding an encoded plan, whatever follows it, returns the plan and consumes exactly its
      bytes; a plan that does not carry the identity of its content is refused. */
  lemma PlanRoundTrip(c: Cursor, p: PlanRow, identify: PlanRow -> Id)
    requires StepsFit(p) && ReasonsFit(p) && VerdictInDomain(p) && At(c, EncodePlan(p))
    ensures p.id == identify(p) ==> DecodePlan(c, identify) == Read(Past(c, EncodePlan(p)), Some(p))
    ensures p.id != identify(p) ==> DecodePlan(c, identify).cursor.error == Some(IntegrityFailure)
  {
    hide PLAN_AUTHORITY, PLAN_ENDPOINTS, PLAN_VERDICT, AuthorityItems, EndpointItems, VerdictItems, AllFit, TakeItems, At, EncodePlanFixed, EncodePlanLists;
    hide StepsFit, ReasonsFit, PlanFrom, TakeSteps, TakeReasons, TakeItem;
    AtParts(c, EncodePlanFixed(p), EncodePlanLists(p));
    PlanFixedRoundTrip(c, p);
    PlanReturns(p, [], [], 0);
    PlanReturns(p, p.steps, p.reasons, p.createdAt);
    PlanListsRoundTrip(Past(c, EncodePlanFixed(p)), p);
  }

  // ---- Reading and writing in place -------------------------------------------------------

  method ReadRow(reader: ByteReader, shapes: seq<Shape>, accept: Accept) returns (row: Option<seq<Item>>)
    requires reader.Valid()
    modifies reader
    ensures reader.Valid() && Read(reader.Position(), row) == TakeRow(old(reader.Position()), shapes, accept)
  {
    hide TakeItems, AllFit;
    row := reader.GetItems(shapes);
    if row.Some? && !accept(row.value) {
      reader.Fail(MalformedData);
      row := None;
    }
  }

  method ReadRows(reader: ByteReader, n: nat, shapes: seq<Shape>, accept: Accept) returns (rows: Option<seq<seq<Item>>>)
    requires reader.Valid()
    modifies reader
    ensures reader.Valid() && Read(reader.Position(), rows) == TakeRows(old(reader.Position()), n, shapes, accept)
  {
    hide TakeRow;
    if reader.error.Some? { return None; }
    var found: seq<seq<Item>> := [];
    ghost var whole := TakeRows(reader.Position(), n, shapes, accept);
    BehindNone(whole);
    for i := 0 to n
      invariant reader.Valid() && reader.error.None?
      invariant whole == Behind(found, TakeRows(reader.Position(), n - i, shapes, accept))
    {
      var row := ReadRow(reader, shapes, accept);
      if row.None? { return None; }
      BehindOne(found, row.value, TakeRows(reader.Position(), n - i - 1, shapes, accept));
      found := found + [row.value];
    }
    assert found + [] == found;
    return Some(found);
  }

  method ReadList(reader: ByteReader, most: nat, rowBytes: nat, shapes: seq<Shape>, accept: Accept) returns (rows: Option<seq<seq<Item>>>)
    requires reader.Valid()
    modifies reader
    ensures reader.Valid() && Read(reader.Position(), rows) == TakeList(old(reader.Position()), most, rowBytes, shapes, accept)
  {
    hide TakeRows, TakeCount;
    var n := reader.GetCount(most, rowBytes);
    if n.None? { return None; }
    rows := ReadRows(reader, n.value, shapes, accept);
  }

  method ReadMember(reader: ByteReader) returns (m: Option<MemberRow>)
    requires reader.Valid()
    modifies reader
    ensures reader.Valid() && Read(reader.Position(), m) == DecodeMember(old(reader.Position()))
  {
    hide TakeItems, TakeList, MEMBER_OWNER, MEMBER_STATUS, HISTORY_ROW, MemberFrom, StateInDomain, Identified, TextsOf, AllFit;
    var owner := reader.GetItems(MEMBER_OWNER);
    if owner.None? { return None; }
    var status := reader.GetItems(MEMBER_STATUS);
    if status.None? { return None; }
    if !StateInDomain(MemberFrom(owner.value, status.value, [])) { reader.Fail(MalformedData); return None; }
    var history := ReadList(reader, MAX_HISTORY, 4, HISTORY_ROW, AnyRow);
    if history.None? { return None; }
    var found := MemberFrom(owner.value, status.value, TextsOf(history.value));
    if !Identified(found) { reader.Fail(MalformedData); return None; }
    return Some(found);
  }

  method ReadPlan(reader: ByteReader, identify: PlanRow -> Id) returns (p: Option<PlanRow>)
    requires reader.Valid()
    modifies reader
    ensures reader.Valid() && Read(reader.Position(), p) == DecodePlan(old(reader.Position()), identify)
  {
    hide TakeItems, TakeList, TakeItem, PLAN_AUTHORITY, PLAN_ENDPOINTS, PLAN_VERDICT, STEP_ROW, REASON_ROW, PlanFrom, VerdictInDomain, StepsFrom, ReasonsFrom, AllFit;
    var a := reader.GetItems(PLAN_AUTHORITY);
    if a.None? { return None; }
    var e := reader.GetItems(PLAN_ENDPOINTS);
    if e.None? { return None; }
    var v := reader.GetItems(PLAN_VERDICT);
    if v.None? { return None; }
    if !VerdictInDomain(PlanFrom(a.value, e.value, v.value, [], [], 0)) { reader.Fail(MalformedData); return None; }
    var steps := ReadList(reader, MAX_STEPS, 8, STEP_ROW, StepOk);
    if steps.None? { return None; }
    var reasons := ReadList(reader, MAX_STEPS, 6, REASON_ROW, ReasonOk);
    if reasons.None? { return None; }
    var at := reader.GetItem(Signed);
    if at.None? { return None; }
    var found := PlanFrom(a.value, e.value, v.value, StepsFrom(steps.value), ReasonsFrom(reasons.value), Int64(at.value));
    if found.id != identify(found) { reader.Fail(IntegrityFailure); return None; }
    return Some(found);
  }

  method WriteRows(writer: ByteWriter, rows: seq<seq<Item>>, shapes: seq<Shape>, ghost accept: Accept)
    requires RowsFit(rows, shapes, accept)
    modifies writer
    ensures writer.bytes == old(writer.bytes) + EncodedList(rows, shapes, accept)
  {
    hide EncodedAll, AllFit, Little;
    writer.PutWord(|rows|, 4);
    ghost var start := writer.bytes;
    for i := 0 to |rows|
      invariant writer.bytes + EncodedRows(rows[i..], shapes, accept) == start + EncodedRows(rows, shapes, accept)
    {
      assert rows[i..][0] == rows[i] && rows[i..][1..] == rows[i + 1..];
      writer.PutAll(shapes, rows[i]);
    }
    assert rows[|rows|..] == [];
    assert EncodedRows([], shapes, accept) == [];
    assert writer.bytes == start + EncodedRows(rows, shapes, accept);
    assert old(writer.bytes) + Little(|rows|, 4) + EncodedRows(rows, shapes, accept) == old(writer.bytes) + EncodedList(rows, shapes, accept);
  }

  lemma Chain(o: seq<Byte>, a: seq<Byte>, b: seq<Byte>, c: seq<Byte>)
    ensures o + a + b + c == o + (a + (b + c))
  {
  }

  method WriteMember(writer: ByteWriter, m: MemberRow)
    requires HistoryFits(m)
    modifies writer
    ensures writer.bytes == old(writer.bytes) + EncodeMember(m)
  {
    hide EncodedAll, EncodedList, AllFit, RowsFit, MEMBER_OWNER, MEMBER_STATUS, HISTORY_ROW, OwnerItems, StatusItems, TextRows, HistoryFits;
    MemberItemsFit(m);
    HistoryRowsFit(m);
    writer.PutAll(MEMBER_OWNER, OwnerItems(m));
    writer.PutAll(MEMBER_STATUS, StatusItems(m));
    WriteRows(writer, TextRows(m.history), HISTORY_ROW, AnyRow);
    Chain(old(writer.bytes), EncodedAll(MEMBER_OWNER, OwnerItems(m)), EncodedAll(MEMBER_STATUS, StatusItems(m)),
          EncodedList(TextRows(m.history), HISTORY_ROW, AnyRow));
  }

  method WritePlanFixed(writer: ByteWriter, p: PlanRow)
    modifies writer
    ensures writer.bytes == old(writer.bytes) + EncodePlanFixed(p)
  {
    hide EncodedAll, AllFit, PLAN_AUTHORITY, PLAN_ENDPOINTS, PLAN_VERDICT, AuthorityItems, EndpointItems, VerdictItems;
    PlanItemsFit(p);
    writer.PutAll(PLAN_AUTHORITY, AuthorityItems(p));
    writer.PutAll(PLAN_ENDPOINTS, EndpointItems(p));
    writer.PutAll(PLAN_VERDICT, VerdictItems(p));
    Chain(old(writer.bytes), EncodedAll(PLAN_AUTHORITY, AuthorityItems(p)), EncodedAll(PLAN_ENDPOINTS, EndpointItems(p)),
          EncodedAll(PLAN_VERDICT, VerdictItems(p)));
  }

  method WritePlanLists(writer: ByteWriter, p: PlanRow)
    requires StepsFit(p) && ReasonsFit(p)
    modifies writer
    ensures writer.bytes == old(writer.bytes) + EncodePlanLists(p)
  {
    hide EncodedList, RowsFit, STEP_ROW, REASON_ROW, StepRows, ReasonRows, Encoded, StepsFit, ReasonsFit;
    StepRowsFit(p);
    ReasonRowsFit(p);
    WriteRows(writer, StepRows(p), STEP_ROW, StepOk);
    WriteRows(writer, ReasonRows(p), REASON_ROW, ReasonOk);
    writer.Put(Signed, Quantity(p.createdAt));
    Chain(old(writer.bytes), EncodedList(StepRows(p), STEP_ROW, StepOk), EncodedList(ReasonRows(p), REASON_ROW, ReasonOk),
          Encoded(Signed, Quantity(p.createdAt)));
  }

  method WritePlan(writer: ByteWriter, p: PlanRow)
    requires StepsFit(p) && ReasonsFit(p)
    modifies writer
    ensures writer.bytes == old(writer.bytes) + EncodePlan(p)
  {
    hide EncodePlanFixed, EncodePlanLists, StepsFit, ReasonsFit;
    WritePlanFixed(writer, p);
    WritePlanLists(writer, p);
  }
}
