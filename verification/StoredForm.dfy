/** What the decoder of the store accepts of advertisements, workloads and policies, and what it
    gives back. The operations that put these things into the store do not ask for it. */
module StoredForm {
  import opened Prelude
  import opened Ordering
  import opened Vocabulary
  import opened Capability
  import opened Portability
  import opened Compatibility
  import Token
  import VersionRange

  // ---- Advertisements ---------------------------------------------------------------------

  predicate AdvertisementFits(caps: CapabilitySet) { forall key :: key in caps.records ==> PrereleaseFits(caps.records[key].value) }

  lemma ContentFits(caps: CapabilitySet)
    ensures AdvertisementFits(Content(caps)) <==> AdvertisementFits(caps)
    ensures CapabilitiesValid(Content(caps)) <==> CapabilitiesValid(caps)
  {
    hide KeyName, KeyKind;
    var content := Content(caps);
    assert content.records.Keys == caps.records.Keys;
    assert |content.records| == |content.records.Keys| == |caps.records.Keys| == |caps.records|;
    forall key | key in caps.records
      ensures EntryValid(key, content.records[key]) == EntryValid(key, caps.records[key])
      ensures PrereleaseFits(content.records[key].value) == PrereleaseFits(caps.records[key].value)
    {
    }
  }

  // ---- Requirements -----------------------------------------------------------------------

  const MAX_CLAUSES := 32

  predicate ValueFits(v: CapabilityValue) {
    match v
    case VersionValue(x) => |x.prerelease| <= MAX_TOKEN_BYTES
    case Enumeration(t) => |t| <= MAX_TOKEN_BYTES
    case TokenSet(ts) => |ts| <= MAX_TOKENS && forall i :: 0 <= i < |ts| ==> |ts[i]| <= MAX_TOKEN_BYTES
    case _ => true
  }

  predicate ClausesFit(cs: seq<VersionRange.Clause>) {
    |cs| <= MAX_CLAUSES && forall i :: 0 <= i < |cs| ==> |cs[i].version.prerelease| <= MAX_TOKEN_BYTES
  }

  /** The stored clauses are put into a text and parsed again. */
  function DecodedRange(cs: seq<VersionRange.Clause>): Option<seq<VersionRange.Clause>> {
    if !ClausesFit(cs) then None
    else if cs == [] then Some([])
    else match VersionRange.ParseRange(VersionRange.RebuiltText(cs)) case Ok(ds) => Some(ds) case Err(_) => None
  }

  function DecodedRequirement(r: Requirement): Option<Requirement> {
    if !ValueFits(r.value) then None
    else match DecodedRange(r.range)
      case None => None
      case Some(ds) =>
        var decoded := r.(value := Carried(r.value), range := ds);
        if RequirementValid(decoded) then Some(decoded) else None
  }

  /** What a caller would have to check: values and clauses within the decoder's limits, and no
      clause that admits every version. */
  predicate RequirementFits(r: Requirement) {
    ValueFits(r.value) && ClausesFit(r.range) && !VersionRange.HasAny(r.range)
  }

  function StoredRequirement(r: Requirement): Requirement {
    r.(value := Carried(r.value), range := VersionRange.RereadAll(r.range))
  }

  lemma RereadStays(cs: seq<VersionRange.Clause>)
    requires VersionRange.Formed(cs)
    ensures ClausesFit(VersionRange.RereadAll(cs)) == ClausesFit(cs)
    ensures VersionRange.HasAny(VersionRange.RereadAll(cs)) == VersionRange.HasAny(cs)
    ensures VersionRange.Formed(VersionRange.RereadAll(cs))
  {
    var ds := VersionRange.RereadAll(cs);
    assert forall i :: 0 <= i < |cs| ==> ds[i].op == cs[i].op && ds[i].version.prerelease == cs[i].version.prerelease;
    assert VersionRange.HasAny(ds) == VersionRange.HasAny(cs) by {
      if VersionRange.HasAny(cs) {
        var i :| 0 <= i < |cs| && cs[i].op == VersionRange.Any;
        assert ds[i].op == VersionRange.Any;
      }
    }
    forall i | 0 <= i < |ds|
      ensures VersionRange.ClauseFormed(ds[i])
    {
      assert VersionRange.ClauseFormed(cs[i]);
    }
  }

  lemma RangeDecodes(cs: seq<VersionRange.Clause>)
    requires VersionRange.Formed(cs)
    ensures DecodedRange(cs) == if ClausesFit(cs) && !VersionRange.HasAny(cs) then Some(VersionRange.RereadAll(cs)) else None
  {
    hide ClausesFit, VersionRange.ParseRange, VersionRange.RebuiltText, VersionRange.Formed;
    if cs != [] { VersionRange.RebuiltReread(cs); } else { VersionRange.NothingIsAny(); }
  }

  lemma StoredRequirementValid(r: Requirement)
    requires RequirementValid(r)
    ensures RequirementValid(StoredRequirement(r)) && RequirementFits(StoredRequirement(r)) == RequirementFits(r)
  {
    hide KeyKind, VersionRange.Formed, ClausesFit, VersionRange.HasAny;
    RereadStays(r.range);
  }

  /** A valid requirement is read back exactly when it fits, and then only build metadata is lost. */
  lemma RequirementDecodes(r: Requirement)
    requires RequirementValid(r)
    ensures DecodedRequirement(r) == if RequirementFits(r) then Some(StoredRequirement(r)) else None
  {
    StoredRequirementValid(r);
    RangeDecodes(r.range);
    hide RequirementValid, ValueFits, ClausesFit, VersionRange.HasAny, DecodedRange, Carried;
  }

  // ---- Workloads --------------------------------------------------------------------------

  function DecodedRequirements(rs: seq<Requirement>): Option<seq<Requirement>> {
    if rs == [] then Some([])
    else
      var first, rest := DecodedRequirement(rs[0]), DecodedRequirements(rs[1..]);
      if first.None? || rest.None? then None else Some([first.value] + rest.value)
  }

  function DecodedWorkload(w: Workload): Option<Workload> {
    match DecodedRequirements(w.requirements)
    case None => None
    case Some(rs) => if WorkloadValid(w.(requirements := rs)) then Some(w.(requirements := rs)) else None
  }

  predicate RequirementsFit(rs: seq<Requirement>) { forall i :: 0 <= i < |rs| ==> RequirementFits(rs[i]) }

  predicate WorkloadFits(w: Workload) { RequirementsFit(w.requirements) }

  function StoredWorkload(w: Workload): Workload { w.(requirements := Mapped(StoredRequirement, w.requirements)) }

  lemma {:induction false} RequirementsDecode(rs: seq<Requirement>)
    requires forall i :: 0 <= i < |rs| ==> RequirementValid(rs[i])
    ensures DecodedRequirements(rs) == if RequirementsFit(rs) then Some(Mapped(StoredRequirement, rs)) else None
  {
    hide RequirementValid, RequirementFits, StoredRequirement, DecodedRequirement;
    if rs != [] {
      RequirementDecodes(rs[0]);
      RequirementsDecode(rs[1..]);
      assert RequirementsFit(rs) <==> RequirementFits(rs[0]) && RequirementsFit(rs[1..]) by {
        assert forall i :: 1 <= i < |rs| ==> rs[i] == rs[1..][i - 1];
      }
      assert Mapped(StoredRequirement, rs) == [StoredRequirement(rs[0])] + Mapped(StoredRequirement, rs[1..]);
    }
  }

  lemma StoredWorkloadValid(w: Workload)
    requires WorkloadValid(w)
    ensures WorkloadValid(StoredWorkload(w)) && WorkloadFits(StoredWorkload(w)) == WorkloadFits(w)
  {
    hide RequirementValid, RequirementFits;
    var v := StoredWorkload(w);
    assert forall i :: 0 <= i < |w.requirements| ==> v.requirements[i] == StoredRequirement(w.requirements[i]);
    forall i | 0 <= i < |v.requirements|
      ensures RequirementValid(v.requirements[i]) && RequirementFits(v.requirements[i]) == RequirementFits(w.requirements[i])
    {
      StoredRequirementValid(w.requirements[i]);
    }
    forall i, j | 0 <= i < j < |v.requirements|
      ensures !SameSlot(v.requirements[i], v.requirements[j])
    {
      assert !SameSlot(w.requirements[i], w.requirements[j]);
    }
  }

  /** A valid workload is read back exactly when its requirements fit. */
  lemma WorkloadDecodes(w: Workload)
    requires WorkloadValid(w)
    ensures DecodedWorkload(w) == if WorkloadFits(w) then Some(StoredWorkload(w)) else None
  {
    RequirementsDecode(w.requirements) by { hide RequirementValid; }
    StoredWorkloadValid(w);
    hide WorkloadValid, DecodedRequirements, RequirementsFit, Mapped;
  }

  lemma StoredRequirementPrints(r: Requirement)
    ensures RequirementPrintOf(StoredRequirement(r)) == RequirementPrintOf(r)
  {
    VersionRange.JoinedIgnoresBuild(r.range);
  }

  /** What comes back has the digest of what was stored. */
  lemma StoredWorkloadPrints(w: Workload)
    ensures WorkloadPrintOf(StoredWorkload(w)) == WorkloadPrintOf(w)
  {
    SortMaps(RequirementLess, RequirementLess, StoredRequirement, w.requirements);
    var rs := Canonical(w.requirements);
    assert Canonical(StoredWorkload(w).requirements) == Mapped(StoredRequirement, rs);
    forall i | 0 <= i < |rs|
      ensures RequirementPrintOf(Mapped(StoredRequirement, rs)[i]) == RequirementPrintOf(rs[i])
    {
      StoredRequirementPrints(rs[i]);
    }
    hide RequirementPrintOf, Sort;
  }

  // ---- Lists of names ---------------------------------------------------------------------

  /** How a text is brought into canonical form, if it has one. */
  type Namer = string -> Option<string>

  function TokenName(t: string): Option<string> { match Token.Canonical(t, MAX_TOKEN_BYTES) case Ok(c) => Some(c) case Err(_) => None }

  function Named(ts: seq<string>, namer: Namer): Option<seq<string>> {
    if ts == [] then Some([])
    else
      var first, rest := namer(ts[0]), Named(ts[1..], namer);
      if first.None? || rest.None? then None else Some([first.value] + rest.value)
  }

  predicate HasRepeat(s: seq<string>) { exists i :: 0 < i < |s| && s[i] == s[i - 1] }

  predicate Short(ts: seq<string>, limit: nat) { |ts| <= MAX_DIMENSIONS && forall i :: 0 <= i < |ts| ==> |ts[i]| <= limit }

  /** The decoder brings every entry into canonical form, sorts, and refuses repetitions. */
  function DecodedList(ts: seq<string>, namer: Namer, limit: nat): Option<seq<string>> {
    if !Short(ts, limit) then None
    else match Named(ts, namer)
      case None => None
      case Some(us) => if HasRepeat(Sort(StringLess, us)) then None else Some(Sort(StringLess, us))
  }

  /** Canonical forms are their own canonical form, and no longer than the limit. */
  ghost predicate Settles(namer: Namer, limit: nat) {
    forall t :: namer(t).Some? ==> namer(namer(t).value) == namer(t) && (|t| <= limit ==> |namer(t).value| <= limit)
  }

  /** What a caller would have to check: every entry is canonical and none is repeated. */
  ghost predicate ListFits(ts: seq<string>, namer: Namer, limit: nat) {
    Short(ts, limit) && Distinct(ts) && forall i :: 0 <= i < |ts| ==> namer(ts[i]) == Some(ts[i])
  }

  lemma {:induction false} NamedEach(ts: seq<string>, namer: Namer)
    ensures Named(ts, namer).Some? <==> forall i :: 0 <= i < |ts| ==> namer(ts[i]).Some?
    ensures Named(ts, namer).Some? ==>
              && |Named(ts, namer).value| == |ts|
              && forall i :: 0 <= i < |ts| ==> namer(ts[i]) == Some(Named(ts, namer).value[i])
  {
    if ts != [] {
      NamedEach(ts[1..], namer);
      assert forall i :: 1 <= i < |ts| ==> ts[i] == ts[1..][i - 1];
    }
  }

  lemma RepeatsAreNeighbours(s: seq<string>)
    requires Sorted(StringLess, s)
    ensures HasRepeat(s) <==> !Distinct(s)
  {
    hide StringLess;
    if !Distinct(s) {
      var i, j :| 0 <= i < j < |s| && s[i] == s[j];
      assert !StringLess(s[i + 1], s[i]);
      if i + 1 < j { assert !StringLess(s[j], s[i + 1]); }
      StringLessTotal(s[i], s[i + 1]);
      assert s[i + 1] == s[(i + 1) - 1];
    }
  }

  lemma SortedList(us: seq<string>)
    ensures Sorted(StringLess, Sort(StringLess, us)) && multiset(Sort(StringLess, us)) == multiset(us) && |Sort(StringLess, us)| == |us|
    ensures HasRepeat(Sort(StringLess, us)) <==> !Distinct(us)
  {
    hide StringLess, HasRepeat, Distinct, WeakOrder, Sort;
    StringsAreOrdered();
    SortSorts(StringLess, us);
    SortPermutes(StringLess, us);
    RepeatsAreNeighbours(Sort(StringLess, us));
    if Distinct(us) { DistinctPermutes(us, Sort(StringLess, us)); }
    if Distinct(Sort(StringLess, us)) { DistinctPermutes(Sort(StringLess, us), us); }
  }

  lemma FittingListDecodes(ts: seq<string>, namer: Namer, limit: nat)
    requires ListFits(ts, namer, limit)
    ensures DecodedList(ts, namer, limit) == Some(Sort(StringLess, ts))
  {
    hide Named, HasRepeat, Sort, Distinct, Short;
    NamedEach(ts, namer);
    assert Named(ts, namer).value == ts;
    SortedList(ts);
  }

  lemma PermutedFits(us: seq<string>, vs: seq<string>, namer: Namer, limit: nat)
    requires ListFits(us, namer, limit) && multiset(us) == multiset(vs) && |us| == |vs|
    ensures ListFits(vs, namer, limit)
  {
    hide Distinct;
    DistinctPermutes(us, vs);
    forall i | 0 <= i < |vs|
      ensures |vs[i]| <= limit && namer(vs[i]) == Some(vs[i])
    {
      var j := FindIn(vs, us, i);
      assert namer(us[j]) == Some(us[j]) && |us[j]| <= limit;
    }
  }

  lemma DecodedListFits(ts: seq<string>, namer: Namer, limit: nat)
    requires Settles(namer, limit) && DecodedList(ts, namer, limit).Some?
    ensures ListFits(DecodedList(ts, namer, limit).value, namer, limit) && Sorted(StringLess, DecodedList(ts, namer, limit).value)
    ensures multiset(DecodedList(ts, namer, limit).value) == multiset(ts) ==> ListFits(ts, namer, limit)
  {
    hide Named, HasRepeat, Sort, Distinct;
    var us := Named(ts, namer).value;
    NamedEach(ts, namer);
    SortedList(us);
    assert ListFits(us, namer, limit) by {
      forall i | 0 <= i < |us|
        ensures |us[i]| <= limit && namer(us[i]) == Some(us[i])
      {
        assert namer(ts[i]) == Some(us[i]) && |ts[i]| <= limit;
      }
    }
    PermutedFits(us, Sort(StringLess, us), namer, limit);
    if multiset(Sort(StringLess, us)) == multiset(ts) { PermutedFits(Sort(StringLess, us), ts, namer, limit); }
  }

  lemma TokensSettle()
    ensures Settles(TokenName, MAX_TOKEN_BYTES)
  {
    forall t | TokenName(t).Some?
      ensures TokenName(TokenName(t).value) == TokenName(t) && |TokenName(t).value| <= MAX_TOKEN_BYTES
    {
      Token.CanonicalIsIdempotent(t, MAX_TOKEN_BYTES);
    }
  }

  lemma KeysSettle()
    ensures Settles(KeyName, MAX_NAME_BYTES)
  {
    hide CoreKind, IsExtension;
    forall t | KeyName(t).Some?
      ensures KeyName(KeyName(t).value) == KeyName(t) && (|t| <= MAX_NAME_BYTES ==> |KeyName(t).value| <= MAX_NAME_BYTES)
    {
      KeyNameIsIdempotent(t);
    }
  }

  // ---- Policies ---------------------------------------------------------------------------

  const MAX_STRING_BYTES := 4096

  function DecodedTokens(ts: seq<string>): Option<seq<string>> { DecodedList(ts, TokenName, MAX_TOKEN_BYTES) }

  function DecodedKeys(ts: seq<string>): Option<seq<string>> { DecodedList(ts, KeyName, MAX_NAME_BYTES) }

  ghost predicate TokensFit(ts: seq<string>) { ListFits(ts, TokenName, MAX_TOKEN_BYTES) }

  ghost predicate KeysFit(ts: seq<string>) { ListFits(ts, KeyName, MAX_NAME_BYTES) }

  function DecodedLists(b: PolicyBody): Option<PolicyBody> {
    var allowed, forbidden, deprecated := DecodedTokens(b.allowedVendors), DecodedTokens(b.forbiddenVendors), DecodedTokens(b.deprecatedArchitectures);
    var required, denied, tags := DecodedKeys(b.requiredCapabilities), DecodedKeys(b.deniedCapabilities), DecodedTokens(b.tags);
    if allowed.None? || forbidden.None? || deprecated.None? || required.None? || denied.None? || tags.None? then None
    else
      Some(b.(allowedVendors := allowed.value, forbiddenVendors := forbidden.value, deprecatedArchitectures := deprecated.value,
              requiredCapabilities := required.value, deniedCapabilities := denied.value, tags := tags.value))
  }

  /** The decoder: lengths, the range, the lists, the policy's own check, and its identity. */
  function DecodedPolicy(p: Policy): Option<Policy> {
    var b := p.body;
    if |b.name| > MAX_NAME_BYTES || |b.forbiddenAccelerators| > MAX_DIMENSIONS || |b.allowedClasses| > MAX_DIMENSIONS
       || |VersionRange.RangeText(b.minimumRuntime)| > MAX_STRING_BYTES then None
    else
      var range, lists := VersionRange.ParseRange(VersionRange.RangeText(b.minimumRuntime)), DecodedLists(b);
      if range.Err? || lists.None? then None
      else
        var body := lists.value.(minimumRuntime := range.value);
        if PolicyBodyValid(body) && p.id == Derived(PrintOf(body)) then Some(PolicyOf(body)) else None
  }

  ghost predicate Disjoint(a: seq<string>, b: seq<string>) { forall i :: 0 <= i < |a| ==> a[i] !in b }

  ghost predicate ListsFit(b: PolicyBody) {
    && TokensFit(b.allowedVendors) && TokensFit(b.forbiddenVendors) && TokensFit(b.deprecatedArchitectures)
    && KeysFit(b.requiredCapabilities) && KeysFit(b.deniedCapabilities) && TokensFit(b.tags)
  }

  ghost predicate SizesFit(b: PolicyBody) {
    && |b.name| <= MAX_NAME_BYTES && |b.forbiddenAccelerators| <= MAX_DIMENSIONS && |b.allowedClasses| <= MAX_DIMENSIONS
    && |VersionRange.RangeText(b.minimumRuntime)| <= MAX_STRING_BYTES
    && b.minimumMemory <= MAX_MINIMUM_MEMORY && b.freshnessNanos <= MAX_FRESHNESS
  }

  /** What a caller would have to check before handing a policy over. */
  ghost predicate PolicyFits(b: PolicyBody) {
    ListsFit(b) && SizesFit(b) && Disjoint(b.requiredCapabilities, b.deniedCapabilities) && Disjoint(b.allowedVendors, b.forbiddenVendors)
  }

  function StoredBody(b: PolicyBody): PolicyBody {
    b.(allowedVendors := Sort(StringLess, b.allowedVendors), forbiddenVendors := Sort(StringLess, b.forbiddenVendors),
       deprecatedArchitectures := Sort(StringLess, b.deprecatedArchitectures),
       requiredCapabilities := Sort(StringLess, b.requiredCapabilities), deniedCapabilities := Sort(StringLess, b.deniedCapabilities),
       tags := Sort(StringLess, b.tags), minimumRuntime := VersionRange.RereadRange(b.minimumRuntime))
  }

  lemma SortedContradiction(a: seq<string>, b: seq<string>)
    requires Sorted(StringLess, b)
    ensures Contradicts(a, b) <==> !Disjoint(a, b)
  {
    hide Finds, StringLess, Sorted;
    forall i | 0 <= i < |a| ensures Finds(b, a[i]) <==> a[i] in b { FindsMembers(b, a[i]); }
  }

  lemma DisjointPermutes(a: seq<string>, b: seq<string>, c: seq<string>, d: seq<string>)
    requires multiset(a) == multiset(c) && multiset(b) == multiset(d) && Disjoint(a, b)
    ensures Disjoint(c, d)
  {
    forall i | 0 <= i < |c|
      ensures c[i] !in d
    {
      var j := FindIn(c, a, i);
      if c[i] in d {
        var k :| 0 <= k < |d| && d[k] == c[i];
        var l := FindIn(d, b, k);
      }
    }
  }

  lemma FittingKeysResolve(ts: seq<string>)
    requires KeysFit(ts)
    ensures KeysResolve(ts) && |ts| <= MAX_DIMENSIONS
  {
    hide CoreKind, IsExtension, Distinct, Token.Canonical;
    forall i | 0 <= i < |ts| ensures KeyKind(ts[i]).Some? { assert KeyName(ts[i]) == Some(ts[i]); }
  }

  lemma StoredLists(b: PolicyBody)
    requires ListsFit(b)
    ensures DecodedLists(b) == Some(StoredBody(b).(minimumRuntime := b.minimumRuntime)) && ListsFit(StoredBody(b))
  {
    hide ListFits, DecodedList, Sort;
    forall ts, namer, limit | ListFits(ts, namer, limit)
      ensures DecodedList(ts, namer, limit) == Some(Sort(StringLess, ts)) && ListFits(Sort(StringLess, ts), namer, limit)
    {
      FittingListDecodes(ts, namer, limit);
      SortPermutes(StringLess, ts);
      PermutedFits(ts, Sort(StringLess, ts), namer, limit);
    }
  }

  /** Sorting the lists and rereading the range do not show in the identity. */
  lemma StoredBodyPrints(b: PolicyBody)
    requires VersionRange.Formed(b.minimumRuntime)
    ensures PrintOf(StoredBody(b)) == PrintOf(b) && VersionRange.Formed(StoredBody(b).minimumRuntime)
  {
    hide Sort, VersionRange.RangeText, VersionRange.RereadRange, VersionRange.Formed;
    VersionRange.RangeTextReread(b.minimumRuntime);
    forall ts ensures multiset(Sort(StringLess, ts)) == multiset(ts) { SortPermutes(StringLess, ts); }
  }

  lemma StoredDisjoint(a: seq<string>, b: seq<string>)
    ensures Disjoint(Sort(StringLess, a), Sort(StringLess, b)) <==> Disjoint(a, b)
    ensures Contradicts(Sort(StringLess, a), Sort(StringLess, b)) <==> !Disjoint(a, b)
  {
    hide Sort, Disjoint, StringLess, HasRepeat;
    SortedList(a);
    SortedList(b);
    SortedContradiction(Sort(StringLess, a), Sort(StringLess, b));
    if Disjoint(a, b) { DisjointPermutes(a, b, Sort(StringLess, a), Sort(StringLess, b)); }
    if Disjoint(Sort(StringLess, a), Sort(StringLess, b)) { DisjointPermutes(Sort(StringLess, a), Sort(StringLess, b), a, b); }
  }

  lemma FittingTokensAreFew(ts: seq<string>)
    requires TokensFit(ts)
    ensures |ts| <= MAX_DIMENSIONS
  {
  }

  lemma StoredBodyFits(b: PolicyBody)
    requires VersionRange.Formed(b.minimumRuntime) && PolicyFits(b)
    ensures PolicyFits(StoredBody(b)) && PolicyBodyValid(StoredBody(b))
  {
    hide TokensFit, KeysFit, Disjoint, Contradicts, KeysResolve, Sort, VersionRange.RangeText, VersionRange.RereadRange, VersionRange.Formed;
    StoredLists(b);
    StoredBodyPrints(b);
    StoredDisjoint(b.requiredCapabilities, b.deniedCapabilities);
    StoredDisjoint(b.allowedVendors, b.forbiddenVendors);
    FittingKeysResolve(StoredBody(b).requiredCapabilities);
    FittingKeysResolve(StoredBody(b).deniedCapabilities);
    forall ts | TokensFit(ts) ensures |ts| <= MAX_DIMENSIONS { FittingTokensAreFew(ts); }
  }

  lemma FittingPolicyDecodes(b: PolicyBody)
    requires VersionRange.Formed(b.minimumRuntime) && PolicyFits(b)
    ensures DecodedPolicy(PolicyOf(b)) == Some(PolicyOf(StoredBody(b)))
  {
    StoredLists(b);
    StoredBodyPrints(b);
    StoredBodyFits(b);
    VersionRange.RangeTextReread(b.minimumRuntime);
    hide PolicyBodyValid, PrintOf, DecodedLists, ListsFit, Sort, VersionRange.RangeText, VersionRange.ParseRange, VersionRange.Formed;
    hide VersionRange.RereadRange;
  }

  ghost predicate SameLists(d: PolicyBody, b: PolicyBody) {
    && multiset(d.allowedVendors) == multiset(b.allowedVendors) && multiset(d.forbiddenVendors) == multiset(b.forbiddenVendors)
    && multiset(d.deprecatedArchitectures) == multiset(b.deprecatedArchitectures)
    && multiset(d.requiredCapabilities) == multiset(b.requiredCapabilities)
    && multiset(d.deniedCapabilities) == multiset(b.deniedCapabilities) && multiset(d.tags) == multiset(b.tags)
  }

  lemma DecodedListsFit(b: PolicyBody)
    requires DecodedLists(b).Some?
    ensures
      var d := DecodedLists(b).value;
      && ListsFit(d)
      && (SameLists(d, b) ==> ListsFit(b))
      && Sorted(StringLess, d.deniedCapabilities) && Sorted(StringLess, d.forbiddenVendors)
  {
    hide DecodedList, ListFits, Settles, Sorted;
    TokensSettle();
    KeysSettle();
    forall ts, namer, limit | Settles(namer, limit) && DecodedList(ts, namer, limit).Some?
      ensures ListFits(DecodedList(ts, namer, limit).value, namer, limit) && Sorted(StringLess, DecodedList(ts, namer, limit).value)
      ensures multiset(DecodedList(ts, namer, limit).value) == multiset(ts) ==> ListFits(ts, namer, limit)
    {
      DecodedListFits(ts, namer, limit);
    }
  }

  lemma DecodedBody(p: Policy)
    requires VersionRange.Formed(p.body.minimumRuntime) && DecodedPolicy(p).Some?
    ensures
      var q := DecodedPolicy(p).value;
      && q == PolicyOf(q.body) && q.id == p.id && PolicyBodyValid(q.body) && DecodedLists(p.body).Some?
      && q.body == DecodedLists(p.body).value.(minimumRuntime := VersionRange.RereadRange(p.body.minimumRuntime))
      && VersionRange.Formed(q.body.minimumRuntime) && SizesFit(q.body) && SizesFit(p.body)
  {
    VersionRange.RangeTextReread(p.body.minimumRuntime);
    KeptByLists(p.body);
    hide DecodedLists, VersionRange.RangeText, VersionRange.ParseRange, VersionRange.Formed, VersionRange.RereadRange, KeysResolve, Contradicts;
  }

  lemma KeptByLists(b: PolicyBody)
    ensures DecodedLists(b).Some? ==>
              var d := DecodedLists(b).value;
              && d.name == b.name && d.forbiddenAccelerators == b.forbiddenAccelerators && d.allowedClasses == b.allowedClasses
              && d.minimumMemory == b.minimumMemory && d.freshnessNanos == b.freshnessNanos && d.minimumRuntime == b.minimumRuntime
  {
    hide DecodedTokens, DecodedKeys;
  }

  /** Whatever the decoder gives back fits and carries its own identity; and a policy that carried
      its own identity fitted before. */
  lemma DecodedPolicyFits(p: Policy)
    requires VersionRange.Formed(p.body.minimumRuntime) && DecodedPolicy(p).Some?
    ensures
      var q := DecodedPolicy(p).value;
      && q == PolicyOf(q.body) && PolicyFits(q.body) && VersionRange.Formed(q.body.minimumRuntime)
      && (p.id == Derived(PrintOf(p.body)) ==> PolicyFits(p.body))
  {
    DecodedBody(p);
    var b, d, q := p.body, DecodedLists(p.body).value, DecodedPolicy(p).value;
    DecodedListsFit(b);
    SortedContradiction(d.requiredCapabilities, d.deniedCapabilities);
    SortedContradiction(d.allowedVendors, d.forbiddenVendors);
    hide DecodedPolicy, DecodedLists, TokensFit, KeysFit, VersionRange.RangeText, VersionRange.Formed, VersionRange.RereadRange;
    hide KeysResolve, Contradicts, Disjoint, Sorted;
    if p.id == Derived(PrintOf(b)) {
      DisjointPermutes(d.requiredCapabilities, d.deniedCapabilities, b.requiredCapabilities, b.deniedCapabilities);
      DisjointPermutes(d.allowedVendors, d.forbiddenVendors, b.allowedVendors, b.forbiddenVendors);
    }
  }

  /** A policy that carries its own identity is read back exactly when it fits. */
  lemma PolicyDecodes(b: PolicyBody)
    requires VersionRange.Formed(b.minimumRuntime)
    ensures PolicyFits(b) ==> DecodedPolicy(PolicyOf(b)) == Some(PolicyOf(StoredBody(b)))
    ensures !PolicyFits(b) ==> DecodedPolicy(PolicyOf(b)) == None
  {
    hide PolicyFits, DecodedPolicy, VersionRange.Formed, PrintOf;
    if PolicyFits(b) { FittingPolicyDecodes(b); }
    if DecodedPolicy(PolicyOf(b)).Some? { DecodedPolicyFits(PolicyOf(b)); }
  }
}
