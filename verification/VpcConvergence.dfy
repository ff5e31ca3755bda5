/** What the VPC controller promises over whole updates and whole runs. */
module VpcConvergence {
  import opened Basics
  import opened Cloud
  import opened TagReconciler
  import opened Vpc

  ghost function Count(b: bool): nat {
    if b then 1 else 0
  }

  /** How far a VPC is from its spec: name, description, secondary CIDR, and one per differing tag key. */
  ghost function Drift(spec: Spec, s: Stored): nat
    requires Observable(s)
  {
    var v := s.res.value;
    Count(spec.name != v.name) + Count(!IsOptionalUpToDate(spec.description, v.description))
    + Count(!IsOptionalUpToDate(spec.secondaryCidr, Slot(s))) + |DriftKeys(spec.tags, s.tags)|
  }

  ghost predicate UpToDate(spec: Spec, s: Stored)
    requires Observable(s)
  {
    IsUpToDate(spec, s.res.value, Slot(s), s.tags)
  }

  /** The detector is exactly "nothing drifts". */
  lemma UpToDateIffNoDrift(spec: Spec, s: Stored)
    requires Observable(s)
    ensures UpToDate(spec, s) <==> spec.cidr == s.res.value.cidr && Drift(spec, s) == 0
  {
    NoDriftIff(spec.tags, s.tags);
  }

  /** Detector and planner agree: up to date iff the immutable CIDR matches and Update has nothing to send. */
  lemma Agreement(spec: Spec, s: Stored)
    requires Observable(s)
    ensures UpToDate(spec, s) <==> spec.cidr == s.res.value.cidr && UpdatePlan(spec, s) == []
  {
    TagAgreement<VpcCall>(s.tags, spec.tags);
  }

  // ----- the three parts of the plan -----

  lemma AfterFields(m: TagMatch, spec: Spec, s: Stored)
    requires Observable(s) && spec.name != ""
    ensures Run(VpcService(m), s, FieldPlan(spec, s.res.value)) ==
            s.(res := Some(s.res.value.(name := spec.name,
                                        description := spec.description.GetOr(s.res.value.description))))
  {
    RunOne(VpcService(m), s, FieldPlan(spec, s.res.value));
  }

  lemma SlotDetermines(s: Stored)
    requires Workable(s)
    ensures s == WithSlot(s, Slot(s))
  {
    var v := s.res.value;
    assert v.secondaries == if Slot(s) == "" then [] else [Slot(s)];
  }

  ghost function WithSlot(s: Stored, slot: string): Stored
    requires s.res.Some?
  {
    s.(res := Some(s.res.value.(secondaries := if slot == "" then [] else [slot])))
  }

  lemma SecondaryBoundary(m: TagMatch, s: Stored, desired: Option<string>, k: nat)
    requires Observable(s) && s == WithSlot(s, Slot(s))
    requires k <= |SecondaryPlan(Slot(s), desired)|
    ensures Run(VpcService(m), s, SecondaryPlan(Slot(s), desired)[..k]) ==
            if k == 0 then s
            else if k < |SecondaryPlan(Slot(s), desired)| then WithSlot(s, "")
            else WithSlot(s, desired.GetOr(""))
    ensures k == |SecondaryPlan(Slot(s), desired)| == 0 ==> IsOptionalUpToDate(desired, Slot(s))
  {
    var plan := SecondaryPlan(Slot(s), desired);
    var sv := VpcService(m);
    if k > 0 {
      assert plan[..0] == [];
      RunNext(sv, s, plan, 0);
      WithoutOnly(Slot(s));
      if Slot(s) == "" {
        assert plan == [Resource(AddSecondaryCidr([desired.value]))];
        assert s.res.value.secondaries + [desired.value] == [desired.value];
      } else {
        assert plan[0] == Resource(RemoveSecondaryCidr([Slot(s)]));
        assert Run(sv, s, plan[..1]) == WithSlot(s, "");
        if k == 2 {
          RunNext(sv, s, plan, 1);
          assert [] + [desired.value] == [desired.value];
        }
      }
    }
  }

  lemma WithoutOnly(cidr: string)
    ensures Without([cidr], [cidr]) == []
  {
    assert [cidr][1..] == [];
  }

  /** At most one secondary CIDR, and no empty one. */
  ghost predicate Tidy(s: Stored) {
    s.res.Some? ==> Single(s) && "" !in s.res.value.secondaries
  }

  /** A state in which Update can work: the VPC is there and its secondary CIDR slot is in order. */
  ghost predicate Workable(s: Stored) {
    s.res.Some? && Tidy(s)
  }

  ghost function DriftOf(spec: Spec): Stored -> nat {
    s => if Workable(s) then Drift(spec, s) else 0
  }

  /** Workable, and no further from the spec than `bound`. */
  ghost function Within(spec: Spec, bound: nat): Stored -> bool {
    s => Workable(s) && Drift(spec, s) <= bound
  }

  lemma FieldsPart(m: TagMatch, spec: Spec, s: Stored, bound: nat)
    requires Workable(s) && spec.name != "" && Drift(spec, s) <= bound
    ensures Always(VpcService(m), Within(spec, bound), s, FieldPlan(spec, s.res.value))
  {
    var plan := FieldPlan(spec, s.res.value);
    AfterFields(m, spec, s);
    assert plan[..0] == [] && plan[..|plan|] == plan;
  }

  lemma FieldsNeverGrow(m: TagMatch, spec: Spec, s: Stored)
    requires Workable(s) && spec.name != ""
    ensures NeverGrows(VpcService(m), DriftOf(spec), s, FieldPlan(spec, s.res.value))
  {
    var plan := FieldPlan(spec, s.res.value);
    AfterFields(m, spec, s);
    assert plan[..0] == [] && plan[..|plan|] == plan;
  }

  lemma TagsPart(m: TagMatch, spec: Spec, s: Stored, bound: nat)
    requires Workable(s) && Drift(spec, s) <= bound
    ensures Always(VpcService(m), Within(spec, bound), s, TagPlan(s.tags, spec.tags))
  {
    var sv, plan := VpcService(m), TagPlan<VpcCall>(s.tags, spec.tags);
    forall k | 0 <= k <= |plan| ensures Within(spec, bound)(Run(sv, s, plan[..k])) {
      TagPrefix(sv, s, spec.tags, k);
      FewerTagsDrift(spec, s, Run(sv, s, plan[..k]));
    }
  }

  lemma FewerTagsDrift(spec: Spec, a: Stored, b: Stored)
    requires Workable(a) && b == a.(tags := b.tags) && DriftKeys(spec.tags, b.tags) <= DriftKeys(spec.tags, a.tags)
    ensures Workable(b) && Drift(spec, b) <= Drift(spec, a)
  {
    SubsetSize(DriftKeys(spec.tags, b.tags), DriftKeys(spec.tags, a.tags));
  }

  lemma TagsNeverGrow(m: TagMatch, spec: Spec, s: Stored)
    requires m.KeyAndValue? && Workable(s)
    ensures NeverGrows(VpcService(m), DriftOf(spec), s, TagPlan(s.tags, spec.tags))
  {
    var sv, plan := VpcService(m), TagPlan<VpcCall>(s.tags, spec.tags);
    forall k | 0 <= k < |plan|
      ensures DriftOf(spec)(Run(sv, s, plan[..k + 1])) <= DriftOf(spec)(Run(sv, s, plan[..k]))
    {
      TagPrefix(sv, s, spec.tags, k);
      TagPrefix(sv, s, spec.tags, k + 1);
      FewerTagsDrift(spec, Run(sv, s, plan[..k]), Run(sv, s, plan[..k + 1]));
    }
  }

  lemma SecondaryPart(m: TagMatch, spec: Spec, s: Stored, bound: nat)
    requires Workable(s) && Drift(spec, s) <= bound
    ensures Always(VpcService(m), Within(spec, bound), s, SecondaryPlan(Slot(s), spec.secondaryCidr))
  {
    var sv, plan := VpcService(m), SecondaryPlan(Slot(s), spec.secondaryCidr);
    SlotDetermines(s);
    forall k | 0 <= k <= |plan| ensures Within(spec, bound)(Run(sv, s, plan[..k])) {
      SecondaryBoundary(m, s, spec.secondaryCidr, k);
    }
  }

  lemma SecondaryNeverGrows(m: TagMatch, spec: Spec, s: Stored)
    requires Workable(s)
    ensures NeverGrows(VpcService(m), DriftOf(spec), s, SecondaryPlan(Slot(s), spec.secondaryCidr))
  {
    var sv, plan := VpcService(m), SecondaryPlan(Slot(s), spec.secondaryCidr);
    SlotDetermines(s);
    forall k | 0 <= k < |plan|
      ensures DriftOf(spec)(Run(sv, s, plan[..k + 1])) <= DriftOf(spec)(Run(sv, s, plan[..k]))
    {
      SecondaryBoundary(m, s, spec.secondaryCidr, k);
      SecondaryBoundary(m, s, spec.secondaryCidr, k + 1);
    }
  }

  lemma AfterSecondary(m: TagMatch, spec: Spec, s: Stored)
    requires Workable(s)
    ensures Run(VpcService(m), s, SecondaryPlan(Slot(s), spec.secondaryCidr)) ==
            WithSlot(s, spec.secondaryCidr.GetOr(Slot(s)))
  {
    var plan := SecondaryPlan(Slot(s), spec.secondaryCidr);
    SlotDetermines(s);
    SecondaryBoundary(m, s, spec.secondaryCidr, |plan|);
    assert plan[..|plan|] == plan;
  }

  /** Where a complete Update ends. */
  ghost function Final(m: TagMatch, spec: Spec, s: Stored): Stored
    requires Workable(s)
  {
    var v := s.res.value;
    var described := v.(name := spec.name, description := spec.description.GetOr(v.description));
    WithSlot(State(Some(described), TagsAfter(m, spec.tags, s.tags)), spec.secondaryCidr.GetOr(Slot(s)))
  }

  lemma AfterUpdate(m: TagMatch, spec: Spec, s: Stored)
    requires Workable(s) && spec.name != ""
    ensures Run(VpcService(m), s, UpdatePlan(spec, s)) == Final(m, spec, s)
  {
    var sv := VpcService(m);
    var fields, tags := FieldPlan(spec, s.res.value), TagPlan<VpcCall>(s.tags, spec.tags);
    var s1 := Run(sv, s, fields);
    AfterFields(m, spec, s);
    var s2 := Run(sv, s1, tags);
    RunTagPlan(sv, s1, spec.tags);
    AfterSecondary(m, spec, s2);
    RunAppend(sv, s1, tags, SecondaryPlan(Slot(s), spec.secondaryCidr));
    RunAppend(sv, s, fields, tags + SecondaryPlan(Slot(s), spec.secondaryCidr));
  }

  lemma FinalDrift(m: TagMatch, spec: Spec, s: Stored)
    requires Workable(s)
    ensures var e := Final(m, spec, s);
            && Workable(e) && Slot(e) == spec.secondaryCidr.GetOr(Slot(s))
            && (Drift(spec, e) == 0 <==> OnePass(m, spec.tags, s.tags))
            && (UpToDate(spec, e) <==> spec.cidr == s.res.value.cidr && OnePass(m, spec.tags, s.tags))
  {
    NoDriftIff(spec.tags, Final(m, spec, s).tags);
    OnePassIff(m, spec.tags, s.tags);
  }

  /** A complete Update leaves nothing drifting and satisfies the detector iff the tags need one pass;
      the secondary CIDR then is the wanted one. */
  lemma CompleteUpdateIff(m: TagMatch, spec: Spec, s: Stored)
    requires Workable(s) && spec.name != "" && spec.cidr == s.res.value.cidr
    ensures var e := Run(VpcService(m), s, UpdatePlan(spec, s));
            && Workable(e) && Slot(e) == spec.secondaryCidr.GetOr(Slot(s))
            && (Drift(spec, e) == 0 <==> OnePass(m, spec.tags, s.tags))
            && (UpToDate(spec, e) <==> OnePass(m, spec.tags, s.tags))
  {
    AfterUpdate(m, spec, s);
    FinalDrift(m, spec, s);
  }

  /** Update never makes things worse: at every call boundary, and so after a failure anywhere, the VPC is
      workable and drifts no more than before. */
  lemma UpdateNeverWorsens(m: TagMatch, spec: Spec, s: Stored)
    requires Workable(s) && spec.name != ""
    ensures Always(VpcService(m), Within(spec, Drift(spec, s)), s, UpdatePlan(spec, s))
  {
    var sv, bound := VpcService(m), Drift(spec, s);
    var fields := FieldPlan(spec, s.res.value);
    FieldsPart(m, spec, s, bound);
    EndOf(sv, Within(spec, bound), s, fields);
    AfterFields(m, spec, s);
    var s1 := Run(sv, s, fields);
    LastTwoParts(m, spec, s1, bound);
    AlwaysAppend(sv, Within(spec, bound), s, fields, TagPlan<VpcCall>(s.tags, spec.tags) + SecondaryPlan(Slot(s), spec.secondaryCidr));
  }

  lemma LastTwoParts(m: TagMatch, spec: Spec, s: Stored, bound: nat)
    requires Workable(s) && Drift(spec, s) <= bound
    ensures Always(VpcService(m), Within(spec, bound), s,
                   TagPlan(s.tags, spec.tags) + SecondaryPlan(Slot(s), spec.secondaryCidr))
  {
    var sv, tags := VpcService(m), TagPlan<VpcCall>(s.tags, spec.tags);
    TagsPart(m, spec, s, bound);
    EndOf(sv, Within(spec, bound), s, tags);
    RunTagPlan(sv, s, spec.tags);
    SecondaryPart(m, spec, Run(sv, s, tags), bound);
    AlwaysAppend(sv, Within(spec, bound), s, tags, SecondaryPlan(Slot(s), spec.secondaryCidr));
  }

  lemma EndOf(sv: Service<Option<Vpc>, VpcCall>, inv: Stored -> bool, s: Stored, plan: seq<Call<VpcCall>>)
    requires Always(sv, inv, s, plan)
    ensures inv(Run(sv, s, plan))
  {
    assert plan[..|plan|] == plan;
  }

  /** When tags are deleted by value, no single call of an Update increases the drift. */
  lemma NoCallWorsens(m: TagMatch, spec: Spec, s: Stored)
    requires m.KeyAndValue? && Workable(s) && spec.name != ""
    ensures NeverGrows(VpcService(m), DriftOf(spec), s, UpdatePlan(spec, s))
  {
    var sv, fields := VpcService(m), FieldPlan(spec, s.res.value);
    FieldsNeverGrow(m, spec, s);
    AfterFields(m, spec, s);
    LastTwoNeverGrow(m, spec, Run(sv, s, fields));
    NeverGrowsAppend(sv, DriftOf(spec), s, fields, TagPlan<VpcCall>(s.tags, spec.tags) + SecondaryPlan(Slot(s), spec.secondaryCidr));
  }

  lemma LastTwoNeverGrow(m: TagMatch, spec: Spec, s: Stored)
    requires m.KeyAndValue? && Workable(s)
    ensures NeverGrows(VpcService(m), DriftOf(spec), s, TagPlan(s.tags, spec.tags) + SecondaryPlan(Slot(s), spec.secondaryCidr))
  {
    var sv, tags := VpcService(m), TagPlan<VpcCall>(s.tags, spec.tags);
    TagsNeverGrow(m, spec, s);
    RunTagPlan(sv, s, spec.tags);
    SecondaryNeverGrows(m, spec, Run(sv, s, tags));
    NeverGrowsAppend(sv, DriftOf(spec), s, tags, SecondaryPlan(Slot(s), spec.secondaryCidr));
  }

  // ----- whole runs -----

  /** One controller action: create, or an update that a failing call stops after `stop` calls. */
  datatype Round = CreateRound(spec: Spec) | UpdateRound(spec: Spec, stop: nat)

  ghost function AfterRound(m: TagMatch, isCidr: string -> bool, s: Stored, round: Round): Stored {
    match round
    case CreateRound(spec) => Run(VpcService(m), s, CreatePlan(spec))
    case UpdateRound(spec, stop) =>
      if !Accepts(spec, s, isCidr) then s
      else
        var plan := UpdatePlan(spec, s);
        Run(VpcService(m), s, plan[..if stop < |plan| then stop else |plan|])
  }

  ghost function AfterRounds(m: TagMatch, isCidr: string -> bool, s: Stored, rounds: seq<Round>): Stored {
    if rounds == [] then s
    else AfterRound(m, isCidr, AfterRounds(m, isCidr, s, rounds[..|rounds| - 1]), rounds[|rounds| - 1])
  }

  /** In every run, with any specs and calls failing anywhere, a VPC that starts with at most one
      secondary CIDR never holds two, so Observe never meets the state it cannot handle. Every call
      boundary of the run is the end of such a sequence of rounds. */
  lemma {:induction false} SingleSecondaryAlways(m: TagMatch, isCidr: string -> bool, s: Stored, rounds: seq<Round>)
    requires Tidy(s)
    ensures Tidy(AfterRounds(m, isCidr, s, rounds))
    ensures var e := AfterRounds(m, isCidr, s, rounds); e.res.Some? ==> ObservedSecondary(e.res.value).Some?
  {
    if rounds != [] {
      var before := AfterRounds(m, isCidr, s, rounds[..|rounds| - 1]);
      SingleSecondaryAlways(m, isCidr, s, rounds[..|rounds| - 1]);
      match rounds[|rounds| - 1]
      case CreateRound(spec) =>
        RunOne(VpcService(m), before, CreatePlan(spec));
      case UpdateRound(spec, stop) =>
        if Accepts(spec, before, isCidr) {
          UpdateNeverWorsens(m, spec, before);
        }
    }
  }

  /** A failure-free reconcile: create what is absent, otherwise late-initialise and update on drift. */
  ghost function Reconcile(m: TagMatch, isCidr: string -> bool, spec: Spec, s: Stored): (Spec, Stored) {
    if !ValidParameters(spec, isCidr) then (spec, s)
    else if s.res.None? then (spec, Run(VpcService(m), s, CreatePlan(spec)))
    else if !Single(s) then (spec, s)
    else
      var r := LateInitialized(spec, s.res.value, Slot(s), s.tags);
      if UpToDate(r, s) || !Accepts(r, s, isCidr) then (r, s)
      else (r, Run(VpcService(m), s, UpdatePlan(r, s)))
  }

  ghost function Reconciled(m: TagMatch, isCidr: string -> bool, spec: Spec, s: Stored, n: nat): (Spec, Stored) {
    Iterate(Reconciler(m, isCidr), (spec, s), n)
  }

  ghost function Reconciler(m: TagMatch, isCidr: string -> bool): ((Spec, Stored)) -> (Spec, Stored) {
    (p: (Spec, Stored)) => Reconcile(m, isCidr, p.0, p.1)
  }

  /** A VPC the controller can work with: its slot in order and holding a CIDR, the spec valid and for it. */
  ghost predicate Manageable(isCidr: string -> bool, spec: Spec, s: Stored) {
    && Workable(s) && ValidParameters(spec, isCidr) && spec.cidr == s.res.value.cidr
    && (Slot(s) == "" || isCidr(Slot(s)))
  }

  ghost predicate Settled(isCidr: string -> bool, spec: Spec, s: Stored) {
    Manageable(isCidr, spec, s) && UpToDate(spec, s)
  }

  /** A settled VPC stays settled: no later reconcile sends a call. */
  lemma SettledForEver(m: TagMatch, isCidr: string -> bool, spec: Spec, s: Stored)
    requires Settled(isCidr, spec, s)
    ensures var (r, t) := Reconcile(m, isCidr, spec, s); t == s && Settled(isCidr, r, t) && UpdatePlan(r, t) == []
  {
    Agreement(LateInitialized(spec, s.res.value, Slot(s), s.tags), s);
  }

  /** Settled, with the VPC in state t. */
  ghost function SettledIn(isCidr: string -> bool, t: Stored): ((Spec, Stored)) -> bool {
    (p: (Spec, Stored)) => p.1 == t && Settled(isCidr, p.0, p.1)
  }

  lemma SettledFromSecond(m: TagMatch, isCidr: string -> bool, spec: Spec, s: Stored, n: nat)
    requires n >= 2 && var (r, t) := Reconciled(m, isCidr, spec, s, 2); Settled(isCidr, r, t)
    ensures var (r, t) := Reconciled(m, isCidr, spec, s, n);
            Settled(isCidr, r, t) && t == Reconciled(m, isCidr, spec, s, 2).1
  {
    var f, settled := Reconciler(m, isCidr), SettledIn(isCidr, Reconciled(m, isCidr, spec, s, 2).1);
    forall p | settled(p) ensures settled(f(p)) {
      SettledForEver(m, isCidr, p.0, p.1);
    }
    KeptFrom(f, settled, (spec, s), 2, n);
  }

  lemma ReconcileFinal(m: TagMatch, isCidr: string -> bool, spec: Spec, s: Stored)
    requires Manageable(isCidr, spec, s)
    ensures var r := LateInitialized(spec, s.res.value, Slot(s), s.tags);
            Reconcile(m, isCidr, spec, s) == (r, Final(m, r, s)) && Manageable(isCidr, r, Final(m, r, s))
  {
    var r := LateInitialized(spec, s.res.value, Slot(s), s.tags);
    SlotDetermines(s);
    FinalDrift(m, r, s);
    if UpToDate(r, s) {
      UpToDateTagsStay(m, r.tags, s.tags);
    } else {
      AfterUpdate(m, r, s);
    }
  }

  lemma SecondFinal(m: TagMatch, spec: Spec, s: Stored)
    requires Workable(s) && LateInitialized(spec, s.res.value, Slot(s), s.tags) == spec
    ensures var t := Final(m, spec, s);
            && Workable(t) && LateInitialized(spec, t.res.value, Slot(t), t.tags) == spec
            && OnePass(m, spec.tags, t.tags)
  {
    FinalDrift(m, spec, s);
    SecondPass(m, spec.tags, s.tags);
    OnePassIff(m, spec.tags, TagsAfter(m, spec.tags, s.tags));
  }

  lemma FirstTwo(m: TagMatch, isCidr: string -> bool, spec: Spec, s: Stored)
    requires Manageable(isCidr, spec, s)
    ensures var (r1, t1) := Reconcile(m, isCidr, spec, s);
            var (r, t) := Reconcile(m, isCidr, r1, t1);
            Settled(isCidr, r, t)
  {
    var r := LateInitialized(spec, s.res.value, Slot(s), s.tags);
    LateInitIdempotent(spec, s.res.value, Slot(s), s.tags);
    ReconcileFinal(m, isCidr, spec, s);
    SecondFinal(m, r, s);
    ReconcileFinal(m, isCidr, r, Final(m, r, s));
    FinalDrift(m, r, Final(m, r, s));
  }

  /** From any VPC the controller can work with, two failure-free reconciles settle it for good, however
      deleted tags are matched. */
  lemma TwoReconcilesSettle(m: TagMatch, isCidr: string -> bool, spec: Spec, s: Stored, n: nat)
    requires Manageable(isCidr, spec, s) && n >= 2
    ensures var (r, t) := Reconciled(m, isCidr, spec, s, n);
            Settled(isCidr, r, t) && t == Reconciled(m, isCidr, spec, s, 2).1
  {
    IterateTwice(Reconciler(m, isCidr), (spec, s));
    FirstTwo(m, isCidr, spec, s);
    SettledFromSecond(m, isCidr, spec, s, n);
  }

  const NOTHING: Stored := State(None, map[])

  lemma Created(m: TagMatch, isCidr: string -> bool, spec: Spec)
    requires ValidParameters(spec, isCidr)
    ensures var s := State(Some(Vpc(spec.name, spec.description.GetOr(""), spec.cidr, [])), map[]);
            Reconcile(m, isCidr, spec, NOTHING) == (spec, s) && Manageable(isCidr, spec, s)
  {
    RunOne(VpcService(m), NOTHING, CreatePlan(spec));
  }

  lemma CreateThenUpdate(m: TagMatch, isCidr: string -> bool, spec: Spec)
    requires ValidParameters(spec, isCidr)
    ensures var (spec1, s1) := Reconcile(m, isCidr, spec, NOTHING);
            var (r, t) := Reconcile(m, isCidr, spec1, s1);
            Settled(isCidr, r, t)
  {
    Created(m, isCidr, spec);
    var s := Reconcile(m, isCidr, spec, NOTHING).1;
    var r := LateInitialized(spec, s.res.value, Slot(s), s.tags);
    ReconcileFinal(m, isCidr, spec, s);
    NoTagsOnePass(m, r.tags);
    FinalDrift(m, r, s);
  }

  /** From nothing, one create and at most one update make Observe report "up to date" in every later round. */
  lemma FromNothing(m: TagMatch, isCidr: string -> bool, spec: Spec, n: nat)
    requires ValidParameters(spec, isCidr) && n >= 2
    ensures var (r, t) := Reconciled(m, isCidr, spec, NOTHING, n);
            Settled(isCidr, r, t) && t == Reconciled(m, isCidr, spec, NOTHING, 2).1
  {
    IterateTwice(Reconciler(m, isCidr), (spec, NOTHING));
    CreateThenUpdate(m, isCidr, spec);
    SettledFromSecond(m, isCidr, spec, NOTHING, n);
  }

  // ----- the methods and the rounds -----

  /** The cloud went from s to t in one of the rounds above. */
  ghost predicate OneRound(m: TagMatch, isCidr: string -> bool, s: Stored, t: Stored) {
    exists round :: t == AfterRound(m, isCidr, s, round)
  }

  lemma NoRound(m: TagMatch, isCidr: string -> bool, spec: Spec, s: Stored)
    ensures OneRound(m, isCidr, s, s)
  {
    if Accepts(spec, s, isCidr) {
      assert UpdatePlan(spec, s)[..0] == [];
    }
    assert AfterRound(m, isCidr, s, UpdateRound(spec, 0)) == s;
  }

  lemma UpdateIsRound(m: TagMatch, isCidr: string -> bool, spec: Spec, s0: Stored, log0: seq<Call<VpcCall>>,
                      s1: Stored, log1: seq<Call<VpcCall>>, ok: bool)
    requires Accepts(spec, s0, isCidr) && Sent(VpcService(m), s0, log0, UpdatePlan(spec, s0), s1, log1, ok)
    ensures OneRound(m, isCidr, s0, s1)
  {
    var plan := UpdatePlan(spec, s0);
    if ok {
      assert plan[..|plan|] == plan;
      StoppedRound(m, isCidr, spec, s0, |plan|);
    } else {
      var k :| 0 <= k < |plan| && s1 == Run(VpcService(m), s0, plan[..k]) && log1 == log0 + plan[..k + 1];
      StoppedRound(m, isCidr, spec, s0, k);
    }
  }

  lemma StoppedRound(m: TagMatch, isCidr: string -> bool, spec: Spec, s: Stored, k: nat)
    requires Accepts(spec, s, isCidr) && k <= |UpdatePlan(spec, s)|
    ensures OneRound(m, isCidr, s, Run(VpcService(m), s, UpdatePlan(spec, s)[..k]))
  {
    assert Run(VpcService(m), s, UpdatePlan(spec, s)[..k]) == AfterRound(m, isCidr, s, UpdateRound(spec, k));
  }

  lemma CreateIsRound(m: TagMatch, isCidr: string -> bool, spec: Spec, s0: Stored, log0: seq<Call<VpcCall>>,
                      s1: Stored, log1: seq<Call<VpcCall>>, ok: bool)
    requires Sent(VpcService(m), s0, log0, CreatePlan(spec), s1, log1, ok)
    ensures OneRound(m, isCidr, s0, s1) && (ok ==> s1 == Run(VpcService(m), s0, CreatePlan(spec)))
    ensures ok ==> s1.res.Some?
  {
    if ok {
      RunOne(VpcService(m), s0, CreatePlan(spec));
      assert s1 == AfterRound(m, isCidr, s0, CreateRound(spec));
    } else {
      assert CreatePlan(spec)[..0] == [];
      NoRound(m, isCidr, spec, s0);
    }
  }

  /** Update as the last part of a reconcile; `r` is Refused exactly when a read failed. */
  method UpdateLast(ghost m: TagMatch, cr: VpcResource, api: Endpoint<Option<Vpc>, VpcCall>, isCidr: string -> bool)
    returns (ghost r: Outcome)
    requires api.service == VpcService(m) && cr.externalName != ""
    modifies api
    ensures r.Refused? <==> api.failed != old(api.failed)
    ensures r.Completed? ==>
              api.state == if Accepts(cr.spec, old(api.state), isCidr)
                           then Run(VpcService(m), old(api.state), UpdatePlan(cr.spec, old(api.state)))
                           else old(api.state)
    ensures OneRound(m, isCidr, old(api.state), api.state)
  {
    ghost var s0, log0, failed0 := api.state, api.log, api.failed;
    var updated := cr.Update(api, isCidr);
    if updated.Refused? {
      NoRound(m, isCidr, cr.spec, s0);
      r := if api.failed != failed0 then Refused else Completed;
    } else {
      UpdateIsRound(m, isCidr, cr.spec, s0, log0, api.state, api.log, updated.Completed?);
      r := updated;
    }
  }

  /** One reconcile, as the managed-resource runtime runs the controller's methods. `r` is Refused exactly
      when a read failed and Aborted when a call did; without either it is the reconcile above, except that a
      named VPC that is gone is not created again. In any case what it did to the cloud is one of the rounds
      of a run. `id` is the identifier the API gives a new VPC. */
  method ReconcileOnce(ghost m: TagMatch, cr: VpcResource, api: Endpoint<Option<Vpc>, VpcCall>, isCidr: string -> bool,
                       id: string)
    returns (ghost r: Outcome)
    requires api.service == VpcService(m) && id != ""
    requires cr.externalName == "" ==> api.state.res.None?
    modifies cr, api
    ensures r.Refused? <==> api.failed != old(api.failed)
    ensures r.Completed? ==>
              && (cr.spec, api.state) == (if old(cr.externalName) != "" && old(api.state).res.None? then old((cr.spec, api.state))
                                          else Reconcile(m, isCidr, old(cr.spec), old(api.state)))
              && (cr.externalName == "" ==> api.state.res.None?)
    ensures OneRound(m, isCidr, old(api.state), api.state)
  {
    ghost var s0, log0, failed0 := api.state, api.log, api.failed;
    NoRound(m, isCidr, cr.spec, s0);
    var observation := cr.Observe(api, isCidr);
    match observation
    case Failed =>
      r := if api.failed != failed0 then Refused else Completed;
    case Absent =>
      r := Completed;
      ghost var named := cr.externalName != "";
      var created := cr.Create(api, isCidr, id);
      if !named {
        CreateIsRound(m, isCidr, cr.spec, s0, log0, api.state, api.log, created.Completed?);
        r := created;
      }
    case Exists(upToDate, _) =>
      r := Completed;
      if !upToDate {
        r := UpdateLast(m, cr, api, isCidr);
      }
  }
}
