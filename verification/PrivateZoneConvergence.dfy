/** What the private-zone controller promises at every call boundary and after whole updates. */
module PrivateZoneConvergence {
  import opened Basics
  import opened Cloud
  import opened TagReconciler
  import opened PrivateZone

  ghost function Associated(s: Stored): set<string> {
    if s.res.None? then {} else Elements(s.res.value.routers)
  }

  /** The zone with other associations; everything else as in `s`. */
  ghost predicate OnlyRoutersDiffer(s: Stored, t: Stored) {
    s.res.Some? && t.res.Some? && t == s.(res := Some(s.res.value.(routers := t.res.value.routers)))
  }

  // ----- associating -----

  ghost predicate Grown(s: Stored, desired: seq<string>, t: Stored) {
    && OnlyRoutersDiffer(s, t) && Associated(s) <= Associated(t) <= Associated(s) + Elements(desired)
    && (NoDuplicates(s.res.value.routers) ==> NoDuplicates(t.res.value.routers))
  }

  lemma AfterAssociate(m: TagMatch, s: Stored, id: string, region: string)
    requires s.res.Some?
    ensures var t := Apply(ZoneService(m), s, Resource(Associate(id, region)));
            && Associated(t) == Associated(s) + {id} && OnlyRoutersDiffer(s, t)
            && (NoDuplicates(s.res.value.routers) ==> NoDuplicates(t.res.value.routers))
  {
    ElementsAppend(s.res.value.routers, [id]);
    assert Elements([id]) == {id};
    assert id in s.res.value.routers <==> id in Associated(s);
  }

  lemma GrowsOn(m: TagMatch, s: Stored, desired: seq<string>, t: Stored, id: string, region: string)
    requires Grown(s, desired, t) && id in desired
    ensures Grown(s, desired, Apply(ZoneService(m), t, Resource(Associate(id, region))))
  {
    AfterAssociate(m, t, id, region);
    assert id in Elements(desired);
  }

  lemma {:induction false} AssociateBoundary(m: TagMatch, region: string, desired: seq<string>, observed: seq<string>,
                                             s: Stored, k: nat)
    requires s.res.Some? && k <= |AssociatePlan(region, desired, observed)|
    ensures Grown(s, desired, Run(ZoneService(m), s, AssociatePlan(region, desired, observed)[..k]))
  {
    var plan := AssociatePlan(region, desired, observed);
    if k > 0 {
      AssociateBoundary(m, region, desired, observed, s, k - 1);
      RunNext(ZoneService(m), s, plan, k - 1);
      AssociatePlanCalls(region, desired, observed);
      assert plan[k - 1] in plan;
      GrowsOn(m, s, desired, Run(ZoneService(m), s, plan[..k - 1]), plan[k - 1].call.id, region);
    }
  }

  lemma {:induction false} AllAssociated(m: TagMatch, region: string, desired: seq<string>, observed: seq<string>, s: Stored)
    requires s.res.Some?
    ensures Associated(Run(ZoneService(m), s, AssociatePlan(region, desired, observed))) ==
            Associated(s) + (Elements(desired) - Elements(observed))
    ensures Run(ZoneService(m), s, AssociatePlan(region, desired, observed)).res.Some?
  {
    if desired != [] {
      var init, last := desired[..|desired| - 1], desired[|desired| - 1];
      AllAssociated(m, region, init, observed, s);
      ElementsInitLast(desired);
      var plan, call := AssociatePlan(region, init, observed), [Resource(Associate(last, region))];
      if last in observed {
        assert last in Elements(observed);
        assert AssociatePlan(region, desired, observed) == plan;
      } else {
        assert AssociatePlan(region, desired, observed) == plan + call;
        RunAppend(ZoneService(m), s, plan, call);
        RunOne(ZoneService(m), Run(ZoneService(m), s, plan), call);
        AfterAssociate(m, Run(ZoneService(m), s, plan), last, region);
      }
    }
  }

  // ----- disassociating -----

  ghost predicate Shrunk(s: Stored, kept: seq<string>, t: Stored) {
    && OnlyRoutersDiffer(s, t) && Associated(s) * Elements(kept) <= Associated(t) <= Associated(s)
    && (NoDuplicates(s.res.value.routers) ==> NoDuplicates(t.res.value.routers))
  }

  lemma AfterDisassociate(m: TagMatch, s: Stored, id: string, region: string)
    requires s.res.Some?
    ensures var t := Apply(ZoneService(m), s, Resource(Disassociate(id, region)));
            && Associated(t) == Associated(s) - {id} && OnlyRoutersDiffer(s, t)
            && (NoDuplicates(s.res.value.routers) ==> NoDuplicates(t.res.value.routers))
  {
    assert Elements([id]) == {id};
    if NoDuplicates(s.res.value.routers) {
      WithoutKeepsDistinct(s.res.value.routers, [id]);
    }
  }

  lemma ShrinksOn(m: TagMatch, s: Stored, kept: seq<string>, t: Stored, id: string, region: string)
    requires Shrunk(s, kept, t) && id !in kept
    ensures Shrunk(s, kept, Apply(ZoneService(m), t, Resource(Disassociate(id, region))))
  {
    AfterDisassociate(m, t, id, region);
    assert id !in Elements(kept);
  }

  lemma {:induction false} DisassociateBoundary(m: TagMatch, region: string, observed: seq<string>, desired: seq<string>,
                                                s: Stored, k: nat)
    requires s.res.Some? && k <= |DisassociatePlan(region, observed, desired)|
    ensures Shrunk(s, desired, Run(ZoneService(m), s, DisassociatePlan(region, observed, desired)[..k]))
  {
    var plan := DisassociatePlan(region, observed, desired);
    if k > 0 {
      DisassociateBoundary(m, region, observed, desired, s, k - 1);
      RunNext(ZoneService(m), s, plan, k - 1);
      DisassociatePlanCalls(region, observed, desired);
      assert plan[k - 1] in plan;
      ShrinksOn(m, s, desired, Run(ZoneService(m), s, plan[..k - 1]), plan[k - 1].call.id, region);
    }
  }

  lemma {:induction false} AllDisassociated(m: TagMatch, region: string, observed: seq<string>, desired: seq<string>, s: Stored)
    requires s.res.Some?
    ensures Associated(Run(ZoneService(m), s, DisassociatePlan(region, observed, desired))) ==
            Associated(s) - (Elements(observed) - Elements(desired))
    ensures Run(ZoneService(m), s, DisassociatePlan(region, observed, desired)).res.Some?
  {
    if observed != [] {
      var init, last := observed[..|observed| - 1], observed[|observed| - 1];
      AllDisassociated(m, region, init, desired, s);
      ElementsInitLast(observed);
      var plan, call := DisassociatePlan(region, init, desired), [Resource(Disassociate(last, region))];
      if last in desired {
        assert last in Elements(desired);
        assert DisassociatePlan(region, observed, desired) == plan;
      } else {
        assert DisassociatePlan(region, observed, desired) == plan + call;
        RunAppend(ZoneService(m), s, plan, call);
        RunOne(ZoneService(m), Run(ZoneService(m), s, plan), call);
        AfterDisassociate(m, Run(ZoneService(m), s, plan), last, region);
      }
    }
  }

  // ----- reconcileVPCs -----

  /** Nothing that stays is ever let go, nothing foreign is ever added, and one of the two lists is whole. */
  ghost predicate Between(observed: set<string>, desired: set<string>, associated: set<string>) {
    && observed * desired <= associated <= observed + desired
    && (observed <= associated || desired <= associated)
  }

  /** A state between the two lists, in which only the associations differ from `s`. */
  ghost predicate MidUpdate(s: Stored, desired: seq<string>, t: Stored) {
    && OnlyRoutersDiffer(s, t) && (NoDuplicates(s.res.value.routers) ==> NoDuplicates(t.res.value.routers))
    && Between(Associated(s), Elements(desired), Associated(t))
  }

  lemma BoundaryBetween(m: TagMatch, region: string, desired: seq<string>, s: Stored, k: nat)
    requires s.res.Some? && k <= |VpcPlan(region, desired, s.res.value.routers)|
    ensures MidUpdate(s, desired, Run(ZoneService(m), s, VpcPlan(region, desired, s.res.value.routers)[..k]))
  {
    if k <= |AssociatePlan(region, desired, s.res.value.routers)| {
      EarlyInPlan(m, region, desired, s, k);
    } else {
      LateInPlan(m, region, desired, s, k);
    }
  }

  lemma EarlyInPlan(m: TagMatch, region: string, desired: seq<string>, s: Stored, k: nat)
    requires s.res.Some? && k <= |AssociatePlan(region, desired, s.res.value.routers)|
    ensures MidUpdate(s, desired, Run(ZoneService(m), s, VpcPlan(region, desired, s.res.value.routers)[..k]))
  {
    EarlyBoundary(m, region, desired, s, k);
    RunPrefix(ZoneService(m), s, AssociatePlan(region, desired, s.res.value.routers),
              DisassociatePlan(region, s.res.value.routers, desired), k);
  }

  lemma LateInPlan(m: TagMatch, region: string, desired: seq<string>, s: Stored, k: nat)
    requires s.res.Some?
    requires |AssociatePlan(region, desired, s.res.value.routers)| <= k <= |VpcPlan(region, desired, s.res.value.routers)|
    ensures MidUpdate(s, desired, Run(ZoneService(m), s, VpcPlan(region, desired, s.res.value.routers)[..k]))
  {
    var a := AssociatePlan(region, desired, s.res.value.routers);
    LateBoundary(m, region, desired, s, k - |a|);
    RunPrefix(ZoneService(m), s, a, DisassociatePlan(region, s.res.value.routers, desired), k);
  }

  /** Every call boundary of reconcileVPCs lies between the two lists, so a failure leaves no zone
      without a VPC when both lists name one. */
  lemma VpcPlanBoundary(m: TagMatch, region: string, desired: seq<string>, s: Stored, k: nat)
    requires s.res.Some? && k <= |VpcPlan(region, desired, s.res.value.routers)|
    ensures var t := Run(ZoneService(m), s, VpcPlan(region, desired, s.res.value.routers)[..k]);
            && OnlyRoutersDiffer(s, t)
            && (NoDuplicates(s.res.value.routers) ==> NoDuplicates(t.res.value.routers))
            && Between(Associated(s), Elements(desired), Associated(t))
            && (s.res.value.routers != [] && desired != [] ==> Associated(t) != {})
  {
    BoundaryBetween(m, region, desired, s, k);
    var observed := s.res.value.routers;
    if observed != [] && desired != [] {
      SomeAssociated(observed, desired, Associated(Run(ZoneService(m), s, VpcPlan(region, desired, observed)[..k])));
    }
  }

  lemma SomeAssociated(observed: seq<string>, desired: seq<string>, associated: set<string>)
    requires observed != [] && desired != [] && Between(Elements(observed), Elements(desired), associated)
    ensures associated != {}
  {
    assert observed[0] in Elements(observed) && desired[0] in Elements(desired);
  }

  /** A boundary before any VPC is disassociated. */
  lemma EarlyBoundary(m: TagMatch, region: string, desired: seq<string>, s: Stored, k: nat)
    requires s.res.Some? && k <= |AssociatePlan(region, desired, s.res.value.routers)|
    ensures MidUpdate(s, desired, Run(ZoneService(m), s, AssociatePlan(region, desired, s.res.value.routers)[..k]))
  {
    AssociateBoundary(m, region, desired, s.res.value.routers, s, k);
  }

  /** A boundary after all VPCs are associated. */
  lemma LateBoundary(m: TagMatch, region: string, desired: seq<string>, s: Stored, k: nat)
    requires s.res.Some? && k <= |DisassociatePlan(region, s.res.value.routers, desired)|
    ensures var observed := s.res.value.routers;
            var mid := Run(ZoneService(m), s, AssociatePlan(region, desired, observed));
            MidUpdate(s, desired, Run(ZoneService(m), mid, DisassociatePlan(region, observed, desired)[..k]))
  {
    var observed := s.res.value.routers;
    var a := AssociatePlan(region, desired, observed);
    AssociateBoundary(m, region, desired, observed, s, |a|);
    assert a[..|a|] == a;
    AllAssociated(m, region, desired, observed, s);
    DisassociateBoundary(m, region, observed, desired, Run(ZoneService(m), s, a), k);
  }

  /** When every call succeeds the zone has exactly the wanted VPCs. */
  lemma VpcPlanResult(m: TagMatch, region: string, desired: seq<string>, s: Stored)
    requires s.res.Some?
    ensures var t := Run(ZoneService(m), s, VpcPlan(region, desired, s.res.value.routers));
            && OnlyRoutersDiffer(s, t) && Associated(t) == Elements(desired)
            && (NoDuplicates(s.res.value.routers) ==> NoDuplicates(t.res.value.routers))
  {
    var observed := s.res.value.routers;
    var plan := VpcPlan(region, desired, observed);
    var a, d := AssociatePlan(region, desired, observed), DisassociatePlan(region, observed, desired);
    VpcPlanBoundary(m, region, desired, s, |plan|);
    assert plan[..|plan|] == plan;
    RunAppend(ZoneService(m), s, a, d);
    AllAssociated(m, region, desired, observed, s);
    AllDisassociated(m, region, observed, desired, Run(ZoneService(m), s, a));
  }

  // ----- detector against planner -----

  lemma NothingToDoIff(region: string, desired: seq<string>, observed: seq<string>)
    ensures VpcPlan(region, desired, observed) == [] <==> Elements(desired) == Elements(observed)
  {
    AssociatePlanEmptyIff(region, desired, observed);
    DisassociatePlanEmptyIff(region, observed, desired);
  }

  /** The detector compares the lists as multisets. */
  lemma VpcsUpToDateIff(desired: seq<string>, observed: seq<string>)
    ensures VpcsUpToDate(desired, observed) <==> multiset(desired) == multiset(observed)
  {
    SortEqualIff(desired, observed);
    if multiset(desired) == multiset(observed) {
      assert |desired| == |multiset(desired)| == |multiset(observed)| == |observed|;
    }
  }

  /** The detector, field by field: the spec, completed by the observed values, is what was observed, and the VPC
      lists are the same up to order. */
  lemma UpToDateIff(spec: Spec, observed: Zone, tags: Tags)
    ensures IsUpToDate(spec, observed, tags) <==>
              && (spec.email.GetOr(observed.email), spec.ttl.GetOr(observed.ttl)) == (observed.email, observed.ttl)
              && (spec.description.GetOr(observed.description), spec.tags.GetOr(tags)) == (observed.description, tags)
              && multiset(Ids(spec.vpcs)) == multiset(observed.routers)
  {
    VpcsUpToDateIff(Ids(spec.vpcs), observed.routers);
  }

  /** A desired list that names a VPC twice is never up to date with a zone that lists each VPC once. */
  lemma RepeatedVpcNeverUpToDate(desired: seq<string>, observed: seq<string>)
    requires NoDuplicates(observed) && !NoDuplicates(desired)
    ensures !VpcsUpToDate(desired, observed)
  {
    VpcsUpToDateIff(desired, observed);
    DuplicateFreeCounts(observed);
    var i, j :| 0 <= i < j < |desired| && desired[i] == desired[j];
    DuplicateCount(desired, i, j);
    assert multiset(observed)[desired[i]] <= 1;
  }

  /** On a zone that lists each VPC once, detector and planner agree on the VPC list iff the spec also
      names each VPC once or the two lists name different VPCs. */
  lemma VpcAgreementIff(region: string, desired: seq<string>, observed: seq<string>)
    requires NoDuplicates(observed)
    ensures (VpcsUpToDate(desired, observed) <==> VpcPlan(region, desired, observed) == [])
       <==> NoDuplicates(desired) || Elements(desired) != Elements(observed)
    ensures NoDuplicates(desired) ==> (VpcsUpToDate(desired, observed) <==> Elements(desired) == Elements(observed))
  {
    NothingToDoIff(region, desired, observed);
    VpcsUpToDateIff(desired, observed);
    if NoDuplicates(desired) {
      DuplicateFreeMultisets(desired, observed);
    } else {
      RepeatedVpcNeverUpToDate(desired, observed);
    }
  }

  /** The disagreement is real: the same VPC named twice drifts for ever and Update has nothing to send. */
  lemma RepeatedVpcStuck(region: string)
    ensures !VpcsUpToDate(["vpc-1", "vpc-1"], ["vpc-1"])
    ensures VpcPlan(region, ["vpc-1", "vpc-1"], ["vpc-1"]) == []
  {
    var desired, observed := ["vpc-1", "vpc-1"], ["vpc-1"];
    NothingToDoIff(region, desired, observed);
    assert Elements(desired) == {"vpc-1"} && Elements(observed) == {"vpc-1"};
  }

  // ----- whole updates -----

  lemma AfterFields(m: TagMatch, spec: Spec, s: Stored)
    requires s.res.Some?
    ensures var t := Run(ZoneService(m), s, FieldPlan(spec, s.res.value));
            && t.res.Some? && t.tags == s.tags && t.res.value.routers == s.res.value.routers
            && (IsOptionalUpToDate(spec.email, t.res.value.email) <==> Sendable(spec.email, s.res.value.email, ""))
            && (IsOptionalUpToDate(spec.ttl, t.res.value.ttl) <==> Sendable(spec.ttl, s.res.value.ttl, 0))
            && (IsOptionalUpToDate(spec.description, t.res.value.description)
                <==> Sendable(spec.description, s.res.value.description, ""))
  {
    RunOne(ZoneService(m), s, FieldPlan(spec, s.res.value));
  }

  /** One complete Update satisfies the detector iff every changed field has a value the request can
      carry, the spec names no VPC twice and the tags need one pass. */
  lemma CompleteUpdateIff(m: TagMatch, region: string, spec: Spec, s: Stored)
    requires s.res.Some? && NoDuplicates(s.res.value.routers)
    ensures var t := Run(ZoneService(m), s, UpdatePlan(region, spec, s));
            && t.res.Some?
            && (IsUpToDate(spec, t.res.value, t.tags) <==>
                  && Sendable(spec.email, s.res.value.email, "") && Sendable(spec.ttl, s.res.value.ttl, 0)
                  && Sendable(spec.description, s.res.value.description, "")
                  && NoDuplicates(Ids(spec.vpcs)) && OnePass(m, spec.tags, s.tags))
            && Associated(t) == Elements(Ids(spec.vpcs))
  {
    var sv, ids := ZoneService(m), Ids(spec.vpcs);
    var fields, vpcs := FieldPlan(spec, s.res.value), VpcPlan(region, ids, s.res.value.routers);
    var tags := TagPlan<ZoneCall>(s.tags, spec.tags);
    var s1 := Run(sv, s, fields);
    AfterFields(m, spec, s);
    var s2 := Run(sv, s1, vpcs);
    VpcPlanResult(m, region, ids, s1);
    var s3 := Run(sv, s2, tags);
    RunTagPlan(sv, s2, spec.tags);
    OnePassIff(m, spec.tags, s.tags);
    RunAppend(sv, s1, vpcs, tags);
    RunAppend(sv, s, fields, vpcs + tags);
    VpcAgreementIff(region, ids, s3.res.value.routers);
    if !NoDuplicates(ids) {
      RepeatedVpcNeverUpToDate(ids, s3.res.value.routers);
    }
  }

  /** The zone a Create leaves: the set fields are the spec's, the others zero, and the first VPC is associated. */
  lemma CreatedZone(m: TagMatch, spec: Spec)
    requires ValidParameters(spec)
    ensures var s := Run(ZoneService(m), State(None, map[]), CreatePlan(spec));
            && s.res.Some? && s.tags == map[]
            && (spec.name, spec.email.GetOr("")) == (s.res.value.name, s.res.value.email)
            && (spec.ttl.GetOr(0), spec.description.GetOr("")) == (s.res.value.ttl, s.res.value.description)
            && s.res.value.routers == [spec.vpcs[0].GetOr("")]
  {
    RunOne(ZoneService(m), State(None, map[]), CreatePlan(spec));
  }

  /** From nothing: Create associates only the first VPC, and one complete Update the rest, for any
      number of VPCs. */
  lemma CreateThenUpdate(m: TagMatch, region: string, spec: Spec)
    requires ValidParameters(spec) && NoDuplicates(Ids(spec.vpcs))
    ensures var s1 := Run(ZoneService(m), State(None, map[]), CreatePlan(spec));
            && s1.res.Some? && Associated(s1) == {Ids(spec.vpcs)[0]}
            && var t := Run(ZoneService(m), s1, UpdatePlan(region, spec, s1));
               t.res.Some? && VpcsUpToDate(Ids(spec.vpcs), t.res.value.routers) && IsUpToDate(spec, t.res.value, t.tags)
  {
    var s0: Stored := State(None, map[]);
    RunOne(ZoneService(m), s0, CreatePlan(spec));
    var s1 := Run(ZoneService(m), s0, CreatePlan(spec));
    assert s1.res.value.routers == [Ids(spec.vpcs)[0]];
    CompleteUpdateIff(m, region, spec, s1);
  }

  // ----- whole runs -----

  ghost predicate HasVpc(s: Stored) {
    s.res.Some? && s.res.value.routers != []
  }

  lemma VpcPartKeepsAVpc(m: TagMatch, region: string, desired: seq<string>, s: Stored)
    requires HasVpc(s) && desired != []
    ensures Always(ZoneService(m), HasVpc, s, VpcPlan(region, desired, s.res.value.routers))
  {
    var plan := VpcPlan(region, desired, s.res.value.routers);
    forall k | 0 <= k <= |plan| ensures HasVpc(Run(ZoneService(m), s, plan[..k])) {
      VpcPlanBoundary(m, region, desired, s, k);
      assert Elements<string>([]) == {};
    }
  }

  lemma TagPartKeepsAVpc(m: TagMatch, s: Stored, desired: Option<Tags>)
    requires HasVpc(s)
    ensures Always(ZoneService(m), HasVpc, s, TagPlan(s.tags, desired))
  {
    var plan := TagPlan<ZoneCall>(s.tags, desired);
    forall k | 0 <= k <= |plan| ensures HasVpc(Run(ZoneService(m), s, plan[..k])) {
      TagPrefix(ZoneService(m), s, desired, k);
    }
  }

  /** No call boundary of an Update leaves the zone without a VPC. */
  lemma UpdateKeepsAVpc(m: TagMatch, region: string, spec: Spec, s: Stored)
    requires HasVpc(s) && spec.vpcs != []
    ensures Always(ZoneService(m), HasVpc, s, UpdatePlan(region, spec, s))
  {
    var sv, ids := ZoneService(m), Ids(spec.vpcs);
    var fields, vpcs := FieldPlan(spec, s.res.value), VpcPlan(region, ids, s.res.value.routers);
    var tags := TagPlan<ZoneCall>(s.tags, spec.tags);
    AfterFields(m, spec, s);
    assert fields[..0] == [] && fields[..|fields|] == fields;
    var s1 := Run(sv, s, fields);
    VpcPartKeepsAVpc(m, region, ids, s1);
    assert vpcs[..|vpcs|] == vpcs;
    VpcPlanResult(m, region, ids, s1);
    TagPartKeepsAVpc(m, Run(sv, s1, vpcs), spec.tags);
    AlwaysAppend(sv, HasVpc, s1, vpcs, tags);
    AlwaysAppend(sv, HasVpc, s, fields, vpcs + tags);
  }

  /** An Update that a failing call stops after `stop` calls. */
  datatype Round = Round(spec: Spec, stop: nat)

  ghost function AfterRounds(m: TagMatch, region: string, s: Stored, rounds: seq<Round>): Stored {
    if rounds == [] then s
    else
      var t, round := AfterRounds(m, region, s, rounds[..|rounds| - 1]), rounds[|rounds| - 1];
      if t.res.None? then t
      else
        var plan := UpdatePlan(region, round.spec, t);
        Run(ZoneService(m), t, plan[..if round.stop < |plan| then round.stop else |plan|])
  }

  /** In every run, with VPC lists that change at will and calls failing anywhere, a zone that starts
      with a VPC never loses its last one. */
  lemma {:induction false} NeverWithoutVpc(m: TagMatch, region: string, s: Stored, rounds: seq<Round>)
    requires HasVpc(s) && forall i | 0 <= i < |rounds| :: rounds[i].spec.vpcs != []
    ensures HasVpc(AfterRounds(m, region, s, rounds))
  {
    if rounds != [] {
      NeverWithoutVpc(m, region, s, rounds[..|rounds| - 1]);
      UpdateKeepsAVpc(m, region, rounds[|rounds| - 1].spec, AfterRounds(m, region, s, rounds[..|rounds| - 1]));
    }
  }

  // ----- reconciles -----

  /** A failure-free reconcile: create what is absent, otherwise late-initialise and update on drift. */
  ghost function Reconcile(m: TagMatch, region: string, spec: Spec, s: Stored): (Spec, Stored) {
    if s.res.None? then (spec, if ValidParameters(spec) then Run(ZoneService(m), s, CreatePlan(spec)) else s)
    else
      var r := LateInitialized(spec, s.res.value, s.tags);
      (r, if IsUpToDate(r, s.res.value, s.tags) then s else Run(ZoneService(m), s, UpdatePlan(region, r, s)))
  }

  ghost function Reconciled(m: TagMatch, region: string, spec: Spec, s: Stored, n: nat): (Spec, Stored) {
    Iterate(Reconciler(m, region), (spec, s), n)
  }

  ghost function Reconciler(m: TagMatch, region: string): ((Spec, Stored)) -> (Spec, Stored) {
    (p: (Spec, Stored)) => Reconcile(m, region, p.0, p.1)
  }

  /** No field but the tags is late-initialised any more, and an update request changes no field. */
  ghost predicate QuietFields(spec: Spec, zone: Zone) {
    && ToSend(spec.email, zone.email, "") == "" && ToSend(spec.ttl, zone.ttl, 0) == 0
    && ToSend(spec.description, zone.description, "") == ""
    && (spec.email.None? ==> zone.email == "") && (spec.ttl.None? ==> zone.ttl == 0)
    && (spec.description.None? ==> zone.description == "")
  }

  /** Nothing but the tags of the zone is left to change. */
  ghost predicate Quiet(spec: Spec, s: Stored) {
    && s.res.Some? && QuietFields(spec, s.res.value) && NoDuplicates(s.res.value.routers)
    && Associated(s) == Elements(Ids(spec.vpcs)) && (spec.tags.None? ==> s.tags == map[])
  }

  ghost predicate FieldsUpToDate(spec: Spec, zone: Zone) {
    && IsOptionalUpToDate(spec.email, zone.email) && IsOptionalUpToDate(spec.ttl, zone.ttl)
    && IsOptionalUpToDate(spec.description, zone.description)
  }

  /** Every set field that differs has a value the request can carry. */
  ghost predicate FieldsSendable(spec: Spec, zone: Zone) {
    && Sendable(spec.email, zone.email, "") && Sendable(spec.ttl, zone.ttl, 0)
    && Sendable(spec.description, zone.description, "")
  }

  lemma FieldsGoQuiet(m: TagMatch, spec: Spec, s: Stored)
    requires s.res.Some? && LateInitialized(spec, s.res.value, s.tags) == spec
    ensures var t := Run(ZoneService(m), s, FieldPlan(spec, s.res.value));
            && t.res.Some? && t.res.value.routers == s.res.value.routers
            && t.tags == s.tags && QuietFields(spec, t.res.value)
            && (FieldsUpToDate(spec, t.res.value) <==> FieldsSendable(spec, s.res.value))
            && (QuietFields(spec, s.res.value) ==> t == s)
  {
    RunOne(ZoneService(m), s, FieldPlan(spec, s.res.value));
  }

  lemma UpdateGoesQuiet(m: TagMatch, region: string, spec: Spec, s: Stored)
    requires s.res.Some? && NoDuplicates(s.res.value.routers) && LateInitialized(spec, s.res.value, s.tags) == spec
    ensures var t := Run(ZoneService(m), s, UpdatePlan(region, spec, s));
            && Quiet(spec, t) && t.tags == TagsAfter(m, spec.tags, s.tags)
            && (FieldsUpToDate(spec, t.res.value) <==> FieldsSendable(spec, s.res.value))
  {
    var sv, ids := ZoneService(m), Ids(spec.vpcs);
    var fields, vpcs := FieldPlan(spec, s.res.value), VpcPlan(region, ids, s.res.value.routers);
    var tags := TagPlan<ZoneCall>(s.tags, spec.tags);
    FieldsGoQuiet(m, spec, s);
    var s1 := Run(sv, s, fields);
    VpcPlanResult(m, region, ids, s1);
    RunTagPlan(sv, Run(sv, s1, vpcs), spec.tags);
    RunAppend(sv, s1, vpcs, tags);
    RunAppend(sv, s, fields, vpcs + tags);
  }

  lemma QuietFieldsStay(m: TagMatch, spec: Spec, s: Stored)
    requires s.res.Some? && QuietFields(spec, s.res.value)
    ensures Run(ZoneService(m), s, FieldPlan(spec, s.res.value)) == s
  {
    RunOne(ZoneService(m), s, FieldPlan(spec, s.res.value));
  }

  /** An update of a quiet zone changes its tags only. */
  lemma QuietUpdate(m: TagMatch, region: string, spec: Spec, s: Stored)
    requires Quiet(spec, s)
    ensures Run(ZoneService(m), s, UpdatePlan(region, spec, s)) == s.(tags := TagsAfter(m, spec.tags, s.tags))
  {
    var vpcs, tags := VpcPlan(region, Ids(spec.vpcs), s.res.value.routers), TagPlan<ZoneCall>(s.tags, spec.tags);
    NothingToDoIff(region, Ids(spec.vpcs), s.res.value.routers);
    assert vpcs + tags == tags;
    QuietFieldsStay(m, spec, s);
    RunTagPlan(ZoneService(m), s, spec.tags);
    RunAppend(ZoneService(m), s, FieldPlan(spec, s.res.value), tags);
  }

  lemma FirstReconcile(m: TagMatch, region: string, spec: Spec, s: Stored)
    requires s.res.Some? && NoDuplicates(s.res.value.routers)
    ensures var (r, t) := Reconcile(m, region, spec, s);
            && r.vpcs == spec.vpcs && Quiet(r, t) && t.tags == TagsAfter(m, r.tags, s.tags)
            && (FieldsUpToDate(r, t.res.value) <==> FieldsSendable(spec, s.res.value))
  {
    var r := LateInitialized(spec, s.res.value, s.tags);
    LateInitIdempotent(spec, s.res.value, s.tags);
    if IsUpToDate(r, s.res.value, s.tags) {
      VpcsUpToDateIff(Ids(r.vpcs), s.res.value.routers);
      SameElements(Ids(r.vpcs), s.res.value.routers);
      UpToDateTagsStay(m, r.tags, s.tags);
    } else {
      UpdateGoesQuiet(m, region, r, s);
    }
  }

  lemma SameElements(a: seq<string>, b: seq<string>)
    requires multiset(a) == multiset(b)
    ensures Elements(a) == Elements(b)
  {
    forall x ensures x in Elements(a) <==> x in Elements(b) {
      assert x in a <==> x in multiset(a);
      assert x in b <==> x in multiset(b);
    }
  }

  lemma QuietReconcile(m: TagMatch, region: string, spec: Spec, s: Stored)
    requires Quiet(spec, s)
    ensures Reconcile(m, region, spec, s) == (spec, s.(tags := TagsAfter(m, spec.tags, s.tags)))
  {
    assert LateInitialized(spec, s.res.value, s.tags) == spec;
    if IsUpToDate(spec, s.res.value, s.tags) {
      UpToDateTagsStay(m, spec.tags, s.tags);
    } else {
      QuietUpdate(m, region, spec, s);
    }
  }

  lemma QuietVerdict(spec: Spec, s: Stored)
    requires Quiet(spec, s) && IsOptionalUpToDate(spec.tags, s.tags)
    ensures IsUpToDate(spec, s.res.value, s.tags) <==> FieldsUpToDate(spec, s.res.value) && NoDuplicates(Ids(spec.vpcs))
  {
    var ids, routers := Ids(spec.vpcs), s.res.value.routers;
    if NoDuplicates(ids) {
      VpcAgreementIff("", ids, routers);
    } else {
      RepeatedVpcNeverUpToDate(ids, routers);
    }
  }

  /** From any zone that lists each VPC once, two failure-free reconciles reach a state that no later one
      changes, however deleted tags are matched; it is up to date iff every changed field had a value the
      request can carry and the spec names no VPC twice. */
  lemma TwoReconcilesSettle(m: TagMatch, region: string, spec: Spec, s: Stored, n: nat)
    requires s.res.Some? && NoDuplicates(s.res.value.routers) && n >= 2
    ensures var (r, t) := Reconciled(m, region, spec, s, n);
            && (r, t) == Reconciled(m, region, spec, s, 2) && t.res.Some?
            && (IsUpToDate(r, t.res.value, t.tags) <==> FieldsSendable(spec, s.res.value) && NoDuplicates(Ids(spec.vpcs)))
  {
    IterateTwice(Reconciler(m, region), (spec, s));
    FirstTwo(m, region, spec, s);
    FixedFrom(Reconciler(m, region), (spec, s), 2, n);
  }

  lemma FirstTwo(m: TagMatch, region: string, spec: Spec, s: Stored)
    requires s.res.Some? && NoDuplicates(s.res.value.routers)
    ensures var (r1, t1) := Reconcile(m, region, spec, s);
            var (r, t) := Reconcile(m, region, r1, t1);
            && t.res.Some? && Reconcile(m, region, r, t) == (r, t)
            && (IsUpToDate(r, t.res.value, t.tags) <==> FieldsSendable(spec, s.res.value) && NoDuplicates(Ids(spec.vpcs)))
  {
    var (r, t1) := Reconcile(m, region, spec, s);
    FirstReconcile(m, region, spec, s);
    QuietReconcile(m, region, r, t1);
    SecondPass(m, r.tags, s.tags);
    SettledStays(m, region, r, t1.(tags := TagsAfter(m, r.tags, t1.tags)));
  }

  lemma SettledStays(m: TagMatch, region: string, spec: Spec, s: Stored)
    requires Quiet(spec, s) && IsOptionalUpToDate(spec.tags, s.tags)
    ensures Reconcile(m, region, spec, s) == (spec, s)
    ensures IsUpToDate(spec, s.res.value, s.tags) <==> FieldsUpToDate(spec, s.res.value) && NoDuplicates(Ids(spec.vpcs))
  {
    QuietReconcile(m, region, spec, s);
    UpToDateTagsStay(m, spec.tags, s.tags);
    QuietVerdict(spec, s);
  }

  // ----- the methods -----

  /** The cloud is at a call boundary of an update of s, or of nothing. */
  ghost predicate Stopped(m: TagMatch, region: string, spec: Spec, s: Stored, t: Stored) {
    t == s || (s.res.Some? && exists k | 0 <= k <= |UpdatePlan(region, spec, s)| ::
                                t == Run(ZoneService(m), s, UpdatePlan(region, spec, s)[..k]))
  }

  /** Update as the last part of a reconcile; `r` is Refused exactly when a read failed. */
  method UpdateLast(ghost m: TagMatch, cr: PrivateZoneResource, api: Endpoint<Option<Zone>, ZoneCall>, region: string)
    returns (ghost r: Outcome)
    requires api.service == ZoneService(m) && cr.externalName != "" && api.state.res.Some?
    modifies api
    ensures r.Refused? <==> api.failed != old(api.failed)
    ensures r.Completed? ==> api.state == Run(ZoneService(m), old(api.state), UpdatePlan(region, cr.spec, old(api.state)))
    ensures Stopped(m, region, cr.spec, old(api.state), api.state)
  {
    ghost var plan := UpdatePlan(region, cr.spec, api.state);
    assert plan[..|plan|] == plan;
    var updated := cr.Update(api, region);
    r := updated;
  }

  /** One reconcile, as the managed-resource runtime runs the controller's methods. `r` is Refused exactly
      when a read failed or Create refused the spec, and Aborted when a call failed; when it is Completed,
      this is the reconcile above, except that a named zone that is gone is not created again. */
  method ReconcileOnce(ghost m: TagMatch, cr: PrivateZoneResource, api: Endpoint<Option<Zone>, ZoneCall>, region: string,
                       id: string)
    returns (ghost r: Outcome)
    requires api.service == ZoneService(m) && id != ""
    requires cr.externalName == "" ==> api.state.res.None?
    modifies cr, api
    ensures r.Refused? <==>
              || api.failed != old(api.failed)
              || (old(cr.externalName) == "" && !ValidParameters(old(cr.spec)))
    ensures r.Completed? ==>
              (cr.spec, api.state) == if old(cr.externalName) != "" && old(api.state).res.None? then old((cr.spec, api.state))
                                      else Reconcile(m, region, old(cr.spec), old(api.state))
    ensures Stopped(m, region, cr.spec, old(api.state), api.state) || (r.Completed? && old(api.state).res.None?)
  {
    var observation := cr.Observe(api);
    match observation
    case Failed =>
      r := Refused;
    case Absent =>
      ghost var s0 := api.state;
      assert CreatePlan(cr.spec)[..0] == [];
      r := Completed;
      ghost var named := cr.externalName != "";
      var created := cr.Create(api, id);
      if !named {
        r := created;
      }
    case Exists(upToDate, _) =>
      r := Completed;
      if !upToDate {
        r := UpdateLast(m, cr, api, region);
      }
  }
}
