/** internal/controller/dnsprivatezone/privatezone.go */
module PrivateZone {
  import opened Basics
  import opened Cloud
  import opened TagReconciler
  import opened LateInit

  /** `vpcs` holds the VPC identifiers, nil where a reference is not resolved. */
  datatype Spec = Spec(name: string, email: Option<string>, ttl: Option<int>, description: Option<string>,
                       vpcs: seq<Option<string>>, tags: Option<Tags>)

  /** `routers` are the identifiers of the associated VPCs, in the order the API lists them. */
  datatype Zone = Zone(name: string, email: string, ttl: int, description: string, routers: seq<string>)

  datatype ZoneCall =
    | CreateZone(zone: Zone)
    | UpdateZone(email: string, ttl: int, description: string)
    | Associate(id: string, region: string)
    | Disassociate(id: string, region: string)

  type Stored = State<Option<Zone>>

  /** What the DNS service does; zero values in an update leave the field alone. */
  function ZoneStep(s: Option<Zone>, c: ZoneCall): Option<Zone> {
    match c
    case CreateZone(zone) => if s.None? then Some(zone) else s
    case UpdateZone(email, ttl, description) =>
      if s.None? then s
      else Some(s.value.(email := if email == "" then s.value.email else email,
                         ttl := if ttl == 0 then s.value.ttl else ttl,
                         description := if description == "" then s.value.description else description))
    case Associate(id, _) =>
      if s.None? || id in s.value.routers then s else Some(s.value.(routers := s.value.routers + [id]))
    case Disassociate(id, _) =>
      if s.None? then s else Some(s.value.(routers := Without(s.value.routers, [id])))
  }

  ghost function ZoneService(tagMatch: TagMatch): Service<Option<Zone>, ZoneCall> {
    Service(ZoneStep, tagMatch)
  }

  function Ids(vpcs: seq<Option<string>>): (ids: seq<string>)
    ensures |ids| == |vpcs| && forall i | 0 <= i < |vpcs| :: ids[i] == vpcs[i].GetOr("")
  {
    seq(|vpcs|, i requires 0 <= i < |vpcs| => vpcs[i].GetOr(""))
  }

  predicate ValidParameters(spec: Spec) {
    spec.name != "" && spec.vpcs != [] && "" !in Ids(spec.vpcs)
  }

  function VpcsUpToDate(desired: seq<string>, observed: seq<string>): bool {
    |desired| == |observed| && Sort(desired) == Sort(observed)
  }

  predicate IsUpToDate(spec: Spec, observed: Zone, tags: Tags) {
    && IsOptionalUpToDate(spec.email, observed.email)
    && IsOptionalUpToDate(spec.ttl, observed.ttl)
    && IsOptionalUpToDate(spec.description, observed.description)
    && IsOptionalUpToDate(spec.tags, tags)
    && VpcsUpToDate(Ids(spec.vpcs), observed.routers)
  }

  function LateInitialized(spec: Spec, observed: Zone, tags: Tags): (r: Spec)
    ensures r.name == spec.name && r.vpcs == spec.vpcs && FillsNonZero(spec.tags, r.tags, tags, map[])
    ensures FillsNonZero(spec.email, r.email, observed.email, "") && FillsNonZero(spec.ttl, r.ttl, observed.ttl, 0)
    ensures FillsNonZero(spec.description, r.description, observed.description, "")
    ensures IsUpToDate(r, observed, tags) <==> IsUpToDate(spec, observed, tags)
  {
    spec.(email := InitPtrIfNonZero(spec.email, observed.email, ""),
          ttl := InitPtrIfNonZero(spec.ttl, observed.ttl, 0),
          description := InitPtrIfNonZero(spec.description, observed.description, ""),
          tags := InitPtrIfNonZero(spec.tags, tags, map[]))
  }

  lemma LateInitIdempotent(spec: Spec, observed: Zone, tags: Tags)
    ensures var r := LateInitialized(spec, observed, tags); LateInitialized(r, observed, tags) == r
  {
  }

  // ----- the calls of one Update -----

  ghost function FieldPlan(spec: Spec, zone: Zone): seq<Call<ZoneCall>> {
    if && IsOptionalUpToDate(spec.email, zone.email) && IsOptionalUpToDate(spec.ttl, zone.ttl)
       && IsOptionalUpToDate(spec.description, zone.description)
    then []
    else [Resource(UpdateZone(ToSend(spec.email, zone.email, ""), ToSend(spec.ttl, zone.ttl, 0),
                              ToSend(spec.description, zone.description, "")))]
  }

  ghost function AssociatePlan(region: string, desired: seq<string>, observed: seq<string>): seq<Call<ZoneCall>> {
    if desired == [] then []
    else
      var last := desired[|desired| - 1];
      AssociatePlan(region, desired[..|desired| - 1], observed) +
      if last in observed then [] else [Resource(Associate(last, region))]
  }

  ghost function DisassociatePlan(region: string, observed: seq<string>, desired: seq<string>): seq<Call<ZoneCall>> {
    if observed == [] then []
    else
      var last := observed[|observed| - 1];
      DisassociatePlan(region, observed[..|observed| - 1], desired) +
      if last in desired then [] else [Resource(Disassociate(last, region))]
  }

  /** Only VPCs that are desired and not observed are associated, in the region of the controller. */
  lemma {:induction false} AssociatePlanCalls(region: string, desired: seq<string>, observed: seq<string>)
    ensures forall c | c in AssociatePlan(region, desired, observed) ::
              c.Resource? && c.call.Associate? && c.call.id in desired && c.call.id !in observed && c.call.region == region
  {
    if desired != [] {
      AssociatePlanCalls(region, desired[..|desired| - 1], observed);
    }
  }

  /** Only VPCs that are observed and not desired are disassociated, in the region of the controller. */
  lemma {:induction false} DisassociatePlanCalls(region: string, observed: seq<string>, desired: seq<string>)
    ensures forall c | c in DisassociatePlan(region, observed, desired) ::
              c.Resource? && c.call.Disassociate? && c.call.id in observed && c.call.id !in desired && c.call.region == region
  {
    if observed != [] {
      DisassociatePlanCalls(region, observed[..|observed| - 1], desired);
    }
  }

  lemma {:induction false} AssociatePlanEmptyIff(region: string, desired: seq<string>, observed: seq<string>)
    ensures AssociatePlan(region, desired, observed) == [] <==> Elements(desired) <= Elements(observed)
  {
    if desired != [] {
      var init, last := desired[..|desired| - 1], desired[|desired| - 1];
      AssociatePlanEmptyIff(region, init, observed);
      assert desired == init + [last];
      ElementsAppend(init, [last]);
      assert last in Elements(desired);
    }
  }

  lemma {:induction false} DisassociatePlanEmptyIff(region: string, observed: seq<string>, desired: seq<string>)
    ensures DisassociatePlan(region, observed, desired) == [] <==> Elements(observed) <= Elements(desired)
  {
    if observed != [] {
      var init, last := observed[..|observed| - 1], observed[|observed| - 1];
      DisassociatePlanEmptyIff(region, init, desired);
      assert observed == init + [last];
      ElementsAppend(init, [last]);
      assert last in Elements(observed);
    }
  }

  ghost function VpcPlan(region: string, desired: seq<string>, observed: seq<string>): seq<Call<ZoneCall>> {
    AssociatePlan(region, desired, observed) + DisassociatePlan(region, observed, desired)
  }

  ghost function UpdatePlan(region: string, spec: Spec, s: Stored): seq<Call<ZoneCall>>
    requires s.res.Some?
  {
    FieldPlan(spec, s.res.value) +
    (VpcPlan(region, Ids(spec.vpcs), s.res.value.routers) + TagPlan(s.tags, spec.tags))
  }

  // ----- the controller -----

  method BuildUpdateOpts(spec: Spec, observed: Zone) returns (opts: ZoneCall, needsUpdate: bool)
    ensures FieldPlan(spec, observed) == if needsUpdate then [Resource(opts)] else []
  {
    opts := UpdateZone("", 0, "");
    needsUpdate := false;
    if spec.email.Some? && spec.email.value != observed.email {
      opts := opts.(email := spec.email.value);
      needsUpdate := true;
    }
    if spec.ttl.Some? && spec.ttl.value != observed.ttl {
      opts := opts.(ttl := spec.ttl.value);
      needsUpdate := true;
    }
    if spec.description.Some? && spec.description.value != observed.description {
      opts := opts.(description := spec.description.value);
      needsUpdate := true;
    }
  }

  method BuildCreateOpts(spec: Spec) returns (opts: ZoneCall)
    ensures opts == CreateZone(Zone(spec.name, spec.email.GetOr(""), spec.ttl.GetOr(0), spec.description.GetOr(""),
                                    if spec.vpcs == [] then [] else [Ids(spec.vpcs)[0]]))
  {
    var zone := Zone(spec.name, "", 0, "", []);
    if spec.email.Some? {
      zone := zone.(email := spec.email.value);
    }
    if spec.ttl.Some? {
      zone := zone.(ttl := spec.ttl.value);
    }
    if spec.description.Some? {
      zone := zone.(description := spec.description.value);
    }
    if |spec.vpcs| > 0 {
      zone := zone.(routers := [spec.vpcs[0].GetOr("")]);
    }
    opts := CreateZone(zone);
  }

  /** isVPCsUpToDate: fills two slices with the identifiers, sorts both in place and compares them. */
  method IsVpcsUpToDate(desired: seq<Option<string>>, observed: seq<string>) returns (r: bool)
    ensures r == VpcsUpToDate(Ids(desired), observed)
  {
    if |desired| != |observed| {
      return false;
    }
    var desiredIds := DesiredIds(desired);
    SortStrings(desiredIds);
    var observedIds := ObservedIds(observed);
    SortStrings(observedIds);
    r := desiredIds[..] == observedIds[..];
  }

  method DesiredIds(desired: seq<Option<string>>) returns (ids: array<string>)
    ensures fresh(ids) && ids[..] == Ids(desired)
  {
    ids := new string[|desired|](_ => "");
    for i := 0 to |desired|
      invariant forall j | 0 <= j < i :: ids[j] == desired[j].GetOr("")
    {
      ids[i] := desired[i].GetOr("");
    }
  }

  method ObservedIds(observed: seq<string>) returns (ids: array<string>)
    ensures fresh(ids) && ids[..] == observed
  {
    ids := new string[|observed|](_ => "");
    for i := 0 to |observed|
      invariant forall j | 0 <= j < i :: ids[j] == observed[j]
    {
      ids[i] := observed[i];
    }
  }

  method IdSet(ids: seq<string>) returns (s: set<string>)
    ensures s == Elements(ids)
  {
    s := {};
    for i := 0 to |ids|
      invariant s == Elements(ids[..i])
    {
      assert ids[..i + 1] == ids[..i] + [ids[i]];
      ElementsAppend(ids[..i], [ids[i]]);
      s := s + {ids[i]};
    }
    assert ids[..|ids|] == ids;
  }

  /** Associates what is desired and not observed, then disassociates what is observed and not desired. */
  method ReconcileVpcs(api: Endpoint<Option<Zone>, ZoneCall>, region: string,
                       desired: seq<Option<string>>, observed: seq<string>) returns (ok: bool)
    modifies api`state, api`log
    ensures Sent(api.service, old(api.state), old(api.log), VpcPlan(region, Ids(desired), observed),
                 api.state, api.log, ok)
  {
    var observedSet := IdSet(observed);
    var ids := Ids(desired);
    var desiredSet := IdSet(ids);
    ghost var s0, log0 := api.state, api.log;
    ghost var associate, disassociate := AssociatePlan(region, ids, observed), DisassociatePlan(region, observed, ids);
    ok := AssociateMissing(api, region, ids, observed, observedSet);
    if !ok {
      SentStop(api.service, s0, log0, associate, api.state, api.log, disassociate);
      return;
    }
    ghost var s1, log1 := api.state, api.log;
    ok := DisassociateExtra(api, region, observed, ids, desiredSet);
    SentThen(api.service, s0, log0, associate, s1, log1, disassociate, api.state, api.log, ok);
  }

  /** The first loop of reconcileVPCs that issues calls. */
  method AssociateMissing(api: Endpoint<Option<Zone>, ZoneCall>, region: string, desired: seq<string>,
                          ghost observed: seq<string>, observedSet: set<string>) returns (ok: bool)
    requires observedSet == Elements(observed)
    modifies api`state, api`log
    ensures Sent(api.service, old(api.state), old(api.log), AssociatePlan(region, desired, observed),
                 api.state, api.log, ok)
  {
    ghost var s0, log0 := api.state, api.log;
    SentNothing(api.service, s0, log0);
    for i := 0 to |desired|
      invariant Sent(api.service, s0, log0, AssociatePlan(region, desired[..i], observed), api.state, api.log, true)
    {
      ghost var done := AssociatePlan(region, desired[..i], observed);
      assert desired[..i + 1][..i] == desired[..i];
      if desired[i] !in observedSet {
        ghost var c := Resource(Associate(desired[i], region));
        ok := api.SendNext(Resource(Associate(desired[i], region)), s0, log0, done);
        if !ok {
          ghost var rest := AssociateSplit(region, desired, observed, i);
          SentStop(api.service, s0, log0, done + [c], api.state, api.log, rest);
          return false;
        }
      } else {
        assert done + [] == done;
      }
    }
    assert desired[..|desired|] == desired;
    ok := true;
  }

  /** The second one. */
  method DisassociateExtra(api: Endpoint<Option<Zone>, ZoneCall>, region: string, observed: seq<string>,
                           ghost desired: seq<string>, desiredSet: set<string>) returns (ok: bool)
    requires desiredSet == Elements(desired)
    modifies api`state, api`log
    ensures Sent(api.service, old(api.state), old(api.log), DisassociatePlan(region, observed, desired),
                 api.state, api.log, ok)
  {
    ghost var s0, log0 := api.state, api.log;
    SentNothing(api.service, s0, log0);
    for i := 0 to |observed|
      invariant Sent(api.service, s0, log0, DisassociatePlan(region, observed[..i], desired), api.state, api.log, true)
    {
      ghost var done := DisassociatePlan(region, observed[..i], desired);
      assert observed[..i + 1][..i] == observed[..i];
      if observed[i] !in desiredSet {
        ghost var c := Resource(Disassociate(observed[i], region));
        ok := api.SendNext(Resource(Disassociate(observed[i], region)), s0, log0, done);
        if !ok {
          ghost var rest := DisassociateSplit(region, observed, desired, i);
          SentStop(api.service, s0, log0, done + [c], api.state, api.log, rest);
          return false;
        }
      } else {
        assert done + [] == done;
      }
    }
    assert observed[..|observed|] == observed;
    ok := true;
  }

  lemma {:induction false} AssociateSplit(region: string, desired: seq<string>, observed: seq<string>, i: nat)
    returns (rest: seq<Call<ZoneCall>>)
    requires i < |desired| && desired[i] !in observed
    ensures AssociatePlan(region, desired, observed) ==
            (AssociatePlan(region, desired[..i], observed) + [Resource(Associate(desired[i], region))]) + rest
  {
    if i == |desired| - 1 {
      rest := [];
    } else {
      var init, last := desired[..|desired| - 1], desired[|desired| - 1];
      rest := AssociateSplit(region, init, observed, i);
      assert init[..i] == desired[..i];
      rest := rest + if last in observed then [] else [Resource(Associate(last, region))];
    }
  }

  lemma {:induction false} DisassociateSplit(region: string, observed: seq<string>, desired: seq<string>, i: nat)
    returns (rest: seq<Call<ZoneCall>>)
    requires i < |observed| && observed[i] !in desired
    ensures DisassociatePlan(region, observed, desired) ==
            (DisassociatePlan(region, observed[..i], desired) + [Resource(Disassociate(observed[i], region))]) + rest
  {
    if i == |observed| - 1 {
      rest := [];
    } else {
      var init, last := observed[..|observed| - 1], observed[|observed| - 1];
      rest := DisassociateSplit(region, init, desired, i);
      assert init[..i] == observed[..i];
      rest := rest + if last in desired then [] else [Resource(Disassociate(last, region))];
    }
  }

  class PrivateZoneResource {
    var spec: Spec
    var externalName: string

    constructor (spec: Spec)
      ensures this.spec == spec && this.externalName == ""
    {
      this.spec, this.externalName := spec, "";
    }

    method LateInitialize(observed: Zone, tags: Tags, li: LateInitializer)
      modifies this`spec, li
      ensures spec == LateInitialized(old(spec), observed, tags)
      ensures li.changed == (old(li.changed) || spec != old(spec))
    {
      var email := LateInitPtrIfNonZero(spec.email, observed.email, "", li);
      var ttl := LateInitPtrIfNonZero(spec.ttl, observed.ttl, 0, li);
      var description := LateInitPtrIfNonZero(spec.description, observed.description, "", li);
      var tags := LateInitPtrIfNonZero(spec.tags, tags, map[], li);
      spec := spec.(email := email, ttl := ttl, description := description, tags := tags);
    }

    method Observe(api: Endpoint<Option<Zone>, ZoneCall>) returns (r: Observation)
      modifies this`spec, api`failed
      ensures r.Failed? <==> api.failed != old(api.failed)
      ensures !r.Failed? ==> (r.Absent? <==> externalName == "" || api.state.res.None?)
      ensures r.Exists? ==>
                && spec == LateInitialized(old(spec), api.state.res.value, api.state.tags)
                && r.lateInitialized == (spec != old(spec))
                && r.upToDate == IsUpToDate(spec, api.state.res.value, api.state.tags)
      ensures !r.Exists? ==> spec == old(spec)
    {
      if externalName == "" {
        return Absent;
      }
      var read := api.Read();
      if read.None? {
        return Failed;
      }
      if read.value.res.None? {
        return Absent;
      }
      var observed, observedTags := read.value.res.value, read.value.tags;
      var li := new LateInitializer();
      LateInitialize(observed, observedTags, li);
      var vpcs := IsVpcsUpToDate(spec.vpcs, observed.routers);
      r := Exists(&& IsOptionalUpToDate(spec.email, observed.email) && IsOptionalUpToDate(spec.ttl, observed.ttl)
                  && IsOptionalUpToDate(spec.description, observed.description)
                  && IsOptionalUpToDate(spec.tags, observedTags) && vpcs, li.changed);
    }

    method Create(api: Endpoint<Option<Zone>, ZoneCall>, id: string) returns (r: Outcome)
      modifies this`externalName, api`state, api`log
      ensures old(externalName) != "" || !ValidParameters(spec) ==>
                api.state == old(api.state) && api.log == old(api.log) && externalName == old(externalName)
      ensures r.Refused? <==>
                && old(externalName) == ""
                && (spec.name == "" || |spec.vpcs| == 0 || exists i :: 0 <= i < |spec.vpcs| && spec.vpcs[i].GetOr("") == "")
      ensures old(externalName) == "" && ValidParameters(spec) ==>
                && Sent(api.service, old(api.state), old(api.log), CreatePlan(spec), api.state, api.log, r.Completed?)
                && externalName == if r.Completed? then id else ""
    {
      if externalName != "" {
        return Completed;
      }
      if !ValidParameters(spec) {
        return Refused;
      }
      var opts := BuildCreateOpts(spec);
      var ok := api.Send(Resource(opts));
      if !ok {
        return Aborted;
      }
      externalName := id;
      r := Completed;
    }

    method Update(api: Endpoint<Option<Zone>, ZoneCall>, region: string) returns (r: Outcome)
      modifies api
      ensures r.Refused? <==> externalName == "" || api.failed != old(api.failed) || old(api.state).res.None?
      ensures r.Refused? ==> api.state == old(api.state) && api.log == old(api.log)
      ensures !r.Refused? ==>
                Sent(api.service, old(api.state), old(api.log), UpdatePlan(region, spec, old(api.state)),
                     api.state, api.log, r.Completed?)
    {
      if externalName == "" {
        return Refused;
      }
      var read := api.Read();
      if read.None? || read.value.res.None? {
        return Refused;
      }
      var observed, observedTags := read.value.res.value, read.value.tags;
      ghost var s0, log0 := api.state, api.log;
      ghost var fields := FieldPlan(spec, observed);
      ghost var vpcs := VpcPlan(region, Ids(spec.vpcs), observed.routers);
      ghost var tags := TagPlan<ZoneCall>(observedTags, spec.tags);
      SentNothing(api.service, s0, log0);
      var opts, needsUpdate := BuildUpdateOpts(spec, observed);
      if needsUpdate {
        var ok := api.Send(Resource(opts));
        if !ok {
          SentStop(api.service, s0, log0, fields, api.state, api.log, vpcs + tags);
          return Aborted;
        }
      }
      ghost var s1, log1 := api.state, api.log;
      var ok := ReconcileVpcs(api, region, spec.vpcs, observed.routers);
      if !ok {
        SentStop(api.service, s1, log1, vpcs, api.state, api.log, tags);
        SentThen(api.service, s0, log0, fields, s1, log1, vpcs + tags, api.state, api.log, false);
        return Aborted;
      }
      ghost var s2, log2 := api.state, api.log;
      ok := ReconcileTags(api, observedTags, spec.tags);
      SentThen(api.service, s1, log1, vpcs, s2, log2, tags, api.state, api.log, ok);
      SentThen(api.service, s0, log0, fields, s1, log1, vpcs + tags, api.state, api.log, ok);
      r := if ok then Completed else Aborted;
    }
  }

  ghost function CreatePlan(spec: Spec): seq<Call<ZoneCall>> {
    [Resource(CreateZone(Zone(spec.name, spec.email.GetOr(""), spec.ttl.GetOr(0), spec.description.GetOr(""),
                              if spec.vpcs == [] then [] else [Ids(spec.vpcs)[0]])))]
  }
}
