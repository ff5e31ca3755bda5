/** internal/controller/vpc/vpc.go */
module Vpc {
  import opened Basics
  import opened Cloud
  import opened TagReconciler
  import opened LateInit

  datatype Spec = Spec(name: string, description: Option<string>, cidr: string,
                       secondaryCidr: Option<string>, tags: Option<Tags>)

  datatype Vpc = Vpc(name: string, description: string, cidr: string, secondaries: seq<string>)

  datatype VpcCall =
    | CreateVpc(name: string, cidr: string, description: string)
    | UpdateVpc(name: string, newDescription: Option<string>)
    | RemoveSecondaryCidr(cidrs: seq<string>)
    | AddSecondaryCidr(cidrs: seq<string>)

  /** The VPC in the cloud, if there is one. */
  type Stored = State<Option<Vpc>>

  /** What the network service does; an empty name in an update leaves the name alone. */
  function VpcStep(s: Option<Vpc>, c: VpcCall): Option<Vpc> {
    match c
    case CreateVpc(name, cidr, description) => if s.None? then Some(Vpc(name, description, cidr, [])) else s
    case UpdateVpc(name, description) =>
      if s.None? then s
      else Some(s.value.(name := if name == "" then s.value.name else name,
                         description := description.GetOr(s.value.description)))
    case RemoveSecondaryCidr(cidrs) =>
      if s.None? then s else Some(s.value.(secondaries := Without(s.value.secondaries, cidrs)))
    case AddSecondaryCidr(cidrs) =>
      if s.None? then s else Some(s.value.(secondaries := s.value.secondaries + cidrs))
  }

  ghost function VpcService(tagMatch: TagMatch): Service<Option<Vpc>, VpcCall> {
    Service(VpcStep, tagMatch)
  }

  predicate ValidParameters(spec: Spec, isCidr: string -> bool) {
    && spec.name != "" && spec.cidr != "" && isCidr(spec.cidr)
    && (spec.secondaryCidr.Some? && spec.secondaryCidr.value != "" ==> isCidr(spec.secondaryCidr.value))
  }

  /** The one secondary CIDR, "" when there is none; more than one is an error the controller cannot leave. */
  function ObservedSecondary(vpc: Vpc): Option<string> {
    if |vpc.secondaries| > 1 then None
    else Some(if vpc.secondaries == [] then "" else vpc.secondaries[0])
  }

  ghost predicate Single(s: Stored) {
    s.res.Some? ==> |s.res.value.secondaries| <= 1
  }

  ghost predicate Observable(s: Stored) {
    s.res.Some? && Single(s)
  }

  ghost function Slot(s: Stored): string
    requires Observable(s)
  {
    ObservedSecondary(s.res.value).value
  }

  predicate IsUpToDate(spec: Spec, observed: Vpc, secondary: string, tags: Tags) {
    && spec.name == observed.name && spec.cidr == observed.cidr
    && IsOptionalUpToDate(spec.description, observed.description)
    && IsOptionalUpToDate(spec.secondaryCidr, secondary)
    && IsOptionalUpToDate(spec.tags, tags)
  }

  function LateInitialized(spec: Spec, observed: Vpc, secondary: string, tags: Tags): (r: Spec)
    ensures r.name == spec.name && r.cidr == spec.cidr
    ensures FillsNonZero(spec.description, r.description, observed.description, "")
    ensures FillsNonZero(spec.secondaryCidr, r.secondaryCidr, secondary, "") && FillsNonZero(spec.tags, r.tags, tags, map[])
    ensures IsUpToDate(r, observed, secondary, tags) <==> IsUpToDate(spec, observed, secondary, tags)
  {
    spec.(description := InitPtrIfNonZero(spec.description, observed.description, ""),
          secondaryCidr := InitPtrIfNonZero(spec.secondaryCidr, secondary, ""),
          tags := InitPtrIfNonZero(spec.tags, tags, map[]))
  }

  lemma LateInitIdempotent(spec: Spec, observed: Vpc, secondary: string, tags: Tags)
    ensures var r := LateInitialized(spec, observed, secondary, tags);
            LateInitialized(r, observed, secondary, tags) == r
  {
  }

  /** The detector, field by field: the spec, completed by the observed values, is what was observed. */
  lemma UpToDateIff(spec: Spec, observed: Vpc, secondary: string, tags: Tags)
    ensures IsUpToDate(spec, observed, secondary, tags) <==>
              && (spec.name, spec.cidr) == (observed.name, observed.cidr)
              && (spec.description.GetOr(observed.description), spec.secondaryCidr.GetOr(secondary), spec.tags.GetOr(tags))
                 == (observed.description, secondary, tags)
  {
  }

  // ----- the calls of one Update -----

  ghost function ChangedDescription(spec: Spec, vpc: Vpc): Option<string> {
    if IsOptionalUpToDate(spec.description, vpc.description) then None else spec.description
  }

  ghost function FieldPlan(spec: Spec, vpc: Vpc): seq<Call<VpcCall>> {
    if spec.name == vpc.name && ChangedDescription(spec, vpc).None? then []
    else [Resource(UpdateVpc(spec.name, ChangedDescription(spec, vpc)))]
  }

  ghost function SecondaryPlan(current: string, desired: Option<string>): seq<Call<VpcCall>> {
    if desired.None? || desired.value == current then []
    else
      (if current == "" then [] else [Resource(RemoveSecondaryCidr([current]))]) +
      (if desired.value == "" then [] else [Resource(AddSecondaryCidr([desired.value]))])
  }

  ghost function UpdatePlan(spec: Spec, s: Stored): seq<Call<VpcCall>>
    requires Observable(s)
  {
    FieldPlan(spec, s.res.value) + (TagPlan(s.tags, spec.tags) + SecondaryPlan(Slot(s), spec.secondaryCidr))
  }

  /** Update goes past its reads and checks exactly in these states. */
  ghost predicate Accepts(spec: Spec, s: Stored, isCidr: string -> bool) {
    ValidParameters(spec, isCidr) && Observable(s) && spec.cidr == s.res.value.cidr
  }

  // ----- the controller -----

  class UpdateOpts {
    var name: string
    var description: Option<string>

    constructor (name: string)
      ensures this.name == name && description.None?
    {
      this.name, description := name, None;
    }

    method ApplyDescriptionIfChanged(desired: Option<string>, observed: string) returns (changed: bool)
      modifies this
      ensures name == old(name)
      ensures changed <==> !IsOptionalUpToDate(desired, observed)
      ensures description == if changed then desired else old(description)
    {
      if desired.None? || desired.value == observed {
        return false;
      }
      description := desired;
      changed := true;
    }
  }

  method BuildUpdateOpts(spec: Spec, observed: Vpc) returns (opts: UpdateOpts, needsUpdate: bool)
    ensures fresh(opts) && opts.name == spec.name && opts.description == ChangedDescription(spec, observed)
    ensures FieldPlan(spec, observed) ==
            if needsUpdate then [Resource(UpdateVpc(opts.name, opts.description))] else []
  {
    opts := new UpdateOpts(spec.name);
    needsUpdate := spec.name != observed.name;
    var changed := opts.ApplyDescriptionIfChanged(spec.description, observed.description);
    if changed {
      needsUpdate := true;
    }
  }

  class VpcResource {
    var spec: Spec
    var externalName: string

    constructor (spec: Spec)
      ensures this.spec == spec && this.externalName == ""
    {
      this.spec, this.externalName := spec, "";
    }

    method LateInitialize(observed: Vpc, secondary: string, tags: Tags, li: LateInitializer)
      modifies this`spec, li
      ensures spec == LateInitialized(old(spec), observed, secondary, tags)
      ensures li.changed == (old(li.changed) || spec != old(spec))
    {
      var description := LateInitPtrIfNonZero(spec.description, observed.description, "", li);
      var secondaryCidr := LateInitPtrIfNonZero(spec.secondaryCidr, secondary, "", li);
      var tags := LateInitPtrIfNonZero(spec.tags, tags, map[], li);
      spec := spec.(description := description, secondaryCidr := secondaryCidr, tags := tags);
    }

    method Observe(api: Endpoint<Option<Vpc>, VpcCall>, isCidr: string -> bool) returns (r: Observation)
      modifies this`spec, api`failed
      ensures old(spec).name == "" || old(spec).cidr == "" || !isCidr(old(spec).cidr) ==> r.Failed?
      ensures r.Failed? <==>
                || !ValidParameters(old(spec), isCidr) || api.failed != old(api.failed)
                || (externalName != "" && !Single(api.state))
      ensures !r.Failed? ==> (r.Absent? <==> externalName == "" || api.state.res.None?)
      ensures r.Exists? ==>
                && spec == LateInitialized(old(spec), api.state.res.value, Slot(api.state), api.state.tags)
                && r.lateInitialized == (spec != old(spec))
                && r.upToDate == IsUpToDate(spec, api.state.res.value, Slot(api.state), api.state.tags)
      ensures !r.Exists? ==> spec == old(spec)
    {
      if !ValidParameters(spec, isCidr) {
        return Failed;
      }
      if externalName == "" {
        return Absent;
      }
      var read := api.Read();
      if read.None? {
        return Failed;
      }
      var s := read.value;
      if s.res.None? {
        return Absent;
      }
      var secondary := ObservedSecondary(s.res.value);
      if secondary.None? {
        return Failed;
      }
      var li := new LateInitializer();
      LateInitialize(s.res.value, secondary.value, s.tags, li);
      r := Exists(IsUpToDate(spec, s.res.value, secondary.value, s.tags), li.changed);
    }

    /** `id` is the identifier the API returns for the created VPC. */
    method Create(api: Endpoint<Option<Vpc>, VpcCall>, isCidr: string -> bool, id: string) returns (r: Outcome)
      modifies this`externalName, api`state, api`log
      ensures (old(externalName) != "" || !ValidParameters(spec, isCidr)) ==>
                api.state == old(api.state) && api.log == old(api.log) && externalName == old(externalName)
      ensures old(externalName) == "" && ValidParameters(spec, isCidr) ==>
                && Sent(api.service, old(api.state), old(api.log), CreatePlan(spec), api.state, api.log, r.Completed?)
                && externalName == if r.Completed? then id else ""
      ensures r.Refused? <==>
                && old(externalName) == ""
                && (|| spec.name == "" || spec.cidr == "" || !isCidr(spec.cidr)
                    || (spec.secondaryCidr.GetOr("") != "" && !isCidr(spec.secondaryCidr.value)))
    {
      if externalName != "" {
        return Completed;
      }
      if !ValidParameters(spec, isCidr) {
        return Refused;
      }
      var ok := api.Send(Resource(CreateVpc(spec.name, spec.cidr, spec.description.GetOr(""))));
      if !ok {
        return Aborted;
      }
      externalName := id;
      r := Completed;
    }

    method Update(api: Endpoint<Option<Vpc>, VpcCall>, isCidr: string -> bool) returns (r: Outcome)
      modifies api
      ensures r.Refused? <==> externalName == "" || api.failed != old(api.failed) || !Accepts(spec, old(api.state), isCidr)
      ensures old(api.state).res.Some? && spec.cidr != old(api.state).res.value.cidr ==> r.Refused?
      ensures spec.name == "" || (spec.secondaryCidr.GetOr("") != "" && !isCidr(spec.secondaryCidr.value)) ==> r.Refused?
      ensures r.Refused? ==> api.state == old(api.state) && api.log == old(api.log)
      ensures !r.Refused? ==>
                Sent(api.service, old(api.state), old(api.log), UpdatePlan(spec, old(api.state)),
                     api.state, api.log, r.Completed?)
    {
      if !ValidParameters(spec, isCidr) || externalName == "" {
        return Refused;
      }
      var read := api.Read();
      if read.None? || read.value.res.None? {
        return Refused;
      }
      var observed, observedTags := read.value.res.value, read.value.tags;
      var secondary := ObservedSecondary(observed);
      if secondary.None? || spec.cidr != observed.cidr {
        return Refused;
      }
      ghost var s0, log0 := api.state, api.log;
      ghost var fields := FieldPlan(spec, observed);
      ghost var tags := TagPlan<VpcCall>(observedTags, spec.tags);
      ghost var secondaries := SecondaryPlan(secondary.value, spec.secondaryCidr);
      var ok := UpdateFields(api, observed);
      if !ok {
        SentStop(api.service, s0, log0, fields, api.state, api.log, tags + secondaries);
        return Aborted;
      }
      ghost var s1, log1 := api.state, api.log;
      ok := ReconcileTags(api, observedTags, spec.tags);
      if !ok {
        SentStop(api.service, s1, log1, tags, api.state, api.log, secondaries);
        SentThen(api.service, s0, log0, fields, s1, log1, tags + secondaries, api.state, api.log, false);
        return Aborted;
      }
      ghost var s2, log2 := api.state, api.log;
      ok := ReconcileSecondaryCidr(api, secondary.value, spec.secondaryCidr);
      SentThen(api.service, s1, log1, tags, s2, log2, secondaries, api.state, api.log, ok);
      SentThen(api.service, s0, log0, fields, s1, log1, tags + secondaries, api.state, api.log, ok);
      r := if ok then Completed else Aborted;
    }

    method UpdateFields(api: Endpoint<Option<Vpc>, VpcCall>, observed: Vpc) returns (ok: bool)
      modifies api`state, api`log
      ensures Sent(api.service, old(api.state), old(api.log), FieldPlan(spec, observed), api.state, api.log, ok)
    {
      SentNothing(api.service, api.state, api.log);
      var opts, needsUpdate := BuildUpdateOpts(spec, observed);
      if !needsUpdate {
        return true;
      }
      ok := api.Send(Resource(UpdateVpc(opts.name, opts.description)));
    }
  }

  method ReconcileSecondaryCidr(api: Endpoint<Option<Vpc>, VpcCall>, current: string, desired: Option<string>)
    returns (ok: bool)
    modifies api`state, api`log
    ensures Sent(api.service, old(api.state), old(api.log), SecondaryPlan(current, desired), api.state, api.log, ok)
  {
    ghost var s0, log0 := api.state, api.log;
    SentNothing(api.service, s0, log0);
    if desired.None? || desired.value == current {
      return true;
    }
    var target := desired.value;
    if target == "" {
      if current == "" {
        return true;
      }
      assert SecondaryPlan(current, desired) == [Resource(RemoveSecondaryCidr([current]))];
      ok := api.Send(Resource(RemoveSecondaryCidr([current])));
      return;
    }
    ghost var plan: seq<Call<VpcCall>> := [];
    if current != "" {
      ok := api.SendNext(Resource(RemoveSecondaryCidr([current])), s0, log0, plan);
      plan := plan + [Resource(RemoveSecondaryCidr([current]))];
      if !ok {
        SentStop(api.service, s0, log0, plan, api.state, api.log, [Resource(AddSecondaryCidr([target]))]);
        return false;
      }
    }
    ok := api.SendNext(Resource(AddSecondaryCidr([target])), s0, log0, plan);
  }

  ghost function CreatePlan(spec: Spec): seq<Call<VpcCall>> {
    [Resource(CreateVpc(spec.name, spec.cidr, spec.description.GetOr("")))]
  }
}
