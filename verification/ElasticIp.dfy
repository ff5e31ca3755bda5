/** internal/controller/elasticip/elasticip.go */
module ElasticIp {
  import opened Basics
  import opened Cloud
  import opened TagReconciler
  import opened LateInit

  datatype Spec = Spec(kind: string, ipAddress: Option<string>, name: Option<string>, portId: Option<string>,
                       bandwidthName: string, bandwidthSize: int, shareType: string, chargeMode: Option<string>,
                       tags: Option<Tags>)

  datatype Bandwidth = Bandwidth(name: string, size: int, shareType: string, chargeMode: string)

  /** `portId` is "" when no port is bound. */
  datatype PublicIp = PublicIp(kind: string, address: string, name: string, portId: string, bandwidth: Bandwidth)

  datatype EipCall = UpdateBandwidth(name: string, size: int) | UpdatePort(portId: string) | DeleteEip

  type Stored = State<Option<PublicIp>>

  /** What the services do: a bandwidth update leaves zero fields alone, a port update with "" unbinds. */
  function EipStep(s: Option<PublicIp>, c: EipCall): Option<PublicIp> {
    if s.None? then s
    else
      var ip := s.value;
      match c
      case UpdateBandwidth(name, size) =>
        Some(ip.(bandwidth := ip.bandwidth.(name := if name == "" then ip.bandwidth.name else name,
                                            size := if size == 0 then ip.bandwidth.size else size)))
      case UpdatePort(portId) => Some(ip.(portId := portId))
      case DeleteEip => None
  }

  ghost function EipService(m: TagMatch): Service<Option<PublicIp>, EipCall> {
    Service(EipStep, m)
  }

  function IpTypeToSdk(kind: string): string {
    if kind == "BGP" then "5_bgp" else ""
  }

  function ShareTypeToSdk(shareType: string): string {
    if shareType == "Dedicated" then "PER" else ""
  }

  // ----- detector -----

  predicate IsUpToDate(spec: Spec, ip: PublicIp, tags: Tags) {
    && IpTypeToSdk(spec.kind) == ip.kind
    && IsOptionalUpToDate(spec.portId, ip.portId)
    && spec.bandwidthName == ip.bandwidth.name && spec.bandwidthSize == ip.bandwidth.size
    && ShareTypeToSdk(spec.shareType) == ip.bandwidth.shareType
    && IsOptionalUpToDate(spec.chargeMode, ip.bandwidth.chargeMode)
    && IsOptionalUpToDate(spec.tags, tags)
  }

  predicate ValidImmutableFields(spec: Spec, ip: PublicIp) {
    && IpTypeToSdk(spec.kind) == ip.kind
    && IsOptionalUpToDate(spec.ipAddress, ip.address) && IsOptionalUpToDate(spec.name, ip.name)
    && ShareTypeToSdk(spec.shareType) == ip.bandwidth.shareType
    && IsOptionalUpToDate(spec.chargeMode, ip.bandwidth.chargeMode)
  }

  /** The two immutable texts in the service's spelling, and the set immutable fields as observed. */
  predicate SameImmutables(spec: Spec, ip: PublicIp) {
    && ip.kind == (if spec.kind == "BGP" then "5_bgp" else "")
    && ip.bandwidth.shareType == (if spec.shareType == "Dedicated" then "PER" else "")
    && (spec.ipAddress.GetOr(ip.address), spec.name.GetOr(ip.name), spec.chargeMode.GetOr(ip.bandwidth.chargeMode))
       == (ip.address, ip.name, ip.bandwidth.chargeMode)
  }

  lemma ValidImmutableFieldsIff(spec: Spec, ip: PublicIp)
    ensures ValidImmutableFields(spec, ip) <==> SameImmutables(spec, ip)
  {
  }

  /** The detector, field by field: the spec, completed by the observed values, is what was observed. */
  lemma UpToDateIff(spec: Spec, ip: PublicIp, tags: Tags)
    ensures IsUpToDate(spec, ip, tags) <==>
              && ip.kind == (if spec.kind == "BGP" then "5_bgp" else "")
              && ip.bandwidth.shareType == (if spec.shareType == "Dedicated" then "PER" else "")
              && (spec.bandwidthName, spec.bandwidthSize) == (ip.bandwidth.name, ip.bandwidth.size)
              && (spec.portId.GetOr(ip.portId), spec.chargeMode.GetOr(ip.bandwidth.chargeMode), spec.tags.GetOr(tags))
                 == (ip.portId, ip.bandwidth.chargeMode, tags)
  {
  }

  function LateInitialized(spec: Spec, ip: PublicIp, tags: Tags): (r: Spec)
    ensures r.kind == spec.kind && r.bandwidthName == spec.bandwidthName && r.bandwidthSize == spec.bandwidthSize
    ensures r.shareType == spec.shareType && FillsNonZero(spec.tags, r.tags, tags, map[])
    ensures FillsNonZero(spec.ipAddress, r.ipAddress, ip.address, "") && FillsNonZero(spec.name, r.name, ip.name, "")
    ensures FillsNonZero(spec.portId, r.portId, ip.portId, "")
    ensures FillsNonZero(spec.chargeMode, r.chargeMode, ip.bandwidth.chargeMode, "")
    ensures IsUpToDate(r, ip, tags) <==> IsUpToDate(spec, ip, tags)
    ensures ValidImmutableFields(r, ip) <==> ValidImmutableFields(spec, ip)
  {
    spec.(ipAddress := InitPtrIfNonZero(spec.ipAddress, ip.address, ""),
          name := InitPtrIfNonZero(spec.name, ip.name, ""),
          portId := InitPtrIfNonZero(spec.portId, ip.portId, ""),
          chargeMode := InitPtrIfNonZero(spec.chargeMode, ip.bandwidth.chargeMode, ""),
          tags := InitPtrIfNonZero(spec.tags, tags, map[]))
  }

  lemma LateInitIdempotent(spec: Spec, ip: PublicIp, tags: Tags)
    ensures var r := LateInitialized(spec, ip, tags); LateInitialized(r, ip, tags) == r
  {
  }

  // ----- planner -----

  ghost function BandwidthPlan(spec: Spec, bandwidth: Bandwidth): seq<Call<EipCall>> {
    if spec.bandwidthName == bandwidth.name && spec.bandwidthSize == bandwidth.size then []
    else [Resource(UpdateBandwidth(if spec.bandwidthName == bandwidth.name then "" else spec.bandwidthName,
                                   if spec.bandwidthSize == bandwidth.size then 0 else spec.bandwidthSize))]
  }

  /** An unset port counts as "no port". */
  ghost function PortPlan(desired: Option<string>, observed: string): seq<Call<EipCall>> {
    if desired.GetOr("") == observed then [] else [Resource(UpdatePort(desired.GetOr("")))]
  }

  ghost function UpdatePlan(spec: Spec, ip: PublicIp, tags: Tags): seq<Call<EipCall>> {
    BandwidthPlan(spec, ip.bandwidth) + (PortPlan(spec.portId, ip.portId) + TagPlan(tags, spec.tags))
  }

  ghost function DeletePlan(ip: PublicIp): seq<Call<EipCall>> {
    UnbindCalls(ip.portId) + [Resource(DeleteEip)]
  }

  ghost function UnbindCalls(portId: string): seq<Call<EipCall>> {
    if portId != "" then [Resource(UpdatePort(""))] else []
  }

  // ----- the controller -----

  method BuildBandwidthUpdateOpts(spec: Spec, observed: Bandwidth) returns (opts: EipCall, needsUpdate: bool)
    ensures BandwidthPlan(spec, observed) == if needsUpdate then [Resource(opts)] else []
  {
    opts := UpdateBandwidth("", 0);
    needsUpdate := false;
    if spec.bandwidthName != observed.name {
      opts := opts.(name := spec.bandwidthName);
      needsUpdate := true;
    }
    if spec.bandwidthSize != observed.size {
      opts := opts.(size := spec.bandwidthSize);
      needsUpdate := true;
    }
  }

  method UpdateBandwidthOf(api: Endpoint<Option<PublicIp>, EipCall>, spec: Spec, observed: Bandwidth) returns (ok: bool)
    modifies api`state, api`log
    ensures Sent(api.service, old(api.state), old(api.log), BandwidthPlan(spec, observed), api.state, api.log, ok)
  {
    SentNothing(api.service, api.state, api.log);
    var opts, needsUpdate := BuildBandwidthUpdateOpts(spec, observed);
    ok := true;
    if needsUpdate {
      ok := api.Send(Resource(opts));
    }
  }

  method UpdatePortBinding(api: Endpoint<Option<PublicIp>, EipCall>, desired: Option<string>, observed: string)
    returns (ok: bool)
    modifies api`state, api`log
    ensures Sent(api.service, old(api.state), old(api.log), PortPlan(desired, observed), api.state, api.log, ok)
  {
    SentNothing(api.service, api.state, api.log);
    if desired.GetOr("") == observed {
      return true;
    }
    ok := api.Send(Resource(UpdatePort(desired.GetOr(""))));
  }

  class ElasticIpResource {
    var spec: Spec
    var externalName: string

    constructor (spec: Spec)
      ensures this.spec == spec && this.externalName == ""
    {
      this.spec, this.externalName := spec, "";
    }

    method LateInitialize(observed: PublicIp, tags: Tags, li: LateInitializer)
      modifies this`spec, li
      ensures spec == LateInitialized(old(spec), observed, tags)
      ensures li.changed == (old(li.changed) || spec != old(spec))
    {
      var ipAddress := LateInitPtrIfNonZero(spec.ipAddress, observed.address, "", li);
      var name := LateInitPtrIfNonZero(spec.name, observed.name, "", li);
      var portId := LateInitPtrIfNonZero(spec.portId, observed.portId, "", li);
      var chargeMode := LateInitPtrIfNonZero(spec.chargeMode, observed.bandwidth.chargeMode, "", li);
      var tags := LateInitPtrIfNonZero(spec.tags, tags, map[], li);
      spec := spec.(ipAddress := ipAddress, name := name, portId := portId, chargeMode := chargeMode, tags := tags);
    }

    /** An address reported up to date gets no call from an Update in this state. */
    method Observe(api: Endpoint<Option<PublicIp>, EipCall>) returns (r: Observation)
      modifies this`spec, api`failed
      ensures r.Failed? <==> api.failed != old(api.failed)
      ensures !r.Failed? ==> (r.Absent? <==> externalName == "" || api.state.res.None?)
      ensures r.Exists? ==>
                && spec == LateInitialized(old(spec), api.state.res.value, api.state.tags)
                && r.lateInitialized == (spec != old(spec))
                && r.upToDate == IsUpToDate(spec, api.state.res.value, api.state.tags)
                && (r.upToDate ==> UpdatePlan(spec, api.state.res.value, api.state.tags) == [])
      ensures !r.Exists? ==> spec == old(spec)
    {
      if externalName == "" {
        return Absent;
      }
      var read := api.Read();
      if read.None? {
        return Failed;
      }
      if read.value.res.None? {
        return Absent;
      }
      var li := new LateInitializer();
      Agreement(spec, read.value.res.value, read.value.tags);
      LateInitialize(read.value.res.value, read.value.tags, li);
      r := Exists(IsUpToDate(spec, read.value.res.value, read.value.tags), li.changed);
    }

    method Update(api: Endpoint<Option<PublicIp>, EipCall>) returns (r: Outcome)
      modifies api
      ensures r.Refused? <==>
                || externalName == "" || api.failed != old(api.failed) || old(api.state).res.None?
                || !SameImmutables(spec, old(api.state).res.value)
      ensures r.Refused? ==> api.state == old(api.state) && api.log == old(api.log)
      ensures !r.Refused? ==>
                Sent(api.service, old(api.state), old(api.log),
                     UpdatePlan(spec, old(api.state).res.value, old(api.state).tags), api.state, api.log, r.Completed?)
    {
      if externalName == "" {
        return Refused;
      }
      var read := api.Read();
      if read.None? || read.value.res.None? {
        return Refused;
      }
      var observed, observedTags := read.value.res.value, read.value.tags;
      ValidImmutableFieldsIff(spec, observed);
      if !ValidImmutableFields(spec, observed) {
        return Refused;
      }
      r := UpdateFrom(api, observed, observedTags);
    }

    /** The calls of Update. */
    method UpdateFrom(api: Endpoint<Option<PublicIp>, EipCall>, observed: PublicIp, observedTags: Tags) returns (r: Outcome)
      modifies api`state, api`log
      ensures !r.Refused?
      ensures Sent(api.service, old(api.state), old(api.log), UpdatePlan(spec, observed, observedTags),
                   api.state, api.log, r.Completed?)
    {
      ghost var s0, log0 := api.state, api.log;
      ghost var bandwidth, port := BandwidthPlan(spec, observed.bandwidth), PortPlan(spec.portId, observed.portId);
      ghost var tags := TagPlan<EipCall>(observedTags, spec.tags);
      var ok := UpdateBandwidthOf(api, spec, observed.bandwidth);
      ghost var s1, log1 := api.state, api.log;
      if !ok {
        SentStop(api.service, s0, log0, bandwidth, s1, log1, port + tags);
        return Aborted;
      }
      ok := UpdatePortBinding(api, spec.portId, observed.portId);
      ghost var s2, log2 := api.state, api.log;
      if !ok {
        SentStop(api.service, s1, log1, port, s2, log2, tags);
        SentThen(api.service, s0, log0, bandwidth, s1, log1, port + tags, s2, log2, false);
        return Aborted;
      }
      ok := ReconcileTags(api, observedTags, spec.tags);
      SentThen(api.service, s1, log1, port, s2, log2, tags, api.state, api.log, ok);
      SentThen(api.service, s0, log0, bandwidth, s1, log1, port + tags, api.state, api.log, ok);
      r := if ok then Completed else Aborted;
    }

    method Delete(api: Endpoint<Option<PublicIp>, EipCall>) returns (r: Outcome)
      modifies api
      ensures r.Refused? <==> api.failed != old(api.failed)
      ensures externalName == "" ==> r.Completed?
      ensures old(api.state).res.None? ==> !r.Aborted?
      ensures r.Refused? || externalName == "" || old(api.state).res.None? ==> api.state == old(api.state) && api.log == old(api.log)
      ensures !r.Refused? && externalName != "" && old(api.state).res.Some? ==>
                Sent(api.service, old(api.state), old(api.log), DeletePlan(old(api.state).res.value),
                     api.state, api.log, r.Completed?)
    {
      if externalName == "" {
        return Completed;
      }
      var read := api.Read();
      if read.None? {
        return Refused;
      }
      if read.value.res.None? {
        return Completed;
      }
      var ok := UnbindAndDelete(api, read.value.res.value.portId);
      r := if ok then Completed else Aborted;
    }

    /** The calls of Delete. */
    method UnbindAndDelete(api: Endpoint<Option<PublicIp>, EipCall>, portId: string) returns (ok: bool)
      modifies api`state, api`log
      ensures Sent(api.service, old(api.state), old(api.log), UnbindCalls(portId) + [Resource(DeleteEip)],
                   api.state, api.log, ok)
    {
      ghost var s0, log0 := api.state, api.log;
      SentNothing(api.service, s0, log0);
      ghost var delete: seq<Call<EipCall>> := [Resource(DeleteEip)];
      if portId != "" {
        ok := api.Send(Resource(UpdatePort("")));
        if !ok {
          SentStop(api.service, s0, log0, UnbindCalls(portId), api.state, api.log, delete);
          return;
        }
      }
      ghost var s1, log1 := api.state, api.log;
      ok := api.Send(Resource(DeleteEip));
      SentThen(api.service, s0, log0, UnbindCalls(portId), s1, log1, delete, api.state, api.log, ok);
    }
  }

  // ----- agreement and convergence -----

  /** For every spec: drift leads to a refusal or to a call, and an up-to-date address is left alone unless
      the spec leaves the port of a bound address unset. */
  lemma AgreementIff(spec: Spec, ip: PublicIp, tags: Tags)
    ensures !IsUpToDate(spec, ip, tags) ==> !ValidImmutableFields(spec, ip) || UpdatePlan(spec, ip, tags) != []
    ensures IsUpToDate(spec, ip, tags) ==> (UpdatePlan(spec, ip, tags) == [] <==> !(spec.portId.None? && ip.portId != ""))
  {
    TagAgreement<EipCall>(tags, spec.tags);
  }

  /** After late initialisation an up-to-date address gets no call. */
  lemma Agreement(spec: Spec, ip: PublicIp, tags: Tags)
    ensures var r := LateInitialized(spec, ip, tags);
            && (IsUpToDate(r, ip, tags) ==> UpdatePlan(r, ip, tags) == [])
            && (ValidImmutableFields(r, ip) ==> (IsUpToDate(r, ip, tags) <==> UpdatePlan(r, ip, tags) == []))
  {
    var r := LateInitialized(spec, ip, tags);
    AgreementIff(r, ip, tags);
    assert r.portId.None? ==> ip.portId == "";
  }

  /** The two sets of immutable fields differ: a changed address or alias is refused by Update but not seen
      by the detector, so it is reported only once something else drifts. */
  lemma UnseenImmutableChange(spec: Spec, ip: PublicIp, tags: Tags)
    requires IsUpToDate(spec, ip, tags)
    ensures ValidImmutableFields(spec, ip) <==>
            IsOptionalUpToDate(spec.ipAddress, ip.address) && IsOptionalUpToDate(spec.name, ip.name)
  {
  }

  ghost function BandwidthAfter(spec: Spec, b: Bandwidth): Bandwidth {
    b.(name := if spec.bandwidthName == "" then b.name else spec.bandwidthName,
       size := if spec.bandwidthSize == 0 then b.size else spec.bandwidthSize)
  }

  lemma AfterUpdate(m: TagMatch, spec: Spec, s: Stored)
    requires s.res.Some?
    ensures var ip := s.res.value;
            Run(EipService(m), s, UpdatePlan(spec, ip, s.tags)) ==
            State(Some(ip.(bandwidth := BandwidthAfter(spec, ip.bandwidth), portId := spec.portId.GetOr(""))),
                  TagsAfter(m, spec.tags, s.tags))
  {
    var sv, ip := EipService(m), s.res.value;
    var bandwidth, port := BandwidthPlan(spec, ip.bandwidth), PortPlan(spec.portId, ip.portId);
    var tags := TagPlan<EipCall>(s.tags, spec.tags);
    RunOne(sv, s, bandwidth);
    var s1 := Run(sv, s, bandwidth);
    assert s1 == s.(res := Some(ip.(bandwidth := BandwidthAfter(spec, ip.bandwidth))));
    RunOne(sv, s1, port);
    var s2 := Run(sv, s1, port);
    assert s2 == s1.(res := Some(s1.res.value.(portId := spec.portId.GetOr(""))));
    RunTagPlan(sv, s2, spec.tags);
    RunAppend(sv, s1, port, tags);
    RunAppend(sv, s, bandwidth, port + tags);
  }

  /** A complete Update satisfies the detector iff name and size are ones the request can carry and the
      tags need one pass. */
  lemma CompleteUpdateIff(m: TagMatch, spec: Spec, s: Stored)
    requires s.res.Some? && ValidImmutableFields(spec, s.res.value)
    ensures var t := Run(EipService(m), s, UpdatePlan(spec, s.res.value, s.tags));
            && t.res.Some? && t.res.value.portId == spec.portId.GetOr("")
            && (IsUpToDate(spec, t.res.value, t.tags) <==>
                  && (spec.bandwidthName == s.res.value.bandwidth.name || spec.bandwidthName != "")
                  && (spec.bandwidthSize == s.res.value.bandwidth.size || spec.bandwidthSize != 0)
                  && OnePass(m, spec.tags, s.tags))
  {
    OnePassIff(m, spec.tags, s.tags);
    AfterUpdate(m, spec, s);
  }

  /** The delete call is never issued while a port is bound. */
  lemma DeleteOnlyUnbound(m: TagMatch, s: Stored, k: nat)
    requires s.res.Some? && k < |DeletePlan(s.res.value)| && DeletePlan(s.res.value)[k] == Resource(DeleteEip)
    ensures var before := Run(EipService(m), s, DeletePlan(s.res.value)[..k]);
            before.res.Some? && before.res.value.portId == ""
    ensures Run(EipService(m), s, DeletePlan(s.res.value)).res.None?
  {
    var sv, plan := EipService(m), DeletePlan(s.res.value);
    assert plan[..|plan|] == plan;
    RunOne(sv, s, plan[..k]);
    RunNext(sv, s, plan, k);
  }
}
