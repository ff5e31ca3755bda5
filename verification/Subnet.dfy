/** internal/controller/subnet/subnet.go */
module Subnet {
  import opened Basics
  import opened Cloud
  import opened TagReconciler
  import opened LateInit

  datatype Spec = Spec(name: string, description: Option<string>, cidr: string, dnsList: Option<seq<string>>,
                       gatewayIp: string, dhcpEnable: Option<bool>, ipv6Enable: Option<bool>,
                       primaryDns: Option<string>, secondaryDns: Option<string>, availabilityZone: Option<string>,
                       vpcId: Option<string>, ntpAddresses: Option<string>, tags: Option<Tags>)

  datatype DhcpOpt = DhcpOpt(name: string, value: string)

  datatype Subnet = Subnet(name: string, description: string, cidr: string, dnsList: seq<string>, gatewayIp: string,
                           dhcp: bool, ipv6: bool, primaryDns: string, secondaryDns: string,
                           availabilityZone: string, vpcId: string, extraDhcp: seq<DhcpOpt>)

  /** The fields of an update request: nil pointers and zero values leave the field alone. */
  datatype UpdateFields = UpdateFields(name: string, description: Option<string>, primaryDns: string,
                                       secondaryDns: string, dnsList: seq<string>, dhcp: Option<bool>,
                                       extraDhcp: seq<DhcpOpt>)

  datatype SubnetCall = UpdateSubnet(vpcId: string, fields: UpdateFields)

  type Stored = State<Option<Subnet>>

  function OrKeep<T(==)>(sent: T, zero: T, stored: T): T {
    if sent == zero then stored else sent
  }

  function SubnetStep(s: Option<Subnet>, c: SubnetCall): Option<Subnet> {
    if s.None? then s else Some(Written(s.value, c.fields))
  }

  function Written(s: Subnet, f: UpdateFields): Subnet {
    s.(name := OrKeep(f.name, "", s.name), description := f.description.GetOr(s.description),
       primaryDns := OrKeep(f.primaryDns, "", s.primaryDns), secondaryDns := OrKeep(f.secondaryDns, "", s.secondaryDns),
       dnsList := OrKeep(f.dnsList, [], s.dnsList), dhcp := f.dhcp.GetOr(s.dhcp),
       extraDhcp := OrKeep(f.extraDhcp, [], s.extraDhcp))
  }

  ghost function SubnetService(m: TagMatch): Service<Option<Subnet>, SubnetCall> {
    Service(SubnetStep, m)
  }

  // ----- NTP option -----

  /** The value of the first "ntp" option, "" when there is none. */
  function NtpAddress(opts: seq<DhcpOpt>): string {
    if opts == [] then "" else if opts[0].name == "ntp" then opts[0].value else NtpAddress(opts[1..])
  }

  /** Options before the first "ntp" one do not matter, nor do those behind it. */
  lemma {:induction false} FirstNtp(opts: seq<DhcpOpt>, i: nat)
    requires i < |opts| && opts[i].name == "ntp" && forall j | 0 <= j < i :: opts[j].name != "ntp"
    ensures NtpAddress(opts) == opts[i].value
  {
    if i > 0 {
      FirstNtp(opts[1..], i - 1);
    }
  }

  lemma {:induction false} NoNtp(opts: seq<DhcpOpt>)
    requires forall i | 0 <= i < |opts| :: opts[i].name != "ntp"
    ensures NtpAddress(opts) == ""
  {
    if opts != [] {
      NoNtp(opts[1..]);
    }
  }

  method ExtractNtpAddress(opts: seq<DhcpOpt>) returns (ntp: string)
    ensures ntp == NtpAddress(opts)
    ensures
      || (exists i :: && 0 <= i < |opts| && opts[i].name == "ntp" && opts[i].value == ntp
                      && forall j | 0 <= j < i :: opts[j].name != "ntp")
      || (ntp == "" && forall i | 0 <= i < |opts| :: opts[i].name != "ntp")
  {
    for i := 0 to |opts|
      invariant NtpAddress(opts) == NtpAddress(opts[i..])
      invariant forall j | 0 <= j < i :: opts[j].name != "ntp"
    {
      if opts[i].name == "ntp" {
        return opts[i].value;
      }
      assert opts[i..][1..] == opts[i + 1..];
    }
    ntp := "";
  }

  // ----- detector -----

  predicate CoreFieldsUpToDate(spec: Spec, s: Subnet) {
    spec.name == s.name && spec.cidr == s.cidr && spec.gatewayIp == s.gatewayIp
  }

  predicate NetworkFieldsUpToDate(spec: Spec, s: Subnet) {
    && IsOptionalUpToDate(spec.dhcpEnable, s.dhcp) && IsOptionalUpToDate(spec.ipv6Enable, s.ipv6)
    && IsOptionalUpToDate(spec.description, s.description)
    && IsOptionalUpToDate(spec.availabilityZone, s.availabilityZone) && IsOptionalUpToDate(spec.vpcId, s.vpcId)
  }

  predicate DnsFieldsUpToDate(spec: Spec, s: Subnet, ntp: string) {
    && IsOptionalUpToDate(spec.primaryDns, s.primaryDns) && IsOptionalUpToDate(spec.secondaryDns, s.secondaryDns)
    && IsOptionalUpToDate(spec.dnsList, s.dnsList) && IsOptionalUpToDate(spec.ntpAddresses, ntp)
  }

  predicate IsUpToDate(spec: Spec, s: Subnet, ntp: string, tags: Tags) {
    && CoreFieldsUpToDate(spec, s) && NetworkFieldsUpToDate(spec, s) && DnsFieldsUpToDate(spec, s, ntp)
    && IsOptionalUpToDate(spec.tags, tags)
  }

  predicate ValidImmutableFields(spec: Spec, s: Subnet) {
    && spec.cidr == s.cidr && spec.gatewayIp == s.gatewayIp && IsOptionalUpToDate(spec.ipv6Enable, s.ipv6)
    && IsOptionalUpToDate(spec.availabilityZone, s.availabilityZone) && IsOptionalUpToDate(spec.vpcId, s.vpcId)
  }

  function LateInitialized(spec: Spec, s: Subnet, ntp: string, tags: Tags): (r: Spec)
    ensures r.name == spec.name && r.cidr == spec.cidr && r.gatewayIp == spec.gatewayIp
    ensures r.dhcpEnable.Some? && Fills(spec.dhcpEnable, r.dhcpEnable, s.dhcp)
    ensures r.ipv6Enable.Some? && Fills(spec.ipv6Enable, r.ipv6Enable, s.ipv6)
    ensures FillsNonZero(spec.description, r.description, s.description, "")
    ensures FillsNonZero(spec.primaryDns, r.primaryDns, s.primaryDns, "")
    ensures FillsNonZero(spec.secondaryDns, r.secondaryDns, s.secondaryDns, "")
    ensures FillsNonZero(spec.dnsList, r.dnsList, s.dnsList, [])
    ensures FillsNonZero(spec.availabilityZone, r.availabilityZone, s.availabilityZone, "")
    ensures FillsNonZero(spec.vpcId, r.vpcId, s.vpcId, "")
    ensures FillsNonZero(spec.ntpAddresses, r.ntpAddresses, ntp, "") && FillsNonZero(spec.tags, r.tags, tags, map[])
  {
    spec.(description := InitPtrIfNonZero(spec.description, s.description, ""),
          dhcpEnable := InitPtr(spec.dhcpEnable, s.dhcp), ipv6Enable := InitPtr(spec.ipv6Enable, s.ipv6),
          primaryDns := InitPtrIfNonZero(spec.primaryDns, s.primaryDns, ""),
          secondaryDns := InitPtrIfNonZero(spec.secondaryDns, s.secondaryDns, ""),
          dnsList := InitPtrIfNonZero(spec.dnsList, s.dnsList, []),
          availabilityZone := InitPtrIfNonZero(spec.availabilityZone, s.availabilityZone, ""),
          vpcId := InitPtrIfNonZero(spec.vpcId, s.vpcId, ""),
          ntpAddresses := InitPtrIfNonZero(spec.ntpAddresses, ntp, ""),
          tags := InitPtrIfNonZero(spec.tags, tags, map[]))
  }

  /** Late initialisation does not change the verdict of the detector. */
  lemma LateInitKeepsVerdict(spec: Spec, s: Subnet, ntp: string, tags: Tags)
    ensures IsUpToDate(LateInitialized(spec, s, ntp, tags), s, ntp, tags) <==> IsUpToDate(spec, s, ntp, tags)
  {
    var r := LateInitialized(spec, s, ntp, tags);
    assert NetworkFieldsUpToDate(r, s) <==> NetworkFieldsUpToDate(spec, s) by {
      FillsKeepsVerdict(spec.dhcpEnable, r.dhcpEnable, s.dhcp);
      FillsKeepsVerdict(spec.ipv6Enable, r.ipv6Enable, s.ipv6);
      FillsKeepsVerdict(spec.description, r.description, s.description);
      FillsKeepsVerdict(spec.availabilityZone, r.availabilityZone, s.availabilityZone);
      FillsKeepsVerdict(spec.vpcId, r.vpcId, s.vpcId);
    }
    assert DnsFieldsUpToDate(r, s, ntp) <==> DnsFieldsUpToDate(spec, s, ntp) by {
      FillsKeepsVerdict(spec.primaryDns, r.primaryDns, s.primaryDns);
      FillsKeepsVerdict(spec.secondaryDns, r.secondaryDns, s.secondaryDns);
      FillsKeepsVerdict(spec.dnsList, r.dnsList, s.dnsList);
      FillsKeepsVerdict(spec.ntpAddresses, r.ntpAddresses, ntp);
    }
    FillsKeepsVerdict(spec.tags, r.tags, tags);
  }

  lemma LateInitIdempotent(spec: Spec, s: Subnet, ntp: string, tags: Tags)
    ensures var r := LateInitialized(spec, s, ntp, tags); LateInitialized(r, s, ntp, tags) == r
  {
  }

  /** The detector, field by field: the spec, completed by the observed values, is what was observed. */
  lemma UpToDateIff(spec: Spec, s: Subnet, ntp: string, tags: Tags)
    ensures IsUpToDate(spec, s, ntp, tags) <==>
              && (spec.name, spec.cidr, spec.gatewayIp) == (s.name, s.cidr, s.gatewayIp)
              && (spec.dhcpEnable.GetOr(s.dhcp), spec.ipv6Enable.GetOr(s.ipv6), spec.description.GetOr(s.description))
                 == (s.dhcp, s.ipv6, s.description)
              && (spec.availabilityZone.GetOr(s.availabilityZone), spec.vpcId.GetOr(s.vpcId)) == (s.availabilityZone, s.vpcId)
              && (spec.primaryDns.GetOr(s.primaryDns), spec.secondaryDns.GetOr(s.secondaryDns), spec.dnsList.GetOr(s.dnsList))
                 == (s.primaryDns, s.secondaryDns, s.dnsList)
              && (spec.ntpAddresses.GetOr(ntp), spec.tags.GetOr(tags)) == (ntp, tags)
  {
  }

  /** The immutable fields, one by one. */
  lemma ValidImmutableFieldsIff(spec: Spec, s: Subnet)
    ensures ValidImmutableFields(spec, s) <==>
              && (spec.cidr, spec.gatewayIp, spec.ipv6Enable.GetOr(s.ipv6)) == (s.cidr, s.gatewayIp, s.ipv6)
              && (spec.availabilityZone.GetOr(s.availabilityZone), spec.vpcId.GetOr(s.vpcId)) == (s.availabilityZone, s.vpcId)
  {
  }

  // ----- planner -----

  ghost predicate NeedsUpdate(spec: Spec, s: Subnet, ntp: string) {
    || spec.name != s.name || !IsOptionalUpToDate(spec.description, s.description)
    || !DnsFieldsUpToDate(spec, s, ntp) || !IsOptionalUpToDate(spec.dhcpEnable, s.dhcp)
  }

  ghost function Changed<T>(desired: Option<T>, observed: T): Option<T> {
    if IsOptionalUpToDate(desired, observed) then None else desired
  }

  ghost function FieldsToSend(spec: Spec, s: Subnet, ntp: string): UpdateFields {
    UpdateFields(spec.name, Changed(spec.description, s.description), ToSend(spec.primaryDns, s.primaryDns, ""),
                 ToSend(spec.secondaryDns, s.secondaryDns, ""), ToSend(spec.dnsList, s.dnsList, []),
                 Changed(spec.dhcpEnable, s.dhcp),
                 if IsOptionalUpToDate(spec.ntpAddresses, ntp) then [] else [DhcpOpt("ntp", spec.ntpAddresses.value)])
  }

  ghost function FieldPlan(spec: Spec, s: Subnet): seq<Call<SubnetCall>> {
    var ntp := NtpAddress(s.extraDhcp);
    if NeedsUpdate(spec, s, ntp) then [Resource(UpdateSubnet(s.vpcId, FieldsToSend(spec, s, ntp)))] else []
  }

  ghost function UpdatePlan(spec: Spec, s: Stored): seq<Call<SubnetCall>>
    requires s.res.Some?
  {
    FieldPlan(spec, s.res.value) + TagPlan(s.tags, spec.tags)
  }

  // ----- the controller -----

  class UpdateOpts {
    var fields: UpdateFields

    constructor (name: string)
      ensures fields == UpdateFields(name, None, "", "", [], None, [])
    {
      fields := UpdateFields(name, None, "", "", [], None, []);
    }

    method ApplyDescriptionIfChanged(desired: Option<string>, observed: string) returns (changed: bool)
      modifies this
      ensures changed <==> !IsOptionalUpToDate(desired, observed)
      ensures fields == if changed then old(fields).(description := desired) else old(fields)
    {
      if desired.None? || desired.value == observed {
        return false;
      }
      fields := fields.(description := desired);
      changed := true;
    }

    method ApplyPrimaryDnsIfChanged(desired: Option<string>, observed: string) returns (changed: bool)
      modifies this
      ensures changed <==> !IsOptionalUpToDate(desired, observed)
      ensures fields == if changed then old(fields).(primaryDns := desired.value) else old(fields)
    {
      if desired.None? || desired.value == observed {
        return false;
      }
      fields := fields.(primaryDns := desired.value);
      changed := true;
    }

    method ApplySecondaryDnsIfChanged(desired: Option<string>, observed: string) returns (changed: bool)
      modifies this
      ensures changed <==> !IsOptionalUpToDate(desired, observed)
      ensures fields == if changed then old(fields).(secondaryDns := desired.value) else old(fields)
    {
      if desired.None? || desired.value == observed {
        return false;
      }
      fields := fields.(secondaryDns := desired.value);
      changed := true;
    }

    method ApplyDnsListIfChanged(desired: Option<seq<string>>, observed: seq<string>) returns (changed: bool)
      modifies this
      ensures changed <==> !IsOptionalUpToDate(desired, observed)
      ensures fields == if changed then old(fields).(dnsList := desired.value) else old(fields)
    {
      if desired.None? || desired.value == observed {
        return false;
      }
      fields := fields.(dnsList := desired.value);
      changed := true;
    }

    method ApplyDhcpIfChanged(desired: Option<bool>, observed: bool) returns (changed: bool)
      modifies this
      ensures changed <==> !IsOptionalUpToDate(desired, observed)
      ensures fields == if changed then old(fields).(dhcp := desired) else old(fields)
    {
      if desired.None? || desired.value == observed {
        return false;
      }
      fields := fields.(dhcp := desired);
      changed := true;
    }

    method ApplyNtpIfChanged(desired: Option<string>, observed: string) returns (changed: bool)
      modifies this
      ensures changed <==> !IsOptionalUpToDate(desired, observed)
      ensures fields == if changed then old(fields).(extraDhcp := [DhcpOpt("ntp", desired.value)]) else old(fields)
    {
      if desired.None? || desired.value == observed {
        return false;
      }
      fields := fields.(extraDhcp := [DhcpOpt("ntp", desired.value)]);
      changed := true;
    }
  }

  method BuildUpdateOpts(spec: Spec, observed: Subnet, ntp: string) returns (opts: UpdateOpts, needsUpdate: bool)
    ensures fresh(opts)
    ensures needsUpdate <==> NeedsUpdate(spec, observed, ntp)
    ensures opts.fields == FieldsToSend(spec, observed, ntp)
  {
    opts := new UpdateOpts(spec.name);
    needsUpdate := spec.name != observed.name;
    var changed := opts.ApplyDescriptionIfChanged(spec.description, observed.description);
    if changed {
      needsUpdate := true;
    }
    changed := opts.ApplyPrimaryDnsIfChanged(spec.primaryDns, observed.primaryDns);
    if changed {
      needsUpdate := true;
    }
    changed := opts.ApplySecondaryDnsIfChanged(spec.secondaryDns, observed.secondaryDns);
    if changed {
      needsUpdate := true;
    }
    changed := opts.ApplyDnsListIfChanged(spec.dnsList, observed.dnsList);
    if changed {
      needsUpdate := true;
    }
    changed := opts.ApplyDhcpIfChanged(spec.dhcpEnable, observed.dhcp);
    if changed {
      needsUpdate := true;
    }
    changed := opts.ApplyNtpIfChanged(spec.ntpAddresses, ntp);
    if changed {
      needsUpdate := true;
    }
  }

  class SubnetResource {
    var spec: Spec
    var externalName: string

    constructor (spec: Spec)
      ensures this.spec == spec && this.externalName == ""
    {
      this.spec, this.externalName := spec, "";
    }

    method LateInitialize(s: Subnet, ntp: string, tags: Tags, li: LateInitializer)
      modifies this`spec, li
      ensures spec == LateInitialized(old(spec), s, ntp, tags)
      ensures li.changed == (old(li.changed) || spec != old(spec))
    {
      var description := LateInitPtrIfNonZero(spec.description, s.description, "", li);
      var dhcpEnable := LateInitPtr(spec.dhcpEnable, s.dhcp, li);
      var ipv6Enable := LateInitPtr(spec.ipv6Enable, s.ipv6, li);
      var primaryDns := LateInitPtrIfNonZero(spec.primaryDns, s.primaryDns, "", li);
      var secondaryDns := LateInitPtrIfNonZero(spec.secondaryDns, s.secondaryDns, "", li);
      var dnsList := LateInitPtrIfNonZero(spec.dnsList, s.dnsList, [], li);
      var availabilityZone := LateInitPtrIfNonZero(spec.availabilityZone, s.availabilityZone, "", li);
      var vpcId := LateInitPtrIfNonZero(spec.vpcId, s.vpcId, "", li);
      var ntpAddresses := LateInitPtrIfNonZero(spec.ntpAddresses, ntp, "", li);
      var tags := LateInitPtrIfNonZero(spec.tags, tags, map[], li);
      spec := spec.(description := description, dhcpEnable := dhcpEnable, ipv6Enable := ipv6Enable,
                    primaryDns := primaryDns, secondaryDns := secondaryDns, dnsList := dnsList,
                    availabilityZone := availabilityZone, vpcId := vpcId, ntpAddresses := ntpAddresses, tags := tags);
    }

    /** "Up to date" means that the immutable fields agree and an Update in this state would send nothing.
        `valid`: validateSubnetParameters passed. */
    method Observe(api: Endpoint<Option<Subnet>, SubnetCall>, valid: bool) returns (r: Observation)
      modifies this`spec, api`failed
      ensures r.Failed? <==> !valid || api.failed != old(api.failed)
      ensures !r.Failed? ==> (r.Absent? <==> externalName == "" || api.state.res.None?)
      ensures r.Exists? ==>
                var subnet := api.state.res.value;
                && spec == LateInitialized(old(spec), subnet, NtpAddress(subnet.extraDhcp), api.state.tags)
                && r.lateInitialized == (spec != old(spec))
                && r.upToDate == IsUpToDate(spec, subnet, NtpAddress(subnet.extraDhcp), api.state.tags)
                && (r.upToDate <==> ValidImmutableFields(spec, subnet) && UpdatePlan(spec, api.state) == [])
      ensures !r.Exists? ==> spec == old(spec)
    {
      if !valid {
        return Failed;
      }
      if externalName == "" {
        return Absent;
      }
      var read := api.Read();
      if read.None? {
        return Failed;
      }
      if read.value.res.None? {
        return Absent;
      }
      var observed := read.value.res.value;
      var ntp := ExtractNtpAddress(observed.extraDhcp);
      var li := new LateInitializer();
      LateInitialize(observed, ntp, read.value.tags, li);
      Agreement(spec, read.value);
      r := Exists(IsUpToDate(spec, observed, ntp, read.value.tags), li.changed);
    }

    method Update(api: Endpoint<Option<Subnet>, SubnetCall>, valid: bool) returns (r: Outcome)
      modifies api
      ensures r.Refused? <==>
                || !valid || externalName == "" || api.failed != old(api.failed) || old(api.state).res.None?
                || !ValidImmutableFields(spec, old(api.state).res.value)
      ensures r.Refused? ==> api.state == old(api.state) && api.log == old(api.log)
      ensures !r.Refused? ==>
                Sent(api.service, old(api.state), old(api.log), UpdatePlan(spec, old(api.state)),
                     api.state, api.log, r.Completed?)
    {
      if !valid || externalName == "" {
        return Refused;
      }
      var read := api.Read();
      if read.None? || read.value.res.None? {
        return Refused;
      }
      var observed, observedTags := read.value.res.value, read.value.tags;
      var ntp := ExtractNtpAddress(observed.extraDhcp);
      if !ValidImmutableFields(spec, observed) {
        return Refused;
      }
      ghost var s0, log0 := api.state, api.log;
      ghost var fields, tags := FieldPlan(spec, observed), TagPlan<SubnetCall>(observedTags, spec.tags);
      SentNothing(api.service, s0, log0);
      var opts, needsUpdate := BuildUpdateOpts(spec, observed, ntp);
      if needsUpdate {
        var ok := api.Send(Resource(UpdateSubnet(observed.vpcId, opts.fields)));
        if !ok {
          SentStop(api.service, s0, log0, fields, api.state, api.log, tags);
          return Aborted;
        }
      }
      ghost var s1, log1 := api.state, api.log;
      var ok := ReconcileTags(api, observedTags, spec.tags);
      SentThen(api.service, s0, log0, fields, s1, log1, tags, api.state, api.log, ok);
      r := if ok then Completed else Aborted;
    }
  }

  // ----- agreement and convergence -----

  /** All thirteen fields: up to date iff the immutable ones are unchanged and Update has nothing to send. */
  lemma Agreement(spec: Spec, s: Stored)
    requires s.res.Some?
    ensures IsUpToDate(spec, s.res.value, NtpAddress(s.res.value.extraDhcp), s.tags)
       <==> ValidImmutableFields(spec, s.res.value) && UpdatePlan(spec, s) == []
  {
    TagAgreement<SubnetCall>(s.tags, spec.tags);
  }

  /** Every update request is for the VPC of the observed subnet and carries the spec's name. */
  lemma EveryUpdateCarriesName(spec: Spec, s: Stored)
    requires s.res.Some?
    ensures forall c | c in UpdatePlan(spec, s) && c.Resource? ::
              c.call.vpcId == s.res.value.vpcId && c.call.fields.name == spec.name
  {
    TagPlanOnlyTags<SubnetCall>(s.tags, spec.tags);
    forall c | c in UpdatePlan(spec, s) && c.Resource?
      ensures c.call.vpcId == s.res.value.vpcId && c.call.fields.name == spec.name
    {
      assert c in FieldPlan(spec, s.res.value);
    }
  }

  /** The subnet after the field update, if one is sent. */
  ghost function Updated(spec: Spec, s: Subnet): Subnet {
    var ntp := NtpAddress(s.extraDhcp);
    if NeedsUpdate(spec, s, ntp) then Written(s, FieldsToSend(spec, s, ntp)) else s
  }

  lemma AfterUpdate(m: TagMatch, spec: Spec, s: Stored)
    requires s.res.Some?
    ensures Run(SubnetService(m), s, UpdatePlan(spec, s)) ==
            State(Some(Updated(spec, s.res.value)), TagsAfter(m, spec.tags, s.tags))
  {
    var sv, fields := SubnetService(m), FieldPlan(spec, s.res.value);
    RunOne(sv, s, fields);
    var s1 := Run(sv, s, fields);
    assert s1 == s.(res := Some(Updated(spec, s.res.value)));
    RunTagPlan(sv, s1, spec.tags);
    RunAppend(sv, s, fields, TagPlan<SubnetCall>(s.tags, spec.tags));
  }

  /** Every DNS setting that differs has a value the request can carry: a server cannot be cleared to "" nor
      the list to empty, because that cannot be told from "leave alone". */
  ghost predicate DnsSendable(spec: Spec, s: Subnet) {
    && Sendable(spec.primaryDns, s.primaryDns, "") && Sendable(spec.secondaryDns, s.secondaryDns, "")
    && Sendable(spec.dnsList, s.dnsList, [])
  }

  /** What the field update does, field by field. */
  lemma UpdatedFields(spec: Spec, s: Subnet)
    requires spec.name != ""
    ensures var t := Updated(spec, s);
            && t == s.(name := spec.name, description := spec.description.GetOr(s.description),
                       dhcp := spec.dhcpEnable.GetOr(s.dhcp),
                       primaryDns := OrKeep(spec.primaryDns.GetOr(""), "", s.primaryDns),
                       secondaryDns := OrKeep(spec.secondaryDns.GetOr(""), "", s.secondaryDns),
                       dnsList := OrKeep(spec.dnsList.GetOr([]), [], s.dnsList), extraDhcp := t.extraDhcp)
            && NtpAddress(t.extraDhcp) == spec.ntpAddresses.GetOr(NtpAddress(s.extraDhcp))
  {
    var ntp := NtpAddress(s.extraDhcp);
    if NeedsUpdate(spec, s, ntp) {
      WrittenDns(spec, s, ntp);
    }
  }

  lemma WrittenDns(spec: Spec, s: Subnet, ntp: string)
    requires ntp == NtpAddress(s.extraDhcp)
    ensures var t := Written(s, FieldsToSend(spec, s, ntp));
            && t.primaryDns == OrKeep(spec.primaryDns.GetOr(""), "", s.primaryDns)
            && t.secondaryDns == OrKeep(spec.secondaryDns.GetOr(""), "", s.secondaryDns)
            && t.dnsList == OrKeep(spec.dnsList.GetOr([]), [], s.dnsList)
            && NtpAddress(t.extraDhcp) == spec.ntpAddresses.GetOr(ntp)
  {
  }

  lemma UpdatedUpToDateIff(spec: Spec, s: Subnet)
    requires spec.name != ""
    ensures var t := Updated(spec, s);
            && (!NeedsUpdate(spec, t, NtpAddress(t.extraDhcp)) <==> DnsSendable(spec, s))
            && (ValidImmutableFields(spec, t) <==> ValidImmutableFields(spec, s))
  {
    UpdatedFields(spec, s);
  }

  /** A complete Update satisfies the detector iff the tags need one pass and no DNS setting is to be cleared. */
  lemma CompleteUpdateIff(m: TagMatch, spec: Spec, s: Stored)
    requires s.res.Some? && spec.name != "" && ValidImmutableFields(spec, s.res.value)
    ensures var t := Run(SubnetService(m), s, UpdatePlan(spec, s));
            && t.res.Some?
            && (IsUpToDate(spec, t.res.value, NtpAddress(t.res.value.extraDhcp), t.tags) <==>
                  DnsSendable(spec, s.res.value) && OnePass(m, spec.tags, s.tags))
  {
    AfterUpdate(m, spec, s);
    UpdatedUpToDateIff(spec, s.res.value);
    OnePassIff(m, spec.tags, s.tags);
  }
}
