/** internal/controller/ccecluster/cluster.go: the hash annotation, the bound address, and Create and Update. */
module Cluster {
  import opened Basics
  import opened Cloud
  import opened LateInit

  type Params = map<string, string>

  datatype Setting = Setting(name: string, value: string)

  datatype ComponentConfig = ComponentConfig(name: string, settings: seq<Setting>)

  datatype Spec = Spec(description: Option<string>, eip: Option<string>, eipId: Option<string>,
                       configs: seq<ComponentConfig>, extendParam: Option<Params>,
                       noAddons: Option<bool>, multiAz: Option<bool>)

  /** componentConfigsHash, with SHA-256 taken as free of collisions; "" for no configuration. */
  datatype Hash = Empty | Sha256(configs: seq<ComponentConfig>)

  function ComponentConfigsHash(configs: seq<ComponentConfig>): (h: Hash)
    ensures h.Empty? <==> configs == []
  {
    if |configs| == 0 then Empty else Sha256(configs)
  }

  /** The hash tells configurations apart: two hashes are equal iff the configurations are. */
  lemma HashEqualIff(a: seq<ComponentConfig>, b: seq<ComponentConfig>)
    ensures ComponentConfigsHash(a) == ComponentConfigsHash(b) <==> a == b
  {
  }

  /** The external endpoint of a cluster: none, or a URL with the bound address as its host. */
  datatype ExternalUrl = NoUrl | Url(host: string)

  function ParseEndpointHost(url: ExternalUrl): string {
    if url.NoUrl? then "" else url.host
  }

  function EndpointOf(boundIp: string): (url: ExternalUrl)
    ensures ParseEndpointHost(url) == boundIp
  {
    if boundIp == "" then NoUrl else Url(boundIp)
  }

  /** `boundIp` is "" when no address is bound. The API never returns `configs`. */
  datatype Cluster = Cluster(description: string, boundIp: string, configs: seq<ComponentConfig>)

  datatype ClusterCall =
    | CreateCluster(description: string, extendParam: Params, configs: seq<ComponentConfig>)
    | UpdateDescription(description: string)
    | BindIp(eipId: string, ip: string)
    | UnbindIp
    | UpdateConfiguration(configs: seq<ComponentConfig>)

  type Stored = State<Option<Cluster>>

  const EXTERNAL_IP_PARAM := "clusterExternalIP"
  const ADDONS_PARAM := "alpha.installDefaultAddons"
  const AZ_PARAM := "clusterAZ"

  function Param(params: Params, key: string): string {
    if key in params then params[key] else ""
  }

  /** What the cluster service does: an empty description leaves it alone, and a bind while an address is
      bound has no effect. */
  function ClusterStep(s: Option<Cluster>, c: ClusterCall): Option<Cluster> {
    match c
    case CreateCluster(description, extendParam, configs) =>
      if s.None? then Some(Cluster(description, Param(extendParam, EXTERNAL_IP_PARAM), configs)) else s
    case UpdateDescription(description) =>
      if s.None? || description == "" then s else Some(s.value.(description := description))
    case BindIp(_, ip) => if s.None? || s.value.boundIp != "" then s else Some(s.value.(boundIp := ip))
    case UnbindIp => if s.None? then s else Some(s.value.(boundIp := ""))
    case UpdateConfiguration(configs) => if s.None? then s else Some(s.value.(configs := configs))
  }

  ghost function ClusterService(): Service<Option<Cluster>, ClusterCall> {
    Service(ClusterStep, KeyAndValue)
  }

  // ----- detector -----

  predicate WantsEip(spec: Spec) {
    spec.eip.GetOr("") != ""
  }

  predicate IsEipUpToDate(spec: Spec, observed: ExternalUrl) {
    if !WantsEip(spec) then ParseEndpointHost(observed) == ""
    else ParseEndpointHost(observed) == spec.eip.value
  }

  predicate IsUpToDate(spec: Spec, description: string, url: ExternalUrl, lastApplied: Hash) {
    && IsOptionalUpToDate(spec.description, description) && IsEipUpToDate(spec, url)
    && ComponentConfigsHash(spec.configs) == lastApplied
  }

  ghost predicate UpToDate(spec: Spec, c: Cluster, annotation: Hash) {
    IsUpToDate(spec, c.description, EndpointOf(c.boundIp), annotation)
  }

  // ----- planner -----

  /** The entries of the user's extendParam map that a create request overrides, and with what. */
  function Overrides(spec: Spec): Params {
    Entry(spec.noAddons == Some(true), ADDONS_PARAM, "false") + Entry(spec.multiAz == Some(true), AZ_PARAM, "multi_az")
    + Entry(WantsEip(spec), EXTERNAL_IP_PARAM, spec.eip.GetOr(""))
  }

  function Entry(on: bool, key: string, value: string): Params {
    if on then map[key := value] else map[]
  }

  ghost function CreatePlan(spec: Spec): seq<Call<ClusterCall>> {
    [Resource(CreateCluster(spec.description.GetOr(""), spec.extendParam.GetOr(map[]) + Overrides(spec), spec.configs))]
  }

  ghost function DescriptionPlan(spec: Spec): seq<Call<ClusterCall>> {
    if spec.description.None? then [] else [Resource(UpdateDescription(spec.description.value))]
  }

  /** The address has to change to a new one. */
  predicate MustBind(spec: Spec, boundIp: string) {
    WantsEip(spec) && boundIp != spec.eip.value
  }

  /** Binding is refused locally when the spec does not name the identifier of the address. */
  predicate CanBind(spec: Spec, boundIp: string) {
    MustBind(spec, boundIp) ==> spec.eipId.GetOr("") != ""
  }

  ghost function UnbindPlan(spec: Spec, boundIp: string): seq<Call<ClusterCall>> {
    if boundIp != "" && (!WantsEip(spec) || MustBind(spec, boundIp)) then [Resource(UnbindIp)] else []
  }

  ghost function BindPlan(spec: Spec, boundIp: string): seq<Call<ClusterCall>> {
    if MustBind(spec, boundIp) && CanBind(spec, boundIp) then [Resource(BindIp(spec.eipId.value, spec.eip.value))] else []
  }

  ghost function EipPlan(spec: Spec, boundIp: string): seq<Call<ClusterCall>> {
    UnbindPlan(spec, boundIp) + BindPlan(spec, boundIp)
  }

  ghost function ConfigPlan(spec: Spec, boundIp: string): seq<Call<ClusterCall>> {
    if CanBind(spec, boundIp) then [Resource(UpdateConfiguration(spec.configs))] else []
  }

  /** The configuration is pushed last and always; a refused bind keeps it from being pushed. */
  ghost function UpdatePlan(spec: Spec, boundIp: string): seq<Call<ClusterCall>> {
    DescriptionPlan(spec) + (EipPlan(spec, boundIp) + ConfigPlan(spec, boundIp))
  }

  // ----- detector against planner -----

  /** The detector, field by field: a set description is the observed one, the bound address is the wanted one
      ("" when none is wanted), and the annotation is the hash of the spec's configuration. */
  lemma UpToDateIff(spec: Spec, c: Cluster, annotation: Hash)
    ensures UpToDate(spec, c, annotation) <==>
              && (spec.description.Some? ==> c.description == spec.description.value)
              && c.boundIp == spec.eip.GetOr("")
              && annotation == (if spec.configs == [] then Empty else Sha256(spec.configs))
  {
  }

  /** On the address the detector and the planner agree: it is up to date iff there is neither an address call to
      send nor a bind to refuse. */
  lemma EipAgreement(spec: Spec, boundIp: string)
    ensures IsEipUpToDate(spec, EndpointOf(boundIp)) <==> EipPlan(spec, boundIp) == [] && CanBind(spec, boundIp)
  {
  }

  /** Every address that is bound is the spec's, named by the spec's identifier; and the plan ends with that bind
      exactly when another address is wanted and its identifier is known. */
  lemma PlannedBind(spec: Spec, boundIp: string)
    ensures forall c | c in EipPlan(spec, boundIp) && c != Resource(UnbindIp) ::
              c.Resource? && c.call.BindIp? && Some(c.call.eipId) == spec.eipId && Some(c.call.ip) == spec.eip
    ensures (exists c :: c in EipPlan(spec, boundIp) && c != Resource(UnbindIp)) <==>
              && spec.eip.Some? && spec.eip.value != "" && spec.eip.value != boundIp
              && spec.eipId.Some? && spec.eipId.value != ""
    ensures Resource(UnbindIp) in EipPlan(spec, boundIp) <==> boundIp != "" && spec.eip.GetOr("") != boundIp
  {
    var unbind, bind := UnbindPlan(spec, boundIp), BindPlan(spec, boundIp);
    assert forall c | c in unbind + bind :: c in unbind || c in bind;
    if bind != [] {
      assert bind[0] in unbind + bind;
    }
    if unbind != [] {
      assert unbind[0] in unbind + bind;
    }
  }

  // ----- the controller -----

  /** The entries of a map in which the overrides win over the user's. */
  lemma Overridden(spec: Spec, user: Params)
    ensures var params := user + Overrides(spec);
            && (spec.noAddons == Some(true) ==> ADDONS_PARAM in params && params[ADDONS_PARAM] == "false")
            && (spec.multiAz == Some(true) ==> AZ_PARAM in params && params[AZ_PARAM] == "multi_az")
            && (WantsEip(spec) ==> EXTERNAL_IP_PARAM in params && Some(params[EXTERNAL_IP_PARAM]) == spec.eip)
            && (spec.noAddons != Some(true) ==> SameEntry(params, user, ADDONS_PARAM))
            && (spec.multiAz != Some(true) ==> SameEntry(params, user, AZ_PARAM))
            && (!WantsEip(spec) ==> SameEntry(params, user, EXTERNAL_IP_PARAM))
            && forall k | k !in {ADDONS_PARAM, AZ_PARAM, EXTERNAL_IP_PARAM} :: SameEntry(params, user, k)
  {
    ParamNames();
  }

  lemma ParamNames()
    ensures ADDONS_PARAM != AZ_PARAM && AZ_PARAM != EXTERNAL_IP_PARAM && ADDONS_PARAM != EXTERNAL_IP_PARAM
  {
    assert |ADDONS_PARAM| == 26 && |AZ_PARAM| == 9 && |EXTERNAL_IP_PARAM| == 17;
  }

  /** applyExtendParam: every setting of the spec that is on wins over the user's entry of that name, and every
      other entry is the user's. */
  method ApplyExtendParam(spec: Spec) returns (params: Params)
    ensures spec.noAddons == Some(true) ==>
              "alpha.installDefaultAddons" in params && params["alpha.installDefaultAddons"] == "false"
    ensures spec.multiAz == Some(true) ==> "clusterAZ" in params && params["clusterAZ"] == "multi_az"
    ensures spec.eip.Some? && spec.eip.value != "" ==>
              "clusterExternalIP" in params && params["clusterExternalIP"] == spec.eip.value
    ensures forall k | k !in {ADDONS_PARAM, AZ_PARAM, EXTERNAL_IP_PARAM} :: SameEntry(params, spec.extendParam.GetOr(map[]), k)
    ensures spec.noAddons != Some(true) ==> SameEntry(params, spec.extendParam.GetOr(map[]), "alpha.installDefaultAddons")
    ensures spec.multiAz != Some(true) ==> SameEntry(params, spec.extendParam.GetOr(map[]), "clusterAZ")
    ensures spec.eip.None? || spec.eip.value == "" ==> SameEntry(params, spec.extendParam.GetOr(map[]), "clusterExternalIP")
    ensures params == spec.extendParam.GetOr(map[]) + Overrides(spec)
  {
    var user := spec.extendParam.GetOr(map[]);
    params := map[] + user;
    params := Override(params, spec.noAddons.Some? && spec.noAddons.value, ADDONS_PARAM, "false");
    params := Override(params, spec.multiAz.Some? && spec.multiAz.value, AZ_PARAM, "multi_az");
    params := Override(params, spec.eip.Some? && spec.eip.value != "", EXTERNAL_IP_PARAM, spec.eip.GetOr(""));
    InTurn(user, Entry(spec.noAddons == Some(true), ADDONS_PARAM, "false"),
           Entry(spec.multiAz == Some(true), AZ_PARAM, "multi_az"), Entry(WantsEip(spec), EXTERNAL_IP_PARAM, spec.eip.GetOr("")));
    Overridden(spec, user);
  }

  /** Sets one entry of the copy when its setting is on. */
  method Override(params: Params, on: bool, key: string, value: string) returns (r: Params)
    ensures r == params + Entry(on, key, value)
  {
    r := params;
    if on {
      r := r[key := value];
    }
    assert params + map[] == params;
  }

  lemma InTurn(user: Params, a: Params, b: Params, c: Params)
    ensures ((map[] + user) + a) + b + c == user + ((a + b) + c)
  {
  }

  predicate SameEntry(a: Params, b: Params, k: string) {
    (k in a <==> k in b) && (k in a ==> a[k] == b[k])
  }

  /** The result says whether every call succeeded and whether a bind was refused. */
  method UpdateEip(api: Endpoint<Option<Cluster>, ClusterCall>, spec: Spec, observed: ExternalUrl)
    returns (ok: bool, refused: bool)
    modifies api`state, api`log
    ensures Sent(api.service, old(api.state), old(api.log), EipPlan(spec, ParseEndpointHost(observed)),
                 api.state, api.log, ok)
    ensures ok ==> (refused <==> !CanBind(spec, ParseEndpointHost(observed)))
  {
    ghost var s0, log0 := api.state, api.log;
    SentNothing(api.service, s0, log0);
    var wantsEip := spec.eip.Some? && spec.eip.value != "";
    var boundIp := ParseEndpointHost(observed);
    ghost var unbind, bind := UnbindPlan(spec, boundIp), BindPlan(spec, boundIp);
    ok, refused := true, false;
    if boundIp != "" && (!wantsEip || boundIp != spec.eip.value) {
      ok := api.Send(Resource(UnbindIp));
      if !ok {
        SentStop(api.service, s0, log0, unbind, api.state, api.log, bind);
        return;
      }
    }
    ghost var s1, log1 := api.state, api.log;
    SentNothing(api.service, s1, log1);
    if wantsEip && boundIp != spec.eip.value {
      if spec.eipId.None? || spec.eipId.value == "" {
        refused := true;
      } else {
        ok := api.Send(Resource(BindIp(spec.eipId.value, spec.eip.value)));
      }
    }
    SentThen(api.service, s0, log0, unbind, s1, log1, bind, api.state, api.log, ok);
  }

  class ClusterResource {
    var spec: Spec
    var externalName: string
    var annotation: Hash
    var status: ExternalUrl

    constructor (spec: Spec)
      ensures this.spec == spec && externalName == "" && annotation == Empty && status == NoUrl
    {
      this.spec, externalName, annotation, status := spec, "", Empty, NoUrl;
    }

    /** Of the late-initialised fields only the description matters to the detector and to Update. `valid`:
        validateClusterSpec passed. */
    method Observe(api: Endpoint<Option<Cluster>, ClusterCall>, valid: bool) returns (r: Observation)
      modifies this`status, this`spec, api`failed
      ensures r.Failed? <==> !valid || api.failed != old(api.failed)
      ensures !r.Failed? ==> (r.Absent? <==> externalName == "" || api.state.res.None?)
      ensures r.Exists? ==>
                && status == EndpointOf(api.state.res.value.boundIp)
                && FillsNonZero(old(spec).description, spec.description, api.state.res.value.description, "")
                && spec == old(spec).(description := spec.description)
                && r.lateInitialized == (spec != old(spec))
                && r.upToDate == UpToDate(spec, api.state.res.value, annotation)
                && r.upToDate == UpToDate(old(spec), api.state.res.value, annotation)
      ensures !r.Exists? ==> spec == old(spec) && status == old(status)
    {
      if !valid {
        return Failed;
      }
      if externalName == "" {
        return Absent;
      }
      var read := api.Read();
      if read.None? {
        return Failed;
      }
      if read.value.res.None? {
        return Absent;
      }
      var observed := read.value.res.value;
      status := EndpointOf(observed.boundIp);
      var li := new LateInitializer();
      var description := LateInitPtrIfNonZero(spec.description, observed.description, "", li);
      spec := spec.(description := description);
      r := Exists(IsUpToDate(spec, observed.description, status, annotation), li.changed);
    }

    method Create(api: Endpoint<Option<Cluster>, ClusterCall>, valid: bool, id: string) returns (r: Outcome)
      modifies this`externalName, this`annotation, api`state, api`log
      ensures r.Refused? <==> old(externalName) == "" && !valid
      ensures old(externalName) != "" || !valid ==>
                && api.state == old(api.state) && api.log == old(api.log)
                && externalName == old(externalName) && annotation == old(annotation)
      ensures old(externalName) == "" && valid ==>
                && Sent(api.service, old(api.state), old(api.log), CreatePlan(spec), api.state, api.log, r.Completed?)
                && externalName == (if r.Completed? then id else "")
                && annotation == if r.Completed? then ComponentConfigsHash(spec.configs) else old(annotation)
    {
      if externalName != "" {
        return Completed;
      }
      if !valid {
        return Refused;
      }
      var params := ApplyExtendParam(spec);
      var ok := api.Send(Resource(CreateCluster(spec.description.GetOr(""), params, spec.configs)));
      if !ok {
        return Aborted;
      }
      externalName := id;
      annotation := ComponentConfigsHash(spec.configs);
      r := Completed;
    }

    /** `all`: every call that was issued succeeded. The annotation follows the configuration push. */
    method Update(api: Endpoint<Option<Cluster>, ClusterCall>) returns (r: Outcome, ghost all: bool)
      modifies this`annotation, api`state, api`log
      ensures r.Refused? <==> externalName == ""
      ensures r.Refused? ==> api.state == old(api.state) && api.log == old(api.log) && annotation == old(annotation)
      ensures !r.Refused? ==>
                && Sent(api.service, old(api.state), old(api.log), UpdatePlan(spec, ParseEndpointHost(status)),
                        api.state, api.log, all)
                && (r.Completed? <==> all && CanBind(spec, ParseEndpointHost(status)))
                && annotation == if r.Completed? then ComponentConfigsHash(spec.configs) else old(annotation)
    {
      all := true;
      if externalName == "" {
        r := Refused;
        return;
      }
      ghost var boundIp := ParseEndpointHost(status);
      ghost var s0, log0, description := api.state, api.log, DescriptionPlan(spec);
      ghost var eip, config := EipPlan(spec, boundIp), ConfigPlan(spec, boundIp);
      SentNothing(api.service, s0, log0);
      if spec.description.Some? {
        var ok := api.Send(Resource(UpdateDescription(spec.description.value)));
        if !ok {
          SentStop(api.service, s0, log0, description, api.state, api.log, eip + config);
          r, all := Aborted, false;
          return;
        }
      }
      ghost var s1, log1 := api.state, api.log;
      var ok, refused := UpdateEip(api, spec, status);
      if !ok {
        SentStop(api.service, s1, log1, eip, api.state, api.log, config);
        SentThen(api.service, s0, log0, description, s1, log1, eip + config, api.state, api.log, false);
        r, all := Aborted, false;
        return;
      }
      if refused {
        assert eip + config == eip;
        SentThen(api.service, s0, log0, description, s1, log1, eip + config, api.state, api.log, true);
        r := Aborted;
        return;
      }
      ghost var s2, log2 := api.state, api.log;
      ok := api.Send(Resource(UpdateConfiguration(spec.configs)));
      SentThen(api.service, s1, log1, eip, s2, log2, config, api.state, api.log, ok);
      SentThen(api.service, s0, log0, description, s1, log1, eip + config, api.state, api.log, ok);
      if !ok {
        r, all := Aborted, false;
        return;
      }
      annotation := ComponentConfigsHash(spec.configs);
      r := Completed;
    }
  }
}
