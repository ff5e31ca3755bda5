/** What the CCE controller's annotation and address handling keep over whole runs. */
module ClusterRuns {
  import opened Basics
  import opened Cloud
  import opened Cluster

  /** The cluster together with the resource's annotation. */
  datatype World = World(cloud: Stored, annotation: Hash)

  /** The annotation is the hash of the configuration the service accepted last. */
  ghost predicate AnnotationTrue(w: World) {
    w.cloud.res.Some? ==> w.annotation == ComponentConfigsHash(w.cloud.res.value.configs)
  }

  /** Create; an Update that works from the address Observe has `seen` and is stopped after `stop` calls; or
      somebody else changing the description or the address. */
  datatype Step =
    | CreateStep(spec: Spec)
    | UpdateStep(spec: Spec, seen: string, stop: nat)
    | OutsideStep(description: string, boundIp: string)

  /** The calls of a plan before the first failure. */
  function Before<T>(plan: seq<T>, stop: nat): seq<T> {
    if stop < |plan| then plan[..stop] else plan
  }

  ghost function After(w: World, step: Step): World {
    match step
    case CreateStep(spec) =>
      if w.cloud.res.Some? then w
      else World(Run(ClusterService(), w.cloud, CreatePlan(spec)), ComponentConfigsHash(spec.configs))
    case UpdateStep(spec, seen, stop) =>
      if w.cloud.res.None? then w
      else
        var plan := UpdatePlan(spec, seen);
        World(Run(ClusterService(), w.cloud, Before(plan, stop)),
              if stop >= |plan| && CanBind(spec, seen) then ComponentConfigsHash(spec.configs) else w.annotation)
    case OutsideStep(description, boundIp) =>
      if w.cloud.res.None? then w
      else w.(cloud := w.cloud.(res := Some(w.cloud.res.value.(description := description, boundIp := boundIp))))
  }

  ghost function AfterAll(w: World, steps: seq<Step>): World {
    if steps == [] then w else After(AfterAll(w, steps[..|steps| - 1]), steps[|steps| - 1])
  }

  // ----- the effect of the calls -----

  ghost predicate PushesConfig(c: Call<ClusterCall>) {
    c.Resource? && c.call.UpdateConfiguration?
  }

  /** Only the configuration push touches the configuration, and nothing removes the cluster. */
  lemma {:induction false} ConfigsKept(s: Stored, calls: seq<Call<ClusterCall>>)
    requires s.res.Some? && forall c | c in calls :: !PushesConfig(c)
    ensures var t := Run(ClusterService(), s, calls); t.res.Some? && t.res.value.configs == s.res.value.configs
  {
    if calls != [] {
      ConfigsKept(s, calls[..|calls| - 1]);
      assert calls[|calls| - 1] in calls;
    }
  }

  lemma BeforePush(spec: Spec, boundIp: string, k: nat)
    requires k < |UpdatePlan(spec, boundIp)| || !CanBind(spec, boundIp)
    requires k <= |UpdatePlan(spec, boundIp)|
    ensures forall c | c in UpdatePlan(spec, boundIp)[..k] :: !PushesConfig(c)
  {
    var early, config := DescriptionPlan(spec) + EipPlan(spec, boundIp), ConfigPlan(spec, boundIp);
    assert UpdatePlan(spec, boundIp) == early + config;
    assert (early + config)[..k] == early[..k];
    EarlyCallsDoNotPush(spec, boundIp);
    assert forall c | c in early[..k] :: c in early;
  }

  lemma EarlyCallsDoNotPush(spec: Spec, boundIp: string)
    ensures forall c | c in DescriptionPlan(spec) + EipPlan(spec, boundIp) :: !PushesConfig(c)
  {
    assert forall c | c in EipPlan(spec, boundIp) :: c in UnbindPlan(spec, boundIp) || c in BindPlan(spec, boundIp);
  }

  lemma AfterDescription(s: Stored, spec: Spec)
    requires s.res.Some?
    ensures var t := Run(ClusterService(), s, DescriptionPlan(spec));
            && t.res.Some? && t.res.value.boundIp == s.res.value.boundIp
            && (IsOptionalUpToDate(spec.description, t.res.value.description)
                <==> Sendable(spec.description, s.res.value.description, ""))
  {
    RunOne(ClusterService(), s, DescriptionPlan(spec));
  }

  lemma AfterUnbind(s: Stored, spec: Spec)
    requires s.res.Some?
    ensures var t := Run(ClusterService(), s, UnbindPlan(spec, s.res.value.boundIp));
            && t.res.Some? && t == s.(res := Some(s.res.value.(boundIp := t.res.value.boundIp)))
            && t.res.value.boundIp == if !WantsEip(spec) || MustBind(spec, s.res.value.boundIp) then "" else s.res.value.boundIp
  {
    RunOne(ClusterService(), s, UnbindPlan(spec, s.res.value.boundIp));
  }

  lemma AfterEip(s: Stored, spec: Spec)
    requires s.res.Some?
    ensures var t := Run(ClusterService(), s, EipPlan(spec, s.res.value.boundIp));
            && t.res.Some? && t == s.(res := Some(s.res.value.(boundIp := t.res.value.boundIp)))
            && t.res.value.boundIp == if CanBind(spec, s.res.value.boundIp) then spec.eip.GetOr("") else ""
  {
    var unbind, bind := UnbindPlan(spec, s.res.value.boundIp), BindPlan(spec, s.res.value.boundIp);
    RunAppend(ClusterService(), s, unbind, bind);
    AfterUnbind(s, spec);
    AfterBind(Run(ClusterService(), s, unbind), spec, s.res.value.boundIp);
  }

  lemma AfterBind(s: Stored, spec: Spec, seen: string)
    requires s.res.Some?
    requires s.res.value.boundIp == if !WantsEip(spec) || MustBind(spec, seen) then "" else seen
    ensures Run(ClusterService(), s, BindPlan(spec, seen)) ==
            s.(res := Some(s.res.value.(boundIp := if CanBind(spec, seen) then spec.eip.GetOr("") else "")))
  {
    RunOne(ClusterService(), s, BindPlan(spec, seen));
    assert !WantsEip(spec) ==> spec.eip.GetOr("") == "";
  }

  lemma AfterUpdate(s: Stored, spec: Spec)
    requires s.res.Some? && CanBind(spec, s.res.value.boundIp)
    ensures var t := Run(ClusterService(), s, UpdatePlan(spec, s.res.value.boundIp));
            && t.res.Some? && t.res.value.configs == spec.configs && t.res.value.boundIp == spec.eip.GetOr("")
            && (IsOptionalUpToDate(spec.description, t.res.value.description)
                <==> Sendable(spec.description, s.res.value.description, ""))
  {
    var sv, boundIp := ClusterService(), s.res.value.boundIp;
    var description, eip, config := DescriptionPlan(spec), EipPlan(spec, boundIp), ConfigPlan(spec, boundIp);
    AfterDescription(s, spec);
    var s1 := Run(sv, s, description);
    AfterEip(s1, spec);
    var s2 := Run(sv, s1, eip);
    RunOne(sv, s2, config);
    RunAppend(sv, s1, eip, config);
    RunAppend(sv, s, description, eip + config);
  }

  // ----- the annotation -----

  /** An Update that is not stopped ends with the push, whatever address it worked from. */
  lemma PushComesLast(s: Stored, spec: Spec, seen: string)
    requires s.res.Some? && CanBind(spec, seen)
    ensures var t := Run(ClusterService(), s, UpdatePlan(spec, seen)); t.res.Some? && t.res.value.configs == spec.configs
  {
    var early := DescriptionPlan(spec) + EipPlan(spec, seen);
    var push: Call<ClusterCall> := Resource(UpdateConfiguration(spec.configs));
    assert UpdatePlan(spec, seen) == early + [push];
    EarlyCallsDoNotPush(spec, seen);
    ConfigsKept(s, early);
    RunLast(ClusterService(), s, early, push);
  }

  lemma StepKeepsAnnotation(w: World, step: Step)
    requires AnnotationTrue(w)
    ensures AnnotationTrue(After(w, step))
  {
    match step
    case CreateStep(spec) =>
      RunOne(ClusterService(), w.cloud, CreatePlan(spec));
    case UpdateStep(spec, seen, stop) =>
      if w.cloud.res.Some? {
        var plan := UpdatePlan(spec, seen);
        if stop >= |plan| && CanBind(spec, seen) {
          PushComesLast(w.cloud, spec, seen);
        } else {
          var k := if stop < |plan| then stop else |plan|;
          assert Before(plan, stop) == plan[..k];
          BeforePush(spec, seen, k);
          ConfigsKept(w.cloud, plan[..k]);
        }
      }
    case OutsideStep(_, _) =>
  }

  /** In every run, with any specs, failing calls, outside changes of description and address, and updates
      that work from an outdated address, the
      annotation is the hash of the configuration the service accepted last; so "up to date" means that
      the configuration in the cluster, which cannot be read back, is the spec's. */
  lemma {:induction false} AnnotationAlwaysTrue(w: World, steps: seq<Step>, spec: Spec)
    requires AnnotationTrue(w)
    ensures var e := AfterAll(w, steps);
            && AnnotationTrue(e)
            && (e.cloud.res.Some? && UpToDate(spec, e.cloud.res.value, e.annotation) ==> e.cloud.res.value.configs == spec.configs)
  {
    if steps != [] {
      AnnotationAlwaysTrue(w, steps[..|steps| - 1], spec);
      StepKeepsAnnotation(AfterAll(w, steps[..|steps| - 1]), steps[|steps| - 1]);
    }
  }

  // ----- the address -----

  /** Update works from the address Observe has `seen`: when it issues a bind, no address is bound exactly
      when it saw one, and so unbound it, or none was bound when it started. Without an outside change in
      between, a bind is never issued while an address is bound. */
  lemma BindOnlyWhenUnboundIff(s: Stored, spec: Spec, seen: string, k: nat)
    requires s.res.Some? && k < |UpdatePlan(spec, seen)|
    requires var c := UpdatePlan(spec, seen)[k]; c.Resource? && c.call.BindIp?
    ensures var before := Run(ClusterService(), s, UpdatePlan(spec, seen)[..k]);
            before.res.Some? && (before.res.value.boundIp == "" <==> seen != "" || s.res.value.boundIp == "")
  {
    var sv := ClusterService();
    var description, unbind := DescriptionPlan(spec), UnbindPlan(spec, seen);
    var rest := BindPlan(spec, seen) + ConfigPlan(spec, seen);
    assert UpdatePlan(spec, seen) == (description + unbind) + rest;
    assert k == |description + unbind|;
    assert UpdatePlan(spec, seen)[..k] == description + unbind;
    RunAppend(sv, s, description, unbind);
    AfterDescription(s, spec);
    RunOne(sv, Run(sv, s, description), unbind);
  }

  lemma BindOnlyWhenUnbound(s: Stored, spec: Spec, k: nat)
    requires s.res.Some? && k < |UpdatePlan(spec, s.res.value.boundIp)|
    requires var c := UpdatePlan(spec, s.res.value.boundIp)[k]; c.Resource? && c.call.BindIp?
    ensures var before := Run(ClusterService(), s, UpdatePlan(spec, s.res.value.boundIp)[..k]);
            before.res.Some? && before.res.value.boundIp == ""
  {
    BindOnlyWhenUnboundIff(s, spec, s.res.value.boundIp, k);
  }

  /** A complete Update satisfies the detector iff the description is one the request can carry. */
  lemma CompleteUpdateIff(w: World, spec: Spec)
    requires w.cloud.res.Some? && CanBind(spec, w.cloud.res.value.boundIp)
    ensures var seen := w.cloud.res.value.boundIp;
            var e := After(w, UpdateStep(spec, seen, |UpdatePlan(spec, seen)|));
            e.cloud.res.Some? && (UpToDate(spec, e.cloud.res.value, e.annotation)
                                  <==> Sendable(spec.description, w.cloud.res.value.description, ""))
  {
    AfterUpdate(w.cloud, spec);
  }

  /** A new cluster is up to date unless no address is wanted and the user's extendParam names one. */
  lemma CreatedUpToDateIff(w: World, spec: Spec)
    requires w.cloud.res.None?
    ensures var e := After(w, CreateStep(spec));
            e.cloud.res.Some? && (UpToDate(spec, e.cloud.res.value, e.annotation)
                                  <==> WantsEip(spec) || Param(spec.extendParam.GetOr(map[]), EXTERNAL_IP_PARAM) == "")
  {
    RunOne(ClusterService(), w.cloud, CreatePlan(spec));
  }

  /** Updates with one spec, each in a reconcile that saw the bound address and each stopped somewhere. */
  ghost function AfterUpdates(w: World, spec: Spec, stops: seq<nat>): World {
    if stops == [] then w
    else
      var t := AfterUpdates(w, spec, stops[..|stops| - 1]);
      if t.cloud.res.None? then t else After(t, UpdateStep(spec, t.cloud.res.value.boundIp, stops[|stops| - 1]))
  }

  /** One of the updates gets past its unbind call. */
  ghost predicate PastUnbind(spec: Spec, stops: seq<nat>) {
    stops != [] && (stops[|stops| - 1] > |DescriptionPlan(spec)| || PastUnbind(spec, stops[..|stops| - 1]))
  }

  /** A changed address without its identifier: the bind is refused in every Update with that spec, so the
      address stays the old one or is lost, and no configuration is pushed; it is lost as soon as one Update
      gets past its unbind call. */
  lemma {:induction false} SwapWithoutIdLosesAddress(w: World, spec: Spec, stops: seq<nat>)
    requires w.cloud.res.Some? && !CanBind(spec, w.cloud.res.value.boundIp)
    ensures var e := AfterUpdates(w, spec, stops);
            && e.cloud.res.Some? && !CanBind(spec, e.cloud.res.value.boundIp)
            && e.cloud.res.value.configs == w.cloud.res.value.configs && e.annotation == w.annotation
            && e.cloud.res.value.boundIp ==
                 if PastUnbind(spec, stops) then "" else w.cloud.res.value.boundIp
  {
    if stops != [] {
      SwapWithoutIdLosesAddress(w, spec, stops[..|stops| - 1]);
      RefusedBind(AfterUpdates(w, spec, stops[..|stops| - 1]), spec, stops[|stops| - 1]);
    }
  }

  lemma RefusedBind(w: World, spec: Spec, stop: nat)
    requires w.cloud.res.Some? && !CanBind(spec, w.cloud.res.value.boundIp)
    ensures var e := After(w, UpdateStep(spec, w.cloud.res.value.boundIp, stop));
            && e.cloud.res.Some? && !CanBind(spec, e.cloud.res.value.boundIp)
            && e.cloud.res.value.configs == w.cloud.res.value.configs && e.annotation == w.annotation
            && e.cloud.res.value.boundIp == if stop > |DescriptionPlan(spec)| then "" else w.cloud.res.value.boundIp
  {
    var boundIp := w.cloud.res.value.boundIp;
    var plan := UpdatePlan(spec, boundIp);
    var k := if stop < |plan| then stop else |plan|;
    assert plan == DescriptionPlan(spec) + UnbindPlan(spec, boundIp) && Before(plan, stop) == plan[..k];
    UnbindBoundary(w.cloud, spec, k);
    EarlyCallsDoNotPush(spec, boundIp);
    assert forall c | c in plan[..k] :: c in DescriptionPlan(spec) + EipPlan(spec, boundIp);
    ConfigsKept(w.cloud, plan[..k]);
  }

  lemma UnbindBoundary(s: Stored, spec: Spec, k: nat)
    requires s.res.Some? && !CanBind(spec, s.res.value.boundIp)
    requires k <= |DescriptionPlan(spec) + UnbindPlan(spec, s.res.value.boundIp)|
    ensures var t := Run(ClusterService(), s, (DescriptionPlan(spec) + UnbindPlan(spec, s.res.value.boundIp))[..k]);
            t.res.Some? && t.res.value.boundIp == if k > |DescriptionPlan(spec)| then "" else s.res.value.boundIp
  {
    var sv, description, unbind := ClusterService(), DescriptionPlan(spec), UnbindPlan(spec, s.res.value.boundIp);
    RunPrefix(sv, s, description, unbind, k);
    if k <= |description| {
      RunOne(sv, s, description[..k]);
    } else {
      assert unbind[..k - |description|] == unbind;
      RunOne(sv, s, description);
      RunOne(sv, Run(sv, s, description), unbind);
    }
  }

  const SWAP_SPEC := Spec(None, Some("2.2.2.2"), None, [], None, None, None)

  /** There are such a spec and such a cluster: one complete Update and the address is gone. */
  lemma SwapWitness(annotation: Hash)
    ensures var w := World(State(Some(Cluster("", "1.1.1.1", [])), map[]), annotation);
            var e := AfterUpdates(w, SWAP_SPEC, [2]);
            !CanBind(SWAP_SPEC, "1.1.1.1") && e.cloud.res.Some? && e.cloud.res.value.boundIp == ""
  {
    assert "1.1.1.1"[0] != "2.2.2.2"[0];
    var w := World(State(Some(Cluster("", "1.1.1.1", [])), map[]), annotation);
    SwapWithoutIdLosesAddress(w, SWAP_SPEC, [2]);
  }

  // ----- the methods -----

  ghost predicate OneStep(w: World, t: World) {
    exists step :: t == After(w, step)
  }

  lemma NoStep(w: World, spec: Spec)
    ensures OneStep(w, w)
  {
    var plan := UpdatePlan(spec, "");
    assert Before(plan, 0) == [];
    assert w == After(w, UpdateStep(spec, "", 0));
  }

  /** What an Update of a named cluster did is one of the steps above. */
  lemma UpdateIsStep(spec: Spec, seen: string, w: World, log0: seq<Call<ClusterCall>>, t: World,
                     log1: seq<Call<ClusterCall>>, all: bool)
    requires w.cloud.res.Some?
    requires Sent(ClusterService(), w.cloud, log0, UpdatePlan(spec, seen), t.cloud, log1, all)
    requires t.annotation == if all && CanBind(spec, seen) then ComponentConfigsHash(spec.configs) else w.annotation
    ensures OneStep(w, t) && (all ==> t == After(w, UpdateStep(spec, seen, |UpdatePlan(spec, seen)|)))
  {
    var plan := UpdatePlan(spec, seen);
    if all {
      assert t == After(w, UpdateStep(spec, seen, |plan|));
    } else {
      var k :| 0 <= k < |plan| && t.cloud == Run(ClusterService(), w.cloud, plan[..k]) && log1 == log0 + plan[..k + 1];
      assert t == After(w, UpdateStep(spec, seen, k));
    }
  }

  /** One reconcile of a named cluster, as the managed-resource runtime runs the controller's methods. `r` is
      Refused exactly when a read failed; when every call succeeded, the update worked from the bound address
      and went through; and in any case what it did is one of the steps of a run. */
  method ReconcileOnce(cr: ClusterResource, api: Endpoint<Option<Cluster>, ClusterCall>, valid: bool)
    returns (ghost r: Outcome)
    requires api.service == ClusterService() && cr.externalName != ""
    modifies cr, api
    ensures r.Refused? <==> api.failed != old(api.failed)
    ensures OneStep(old(World(api.state, cr.annotation)), World(api.state, cr.annotation))
    ensures r.Completed? && valid && old(api.state).res.Some? ==>
              var w := old(World(api.state, cr.annotation));
              var seen := old(api.state).res.value.boundIp;
              World(api.state, cr.annotation) ==
              if UpToDate(old(cr.spec), old(api.state).res.value, w.annotation) then w
              else After(w, UpdateStep(cr.spec, seen, |UpdatePlan(cr.spec, seen)|))
    ensures cr.externalName == old(cr.externalName)
  {
    ghost var w, log0, failed0 := World(api.state, cr.annotation), api.log, api.failed;
    NoStep(w, cr.spec);
    var observation := cr.Observe(api, valid);
    r := Completed;
    match observation
    case Failed =>
      r := if api.failed != failed0 then Refused else Completed;
    case Absent =>
    case Exists(upToDate, _) =>
      if !upToDate {
        ghost var all;
        var updated;
        updated, all := cr.Update(api);
        UpdateIsStep(cr.spec, ParseEndpointHost(cr.status), w, log0, World(api.state, cr.annotation), api.log, all);
        r := if all then Completed else Aborted;
      }
  }
}
