/** Where repeated reconciles of an elastic IP end, and that the controller's methods make those reconciles. */
module ElasticIpConvergence {
  import opened Basics
  import opened Cloud
  import opened TagReconciler
  import opened ElasticIp

  /** A failure-free reconcile of an existing address: late-initialise, and update on drift unless an
      immutable field has changed. */
  ghost function Reconcile(m: TagMatch, spec: Spec, s: Stored): (Spec, Stored) {
    if s.res.None? then (spec, s)
    else
      var ip := s.res.value;
      var r := LateInitialized(spec, ip, s.tags);
      (r, if IsUpToDate(r, ip, s.tags) || !ValidImmutableFields(r, ip) then s
          else Run(EipService(m), s, UpdatePlan(r, ip, s.tags)))
  }

  ghost function Reconciled(m: TagMatch, spec: Spec, s: Stored, n: nat): (Spec, Stored) {
    Iterate(Reconciler(m), (spec, s), n)
  }

  ghost function Reconciler(m: TagMatch): ((Spec, Stored)) -> (Spec, Stored) {
    (p: (Spec, Stored)) => Reconcile(m, p.0, p.1)
  }

  /** The bandwidth the spec asks for is one the request can carry, or there already. */
  ghost predicate BandwidthSendable(spec: Spec, b: Bandwidth) {
    (spec.bandwidthName == b.name || spec.bandwidthName != "") && (spec.bandwidthSize == b.size || spec.bandwidthSize != 0)
  }

  /** Where a reconcile with valid immutable fields ends. */
  ghost function End(m: TagMatch, spec: Spec, s: Stored): Stored
    requires s.res.Some?
  {
    var ip := s.res.value;
    State(Some(ip.(bandwidth := BandwidthAfter(spec, ip.bandwidth), portId := spec.portId.GetOr(""))),
          TagsAfter(m, spec.tags, s.tags))
  }

  lemma ReconcileEnd(m: TagMatch, spec: Spec, s: Stored)
    requires s.res.Some? && ValidImmutableFields(spec, s.res.value)
    ensures var r := LateInitialized(spec, s.res.value, s.tags); Reconcile(m, spec, s) == (r, End(m, r, s))
  {
    var ip := s.res.value;
    var r := LateInitialized(spec, ip, s.tags);
    if IsUpToDate(r, ip, s.tags) {
      UpToDateTagsStay(m, r.tags, s.tags);
      assert r.portId.GetOr("") == ip.portId;
    } else {
      AfterUpdate(m, r, s);
    }
  }

  lemma NothingMoreToFill(m: TagMatch, spec: Spec, s: Stored)
    requires s.res.Some? && LateInitialized(spec, s.res.value, s.tags) == spec
    ensures var t := End(m, spec, s); LateInitialized(spec, t.res.value, t.tags) == spec
  {
  }

  /** A refused address stays as it is. */
  lemma RefusedStays(m: TagMatch, spec: Spec, s: Stored)
    requires s.res.Some? && !ValidImmutableFields(spec, s.res.value)
    ensures var (r, t) := Reconcile(m, spec, s);
            t == s && Reconcile(m, r, t) == (r, t) && (IsUpToDate(r, s.res.value, s.tags) <==> IsUpToDate(spec, s.res.value, s.tags))
  {
    LateInitIdempotent(spec, s.res.value, s.tags);
  }

  lemma ThirdEnd(m: TagMatch, spec: Spec, s: Stored)
    requires s.res.Some?
    ensures var t1 := End(m, spec, s);
            var t := End(m, spec, t1);
            End(m, spec, t) == t && IsOptionalUpToDate(spec.tags, t.tags) && t.res == t1.res
  {
    SecondPass(m, spec.tags, s.tags);
    var t := End(m, spec, End(m, spec, s));
    UpToDateTagsStay(m, spec.tags, t.tags);
  }

  lemma FirstTwo(m: TagMatch, spec: Spec, s: Stored)
    requires s.res.Some? && ValidImmutableFields(spec, s.res.value)
    ensures var (r1, t1) := Reconcile(m, spec, s);
            var (r, t) := Reconcile(m, r1, t1);
            && t.res.Some? && Reconcile(m, r, t) == (r, t)
            && (IsUpToDate(r, t.res.value, t.tags) <==> BandwidthSendable(spec, s.res.value.bandwidth))
  {
    var r := LateInitialized(spec, s.res.value, s.tags);
    LateInitIdempotent(spec, s.res.value, s.tags);
    ReconcileEnd(m, spec, s);
    var t1 := End(m, r, s);
    NothingMoreToFill(m, r, s);
    ReconcileEnd(m, r, t1);
    NothingMoreToFill(m, r, t1);
    ReconcileEnd(m, r, End(m, r, t1));
    ThirdEnd(m, r, s);
  }

  /** From any address, two failure-free reconciles reach a state that no later one changes, however deleted
      tags are matched. With unchanged immutable fields it is up to date iff the bandwidth is one the request
      can carry; otherwise the address is never touched and is reported as it was at the start. */
  lemma TwoReconcilesSettle(m: TagMatch, spec: Spec, s: Stored, n: nat)
    requires s.res.Some? && n >= 2
    ensures var (r, t) := Reconciled(m, spec, s, n);
            && (r, t) == Reconciled(m, spec, s, 2) && t.res.Some?
            && (IsUpToDate(r, t.res.value, t.tags) <==>
                  if ValidImmutableFields(spec, s.res.value) then BandwidthSendable(spec, s.res.value.bandwidth)
                  else IsUpToDate(spec, s.res.value, s.tags))
  {
    IterateTwice(Reconciler(m), (spec, s));
    if ValidImmutableFields(spec, s.res.value) {
      FirstTwo(m, spec, s);
    } else {
      RefusedStays(m, spec, s);
    }
    FixedFrom(Reconciler(m), (spec, s), 2, n);
  }

  // ----- the methods -----

  /** Update as the last part of a reconcile. */
  method UpdateLast(ghost m: TagMatch, cr: ElasticIpResource, api: Endpoint<Option<PublicIp>, EipCall>)
    returns (ghost r: Outcome)
    requires api.service == EipService(m) && cr.externalName != "" && api.state.res.Some?
    modifies api
    ensures r.Refused? <==> api.failed != old(api.failed)
    ensures r.Completed? ==>
              var ip := old(api.state).res.value;
              api.state == if ValidImmutableFields(cr.spec, ip)
                           then Run(EipService(m), old(api.state), UpdatePlan(cr.spec, ip, old(api.state).tags))
                           else old(api.state)
  {
    ghost var failed0 := api.failed;
    ValidImmutableFieldsIff(cr.spec, api.state.res.value);
    var updated := cr.Update(api);
    r := if updated.Refused? && api.failed == failed0 then Completed else updated;
  }

  /** One reconcile of a named address, as the managed-resource runtime runs the controller's methods. `r` is
      Refused exactly when a read failed and Aborted when a call did; otherwise it is the reconcile above. */
  method ReconcileOnce(ghost m: TagMatch, cr: ElasticIpResource, api: Endpoint<Option<PublicIp>, EipCall>)
    returns (ghost r: Outcome)
    requires api.service == EipService(m) && cr.externalName != ""
    modifies cr, api
    ensures r.Refused? <==> api.failed != old(api.failed)
    ensures r.Completed? ==> (cr.spec, api.state) == Reconcile(m, old(cr.spec), old(api.state))
    ensures cr.externalName == old(cr.externalName)
  {
    var observation := cr.Observe(api);
    match observation
    case Failed =>
      r := Refused;
    case Absent =>
      r := Completed;
    case Exists(upToDate, _) =>
      r := Completed;
      if !upToDate {
        r := UpdateLast(m, cr, api);
      }
  }
}
