/** Where repeated reconciles of a subnet end, and that the controller's methods make those reconciles. */
module SubnetConvergence {
  import opened Basics
  import opened Cloud
  import opened TagReconciler
  import opened Subnet

  ghost predicate UpToDate(spec: Spec, s: Stored)
    requires s.res.Some?
  {
    IsUpToDate(spec, s.res.value, NtpAddress(s.res.value.extraDhcp), s.tags)
  }

  ghost function Filled(spec: Spec, s: Stored): Spec
    requires s.res.Some?
  {
    LateInitialized(spec, s.res.value, NtpAddress(s.res.value.extraDhcp), s.tags)
  }

  /** A failure-free reconcile of an existing subnet: late-initialise, and update on drift unless an immutable
      field has changed. `valid` says which specs validateSubnetParameters passes. */
  ghost function Reconcile(m: TagMatch, valid: Spec -> bool, spec: Spec, s: Stored): (Spec, Stored) {
    if s.res.None? || !valid(spec) then (spec, s)
    else
      var r := Filled(spec, s);
      (r, if UpToDate(r, s) || !valid(r) || !ValidImmutableFields(r, s.res.value) then s
          else Run(SubnetService(m), s, UpdatePlan(r, s)))
  }

  ghost function Reconciled(m: TagMatch, valid: Spec -> bool, spec: Spec, s: Stored, n: nat): (Spec, Stored) {
    Iterate(Reconciler(m, valid), (spec, s), n)
  }

  ghost function Reconciler(m: TagMatch, valid: Spec -> bool): ((Spec, Stored)) -> (Spec, Stored) {
    (p: (Spec, Stored)) => Reconcile(m, valid, p.0, p.1)
  }

  /** Where a reconcile that is not refused ends. */
  ghost function End(m: TagMatch, spec: Spec, s: Stored): Stored
    requires s.res.Some?
  {
    State(Some(Updated(spec, s.res.value)), TagsAfter(m, spec.tags, s.tags))
  }

  /** The immutable fields are unchanged and the spec is valid before and after late initialisation. */
  ghost predicate Accepted(valid: Spec -> bool, spec: Spec, s: Stored) {
    s.res.Some? && spec.name != "" && valid(spec) && valid(Filled(spec, s)) && ValidImmutableFields(spec, s.res.value)
  }

  lemma FilledStays(spec: Spec, s: Stored)
    requires s.res.Some?
    ensures Filled(Filled(spec, s), s) == Filled(spec, s)
    ensures ValidImmutableFields(Filled(spec, s), s.res.value) <==> ValidImmutableFields(spec, s.res.value)
    ensures DnsSendable(Filled(spec, s), s.res.value) <==> DnsSendable(spec, s.res.value)
  {
    LateInitIdempotent(spec, s.res.value, NtpAddress(s.res.value.extraDhcp), s.tags);
  }

  lemma ReconcileEnd(m: TagMatch, valid: Spec -> bool, spec: Spec, s: Stored)
    requires Accepted(valid, spec, s)
    ensures Reconcile(m, valid, spec, s) == (Filled(spec, s), End(m, Filled(spec, s), s))
  {
    var r := Filled(spec, s);
    FilledStays(spec, s);
    if UpToDate(r, s) {
      UpToDateTagsStay(m, r.tags, s.tags);
    } else {
      AfterUpdate(m, r, s);
    }
  }

  lemma NothingMoreToFill(m: TagMatch, spec: Spec, s: Stored)
    requires s.res.Some? && spec.name != "" && Filled(spec, s) == spec
    ensures Filled(spec, End(m, spec, s)) == spec
  {
    UpdatedFields(spec, s.res.value);
  }

  lemma UpdatedTwice(spec: Spec, s: Subnet)
    requires spec.name != ""
    ensures Updated(spec, Updated(spec, s)) == Updated(spec, s)
  {
    var t := Updated(spec, s);
    UpdatedFields(spec, s);
    UpdatedFields(spec, t);
    assert Updated(spec, t).extraDhcp == t.extraDhcp;
  }

  lemma ThirdEnd(m: TagMatch, spec: Spec, s: Stored)
    requires s.res.Some? && spec.name != ""
    ensures var t1 := End(m, spec, s);
            var t := End(m, spec, t1);
            End(m, spec, t) == t && IsOptionalUpToDate(spec.tags, t.tags) && t.res == t1.res
  {
    UpdatedTwice(spec, s.res.value);
    SecondPass(m, spec.tags, s.tags);
    UpToDateTagsStay(m, spec.tags, End(m, spec, End(m, spec, s)).tags);
  }

  lemma StaysAccepted(m: TagMatch, valid: Spec -> bool, spec: Spec, s: Stored)
    requires Accepted(valid, spec, s) && Filled(spec, s) == spec
    ensures Accepted(valid, spec, End(m, spec, s)) && Filled(spec, End(m, spec, s)) == spec
  {
    NothingMoreToFill(m, spec, s);
    UpdatedUpToDateIff(spec, s.res.value);
  }

  lemma FirstTwo(m: TagMatch, valid: Spec -> bool, spec: Spec, s: Stored)
    requires Accepted(valid, spec, s)
    ensures var (r1, t1) := Reconcile(m, valid, spec, s);
            var (r, t) := Reconcile(m, valid, r1, t1);
            && t.res.Some? && Reconcile(m, valid, r, t) == (r, t)
            && (UpToDate(r, t) <==> DnsSendable(spec, s.res.value))
  {
    var r := Filled(spec, s);
    FilledStays(spec, s);
    ReconcileEnd(m, valid, spec, s);
    var t1 := End(m, r, s);
    StaysAccepted(m, valid, r, s);
    ReconcileEnd(m, valid, r, t1);
    StaysAccepted(m, valid, r, t1);
    ReconcileEnd(m, valid, r, End(m, r, t1));
    ThirdEnd(m, r, s);
    UpdatedUpToDateIff(r, s.res.value);
  }

  /** From any subnet the controller accepts, two failure-free reconciles reach a state that no later one
      changes, however deleted tags are matched; it is up to date iff no DNS setting was to be cleared. */
  lemma TwoReconcilesSettle(m: TagMatch, valid: Spec -> bool, spec: Spec, s: Stored, n: nat)
    requires Accepted(valid, spec, s) && n >= 2
    ensures var (r, t) := Reconciled(m, valid, spec, s, n);
            && (r, t) == Reconciled(m, valid, spec, s, 2) && t.res.Some?
            && (UpToDate(r, t) <==> DnsSendable(spec, s.res.value))
  {
    IterateTwice(Reconciler(m, valid), (spec, s));
    FirstTwo(m, valid, spec, s);
    FixedFrom(Reconciler(m, valid), (spec, s), 2, n);
  }

  /** From a subnet whose immutable fields have changed no number of reconciles changes anything. */
  lemma RefusedStays(m: TagMatch, valid: Spec -> bool, spec: Spec, s: Stored, n: nat)
    requires s.res.Some? && !ValidImmutableFields(spec, s.res.value)
    ensures var (r, t) := Reconciled(m, valid, spec, s, n);
            t == s && !UpToDate(r, t) && (n > 0 ==> r == if valid(spec) then Filled(spec, s) else spec)
  {
    var f := Reconciler(m, valid);
    FilledStays(spec, s);
    IterateTwice(f, (spec, s));
    Agreement(spec, s);
    Agreement(Filled(spec, s), s);
    if n > 0 {
      FixedFrom(f, (spec, s), 1, n);
    }
  }

  // ----- the methods -----

  /** One reconcile of a named subnet, as the managed-resource runtime runs the controller's methods. `r` is
      Refused exactly when a read failed and Aborted when a call did; otherwise it is the reconcile above. */
  method ReconcileOnce(ghost m: TagMatch, cr: SubnetResource, api: Endpoint<Option<Subnet>, SubnetCall>, valid: Spec -> bool)
    returns (ghost r: Outcome)
    requires api.service == SubnetService(m) && cr.externalName != ""
    modifies cr, api
    ensures r.Refused? <==> api.failed != old(api.failed)
    ensures r.Completed? ==> (cr.spec, api.state) == Reconcile(m, valid, old(cr.spec), old(api.state))
    ensures cr.externalName == old(cr.externalName)
  {
    ghost var failed0 := api.failed;
    var observation := cr.Observe(api, valid(cr.spec));
    match observation
    case Failed =>
      r := if api.failed != failed0 then Refused else Completed;
    case Absent =>
      r := Completed;
    case Exists(upToDate, _) =>
      r := Completed;
      if !upToDate {
        var updated := cr.Update(api, valid(cr.spec));
        r := if updated.Refused? && api.failed == failed0 then Completed else updated;
      }
  }
}
