/** Where repeated reconciles of a record set end, and that the controller's methods make those reconciles. */
module RecordSetConvergence {
  import opened Basics
  import opened Cloud
  import opened TagReconciler
  import opened RecordSet

  /** A failure-free reconcile of an existing record set: late-initialise, and update on drift. */
  ghost function Reconcile(shuffle: seq<string> -> seq<string>, m: TagMatch, spec: Spec, s: Stored): (Spec, Stored) {
    if s.res.None? || GetZoneInfo(spec).None? then (spec, s)
    else
      var r := LateInitialized(spec, s.res.value, s.tags);
      (r, if IsUpToDate(r, s.res.value, s.tags) then s
          else Run(RecordService(shuffle, m), s, UpdatePlan(GetZoneInfo(r).value.zoneId, r, s)))
  }

  ghost function Reconciled(shuffle: seq<string> -> seq<string>, m: TagMatch, spec: Spec, s: Stored, n: nat): (Spec, Stored) {
    Iterate(Reconciler(shuffle, m), (spec, s), n)
  }

  ghost function Reconciler(shuffle: seq<string> -> seq<string>, m: TagMatch): ((Spec, Stored)) -> (Spec, Stored) {
    (p: (Spec, Stored)) => Reconcile(shuffle, m, p.0, p.1)
  }

  /** Nothing but the tags is left to change. A field that cannot be sent still makes every update send the
      records, which are then stored as they already are. */
  ghost predicate Quiet(shuffle: seq<string> -> seq<string>, spec: Spec, s: Stored) {
    && s.res.Some? && RecordsUpToDate(spec, s.res.value)
    && (spec.tags.None? ==> s.tags == map[])
    && ToSend(spec.description, s.res.value.description, "") == "" && ToSend(spec.ttl, s.res.value.ttl, 0) == 0
    && (spec.description.None? ==> s.res.value.description == "") && (spec.ttl.None? ==> s.res.value.ttl == 0)
    && (NeedsUpdate(spec, s.res.value) ==> s.res.value.records == shuffle(Quoted(spec.kind, spec.records)))
  }

  lemma FieldsGoQuiet(shuffle: seq<string> -> seq<string>, m: TagMatch, zoneId: string, spec: Spec, s: Stored)
    requires Rearranges(shuffle) && s.res.Some? && s.res.value.kind == spec.kind
    requires LateInitialized(spec, s.res.value, s.tags) == spec
    ensures var t := Run(RecordService(shuffle, m), s, FieldPlan(zoneId, spec, s.res.value));
            && Quiet(shuffle, spec, t) && t.tags == s.tags
            && (FieldsUpToDate(spec, t.res.value) <==> FieldsSendable(spec, s.res.value))
  {
    FieldsResult(shuffle, m, zoneId, spec, s);
    UpdatedRecords(shuffle, spec, s.res.value);
    UpdatedFields(shuffle, spec, s.res.value);
  }

  lemma UpdateGoesQuiet(shuffle: seq<string> -> seq<string>, m: TagMatch, zoneId: string, spec: Spec, s: Stored)
    requires Rearranges(shuffle) && s.res.Some? && s.res.value.kind == spec.kind
    requires LateInitialized(spec, s.res.value, s.tags) == spec
    ensures var t := Run(RecordService(shuffle, m), s, UpdatePlan(zoneId, spec, s));
            && Quiet(shuffle, spec, t) && t.tags == TagsAfter(m, spec.tags, s.tags)
            && (FieldsUpToDate(spec, t.res.value) <==> FieldsSendable(spec, s.res.value))
  {
    var sv, fields := RecordService(shuffle, m), FieldPlan(zoneId, spec, s.res.value);
    FieldsGoQuiet(shuffle, m, zoneId, spec, s);
    RunTagPlan(sv, Run(sv, s, fields), spec.tags);
    RunAppend(sv, s, fields, TagPlan<RecordCall>(s.tags, spec.tags));
  }

  /** An update of a quiet record set changes its tags only. */
  lemma QuietUpdate(shuffle: seq<string> -> seq<string>, m: TagMatch, zoneId: string, spec: Spec, s: Stored)
    requires Quiet(shuffle, spec, s)
    ensures Run(RecordService(shuffle, m), s, UpdatePlan(zoneId, spec, s)) == s.(tags := TagsAfter(m, spec.tags, s.tags))
  {
    var sv, fields := RecordService(shuffle, m), FieldPlan(zoneId, spec, s.res.value);
    RunOne(sv, s, fields);
    assert Run(sv, s, fields) == s;
    RunTagPlan(sv, s, spec.tags);
    RunAppend(sv, s, fields, TagPlan<RecordCall>(s.tags, spec.tags));
  }

  lemma FirstReconcile(shuffle: seq<string> -> seq<string>, m: TagMatch, spec: Spec, s: Stored)
    requires Rearranges(shuffle) && s.res.Some? && s.res.value.kind == spec.kind && GetZoneInfo(spec).Some?
    ensures var (r, t) := Reconcile(shuffle, m, spec, s);
            && GetZoneInfo(r).Some? && Quiet(shuffle, r, t) && t.tags == TagsAfter(m, r.tags, s.tags)
            && (FieldsUpToDate(r, t.res.value) <==> FieldsSendable(spec, s.res.value))
  {
    var r := LateInitialized(spec, s.res.value, s.tags);
    LateInitIdempotent(spec, s.res.value, s.tags);
    if IsUpToDate(r, s.res.value, s.tags) {
      UpToDateTagsStay(m, r.tags, s.tags);
    } else {
      UpdateGoesQuiet(shuffle, m, GetZoneInfo(r).value.zoneId, r, s);
    }
  }

  lemma QuietReconcile(shuffle: seq<string> -> seq<string>, m: TagMatch, spec: Spec, s: Stored)
    requires Quiet(shuffle, spec, s) && GetZoneInfo(spec).Some?
    ensures Reconcile(shuffle, m, spec, s) == (spec, s.(tags := TagsAfter(m, spec.tags, s.tags)))
  {
    assert LateInitialized(spec, s.res.value, s.tags) == spec;
    if IsUpToDate(spec, s.res.value, s.tags) {
      UpToDateTagsStay(m, spec.tags, s.tags);
    } else {
      QuietUpdate(shuffle, m, GetZoneInfo(spec).value.zoneId, spec, s);
    }
  }

  /** From any record set of the spec's type, two failure-free reconciles reach a state that no later one
      changes, however records are reordered and deleted tags matched; it is up to date iff description
      and TTL had values the request can carry. */
  lemma TwoReconcilesSettle(shuffle: seq<string> -> seq<string>, m: TagMatch, spec: Spec, s: Stored, n: nat)
    requires Rearranges(shuffle) && s.res.Some? && s.res.value.kind == spec.kind && GetZoneInfo(spec).Some? && n >= 2
    ensures var (r, t) := Reconciled(shuffle, m, spec, s, n);
            && (r, t) == Reconciled(shuffle, m, spec, s, 2) && t.res.Some?
            && (IsUpToDate(r, t.res.value, t.tags) <==> FieldsSendable(spec, s.res.value))
  {
    IterateTwice(Reconciler(shuffle, m), (spec, s));
    FirstTwo(shuffle, m, spec, s);
    FixedFrom(Reconciler(shuffle, m), (spec, s), 2, n);
  }

  lemma FirstTwo(shuffle: seq<string> -> seq<string>, m: TagMatch, spec: Spec, s: Stored)
    requires Rearranges(shuffle) && s.res.Some? && s.res.value.kind == spec.kind && GetZoneInfo(spec).Some?
    ensures var (r1, t1) := Reconcile(shuffle, m, spec, s);
            var (r, t) := Reconcile(shuffle, m, r1, t1);
            && t.res.Some? && Reconcile(shuffle, m, r, t) == (r, t)
            && (IsUpToDate(r, t.res.value, t.tags) <==> FieldsSendable(spec, s.res.value))
  {
    var (r, t1) := Reconcile(shuffle, m, spec, s);
    FirstReconcile(shuffle, m, spec, s);
    QuietReconcile(shuffle, m, r, t1);
    SecondPass(m, r.tags, s.tags);
    SettledStays(shuffle, m, r, t1.(tags := TagsAfter(m, r.tags, t1.tags)));
  }

  lemma SettledStays(shuffle: seq<string> -> seq<string>, m: TagMatch, spec: Spec, s: Stored)
    requires Quiet(shuffle, spec, s) && GetZoneInfo(spec).Some? && IsOptionalUpToDate(spec.tags, s.tags)
    ensures Reconcile(shuffle, m, spec, s) == (spec, s)
    ensures IsUpToDate(spec, s.res.value, s.tags) <==> FieldsUpToDate(spec, s.res.value)
  {
    QuietReconcile(shuffle, m, spec, s);
    UpToDateTagsStay(m, spec.tags, s.tags);
  }

  // ----- the methods -----

  /** One reconcile of a named record set, as the managed-resource runtime runs the controller's methods. `r`
      is Refused exactly when a read failed and Aborted when a call did; otherwise it is the reconcile above. */
  method ReconcileOnce(ghost shuffle: seq<string> -> seq<string>, ghost m: TagMatch, cr: RecordSetResource,
                       api: Endpoint<Option<Record>, RecordCall>)
    returns (ghost r: Outcome)
    requires api.service == RecordService(shuffle, m) && cr.externalName != ""
    modifies cr, api
    ensures r.Refused? <==> api.failed != old(api.failed)
    ensures r.Completed? ==> (cr.spec, api.state) == Reconcile(shuffle, m, old(cr.spec), old(api.state))
    ensures cr.externalName == old(cr.externalName)
  {
    ghost var failed0 := api.failed;
    var observation := cr.Observe(api);
    match observation
    case Failed =>
      r := if api.failed != failed0 then Refused else Completed;
    case Absent =>
      r := Completed;
    case Exists(upToDate, _) =>
      r := Completed;
      if !upToDate {
        var updated := cr.Update(api);
        r := updated;
      }
  }
}
