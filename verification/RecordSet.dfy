/** internal/controller/dnsrecordset/recordset.go */
module RecordSet {
  import opened Basics
  import opened Cloud
  import opened TagReconciler
  import opened LateInit

  datatype Spec = Spec(privateZoneId: Option<string>, publicZoneId: Option<string>, name: string, kind: string,
                       records: seq<string>, description: Option<string>, ttl: Option<int>, tags: Option<Tags>)

  /** `kind` is the record type (A, TXT, ...). */
  datatype Record = Record(name: string, kind: string, records: seq<string>, description: string, ttl: int)

  datatype UpdateOpts = UpdateOpts(records: Option<seq<string>>, description: string, ttl: int)

  datatype RecordCall = CreateRecord(zoneId: string, record: Record) | UpdateRecord(zoneId: string, opts: UpdateOpts)

  type Stored = State<Option<Record>>

  /** What the DNS service does. It stores a record list in an order of its own (`shuffle`), clears the
      records when an update has none, and leaves the other fields alone when they are zero. */
  function RecordStep(shuffle: seq<string> -> seq<string>, s: Option<Record>, c: RecordCall): Option<Record> {
    match c
    case CreateRecord(_, record) => if s.None? then Some(record.(records := shuffle(record.records))) else s
    case UpdateRecord(_, opts) =>
      if s.None? then s
      else Some(s.value.(records := shuffle(opts.records.GetOr([])),
                         description := if opts.description == "" then s.value.description else opts.description,
                         ttl := if opts.ttl == 0 then s.value.ttl else opts.ttl))
  }

  ghost function RecordService(shuffle: seq<string> -> seq<string>, m: TagMatch): Service<Option<Record>, RecordCall> {
    Service((s, c) => RecordStep(shuffle, s, c), m)
  }

  /** "DNS-private_recordset" or "DNS-public_recordset". */
  datatype TagService = PrivateRecordSet | PublicRecordSet

  datatype ZoneInfo = ZoneInfo(zoneId: string, tagService: TagService)

  /** A set private zone takes precedence over a public one, and decides under which type the tags are kept. */
  function GetZoneInfo(spec: Spec): (r: Option<ZoneInfo>)
    ensures r.None? <==> spec.privateZoneId.GetOr("") == "" && spec.publicZoneId.GetOr("") == ""
    ensures spec.privateZoneId.GetOr("") != "" ==> r.Some? && Some(r.value.zoneId) == spec.privateZoneId
    ensures r.Some? && Some(r.value.zoneId) != spec.privateZoneId ==> Some(r.value.zoneId) == spec.publicZoneId
    ensures r.Some? ==> r.value.zoneId != ""
    ensures r.Some? ==> (r.value.tagService.PrivateRecordSet? <==> spec.privateZoneId.GetOr("") != "")
  {
    if spec.privateZoneId.GetOr("") != "" then Some(ZoneInfo(spec.privateZoneId.value, PrivateRecordSet))
    else if spec.publicZoneId.GetOr("") != "" then Some(ZoneInfo(spec.publicZoneId.value, PublicRecordSet))
    else None
  }

  // ----- quoting -----

  function Quote(r: string): string {
    "\"" + r + "\""
  }

  function Trim(r: string): string {
    if |r| >= 2 && r[0] == '"' && r[|r| - 1] == '"' then r[1..|r| - 1] else r
  }

  function Quoted(kind: string, records: seq<string>): seq<string> {
    if kind != "TXT" then records else seq(|records|, i requires 0 <= i < |records| => Quote(records[i]))
  }

  function Trimmed(kind: string, records: seq<string>): seq<string> {
    if kind != "TXT" then records else seq(|records|, i requires 0 <= i < |records| => Trim(records[i]))
  }

  method QuoteTxtRecords(kind: string, records: seq<string>) returns (quoted: seq<string>)
    ensures quoted == Quoted(kind, records)
    ensures kind != "TXT" ==> quoted == records
    ensures kind == "TXT" ==>
              && |quoted| == |records|
              && forall i | 0 <= i < |records| ::
                   && |quoted[i]| == |records[i]| + 2 && quoted[i][1..|records[i]| + 1] == records[i]
                   && quoted[i][0] == quoted[i][|records[i]| + 1] == '"'
  {
    if kind != "TXT" {
      return records;
    }
    quoted := [];
    for i := 0 to |records|
      invariant |quoted| == i && forall j | 0 <= j < i :: quoted[j] == Quote(records[j])
    {
      quoted := quoted + ["\"" + records[i] + "\""];
    }
  }

  method TrimTxtQuotes(kind: string, records: seq<string>) returns (trimmed: seq<string>)
    ensures trimmed == Trimmed(kind, records)
    ensures kind != "TXT" ==> trimmed == records
    ensures kind == "TXT" ==>
              && |trimmed| == |records|
              && forall i | 0 <= i < |records| ::
                   var r := records[i];
                   if |r| >= 2 && r[0] == '"' && r[|r| - 1] == '"' then r == ['"'] + trimmed[i] + ['"'] else trimmed[i] == r
  {
    if kind != "TXT" {
      return records;
    }
    trimmed := [];
    for i := 0 to |records|
      invariant |trimmed| == i && forall j | 0 <= j < i :: trimmed[j] == Trim(records[j])
    {
      var r := records[i];
      if |r| >= 2 && r[0] == '"' && r[|r| - 1] == '"' {
        trimmed := trimmed + [r[1..|r| - 1]];
      } else {
        trimmed := trimmed + [r];
      }
    }
  }

  /** Trimming undoes quoting, for every record type and every text, quotes and all. */
  lemma TrimUndoesQuote(kind: string, records: seq<string>)
    ensures Trimmed(kind, Quoted(kind, records)) == records
  {
    if kind == "TXT" {
      forall i | 0 <= i < |records| ensures Trim(Quote(records[i])) == records[i] {
        var q := Quote(records[i]);
        assert q[1..|q| - 1] == records[i];
      }
    }
  }

  // ----- detector -----

  predicate RecordsUpToDate(spec: Spec, observed: Record) {
    Sort(spec.records) == Sort(Trimmed(observed.kind, observed.records))
  }

  predicate IsUpToDate(spec: Spec, observed: Record, tags: Tags) {
    && RecordsUpToDate(spec, observed)
    && IsOptionalUpToDate(spec.description, observed.description)
    && IsOptionalUpToDate(spec.ttl, observed.ttl)
    && IsOptionalUpToDate(spec.tags, tags)
  }

  function LateInitialized(spec: Spec, observed: Record, tags: Tags): (r: Spec)
    ensures r.records == spec.records && r.kind == spec.kind && FillsNonZero(spec.tags, r.tags, tags, map[])
    ensures r.privateZoneId == spec.privateZoneId && r.publicZoneId == spec.publicZoneId && r.name == spec.name
    ensures FillsNonZero(spec.ttl, r.ttl, observed.ttl, 0)
    ensures FillsNonZero(spec.description, r.description, observed.description, "")
    ensures IsUpToDate(r, observed, tags) <==> IsUpToDate(spec, observed, tags)
  {
    spec.(ttl := InitPtrIfNonZero(spec.ttl, observed.ttl, 0),
          description := InitPtrIfNonZero(spec.description, observed.description, ""),
          tags := InitPtrIfNonZero(spec.tags, tags, map[]))
  }

  lemma LateInitIdempotent(spec: Spec, observed: Record, tags: Tags)
    ensures var r := LateInitialized(spec, observed, tags); LateInitialized(r, observed, tags) == r
  {
  }

  /** The detector, field by field: the spec, completed by the observed values, is what was observed, and the
      records are the same up to order and quotes. */
  lemma UpToDateIff(spec: Spec, observed: Record, tags: Tags)
    ensures IsUpToDate(spec, observed, tags) <==>
              && multiset(spec.records) == multiset(Trimmed(observed.kind, observed.records))
              && (spec.description.GetOr(observed.description), spec.ttl.GetOr(observed.ttl), spec.tags.GetOr(tags))
                 == (observed.description, observed.ttl, tags)
  {
    SortEqualIff(spec.records, Trimmed(observed.kind, observed.records));
  }

  // ----- planner -----

  ghost predicate NeedsUpdate(spec: Spec, observed: Record) {
    !(RecordsUpToDate(spec, observed) && IsOptionalUpToDate(spec.description, observed.description)
      && IsOptionalUpToDate(spec.ttl, observed.ttl))
  }

  ghost function FieldPlan(zoneId: string, spec: Spec, observed: Record): seq<Call<RecordCall>> {
    if !NeedsUpdate(spec, observed) then []
    else [Resource(UpdateRecord(zoneId, UpdateOpts(Some(Quoted(spec.kind, spec.records)),
                                                   ToSend(spec.description, observed.description, ""),
                                                   ToSend(spec.ttl, observed.ttl, 0))))]
  }

  ghost function UpdatePlan(zoneId: string, spec: Spec, s: Stored): seq<Call<RecordCall>>
    requires s.res.Some?
  {
    FieldPlan(zoneId, spec, s.res.value) + TagPlan(s.tags, spec.tags)
  }

  method BuildUpdateOpts(spec: Spec, observed: Record) returns (opts: UpdateOpts, needsUpdate: bool)
    ensures needsUpdate <==> NeedsUpdate(spec, observed)
    ensures needsUpdate ==> opts.records == Some(Quoted(spec.kind, spec.records))
    ensures opts.description == ToSend(spec.description, observed.description, "")
    ensures opts.ttl == ToSend(spec.ttl, observed.ttl, 0)
  {
    opts := UpdateOpts(None, "", 0);
    needsUpdate := false;
    var quotedRecords := QuoteTxtRecords(spec.kind, spec.records);
    var trimmedObserved := TrimTxtQuotes(observed.kind, observed.records);
    var desiredSorted, observedSorted := Sort(spec.records), Sort(trimmedObserved);
    if desiredSorted != observedSorted {
      opts := opts.(records := Some(quotedRecords));
      needsUpdate := true;
    }
    if spec.description.Some? && spec.description.value != observed.description {
      opts := opts.(description := spec.description.value);
      needsUpdate := true;
    }
    if spec.ttl.Some? && spec.ttl.value != observed.ttl {
      opts := opts.(ttl := spec.ttl.value);
      needsUpdate := true;
    }
    if needsUpdate && opts.records.None? {
      opts := opts.(records := Some(quotedRecords));
    }
  }

  class RecordSetResource {
    var spec: Spec
    var externalName: string

    constructor (spec: Spec)
      ensures this.spec == spec && this.externalName == ""
    {
      this.spec, this.externalName := spec, "";
    }

    method LateInitialize(observed: Record, tags: Tags, li: LateInitializer)
      modifies this`spec, li
      ensures spec == LateInitialized(old(spec), observed, tags)
      ensures li.changed == (old(li.changed) || spec != old(spec))
    {
      var ttl := LateInitPtrIfNonZero(spec.ttl, observed.ttl, 0, li);
      var description := LateInitPtrIfNonZero(spec.description, observed.description, "", li);
      var tags := LateInitPtrIfNonZero(spec.tags, tags, map[], li);
      spec := spec.(ttl := ttl, description := description, tags := tags);
    }

    /** "Up to date" means that an Update in this state would send nothing. */
    method Observe(api: Endpoint<Option<Record>, RecordCall>) returns (r: Observation)
      modifies this`spec, api`failed
      ensures r.Failed? <==> api.failed != old(api.failed) || (externalName != "" && GetZoneInfo(old(spec)).None?)
      ensures !r.Failed? ==> (r.Absent? <==> externalName == "" || api.state.res.None?)
      ensures r.Exists? ==>
                && spec == LateInitialized(old(spec), api.state.res.value, api.state.tags)
                && r.lateInitialized == (spec != old(spec))
                && r.upToDate == IsUpToDate(spec, api.state.res.value, api.state.tags)
                && GetZoneInfo(spec).Some?
                && (r.upToDate <==> UpdatePlan(GetZoneInfo(spec).value.zoneId, spec, api.state) == [])
      ensures !r.Exists? ==> spec == old(spec)
    {
      if externalName == "" {
        return Absent;
      }
      if GetZoneInfo(spec).None? {
        return Failed;
      }
      var read := api.Read();
      if read.None? {
        return Failed;
      }
      if read.value.res.None? {
        return Absent;
      }
      var li := new LateInitializer();
      LateInitialize(read.value.res.value, read.value.tags, li);
      Agreement(GetZoneInfo(spec).value.zoneId, spec, read.value);
      r := Exists(IsUpToDate(spec, read.value.res.value, read.value.tags), li.changed);
    }

    method Update(api: Endpoint<Option<Record>, RecordCall>) returns (r: Outcome)
      modifies api
      ensures r.Refused? <==>
                || externalName == "" || GetZoneInfo(spec).None? || api.failed != old(api.failed)
                || old(api.state).res.None?
      ensures r.Refused? ==> api.state == old(api.state) && api.log == old(api.log)
      ensures !r.Refused? ==>
                Sent(api.service, old(api.state), old(api.log),
                     UpdatePlan(GetZoneInfo(spec).value.zoneId, spec, old(api.state)), api.state, api.log, r.Completed?)
    {
      var zone := GetZoneInfo(spec);
      if externalName == "" || zone.None? {
        return Refused;
      }
      var read := api.Read();
      if read.None? || read.value.res.None? {
        return Refused;
      }
      var observed, observedTags := read.value.res.value, read.value.tags;
      ghost var s0, log0 := api.state, api.log;
      ghost var fields := FieldPlan(zone.value.zoneId, spec, observed);
      ghost var tags := TagPlan<RecordCall>(observedTags, spec.tags);
      SentNothing(api.service, s0, log0);
      var opts, needsUpdate := BuildUpdateOpts(spec, observed);
      if needsUpdate {
        var ok := api.Send(Resource(UpdateRecord(zone.value.zoneId, opts)));
        if !ok {
          SentStop(api.service, s0, log0, fields, api.state, api.log, tags);
          return Aborted;
        }
      }
      ghost var s1, log1 := api.state, api.log;
      var ok := ReconcileTags(api, observedTags, spec.tags);
      SentThen(api.service, s0, log0, fields, s1, log1, tags, api.state, api.log, ok);
      r := if ok then Completed else Aborted;
    }
  }

  // ----- convergence -----

  /** The sorted comparison of the detector is equality as multisets of the unquoted records. */
  lemma RecordsUpToDateIff(spec: Spec, observed: Record)
    ensures RecordsUpToDate(spec, observed) <==> multiset(spec.records) == multiset(Trimmed(observed.kind, observed.records))
  {
    SortEqualIff(spec.records, Trimmed(observed.kind, observed.records));
  }

  function TrimmedOne(kind: string, record: string): string {
    if kind == "TXT" then Trim(record) else record
  }

  lemma TrimmedCons(kind: string, r: string, s: seq<string>)
    ensures Trimmed(kind, [r] + s) == [TrimmedOne(kind, r)] + Trimmed(kind, s)
  {
    if kind == "TXT" {
      var t := [r] + s;
      forall i | 0 <= i < |s| ensures Trimmed(kind, t)[i + 1] == Trimmed(kind, s)[i] {
        assert t[i + 1] == s[i];
      }
    }
  }

  lemma TrimmedAppend(kind: string, a: seq<string>, b: seq<string>)
    ensures Trimmed(kind, a + b) == Trimmed(kind, a) + Trimmed(kind, b)
  {
  }

  function Removed(s: seq<string>, i: nat): seq<string>
    requires i < |s|
  {
    s[..i] + s[i + 1..]
  }

  lemma RemovedCounts(s: seq<string>, i: nat)
    requires i < |s|
    ensures multiset(s) == multiset{s[i]} + multiset(Removed(s, i))
  {
    assert s == s[..i] + ([s[i]] + s[i + 1..]);
  }

  /** Trimming a list with one record taken out. */
  lemma TrimmedRemoved(kind: string, s: seq<string>, i: nat)
    requires i < |s|
    ensures multiset(Trimmed(kind, s)) == multiset{TrimmedOne(kind, s[i])} + multiset(Trimmed(kind, Removed(s, i)))
  {
    var front, back := s[..i], s[i + 1..];
    assert s == front + ([s[i]] + back);
    TrimmedAppend(kind, front, [s[i]] + back);
    TrimmedCons(kind, s[i], back);
    TrimmedAppend(kind, front, back);
  }

  lemma SomewhereIn(x: string, b: seq<string>) returns (i: nat)
    requires x in multiset(b)
    ensures i < |b| && b[i] == x
  {
    i :| i < |b| && b[i] == x;
  }

  /** Rearranging records before trimming rearranges the trimmed records. */
  lemma {:induction false} TrimmedPermutation(kind: string, a: seq<string>, b: seq<string>)
    requires multiset(a) == multiset(b)
    ensures multiset(Trimmed(kind, a)) == multiset(Trimmed(kind, b))
    decreases |a|
  {
    if a == [] {
      assert |b| == |multiset(b)| == 0;
    } else {
      assert a[0] in multiset(a);
      var i := SomewhereIn(a[0], b);
      TrimmedStep(kind, a, b, i);
      TrimmedPermutation(kind, Removed(a, 0), Removed(b, i));
    }
  }

  lemma TrimmedStep(kind: string, a: seq<string>, b: seq<string>, i: nat)
    requires a != [] && i < |b| && b[i] == a[0] && multiset(a) == multiset(b)
    ensures multiset(Removed(a, 0)) == multiset(Removed(b, i))
    ensures multiset(Trimmed(kind, Removed(a, 0))) == multiset(Trimmed(kind, Removed(b, i))) ==>
              multiset(Trimmed(kind, a)) == multiset(Trimmed(kind, b))
  {
    RemovedCounts(a, 0);
    RemovedCounts(b, i);
    SameRest(a[0], multiset(a), multiset(Removed(a, 0)), multiset(b), multiset(Removed(b, i)));
    TrimmedRemoved(kind, a, 0);
    TrimmedRemoved(kind, b, i);
    SameRest(TrimmedOne(kind, a[0]), multiset(Trimmed(kind, a)), multiset(Trimmed(kind, Removed(a, 0))),
             multiset(Trimmed(kind, b)), multiset(Trimmed(kind, Removed(b, i))));
  }

  lemma SameRest(x: string, a: multiset<string>, restA: multiset<string>, b: multiset<string>, restB: multiset<string>)
    requires a == multiset{x} + restA && b == multiset{x} + restB
    ensures a == b <==> restA == restB
  {
    assert restA == a - multiset{x} && restB == b - multiset{x};
  }

  /** The detector and the planner agree: up to date iff Update has nothing to send. */
  lemma Agreement(zoneId: string, spec: Spec, s: Stored)
    requires s.res.Some?
    ensures IsUpToDate(spec, s.res.value, s.tags) <==> UpdatePlan(zoneId, spec, s) == []
  {
    TagAgreement<RecordCall>(s.tags, spec.tags);
  }

  ghost predicate Rearranges(shuffle: seq<string> -> seq<string>) {
    forall x :: multiset(shuffle(x)) == multiset(x)
  }

  lemma SentRecordsUpToDate(shuffle: seq<string> -> seq<string>, spec: Spec, stored: Record)
    requires Rearranges(shuffle) && stored.kind == spec.kind && stored.records == shuffle(Quoted(spec.kind, spec.records))
    ensures RecordsUpToDate(spec, stored)
  {
    TrimmedPermutation(spec.kind, stored.records, Quoted(spec.kind, spec.records));
    TrimUndoesQuote(spec.kind, spec.records);
    RecordsUpToDateIff(spec, stored);
  }

  ghost predicate FieldsUpToDate(spec: Spec, record: Record) {
    IsOptionalUpToDate(spec.description, record.description) && IsOptionalUpToDate(spec.ttl, record.ttl)
  }

  /** Every set field that differs has a value the request can carry. */
  ghost predicate FieldsSendable(spec: Spec, record: Record) {
    Sendable(spec.description, record.description, "") && Sendable(spec.ttl, record.ttl, 0)
  }

  ghost function Updated(shuffle: seq<string> -> seq<string>, spec: Spec, record: Record): Record {
    if !NeedsUpdate(spec, record) then record
    else record.(records := shuffle(Quoted(spec.kind, spec.records)),
                 description := if ToSend(spec.description, record.description, "") == "" then record.description
                                else spec.description.value,
                 ttl := if ToSend(spec.ttl, record.ttl, 0) == 0 then record.ttl else spec.ttl.value)
  }

  lemma FieldsResult(shuffle: seq<string> -> seq<string>, m: TagMatch, zoneId: string, spec: Spec, s: Stored)
    requires s.res.Some?
    ensures Run(RecordService(shuffle, m), s, FieldPlan(zoneId, spec, s.res.value)) ==
            s.(res := Some(Updated(shuffle, spec, s.res.value)))
  {
    var record := s.res.value;
    RunOne(RecordService(shuffle, m), s, FieldPlan(zoneId, spec, record));
    if NeedsUpdate(spec, record) {
      var opts := UpdateOpts(Some(Quoted(spec.kind, spec.records)), ToSend(spec.description, record.description, ""),
                             ToSend(spec.ttl, record.ttl, 0));
      assert FieldPlan(zoneId, spec, record) == [Resource(UpdateRecord(zoneId, opts))];
      assert RecordStep(shuffle, Some(record), UpdateRecord(zoneId, opts)) == Some(Updated(shuffle, spec, record));
    }
  }

  lemma UpdatedRecords(shuffle: seq<string> -> seq<string>, spec: Spec, record: Record)
    requires Rearranges(shuffle) && record.kind == spec.kind
    ensures RecordsUpToDate(spec, Updated(shuffle, spec, record))
  {
    if NeedsUpdate(spec, record) {
      SentRecordsUpToDate(shuffle, spec, Updated(shuffle, spec, record));
    }
  }

  /** Description and TTL after the update: what can be sent has arrived, and nothing is sent next time. */
  lemma UpdatedFields(shuffle: seq<string> -> seq<string>, spec: Spec, record: Record)
    ensures var t := Updated(shuffle, spec, record);
            && ToSend(spec.description, t.description, "") == "" && ToSend(spec.ttl, t.ttl, 0) == 0
            && (spec.description.None? ==> t.description == record.description) && (spec.ttl.None? ==> t.ttl == record.ttl)
            && (FieldsUpToDate(spec, t) <==> FieldsSendable(spec, record))
            && (NeedsUpdate(spec, record) ==> t.records == shuffle(Quoted(spec.kind, spec.records)))
            && (!NeedsUpdate(spec, record) ==> t == record)
  {
  }

  /** However the API reorders the records, one complete Update leaves them up to date, and satisfies
      the whole detector iff description and TTL have values the request can carry and the tags need one
      pass. */
  lemma CompleteUpdateIff(shuffle: seq<string> -> seq<string>, m: TagMatch, zoneId: string, spec: Spec, s: Stored)
    requires Rearranges(shuffle) && s.res.Some? && s.res.value.kind == spec.kind
    ensures var t := Run(RecordService(shuffle, m), s, UpdatePlan(zoneId, spec, s));
            && t.res.Some? && RecordsUpToDate(spec, t.res.value)
            && (IsUpToDate(spec, t.res.value, t.tags) <==> UpdatePlan(zoneId, spec, t) == [])
            && (IsUpToDate(spec, t.res.value, t.tags) <==>
                  FieldsSendable(spec, s.res.value) && OnePass(m, spec.tags, s.tags))
  {
    var sv := RecordService(shuffle, m);
    var fields, tags := FieldPlan(zoneId, spec, s.res.value), TagPlan<RecordCall>(s.tags, spec.tags);
    FieldsResult(shuffle, m, zoneId, spec, s);
    UpdatedRecords(shuffle, spec, s.res.value);
    UpdatedFields(shuffle, spec, s.res.value);
    RunAppend(sv, s, fields, tags);
    RunTagPlan(sv, Run(sv, s, fields), spec.tags);
    OnePassIff(m, spec.tags, s.tags);
    Agreement(zoneId, spec, Run(sv, s, UpdatePlan(zoneId, spec, s)));
  }

  /** Every update request carries the full quoted record list, whatever field made it necessary. */
  lemma EveryUpdateCarriesRecords(zoneId: string, spec: Spec, s: Stored)
    requires s.res.Some?
    ensures forall c | c in UpdatePlan(zoneId, spec, s) && c.Resource? ::
              c.call.UpdateRecord? && c.call.zoneId == zoneId && c.call.opts.records == Some(Quoted(spec.kind, spec.records))
  {
    TagPlanOnlyTags<RecordCall>(s.tags, spec.tags);
    forall c | c in UpdatePlan(zoneId, spec, s) && c.Resource?
      ensures c.call.UpdateRecord? && c.call.zoneId == zoneId && c.call.opts.records == Some(Quoted(spec.kind, spec.records))
    {
      assert c in FieldPlan(zoneId, spec, s.res.value);
    }
  }
}
