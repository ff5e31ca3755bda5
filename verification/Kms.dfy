/** internal/controller/kmskey/key.go: detector, planner and the calls of one Update or Delete. */
module Kms {
  import opened Basics
  import opened Cloud
  import opened TagReconciler
  import opened LateInit

  const DEFAULT_PENDING_DAYS := "7"
  const ORIGIN_EXTERNAL := "external"

  /** The friendly key states; unknown ones pass through as they are. */
  datatype KeyState = WaitingForEnable | Enabled | Disabled | PendingDeletion | WaitingForImport | Other(name: string)

  /** A state as the API spells it: a one-character code, or a longer text. */
  datatype RawState = Code(c: char) | Text(state: KeyState)

  datatype Spec = Spec(alias: string, description: Option<string>, realm: Option<string>, enabled: Option<bool>,
                       pendingDays: Option<string>, rotationEnabled: Option<bool>, rotationInterval: Option<int>,
                       tags: Option<Tags>)

  datatype Rotation = Rotation(enabled: bool, interval: int)

  /** A key as the service stores it; `enables` counts how often its rotation was switched on. */
  datatype Key = Key(alias: string, description: string, realm: string, origin: string, rawState: RawState,
                     rotation: Rotation, enables: nat)

  datatype KeyCall =
    | UpdateAlias(alias: string)
    | UpdateDescription(description: string)
    | EnableKey
    | DisableKey
    | EnableRotation
    | DisableRotation
    | UpdateRotationInterval(interval: int)
    | ScheduleDeletion(pendingDays: string)

  type Stored = State<Key>

  /** What the key service does. Switching rotation on resets the interval to whatever the service likes. */
  function KeyStep(reset: nat -> int, k: Key, c: KeyCall): Key {
    match c
    case UpdateAlias(alias) => k.(alias := alias)
    case UpdateDescription(description) => k.(description := description)
    case EnableKey => k.(rawState := Code('2'))
    case DisableKey => k.(rawState := Code('3'))
    case EnableRotation => k.(rotation := Rotation(true, reset(k.enables)), enables := k.enables + 1)
    case DisableRotation => k.(rotation := k.rotation.(enabled := false))
    case UpdateRotationInterval(interval) => k.(rotation := k.rotation.(interval := interval))
    case ScheduleDeletion(_) => k.(rawState := Code('4'))
  }

  ghost function KeyService(reset: nat -> int, m: TagMatch): Service<Key, KeyCall> {
    Service((k, c) => KeyStep(reset, k, c), m)
  }

  /** mapKeyStateFromAPI: the codes '1' to '5'; anything else, a friendly name included, is kept. */
  function FriendlyState(raw: RawState): KeyState {
    match raw
    case Code('1') => WaitingForEnable
    case Code('2') => Enabled
    case Code('3') => Disabled
    case Code('4') => PendingDeletion
    case Code('5') => WaitingForImport
    case Code(c) => Other([c])
    case Text(state) => state
  }

  /** The states by their spellings: each code stands for one state, and a text for itself. */
  lemma FriendlyStateIff(raw: RawState)
    ensures FriendlyState(raw) == WaitingForEnable <==> raw in {Code('1'), Text(WaitingForEnable)}
    ensures FriendlyState(raw) == Enabled <==> raw in {Code('2'), Text(Enabled)}
    ensures FriendlyState(raw) == Disabled <==> raw in {Code('3'), Text(Disabled)}
    ensures FriendlyState(raw) == PendingDeletion <==> raw in {Code('4'), Text(PendingDeletion)}
    ensures FriendlyState(raw) == WaitingForImport <==> raw in {Code('5'), Text(WaitingForImport)}
  {
  }

  predicate CanReconcileRotation(state: KeyState) {
    state.Enabled? || state.Disabled?
  }

  predicate IsRotationManaged(spec: Spec) {
    spec.rotationEnabled.Some? || spec.rotationInterval.Some?
  }

  predicate ValidParameters(spec: Spec) {
    spec.alias != "" && (spec.rotationInterval.Some? ==> spec.rotationEnabled == Some(true))
  }

  predicate RealmMatches(spec: Spec, key: Key) {
    IsOptionalUpToDate(spec.realm, key.realm)
  }

  /** What one observation saw; no rotation status where the key state or a failed read gave none. */
  datatype Snapshot = Snapshot(key: Key, tags: Tags, rotation: Option<Rotation>) {
    function State(): KeyState {
      FriendlyState(key.rawState)
    }
  }

  /** The snapshot in which every read succeeds. */
  function FullSnapshot(s: Stored): Snapshot {
    var state := FriendlyState(s.res.rawState);
    Snapshot(s.res, if state.PendingDeletion? then map[] else s.tags,
             if CanReconcileRotation(state) then Some(s.res.rotation) else None)
  }

  /** The snapshots an observation can return: a rotation read may fail unnoticed when the spec leaves
      rotation alone. */
  ghost predicate CanSee(spec: Spec, s: Stored, snap: Snapshot) {
    snap == FullSnapshot(s) || (!IsRotationManaged(spec) && snap == FullSnapshot(s).(rotation := None))
  }

  /** The one failed read that an observation passes over: the rotation of a key whose spec leaves it alone. */
  ghost predicate PassedOver(spec: Spec, before: seq<Part>, after: seq<Part>) {
    spec.rotationEnabled.None? && spec.rotationInterval.None? && after == before + [Detail]
  }

  /** The snapshot an observation returns, given the failed reads before and after it. */
  ghost function SeenWith(s: Stored, before: seq<Part>, after: seq<Part>): Snapshot {
    if after == before then FullSnapshot(s) else FullSnapshot(s).(rotation := None)
  }

  // ----- detector -----

  predicate IsEnabledUpToDate(desired: Option<bool>, state: KeyState) {
    desired.None? || (if state.Enabled? then desired.value else if state.Disabled? then !desired.value else true)
  }

  predicate IsRotationUpToDate(spec: Spec, rotation: Option<Rotation>, state: KeyState) {
    !CanReconcileRotation(state) || rotation.None? ||
    (&& IsOptionalUpToDate(spec.rotationEnabled, rotation.value.enabled)
     && (spec.rotationEnabled == Some(true) ==> IsOptionalUpToDate(spec.rotationInterval, rotation.value.interval)))
  }

  predicate IsUpToDate(spec: Spec, snap: Snapshot) {
    && spec.alias == snap.key.alias
    && IsOptionalUpToDate(spec.description, snap.key.description)
    && IsEnabledUpToDate(spec.enabled, snap.State())
    && IsOptionalUpToDate(spec.tags, snap.tags)
    && IsRotationUpToDate(spec, snap.rotation, snap.State())
  }

  // ----- planner -----

  ghost function AliasPlan(spec: Spec, key: Key): seq<Call<KeyCall>> {
    if spec.alias == key.alias then [] else [Resource(UpdateAlias(spec.alias))]
  }

  /** A description that is not set counts as empty. */
  ghost function DescriptionPlan(spec: Spec, key: Key): seq<Call<KeyCall>> {
    var description := spec.description.GetOr("");
    if description == key.description then [] else [Resource(UpdateDescription(description))]
  }

  ghost function EnabledPlan(desired: Option<bool>, state: KeyState): seq<Call<KeyCall>> {
    if IsEnabledUpToDate(desired, state) then []
    else [Resource(if state.Enabled? then DisableKey else EnableKey)]
  }

  ghost function SwitchPlan(desired: bool, observed: bool): seq<Call<KeyCall>> {
    if desired == observed then [] else [Resource(if desired then EnableRotation else DisableRotation)]
  }

  ghost function IntervalPlan(spec: Spec, desired: bool, observed: int): seq<Call<KeyCall>> {
    if desired && spec.rotationInterval.Some? && spec.rotationInterval.value != observed
    then [Resource(UpdateRotationInterval(spec.rotationInterval.value))]
    else []
  }

  /** Rotation that is not set counts as off; the interval is compared with the one observed before switching. */
  ghost function RotationPlan(spec: Spec, rotation: Option<Rotation>, state: KeyState): seq<Call<KeyCall>> {
    if !CanReconcileRotation(state) || rotation.None? then []
    else
      var desired := spec.rotationEnabled.GetOr(false);
      SwitchPlan(desired, rotation.value.enabled) + IntervalPlan(spec, desired, rotation.value.interval)
  }

  ghost function UpdatePlan(spec: Spec, snap: Snapshot): seq<Call<KeyCall>> {
    (AliasPlan(spec, snap.key) + DescriptionPlan(spec, snap.key)) +
    (EnabledPlan(spec.enabled, snap.State()) +
     (RotationPlan(spec, snap.rotation, snap.State()) + TagPlan(snap.tags, spec.tags)))
  }

  // ----- late initialisation -----

  function LateInitialized(spec: Spec, snap: Snapshot): (r: Spec)
    ensures r.alias == spec.alias && r.enabled == spec.enabled && r.pendingDays == spec.pendingDays
    ensures FillsNonZero(spec.description, r.description, snap.key.description, "")
    ensures FillsNonZero(spec.realm, r.realm, snap.key.realm, "") && FillsNonZero(spec.tags, r.tags, snap.tags, map[])
    ensures snap.rotation.None? ==> r.rotationEnabled == spec.rotationEnabled && r.rotationInterval == spec.rotationInterval
    ensures snap.rotation.Some? ==>
              && r.rotationEnabled.Some? && Fills(spec.rotationEnabled, r.rotationEnabled, snap.rotation.value.enabled)
              && Fills(spec.rotationInterval, r.rotationInterval, snap.rotation.value.interval)
              && (r.rotationInterval.None? <==>
                    spec.rotationInterval.None? && (!snap.rotation.value.enabled || snap.rotation.value.interval == 0))
    ensures ValidParameters(spec) ==> (IsUpToDate(r, snap) <==> IsUpToDate(spec, snap))
  {
    var r := spec.(description := InitPtrIfNonZero(spec.description, snap.key.description, ""),
                   realm := InitPtrIfNonZero(spec.realm, snap.key.realm, ""),
                   tags := InitPtrIfNonZero(spec.tags, snap.tags, map[]));
    if snap.rotation.None? then r
    else
      var rotation := snap.rotation.value;
      r.(rotationEnabled := InitPtr(spec.rotationEnabled, rotation.enabled),
         rotationInterval := if rotation.enabled then InitPtrIfNonZero(spec.rotationInterval, rotation.interval, 0)
                             else spec.rotationInterval)
  }

  lemma LateInitIdempotent(spec: Spec, snap: Snapshot)
    ensures LateInitialized(LateInitialized(spec, snap), snap) == LateInitialized(spec, snap)
  {
  }

  // ----- the controller -----

  method ReconcileEnabledState(api: Endpoint<Key, KeyCall>, desired: Option<bool>, observedState: KeyState) returns (ok: bool)
    modifies api`state, api`log
    ensures Sent(api.service, old(api.state), old(api.log), EnabledPlan(desired, observedState), api.state, api.log, ok)
  {
    SentNothing(api.service, api.state, api.log);
    if desired.None? {
      return true;
    }
    if observedState.Enabled? {
      if desired.value {
        return true;
      }
      ok := api.Send(Resource(DisableKey));
    } else if observedState.Disabled? {
      if !desired.value {
        return true;
      }
      ok := api.Send(Resource(EnableKey));
    } else {
      ok := true;
    }
  }

  method ReconcileRotationEnabled(api: Endpoint<Key, KeyCall>, desired: bool, observed: bool) returns (ok: bool)
    modifies api`state, api`log
    ensures Sent(api.service, old(api.state), old(api.log), SwitchPlan(desired, observed), api.state, api.log, ok)
  {
    SentNothing(api.service, api.state, api.log);
    ok := true;
    if desired && !observed {
      ok := api.Send(Resource(EnableRotation));
    } else if !desired && observed {
      ok := api.Send(Resource(DisableRotation));
    }
  }

  method ReconcileRotationInterval(api: Endpoint<Key, KeyCall>, spec: Spec, desired: bool, observed: int) returns (ok: bool)
    modifies api`state, api`log
    ensures Sent(api.service, old(api.state), old(api.log), IntervalPlan(spec, desired, observed), api.state, api.log, ok)
  {
    SentNothing(api.service, api.state, api.log);
    ok := true;
    if desired && spec.rotationInterval.Some? && spec.rotationInterval.value != observed {
      ok := api.Send(Resource(UpdateRotationInterval(spec.rotationInterval.value)));
    }
  }

  method ReconcileRotation(api: Endpoint<Key, KeyCall>, spec: Spec, rotation: Option<Rotation>, observedState: KeyState)
    returns (ok: bool)
    modifies api`state, api`log
    ensures Sent(api.service, old(api.state), old(api.log), RotationPlan(spec, rotation, observedState),
                 api.state, api.log, ok)
  {
    ghost var s0, log0 := api.state, api.log;
    SentNothing(api.service, s0, log0);
    if !CanReconcileRotation(observedState) {
      return true;
    }
    if rotation.None? {
      return true;
    }
    var desired := spec.rotationEnabled.GetOr(false);
    ghost var interval := IntervalPlan(spec, desired, rotation.value.interval);
    ok := ReconcileRotationEnabled(api, desired, rotation.value.enabled);
    ghost var s1, log1 := api.state, api.log;
    ghost var switch := SwitchPlan(desired, rotation.value.enabled);
    if !ok {
      SentStop(api.service, s0, log0, switch, s1, log1, interval);
      return;
    }
    ok := ReconcileRotationInterval(api, spec, desired, rotation.value.interval);
    SentThen(api.service, s0, log0, switch, s1, log1, interval, api.state, api.log, ok);
  }

  method UpdateAliasAndDescription(api: Endpoint<Key, KeyCall>, spec: Spec, observed: Key) returns (ok: bool)
    modifies api`state, api`log
    ensures Sent(api.service, old(api.state), old(api.log), AliasPlan(spec, observed) + DescriptionPlan(spec, observed),
                 api.state, api.log, ok)
  {
    ghost var s0, log0 := api.state, api.log;
    SentNothing(api.service, s0, log0);
    ok := true;
    if spec.alias != observed.alias {
      ok := api.Send(Resource(UpdateAlias(spec.alias)));
      if !ok {
        SentStop(api.service, s0, log0, AliasPlan(spec, observed), api.state, api.log, DescriptionPlan(spec, observed));
        return;
      }
    }
    ghost var s1, log1 := api.state, api.log;
    SentNothing(api.service, s1, log1);
    var description := spec.description.GetOr("");
    if description != observed.description {
      ok := api.Send(Resource(UpdateDescription(description)));
    }
    SentThen(api.service, s0, log0, AliasPlan(spec, observed), s1, log1, DescriptionPlan(spec, observed),
             api.state, api.log, ok);
  }

  datatype Current = Unreadable | NotFound | Seen(snap: Snapshot)

  class KeyResource {
    var spec: Spec
    var externalName: string

    constructor (spec: Spec)
      ensures this.spec == spec && this.externalName == ""
    {
      this.spec, this.externalName := spec, "";
    }

    method LateInitialize(snap: Snapshot, li: LateInitializer)
      modifies this`spec, li
      ensures spec == LateInitialized(old(spec), snap)
      ensures li.changed == (old(li.changed) || spec != old(spec))
    {
      var description := LateInitPtrIfNonZero(spec.description, snap.key.description, "", li);
      var realm := LateInitPtrIfNonZero(spec.realm, snap.key.realm, "", li);
      var tags := LateInitPtrIfNonZero(spec.tags, snap.tags, map[], li);
      var rotationEnabled, rotationInterval := spec.rotationEnabled, spec.rotationInterval;
      if snap.rotation.Some? {
        rotationEnabled := LateInitPtr(rotationEnabled, snap.rotation.value.enabled, li);
        if snap.rotation.value.enabled {
          rotationInterval := LateInitPtrIfNonZero(rotationInterval, snap.rotation.value.interval, 0, li);
        }
      }
      spec := spec.(description := description, realm := realm, tags := tags,
                    rotationEnabled := rotationEnabled, rotationInterval := rotationInterval);
    }

    /** The reads of one observation, each of which may fail. `found`: the service knows the key. */
    method ObserveCurrentState(api: Endpoint<Key, KeyCall>, found: bool) returns (current: Current)
      modifies api`failed
      ensures old(api.failed) <= api.failed
      ensures current.Unreadable? <==>
                api.failed != old(api.failed) && !PassedOver(spec, old(api.failed), api.failed)
      ensures current.NotFound? <==> api.failed == old(api.failed) && !found
      ensures current.Seen? ==> found && current.snap == SeenWith(api.state, old(api.failed), api.failed)
      ensures PassedOver(spec, old(api.failed), api.failed) ==> CanReconcileRotation(FriendlyState(api.state.res.rawState))
    {
      var key := api.Read();
      if key.None? {
        return Unreadable;
      }
      if !found {
        return NotFound;
      }
      var state := FriendlyState(key.value.res.rawState);
      if state.PendingDeletion? {
        return Seen(Snapshot(key.value.res, map[], None));
      }
      var tags := api.Read(Labels);
      if tags.None? {
        return Unreadable;
      }
      if !CanReconcileRotation(state) {
        return Seen(Snapshot(key.value.res, tags.value.tags, None));
      }
      var rotation := api.Read(Detail);
      if rotation.None? {
        return if IsRotationManaged(spec) then Unreadable else Seen(Snapshot(key.value.res, tags.value.tags, None));
      }
      return Seen(Snapshot(key.value.res, tags.value.tags, Some(rotation.value.res.rotation)));
    }

    /** A key that is unknown or pending deletion counts as absent. `seen` is the snapshot of the observation. */
    method Observe(api: Endpoint<Key, KeyCall>, found: bool) returns (r: Observation, ghost seen: Snapshot)
      modifies this`spec, api`failed
      ensures old(api.failed) <= api.failed
      ensures seen == SeenWith(api.state, old(api.failed), api.failed)
      ensures r.Failed? <==>
                || old(spec).alias == ""
                || (old(spec).rotationInterval.Some? && old(spec).rotationEnabled != Some(true))
                || (api.failed != old(api.failed) && !PassedOver(old(spec), old(api.failed), api.failed))
      ensures !r.Failed? ==>
                (r.Absent? <==>
                   externalName == "" || !found || api.state.res.rawState in {Code('4'), Text(PendingDeletion)})
      ensures r.Exists? ==>
                && spec == LateInitialized(old(spec), seen) && r.lateInitialized == (spec != old(spec))
                && r.upToDate == IsUpToDate(spec, seen)
      ensures !r.Exists? ==> spec == old(spec)
    {
      ghost var failed0 := api.failed;
      seen := FullSnapshot(api.state);
      if !ValidParameters(spec) {
        r := Failed;
        return;
      }
      if externalName == "" {
        r := Absent;
        return;
      }
      var current := ObserveCurrentState(api, found);
      seen := SeenWith(api.state, failed0, api.failed);
      if current.Unreadable? {
        r := Failed;
        return;
      }
      if current.NotFound? || current.snap.State().PendingDeletion? {
        r := Absent;
        return;
      }
      var li := new LateInitializer();
      LateInitialize(current.snap, li);
      r := Exists(IsUpToDate(spec, current.snap), li.changed);
    }

    /** `seen` is the snapshot the update worked from. */
    method Update(api: Endpoint<Key, KeyCall>, found: bool) returns (r: Outcome, ghost seen: Snapshot)
      modifies api
      ensures old(api.failed) <= api.failed
      ensures seen == SeenWith(old(api.state), old(api.failed), api.failed)
      ensures r.Refused? <==>
                || spec.alias == "" || (spec.rotationInterval.Some? && spec.rotationEnabled != Some(true))
                || externalName == "" || !found
                || (spec.realm.Some? && spec.realm.value != old(api.state).res.realm)
                || (api.failed != old(api.failed) && !PassedOver(spec, old(api.failed), api.failed))
      ensures r.Refused? ==> api.state == old(api.state) && api.log == old(api.log)
      ensures !r.Refused? ==>
                Sent(api.service, old(api.state), old(api.log), UpdatePlan(spec, seen), api.state, api.log, r.Completed?)
    {
      ghost var failed0 := api.failed;
      seen := FullSnapshot(api.state);
      if !ValidParameters(spec) || externalName == "" {
        r := Refused;
        return;
      }
      var current := ObserveCurrentState(api, found);
      seen := SeenWith(api.state, failed0, api.failed);
      if !current.Seen? || !RealmMatches(spec, current.snap.key) {
        r := Refused;
        return;
      }
      r := UpdateFrom(api, current.snap);
    }

    method UpdateFrom(api: Endpoint<Key, KeyCall>, snap: Snapshot) returns (r: Outcome)
      modifies api`state, api`log
      ensures !r.Refused?
      ensures Sent(api.service, old(api.state), old(api.log), UpdatePlan(spec, snap), api.state, api.log, r.Completed?)
    {
      ghost var s0, log0 := api.state, api.log;
      ghost var fields := AliasPlan(spec, snap.key) + DescriptionPlan(spec, snap.key);
      ghost var enabled := EnabledPlan(spec.enabled, snap.State());
      ghost var rotation := RotationPlan(spec, snap.rotation, snap.State());
      ghost var tags := TagPlan<KeyCall>(snap.tags, spec.tags);
      var ok := UpdateAliasAndDescription(api, spec, snap.key);
      ghost var s1, log1 := api.state, api.log;
      if !ok {
        SentStop(api.service, s0, log0, fields, s1, log1, enabled + (rotation + tags));
        return Aborted;
      }
      ok := ReconcileEnabledState(api, spec.enabled, snap.State());
      ghost var s2, log2 := api.state, api.log;
      if !ok {
        SentStop(api.service, s1, log1, enabled, s2, log2, rotation + tags);
        SentThen(api.service, s0, log0, fields, s1, log1, enabled + (rotation + tags), s2, log2, false);
        return Aborted;
      }
      ok := RotationAndTags(api, snap);
      SentThen(api.service, s1, log1, enabled, s2, log2, rotation + tags, api.state, api.log, ok);
      SentThen(api.service, s0, log0, fields, s1, log1, enabled + (rotation + tags), api.state, api.log, ok);
      r := if ok then Completed else Aborted;
    }

    /** The last two phases of Update. */
    method RotationAndTags(api: Endpoint<Key, KeyCall>, snap: Snapshot) returns (ok: bool)
      modifies api`state, api`log
      ensures Sent(api.service, old(api.state), old(api.log),
                   RotationPlan(spec, snap.rotation, snap.State()) + TagPlan(snap.tags, spec.tags),
                   api.state, api.log, ok)
    {
      ghost var s0, log0 := api.state, api.log;
      ghost var rotation := RotationPlan(spec, snap.rotation, snap.State());
      ok := ReconcileRotation(api, spec, snap.rotation, snap.State());
      ghost var s1, log1 := api.state, api.log;
      if !ok {
        SentStop(api.service, s0, log0, rotation, s1, log1, TagPlan(snap.tags, spec.tags));
        return;
      }
      ok := ReconcileTags(api, snap.tags, spec.tags);
      SentThen(api.service, s0, log0, rotation, s1, log1, TagPlan(snap.tags, spec.tags), api.state, api.log, ok);
    }

    /** `badRequest`: a failed rotation read was answered with HTTP 400. `tolerated` is set when Delete
        went on without knowing the rotation. */
    method Delete(api: Endpoint<Key, KeyCall>, found: bool, badRequest: bool) returns (r: Outcome, ghost tolerated: bool)
      modifies api
      ensures tolerated <==>
                api.failed == old(api.failed) + [Detail] && badRequest && old(api.state).res.origin == "external"
      ensures r.Refused? <==> api.failed != old(api.failed) && !tolerated
      ensures r.Refused? || externalName == "" || !found ==>
                !r.Aborted? && api.state == old(api.state) && api.log == old(api.log)
      ensures !r.Refused? && externalName != "" && found ==>
                && (api.log == old(api.log) <==> old(api.state).res.rawState in {Code('4'), Text(PendingDeletion)})
                && Sent(api.service, old(api.state), old(api.log), DeletePlan(spec, old(api.state).res, tolerated),
                     api.state, api.log, r.Completed?)
    {
      tolerated := false;
      ghost var s0, log0 := api.state, api.log;
      SentNothing(api.service, s0, log0);
      if externalName == "" {
        r := Completed;
        return;
      }
      var read := api.Read();
      if read.None? {
        r := Refused;
        return;
      }
      if !found {
        r := Completed;
        return;
      }
      var key := read.value.res;
      var state := FriendlyState(key.rawState);
      if state.PendingDeletion? {
        r := Completed;
        return;
      }
      var disable := false;
      if CanReconcileRotation(state) {
        var rotation := api.Read(Detail);
        if rotation.None? {
          if !(key.origin == ORIGIN_EXTERNAL && badRequest) {
            r := Refused;
            return;
          }
          tolerated := true;
        } else {
          disable := rotation.value.res.rotation.enabled;
        }
      }
      var ok := DisableAndSchedule(api, disable);
      r := if ok then Completed else Aborted;
    }

    /** The calls of Delete. */
    method DisableAndSchedule(api: Endpoint<Key, KeyCall>, disable: bool) returns (ok: bool)
      modifies api`state, api`log
      ensures Sent(api.service, old(api.state), old(api.log), DisableThenSchedule(spec, disable), api.state, api.log, ok)
      ensures |api.log| > |old(api.log)|
    {
      ghost var s0, log0 := api.state, api.log;
      SentNothing(api.service, s0, log0);
      ghost var schedule := ScheduleCalls(spec);
      if disable {
        ok := api.Send(Resource(DisableRotation));
        if !ok {
          SentStop(api.service, s0, log0, DisableCalls(disable), api.state, api.log, schedule);
          return;
        }
      }
      ghost var s1, log1 := api.state, api.log;
      ok := api.Send(Resource(ScheduleDeletion(spec.pendingDays.GetOr(DEFAULT_PENDING_DAYS))));
      SentThen(api.service, s0, log0, DisableCalls(disable), s1, log1, schedule, api.state, api.log, ok);
    }
  }

  /** Rotation is switched off before a deletion is scheduled, unless its status could not be read. */
  ghost function DeletePlan(spec: Spec, key: Key, tolerated: bool): seq<Call<KeyCall>> {
    var state := FriendlyState(key.rawState);
    if state.PendingDeletion? then []
    else DisableThenSchedule(spec, CanReconcileRotation(state) && !tolerated && key.rotation.enabled)
  }

  ghost function DisableThenSchedule(spec: Spec, disable: bool): seq<Call<KeyCall>> {
    DisableCalls(disable) + ScheduleCalls(spec)
  }

  ghost function DisableCalls(disable: bool): seq<Call<KeyCall>> {
    if disable then [Resource(DisableRotation)] else []
  }

  ghost function ScheduleCalls(spec: Spec): seq<Call<KeyCall>> {
    [Resource(ScheduleDeletion(spec.pendingDays.GetOr(DEFAULT_PENDING_DAYS)))]
  }
}
