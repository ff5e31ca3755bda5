/** Detector against planner, late initialisation and convergence of the KMS key controller. */
module KmsConvergence {
  import opened Basics
  import opened Cloud
  import opened TagReconciler
  import opened Kms

  // ----- detector against planner -----

  /** What late initialisation is there for: the planner takes an unset description for "" and an unset
      rotation for off, so it would act on an up-to-date key that has either. */
  ghost predicate ActsOnUnset(spec: Spec, snap: Snapshot) {
    || (spec.description.None? && snap.key.description != "")
    || (spec.rotationEnabled.None? && CanReconcileRotation(snap.State()) && snap.rotation.Some? && snap.rotation.value.enabled)
  }

  /** For every spec and snapshot: drift always leads to a call, and an up-to-date key is left alone
      exactly when the planner does not act on an unset field. */
  lemma AgreementIff(spec: Spec, snap: Snapshot)
    ensures !IsUpToDate(spec, snap) ==> UpdatePlan(spec, snap) != []
    ensures IsUpToDate(spec, snap) ==> (UpdatePlan(spec, snap) == [] <==> !ActsOnUnset(spec, snap))
  {
    TagAgreement<KeyCall>(snap.tags, spec.tags);
    RotationAgreement(spec, snap.rotation, snap.State());
  }

  lemma RotationAgreement(spec: Spec, rotation: Option<Rotation>, state: KeyState)
    ensures !IsRotationUpToDate(spec, rotation, state) ==> RotationPlan(spec, rotation, state) != []
    ensures IsRotationUpToDate(spec, rotation, state) ==>
              (RotationPlan(spec, rotation, state) != [] <==>
                 CanReconcileRotation(state) && rotation.Some? && rotation.value.enabled && spec.rotationEnabled.None?)
  {
  }

  /** After late initialisation on a snapshot the detector and the planner agree on it. */
  lemma Agreement(spec: Spec, snap: Snapshot)
    ensures IsUpToDate(LateInitialized(spec, snap), snap) <==> UpdatePlan(LateInitialized(spec, snap), snap) == []
  {
    AgreementIff(LateInitialized(spec, snap), snap);
  }

  const PLAIN_KEY := Key("alias", "made elsewhere", "eu-de", "kms", Code('2'), Rotation(true, 90), 1)
  const PLAIN_SPEC := Spec("alias", None, None, None, None, None, None, None)

  /** Without it they do not: a bare spec is up to date with this key, yet an Update would clear the
      description and switch rotation off. */
  lemma LateInitNecessary()
    ensures var snap := Snapshot(PLAIN_KEY, map[], Some(PLAIN_KEY.rotation));
            && IsUpToDate(PLAIN_SPEC, snap)
            && Resource(UpdateDescription("")) in UpdatePlan(PLAIN_SPEC, snap)
            && Resource(DisableRotation) in UpdatePlan(PLAIN_SPEC, snap)
  {
    var snap := Snapshot(PLAIN_KEY, map[], Some(PLAIN_KEY.rotation));
    assert snap.State() == Enabled;
    assert RotationPlan(PLAIN_SPEC, snap.rotation, Enabled)[0] == Resource(DisableRotation);
    PlanMembers(PLAIN_SPEC, snap);
  }

  lemma PlanMembers(spec: Spec, snap: Snapshot)
    ensures forall c | c in DescriptionPlan(spec, snap.key) :: c in UpdatePlan(spec, snap)
    ensures forall c | c in RotationPlan(spec, snap.rotation, snap.State()) :: c in UpdatePlan(spec, snap)
  {
  }

  /** The agreement is about one snapshot. When the rotation read of Observe fails on a spec that leaves
      rotation alone, late initialisation misses the rotation; an Update whose own read succeeds then
      switches it off exactly when the key is in one of the two stable states and rotates. */
  lemma MissedRotationReadIff(spec: Spec, s: Stored)
    requires !IsRotationManaged(spec)
    ensures var missed := LateInitialized(spec, FullSnapshot(s).(rotation := None));
            Resource(DisableRotation) in UpdatePlan(missed, FullSnapshot(s)) <==>
              CanReconcileRotation(FriendlyState(s.res.rawState)) && s.res.rotation.enabled
  {
    var snap := FullSnapshot(s);
    var r := LateInitialized(spec, snap.(rotation := None));
    SwitchesOffIff(r, snap);
  }

  lemma InPlanIff(spec: Spec, snap: Snapshot, c: Call<KeyCall>)
    ensures c in UpdatePlan(spec, snap) <==>
              || c in AliasPlan(spec, snap.key) || c in DescriptionPlan(spec, snap.key)
              || c in EnabledPlan(spec.enabled, snap.State()) || c in RotationPlan(spec, snap.rotation, snap.State())
              || c in TagPlan<KeyCall>(snap.tags, spec.tags)
  {
  }

  /** An Update switches rotation off exactly for a rotating key in a stable state whose spec does not ask
      for rotation. */
  lemma SwitchesOffIff(spec: Spec, snap: Snapshot)
    ensures Resource(DisableRotation) in UpdatePlan(spec, snap) <==>
              && CanReconcileRotation(snap.State()) && snap.rotation.Some? && snap.rotation.value.enabled
              && !spec.rotationEnabled.GetOr(false)
  {
    InPlanIff(spec, snap, Resource(DisableRotation));
    TagPlanOnlyTags<KeyCall>(snap.tags, spec.tags);
    RotationOffInPlanIff(spec, snap.rotation, snap.State());
  }

  lemma RotationOffInPlanIff(spec: Spec, rotation: Option<Rotation>, state: KeyState)
    ensures Resource(DisableRotation) in RotationPlan(spec, rotation, state) <==>
              CanReconcileRotation(state) && rotation.Some? && rotation.value.enabled && !spec.rotationEnabled.GetOr(false)
  {
    if CanReconcileRotation(state) && rotation.Some? {
      var on := spec.rotationEnabled.GetOr(false);
      var switch, interval := SwitchPlan(on, rotation.value.enabled), IntervalPlan(spec, on, rotation.value.interval);
      assert forall c | c in switch + interval :: c in switch || c in interval;
      assert switch != [] ==> (switch + interval)[0] == switch[0];
    }
  }

  /** Such a round: the observation is one Observe can make, and another field (here the alias) makes the
      Update necessary. */
  lemma MissedRotationReadTurnsRotationOff()
    ensures var s := State(PLAIN_KEY, map[]);
            var spec := PLAIN_SPEC.(alias := "new alias");
            var missed := FullSnapshot(s).(rotation := None);
            && CanSee(spec, s, missed)
            && !IsUpToDate(LateInitialized(spec, missed), missed)
            && CanSee(LateInitialized(spec, missed), s, FullSnapshot(s))
            && Resource(DisableRotation) in UpdatePlan(LateInitialized(spec, missed), FullSnapshot(s))
  {
    var s: Stored := State(PLAIN_KEY, map[]);
    var spec := PLAIN_SPEC.(alias := "new alias");
    var missed := FullSnapshot(s).(rotation := None);
    var seen := FullSnapshot(s);
    var r := LateInitialized(spec, missed);
    assert seen.State() == Enabled;
    assert RotationPlan(r, seen.rotation, Enabled)[0] == Resource(DisableRotation);
    PlanMembers(r, seen);
  }

  // ----- late initialisation and validity -----

  /** Late initialisation keeps a valid spec valid unless the spec asks for rotation off, names no
      interval, and the key is seen rotating with one. */
  lemma LateInitKeepsValidityIff(spec: Spec, snap: Snapshot)
    requires ValidParameters(spec)
    ensures ValidParameters(LateInitialized(spec, snap)) <==>
            !(&& spec.rotationEnabled == Some(false) && spec.rotationInterval.None?
              && snap.rotation.Some? && snap.rotation.value.enabled && snap.rotation.value.interval != 0)
  {
    var r := LateInitialized(spec, snap);
    if spec.rotationEnabled.Some? {
      if spec.rotationEnabled.value {
        assert r.rotationEnabled == spec.rotationEnabled == Some(true);
      } else {
        assert r.rotationEnabled == spec.rotationEnabled == Some(false);
      }
    } else if snap.rotation.Some? && snap.rotation.value.enabled {
      assert r.rotationEnabled == Some(true);
    }
  }

  /** In that case the key never converges: the API server's own validation refuses to store the
      late-initialised spec, so every reconcile ends there, with the stored spec and the key as they were
      and rotation still on. */
  lemma RotationOffStuck(spec: Spec, s: Stored, reset: nat -> int, m: TagMatch, n: nat)
    requires ValidParameters(spec) && spec.rotationEnabled == Some(false)
    requires CanReconcileRotation(FriendlyState(s.res.rawState)) && s.res.rotation.enabled && s.res.rotation.interval != 0
    ensures Rounds(reset, m, spec, s, n) == (spec, s) && !Matches(spec, s)
    ensures !ValidParameters(LateInitialized(spec, FullSnapshot(s)))
  {
    LateInitKeepsValidityIff(spec, FullSnapshot(s));
    assert Rounder(reset, m)((spec, s)) == (spec, s);
    FixedFrom(Rounder(reset, m), (spec, s), 0, n);
  }

  /** There are such a spec and such a key. */
  lemma RotationOffStuckWitness(reset: nat -> int, m: TagMatch, n: nat)
    ensures var spec, s := PLAIN_SPEC.(rotationEnabled := Some(false)), State(PLAIN_KEY, map[]);
            ValidParameters(spec) && Rounds(reset, m, spec, s, n) == (spec, s) && s.res.rotation.enabled
  {
    RotationOffStuck(PLAIN_SPEC.(rotationEnabled := Some(false)), State(PLAIN_KEY, map[]), reset, m, n);
  }

  // ----- convergence -----

  /** One failure-free reconcile of an existing key: late-initialise, which the API server refuses to store
      when it makes the spec invalid, and update on drift. */
  ghost function Round(reset: nat -> int, m: TagMatch, spec: Spec, s: Stored): (Spec, Stored) {
    if !ValidParameters(spec) || FriendlyState(s.res.rawState).PendingDeletion? then (spec, s)
    else
      var snap := FullSnapshot(s);
      var r := LateInitialized(spec, snap);
      if !ValidParameters(r) then (spec, s)
      else if IsUpToDate(r, snap) || !RealmMatches(r, s.res) then (r, s)
      else (r, Run(KeyService(reset, m), s, UpdatePlan(r, snap)))
  }

  ghost function Rounds(reset: nat -> int, m: TagMatch, spec: Spec, s: Stored, n: nat): (Spec, Stored) {
    Iterate(Rounder(reset, m), (spec, s), n)
  }

  ghost function Rounder(reset: nat -> int, m: TagMatch): ((Spec, Stored)) -> (Spec, Stored) {
    (p: (Spec, Stored)) => Round(reset, m, p.0, p.1)
  }

  ghost function StateAfter(enabled: Option<bool>, raw: RawState): RawState {
    if IsEnabledUpToDate(enabled, FriendlyState(raw)) then raw else if enabled.value then Code('2') else Code('3')
  }

  /** The rotation after Update: switching on resets the interval, and only an interval that differed
      from the one observed before is sent. */
  ghost function RotationAfter(reset: nat -> int, spec: Spec, rotation: Rotation, enables: nat): Rotation {
    var on := spec.rotationEnabled.GetOr(false);
    var switched := if on && !rotation.enabled then Rotation(true, reset(enables)) else rotation.(enabled := on);
    if on && spec.rotationInterval.Some? && spec.rotationInterval.value != rotation.interval
    then switched.(interval := spec.rotationInterval.value)
    else switched
  }

  ghost function KeyAfter(reset: nat -> int, spec: Spec, k: Key): Key {
    Key(spec.alias, spec.description.GetOr(""), k.realm, k.origin, StateAfter(spec.enabled, k.rawState),
        RotationAfter(reset, spec, k.rotation, k.enables),
        if spec.rotationEnabled.GetOr(false) && !k.rotation.enabled then k.enables + 1 else k.enables)
  }

  lemma AfterFields(sv: Service<Key, KeyCall>, reset: nat -> int, m: TagMatch, spec: Spec, s: Stored)
    requires sv == KeyService(reset, m)
    ensures Run(sv, s, AliasPlan(spec, s.res) + DescriptionPlan(spec, s.res)) ==
            s.(res := s.res.(alias := spec.alias, description := spec.description.GetOr("")))
  {
    var alias, description := AliasPlan(spec, s.res), DescriptionPlan(spec, s.res);
    RunAppend(sv, s, alias, description);
    RunOne(sv, s, alias);
    RunOne(sv, Run(sv, s, alias), description);
  }

  lemma AfterEnabled(sv: Service<Key, KeyCall>, reset: nat -> int, m: TagMatch, spec: Spec, s: Stored)
    requires sv == KeyService(reset, m)
    ensures Run(sv, s, EnabledPlan(spec.enabled, FriendlyState(s.res.rawState))) ==
            s.(res := s.res.(rawState := StateAfter(spec.enabled, s.res.rawState)))
  {
    RunOne(sv, s, EnabledPlan(spec.enabled, FriendlyState(s.res.rawState)));
  }

  ghost function Switched(reset: nat -> int, k: Key, on: bool): Key {
    if on && !k.rotation.enabled then k.(rotation := Rotation(true, reset(k.enables)), enables := k.enables + 1)
    else k.(rotation := k.rotation.(enabled := on))
  }

  lemma AfterSwitch(sv: Service<Key, KeyCall>, reset: nat -> int, m: TagMatch, s: Stored, on: bool)
    requires sv == KeyService(reset, m)
    ensures Run(sv, s, SwitchPlan(on, s.res.rotation.enabled)) == s.(res := Switched(reset, s.res, on))
  {
    RunOne(sv, s, SwitchPlan(on, s.res.rotation.enabled));
  }

  lemma AfterRotation(sv: Service<Key, KeyCall>, reset: nat -> int, m: TagMatch, spec: Spec, s: Stored, state: KeyState)
    requires sv == KeyService(reset, m) && CanReconcileRotation(state)
    ensures var k := s.res;
            Run(sv, s, RotationPlan(spec, Some(k.rotation), state)) ==
            s.(res := k.(rotation := RotationAfter(reset, spec, k.rotation, k.enables),
                         enables := if spec.rotationEnabled.GetOr(false) && !k.rotation.enabled then k.enables + 1 else k.enables))
  {
    var on := spec.rotationEnabled.GetOr(false);
    var switch, interval := SwitchPlan(on, s.res.rotation.enabled), IntervalPlan(spec, on, s.res.rotation.interval);
    RunAppend(sv, s, switch, interval);
    AfterSwitch(sv, reset, m, s, on);
    AfterInterval(sv, reset, m, spec, s.(res := Switched(reset, s.res, on)), on, s.res.rotation.interval);
  }

  ghost function WithInterval(spec: Spec, k: Key, on: bool, observed: int): Key {
    if on && spec.rotationInterval.Some? && spec.rotationInterval.value != observed
    then k.(rotation := k.rotation.(interval := spec.rotationInterval.value)) else k
  }

  lemma AfterInterval(sv: Service<Key, KeyCall>, reset: nat -> int, m: TagMatch, spec: Spec, s: Stored, on: bool, observed: int)
    requires sv == KeyService(reset, m)
    ensures Run(sv, s, IntervalPlan(spec, on, observed)) == s.(res := WithInterval(spec, s.res, on, observed))
  {
    RunOne(sv, s, IntervalPlan(spec, on, observed));
  }

  /** Rotation and tags after the first two parts of an update; `raw` is the key state by then. */
  lemma AfterParts(sv: Service<Key, KeyCall>, reset: nat -> int, m: TagMatch, spec: Spec, s: Stored, t: Stored,
                   state: KeyState, raw: RawState)
    requires sv == KeyService(reset, m) && CanReconcileRotation(state)
    requires t == s.(res := s.res.(alias := spec.alias, description := spec.description.GetOr(""), rawState := raw))
    ensures var end := Run(sv, Run(sv, t, RotationPlan(spec, Some(s.res.rotation), state)), TagPlan(s.tags, spec.tags));
            && end.tags == TagsAfter(m, spec.tags, s.tags)
            && end.res == Key(spec.alias, spec.description.GetOr(""), s.res.realm, s.res.origin, raw,
                              RotationAfter(reset, spec, s.res.rotation, s.res.enables),
                              if spec.rotationEnabled.GetOr(false) && !s.res.rotation.enabled then s.res.enables + 1 else s.res.enables)
  {
    AfterRotation(sv, reset, m, spec, t, state);
    RunTagPlan(sv, Run(sv, t, RotationPlan(spec, Some(t.res.rotation), state)), spec.tags);
  }

  /** The plan of a stable key in its four parts. */
  lemma StablePlan(spec: Spec, s: Stored, state: KeyState)
    requires state == FriendlyState(s.res.rawState) && CanReconcileRotation(state)
    ensures UpdatePlan(spec, FullSnapshot(s)) ==
            (AliasPlan(spec, s.res) + DescriptionPlan(spec, s.res)) +
            (EnabledPlan(spec.enabled, state) +
             (RotationPlan(spec, Some(s.res.rotation), state) + TagPlan(s.tags, spec.tags)))
  {
  }

  /** Where a complete Update on a stable key ends. */
  lemma AfterUpdate(reset: nat -> int, m: TagMatch, spec: Spec, s: Stored)
    requires CanReconcileRotation(FriendlyState(s.res.rawState))
    ensures Run(KeyService(reset, m), s, UpdatePlan(spec, FullSnapshot(s))) ==
            State(KeyAfter(reset, spec, s.res), TagsAfter(m, spec.tags, s.tags))
  {
    var sv, state, raw := KeyService(reset, m), FriendlyState(s.res.rawState), StateAfter(spec.enabled, s.res.rawState);
    var fields, enabled := AliasPlan(spec, s.res) + DescriptionPlan(spec, s.res), EnabledPlan(spec.enabled, state);
    var rotation, tags := RotationPlan(spec, Some(s.res.rotation), state), TagPlan<KeyCall>(s.tags, spec.tags);
    var t := s.(res := s.res.(alias := spec.alias, description := spec.description.GetOr(""), rawState := raw));
    StablePlan(spec, s, state);
    FieldsThenEnabled(sv, reset, m, spec, s, state);
    AfterParts(sv, reset, m, spec, s, t, state, raw);
    RunFour(sv, s, fields, enabled, rotation, tags);
  }

  lemma FieldsThenEnabled(sv: Service<Key, KeyCall>, reset: nat -> int, m: TagMatch, spec: Spec, s: Stored, state: KeyState)
    requires sv == KeyService(reset, m) && state == FriendlyState(s.res.rawState)
    ensures Run(sv, Run(sv, s, AliasPlan(spec, s.res) + DescriptionPlan(spec, s.res)), EnabledPlan(spec.enabled, state)) ==
            s.(res := s.res.(alias := spec.alias, description := spec.description.GetOr(""),
                             rawState := StateAfter(spec.enabled, s.res.rawState)))
  {
    AfterFields(sv, reset, m, spec, s);
    AfterEnabled(sv, reset, m, spec, Run(sv, s, AliasPlan(spec, s.res) + DescriptionPlan(spec, s.res)));
  }

  lemma RunFour(sv: Service<Key, KeyCall>, s: Stored, a: seq<Call<KeyCall>>, b: seq<Call<KeyCall>>,
                c: seq<Call<KeyCall>>, d: seq<Call<KeyCall>>)
    ensures Run(sv, s, a + (b + (c + d))) == Run(sv, Run(sv, Run(sv, Run(sv, s, a), b), c), d)
  {
    RunAppend(sv, s, a, b + (c + d));
    RunAppend(sv, Run(sv, s, a), b, c + d);
    RunAppend(sv, Run(sv, Run(sv, s, a), b), c, d);
  }

  /** A key that Observe finds in Enabled or Disabled state, with a spec it can work with. */
  ghost predicate Ready(spec: Spec, s: Stored) {
    && CanReconcileRotation(FriendlyState(s.res.rawState)) && ValidParameters(spec)
    && ValidParameters(LateInitialized(spec, FullSnapshot(s)))
    && RealmMatches(LateInitialized(spec, FullSnapshot(s)), s.res)
  }

  /** Everything the spec asks for holds of the key, with no field left to interpretation. */
  ghost predicate Matches(spec: Spec, s: Stored) {
    && spec.alias == s.res.alias && spec.description.GetOr("") == s.res.description
    && (spec.enabled.Some? ==> FriendlyState(s.res.rawState) == if spec.enabled.value then Enabled else Disabled)
    && spec.rotationEnabled == Some(s.res.rotation.enabled)
    && (spec.rotationInterval.Some? ==> spec.rotationInterval.value == s.res.rotation.interval)
    && IsOptionalUpToDate(spec.tags, s.tags)
  }

  /** The key after one round: as AfterUpdate says, whether or not there was anything to do. */
  lemma RoundResult(reset: nat -> int, m: TagMatch, spec: Spec, s: Stored)
    requires Ready(spec, s)
    ensures Round(reset, m, spec, s).0 == LateInitialized(spec, FullSnapshot(s))
    ensures var r := LateInitialized(spec, FullSnapshot(s));
            Round(reset, m, spec, s).1 == State(KeyAfter(reset, r, s.res), TagsAfter(m, r.tags, s.tags))
  {
    var snap := FullSnapshot(s);
    var r := LateInitialized(spec, snap);
    AfterUpdate(reset, m, r, s);
    if IsUpToDate(r, snap) {
      Agreement(spec, snap);
      assert Run(KeyService(reset, m), s, []) == s;
    }
  }

  /** After one round everything matches except, possibly, an interval that the service reset when
      rotation was switched on, and tags that a deletion by key alone took away. */
  lemma OneRound(reset: nat -> int, m: TagMatch, spec: Spec, s: Stored)
    requires Ready(spec, s)
    ensures var (r, t) := Round(reset, m, spec, s);
            && r == LateInitialized(spec, FullSnapshot(s)) && CanReconcileRotation(FriendlyState(t.res.rawState))
            && t.res.realm == s.res.realm
            && Matches(r.(rotationInterval := None, tags := None), t)
            && t.tags == TagsAfter(m, r.tags, s.tags)
            && (r.rotationInterval.Some? && r.rotationInterval.value != t.res.rotation.interval <==>
                  && r.rotationEnabled == Some(true) && !s.res.rotation.enabled
                  && r.rotationInterval == Some(s.res.rotation.interval)
                  && reset(s.res.enables) != s.res.rotation.interval)
  {
    RoundResult(reset, m, spec, s);
    var r := LateInitialized(spec, FullSnapshot(s));
    assert r.rotationEnabled == Some(r.rotationEnabled.value);
  }

  /** One round is enough exactly when the tags need one pass and the service does not undo an interval
      that was already right. */
  lemma OneRoundIff(reset: nat -> int, m: TagMatch, spec: Spec, s: Stored)
    requires Ready(spec, s)
    ensures var (r, t) := Round(reset, m, spec, s);
            Matches(r, t) <==>
            OnePass(m, r.tags, s.tags) &&
            !(&& r.rotationEnabled == Some(true) && !s.res.rotation.enabled
              && r.rotationInterval == Some(s.res.rotation.interval)
              && reset(s.res.enables) != s.res.rotation.interval)
  {
    OneRound(reset, m, spec, s);
    var (r, t) := Round(reset, m, spec, s);
    OnePassIff(m, r.tags, s.tags);
    MatchesInParts(r, t);
  }

  lemma MatchesInParts(spec: Spec, s: Stored)
    ensures Matches(spec, s) <==>
              && Matches(spec.(rotationInterval := None, tags := None), s)
              && !(spec.rotationInterval.Some? && spec.rotationInterval.value != s.res.rotation.interval)
              && IsOptionalUpToDate(spec.tags, s.tags)
  {
  }

  lemma ReadyAgain(reset: nat -> int, m: TagMatch, spec: Spec, s: Stored)
    requires Ready(spec, s)
    ensures var (r, t) := Round(reset, m, spec, s); Ready(r, t)
  {
    OneRound(reset, m, spec, s);
  }

  /** The spec is met by the key in state t, and a later round can work with both. */
  ghost function MetBy(t: Stored): ((Spec, Stored)) -> bool {
    (p: (Spec, Stored)) => p.1 == t && Matches(p.0, p.1) && Ready(p.0, p.1)
  }

  /** Two failure-free rounds bring every field of the key to its spec, whatever interval the service
      picks when rotation is switched on and however it matches deleted tags; every later round finds
      the key up to date and leaves it alone. */
  lemma TwoRoundsConverge(reset: nat -> int, m: TagMatch, spec: Spec, s: Stored, n: nat)
    requires Ready(spec, s) && n >= 2
    ensures var (r, t) := Rounds(reset, m, spec, s, n);
            Matches(r, t) && Ready(r, t) && t == Rounds(reset, m, spec, s, 2).1 && IsUpToDate(r, FullSnapshot(t))
  {
    var f, met := Rounder(reset, m), MetBy(Rounds(reset, m, spec, s, 2).1);
    IterateTwice(f, (spec, s));
    SecondRound(reset, m, spec, s);
    forall p | met(p) ensures met(f(p)) {
      MatchedStays(reset, m, p.0, p.1);
    }
    KeptFrom(f, met, (spec, s), 2, n);
    var (r, t) := Rounds(reset, m, spec, s, n);
    MatchedIsUpToDate(r, t);
  }

  lemma SecondRound(reset: nat -> int, m: TagMatch, spec: Spec, s: Stored)
    requires Ready(spec, s)
    ensures var (r1, s1) := Round(reset, m, spec, s);
            var (r, t) := Round(reset, m, r1, s1);
            Matches(r, t) && Ready(r, t)
  {
    var (r1, s1) := Round(reset, m, spec, s);
    OneRound(reset, m, spec, s);
    ReadyAgain(reset, m, spec, s);
    OneRound(reset, m, r1, s1);
    ReadyAgain(reset, m, r1, s1);
    SecondPass(m, r1.tags, s.tags);
  }

  lemma MatchedIsUpToDate(spec: Spec, s: Stored)
    requires Ready(spec, s) && Matches(spec, s)
    ensures IsUpToDate(spec, FullSnapshot(s))
    ensures var r := LateInitialized(spec, FullSnapshot(s)); IsUpToDate(r, FullSnapshot(s)) && Matches(r, s)
  {
    assert IsUpToDate(spec, FullSnapshot(s));
  }

  lemma MatchedStays(reset: nat -> int, m: TagMatch, spec: Spec, s: Stored)
    requires Ready(spec, s) && Matches(spec, s)
    ensures var (r, t) := Round(reset, m, spec, s);
            t == s && Matches(r, t) && Ready(r, t) && IsUpToDate(r, FullSnapshot(t))
  {
    MatchedIsUpToDate(spec, s);
    ReadyAgain(reset, m, spec, s);
  }

  /** A valid spec for a key in one of the two stable states, of the key's realm, is met after two rounds
      iff late initialisation keeps it valid. */
  lemma ConvergesIff(reset: nat -> int, m: TagMatch, spec: Spec, s: Stored)
    requires CanReconcileRotation(FriendlyState(s.res.rawState)) && ValidParameters(spec) && RealmMatches(spec, s.res)
    ensures var (r, t) := Rounds(reset, m, spec, s, 2);
            Matches(r, t) <==>
            !(&& spec.rotationEnabled == Some(false) && spec.rotationInterval.None?
              && s.res.rotation.enabled && s.res.rotation.interval != 0)
  {
    LateInitKeepsValidityIff(spec, FullSnapshot(s));
    if ValidParameters(LateInitialized(spec, FullSnapshot(s))) {
      TwoRoundsConverge(reset, m, spec, s, 2);
    } else {
      RotationOffStuck(spec, s, reset, m, 2);
    }
  }

  // ----- every key that is not pending deletion -----

  /** A key that is not pending deletion, whatever else its state, with a spec the controller can work with. */
  ghost predicate Manageable(spec: Spec, s: Stored) {
    && s.res.rawState !in {Code('4'), Text(PendingDeletion)} && ValidParameters(spec)
    && ValidParameters(LateInitialized(spec, FullSnapshot(s)))
    && RealmMatches(LateInitialized(spec, FullSnapshot(s)), s.res)
  }

  ghost predicate FieldsMatch(spec: Spec, s: Stored) {
    spec.alias == s.res.alias && spec.description.GetOr("") == s.res.description && IsOptionalUpToDate(spec.tags, s.tags)
  }

  /** Outside the two stable states an Update sends alias, description and tags only. */
  lemma UnstablePlan(spec: Spec, s: Stored)
    requires var state := FriendlyState(s.res.rawState); !CanReconcileRotation(state) && state != PendingDeletion
    ensures UpdatePlan(spec, FullSnapshot(s)) ==
            (AliasPlan(spec, s.res) + DescriptionPlan(spec, s.res)) + TagPlan(s.tags, spec.tags)
  {
    var state, tags := FriendlyState(s.res.rawState), TagPlan<KeyCall>(s.tags, spec.tags);
    assert EnabledPlan(spec.enabled, state) + (RotationPlan(spec, None, state) + tags) == tags;
  }

  lemma AfterUnstableUpdate(reset: nat -> int, m: TagMatch, spec: Spec, s: Stored)
    requires var state := FriendlyState(s.res.rawState); !CanReconcileRotation(state) && state != PendingDeletion
    ensures Run(KeyService(reset, m), s, UpdatePlan(spec, FullSnapshot(s))) ==
            State(s.res.(alias := spec.alias, description := spec.description.GetOr("")), TagsAfter(m, spec.tags, s.tags))
  {
    var sv, fields := KeyService(reset, m), AliasPlan(spec, s.res) + DescriptionPlan(spec, s.res);
    UnstablePlan(spec, s);
    AfterFields(sv, reset, m, spec, s);
    RunTagPlan(sv, Run(sv, s, fields), spec.tags);
    RunAppend(sv, s, fields, TagPlan<KeyCall>(s.tags, spec.tags));
  }

  /** A round runs the complete plan, which is empty when the key is up to date. */
  lemma ManageableRound(reset: nat -> int, m: TagMatch, spec: Spec, s: Stored)
    requires Manageable(spec, s)
    ensures var r := LateInitialized(spec, FullSnapshot(s));
            Round(reset, m, spec, s) == (r, Run(KeyService(reset, m), s, UpdatePlan(r, FullSnapshot(s))))
  {
    FriendlyStateIff(s.res.rawState);
    Agreement(spec, FullSnapshot(s));
    assert Run(KeyService(reset, m), s, []) == s;
  }

  lemma UnstableRound(reset: nat -> int, m: TagMatch, spec: Spec, s: Stored)
    requires Manageable(spec, s) && !CanReconcileRotation(FriendlyState(s.res.rawState))
    ensures var r := LateInitialized(spec, FullSnapshot(s));
            Round(reset, m, spec, s) ==
            (r, State(s.res.(alias := r.alias, description := r.description.GetOr("")), TagsAfter(m, r.tags, s.tags)))
  {
    FriendlyStateIff(s.res.rawState);
    ManageableRound(reset, m, spec, s);
    AfterUnstableUpdate(reset, m, LateInitialized(spec, FullSnapshot(s)), s);
  }

  /** Alias, description and tags after one round, for every key that is not pending deletion. */
  lemma FieldsRound(reset: nat -> int, m: TagMatch, spec: Spec, s: Stored)
    requires Manageable(spec, s)
    ensures var (r, t) := Round(reset, m, spec, s);
            && r == LateInitialized(spec, FullSnapshot(s)) && Manageable(r, t)
            && t.res.alias == r.alias && t.res.description == r.description.GetOr("")
            && t.tags == TagsAfter(m, r.tags, s.tags)
  {
    if CanReconcileRotation(FriendlyState(s.res.rawState)) {
      RoundResult(reset, m, spec, s);
      ReadyAgain(reset, m, spec, s);
    } else {
      UnstableRound(reset, m, spec, s);
    }
  }

  lemma FieldsStay(reset: nat -> int, m: TagMatch, spec: Spec, s: Stored)
    requires Manageable(spec, s) && FieldsMatch(spec, s)
    ensures var (r, t) := Round(reset, m, spec, s);
            && Manageable(r, t) && FieldsMatch(r, t)
            && (t.res.alias, t.res.description, t.tags) == (s.res.alias, s.res.description, s.tags)
  {
    FieldsRound(reset, m, spec, s);
    UpToDateTagsStay(m, LateInitialized(spec, FullSnapshot(s)).tags, s.tags);
  }

  ghost function FieldsMetBy(t: Stored): ((Spec, Stored)) -> bool {
    (p: (Spec, Stored)) =>
      && Manageable(p.0, p.1) && FieldsMatch(p.0, p.1)
      && (p.1.res.alias, p.1.res.description, p.1.tags) == (t.res.alias, t.res.description, t.tags)
  }

  lemma SecondFieldsRound(reset: nat -> int, m: TagMatch, spec: Spec, s: Stored)
    requires Manageable(spec, s)
    ensures var (r1, s1) := Round(reset, m, spec, s);
            var (r, t) := Round(reset, m, r1, s1);
            Manageable(r, t) && FieldsMatch(r, t)
  {
    var (r1, s1) := Round(reset, m, spec, s);
    FieldsRound(reset, m, spec, s);
    FieldsRound(reset, m, r1, s1);
    SecondPass(m, r1.tags, s.tags);
  }

  /** Two failure-free rounds bring alias, description and tags of every key that is not pending deletion to
      its spec, also while it waits to be enabled or for its key material, and later rounds leave them alone. */
  lemma FieldsConverge(reset: nat -> int, m: TagMatch, spec: Spec, s: Stored, n: nat)
    requires Manageable(spec, s) && n >= 2
    ensures var (r, t) := Rounds(reset, m, spec, s, n);
            var (_, t2) := Rounds(reset, m, spec, s, 2);
            && t.res.alias == spec.alias && t.res.description == r.description.GetOr("")
            && (spec.description.Some? ==> t.res.description == spec.description.value)
            && (spec.tags.Some? ==> t.tags == spec.tags.value)
            && (t.res.alias, t.res.description, t.tags) == (t2.res.alias, t2.res.description, t2.tags)
  {
    var f, met := Rounder(reset, m), FieldsMetBy(Rounds(reset, m, spec, s, 2).1);
    IterateTwice(f, (spec, s));
    SecondFieldsRound(reset, m, spec, s);
    forall p | met(p) ensures met(f(p)) {
      FieldsStay(reset, m, p.0, p.1);
    }
    KeptFrom(f, met, (spec, s), 2, n);
    FieldsRound(reset, m, spec, s);
    FieldsRound(reset, m, Round(reset, m, spec, s).0, Round(reset, m, spec, s).1);
  }

  // ----- which calls reach which keys -----

  /** A key is enabled only from disabled and disabled only from enabled, by its raw state. */
  lemma PlannedEnables(spec: Spec, s: Stored)
    ensures Resource(EnableKey) in UpdatePlan(spec, FullSnapshot(s)) <==>
              spec.enabled == Some(true) && s.res.rawState in {Code('3'), Text(Disabled)}
    ensures Resource(DisableKey) in UpdatePlan(spec, FullSnapshot(s)) <==>
              spec.enabled == Some(false) && s.res.rawState in {Code('2'), Text(Enabled)}
  {
    var snap := FullSnapshot(s);
    FriendlyStateIff(s.res.rawState);
    StateCall(spec, snap, EnableKey);
    StateCall(spec, snap, DisableKey);
    EnableCalls(spec, snap.State());
    RotationCalls(spec, snap.rotation, snap.State());
  }

  /** Rotation is touched in the two stable states only, by the raw state of the key. */
  lemma PlannedRotation(spec: Spec, s: Stored, i: int)
    ensures var plan, rotation, on := UpdatePlan(spec, FullSnapshot(s)), s.res.rotation, spec.rotationEnabled == Some(true);
            var stable := s.res.rawState in {Code('2'), Text(Enabled), Code('3'), Text(Disabled)};
            && (Resource(EnableRotation) in plan <==> stable && on && !rotation.enabled)
            && (Resource(DisableRotation) in plan <==> stable && !on && rotation.enabled)
            && (Resource(UpdateRotationInterval(i)) in plan <==>
                  stable && on && spec.rotationInterval == Some(i) && i != rotation.interval)
  {
    var snap := FullSnapshot(s);
    FriendlyStateIff(s.res.rawState);
    StateCall(spec, snap, EnableRotation);
    StateCall(spec, snap, DisableRotation);
    StateCall(spec, snap, UpdateRotationInterval(i));
    EnableCalls(spec, snap.State());
    RotationCalls(spec, snap.rotation, snap.State());
  }

  lemma StateCall(spec: Spec, snap: Snapshot, c: KeyCall)
    requires !c.UpdateAlias? && !c.UpdateDescription?
    ensures Resource(c) in UpdatePlan(spec, snap) <==>
              || Resource(c) in EnabledPlan(spec.enabled, snap.State())
              || Resource(c) in RotationPlan(spec, snap.rotation, snap.State())
  {
    InPlanIff(spec, snap, Resource(c));
    TagPlanOnlyTags<KeyCall>(snap.tags, spec.tags);
  }

  lemma EnableCalls(spec: Spec, state: KeyState)
    ensures Resource(EnableKey) in EnabledPlan(spec.enabled, state) <==> spec.enabled == Some(true) && state == Disabled
    ensures Resource(DisableKey) in EnabledPlan(spec.enabled, state) <==> spec.enabled == Some(false) && state == Enabled
    ensures forall c | c in EnabledPlan(spec.enabled, state) :: c == Resource(EnableKey) || c == Resource(DisableKey)
  {
    if spec.enabled.Some? {
      assert spec.enabled == if spec.enabled.value then Some(true) else Some(false);
    }
  }

  lemma RotationCalls(spec: Spec, rotation: Option<Rotation>, state: KeyState)
    ensures var plan, on := RotationPlan(spec, rotation, state), spec.rotationEnabled == Some(true);
            var readable := (state == Enabled || state == Disabled) && rotation.Some?;
            && (Resource(EnableRotation) in plan <==> readable && on && !rotation.value.enabled)
            && (Resource(DisableRotation) in plan <==> readable && !on && rotation.value.enabled)
            && (forall i :: Resource(UpdateRotationInterval(i)) in plan <==>
                              readable && on && spec.rotationInterval == Some(i) && i != rotation.value.interval)
            && Resource(EnableKey) !in plan && Resource(DisableKey) !in plan
  {
    if (state == Enabled || state == Disabled) && rotation.Some? {
      var on := spec.rotationEnabled.GetOr(false);
      assert on <==> spec.rotationEnabled == Some(true);
      var switch, interval := SwitchPlan(on, rotation.value.enabled), IntervalPlan(spec, on, rotation.value.interval);
      forall c ensures c in switch + interval <==> c in switch || c in interval {
      }
    }
  }

  // ----- deletion -----

  /** The calls of Delete, by the raw state of the key: rotation is switched off exactly for a key in a stable state
      that is seen rotating, and a deletion is scheduled, for the days the spec names or 7, exactly for a key
      that is not pending deletion. */
  lemma PlannedDelete(spec: Spec, key: Key, tolerated: bool)
    ensures var plan := DeletePlan(spec, key, tolerated);
            && (Resource(DisableRotation) in plan <==>
                  && key.rawState in {Code('2'), Text(Enabled), Code('3'), Text(Disabled)}
                  && !tolerated && key.rotation.enabled)
            && (forall days :: Resource(ScheduleDeletion(days)) in plan <==>
                  && key.rawState !in {Code('4'), Text(PendingDeletion)}
                  && days == if spec.pendingDays.Some? then spec.pendingDays.value else "7")
  {
    FriendlyStateIff(key.rawState);
    var state := FriendlyState(key.rawState);
    var disable := CanReconcileRotation(state) && !tolerated && key.rotation.enabled;
    forall c ensures c in DisableThenSchedule(spec, disable) <==> c in DisableCalls(disable) || c in ScheduleCalls(spec) {
    }
  }

  /** At the boundary before a deletion is scheduled, a key whose rotation could be read is not rotating;
      after a complete Delete the key is pending deletion. */
  lemma DeleteDisablesRotationFirst(reset: nat -> int, m: TagMatch, spec: Spec, s: Stored, tolerated: bool)
    requires !FriendlyState(s.res.rawState).PendingDeletion?
    ensures var plan := DeletePlan(spec, s.res, tolerated);
            var before := Run(KeyService(reset, m), s, plan[..|plan| - 1]);
            && plan[|plan| - 1].Resource? && plan[|plan| - 1].call.ScheduleDeletion?
            && (CanReconcileRotation(FriendlyState(s.res.rawState)) && !tolerated ==> !before.res.rotation.enabled)
            && FriendlyState(Run(KeyService(reset, m), s, plan).res.rawState).PendingDeletion?
  {
    var sv, plan := KeyService(reset, m), DeletePlan(spec, s.res, tolerated);
    RunOne(sv, s, plan[..|plan| - 1]);
    RunNext(sv, s, plan, |plan| - 1);
    assert plan[..|plan|] == plan;
  }

  // ----- the methods -----

  /** Observe of a named and known key as the first part of a reconcile. */
  method ObserveFirst(cr: KeyResource, api: Endpoint<Key, KeyCall>) returns (r: Observation)
    requires cr.externalName != ""
    modifies cr`spec, api`failed
    ensures old(api.failed) <= api.failed
    ensures r.Failed? && api.failed == old(api.failed) ==> !ValidParameters(old(cr.spec))
    ensures r.Absent? ==> FriendlyState(api.state.res.rawState).PendingDeletion?
    ensures !r.Failed? ==> ValidParameters(old(cr.spec))
    ensures r.Exists? && api.failed == old(api.failed) ==>
              && !FriendlyState(api.state.res.rawState).PendingDeletion?
              && cr.spec == LateInitialized(old(cr.spec), FullSnapshot(api.state))
              && r.upToDate == IsUpToDate(cr.spec, FullSnapshot(api.state))
    ensures !r.Exists? ==> cr.spec == old(cr.spec)
  {
    FriendlyStateIff(api.state.res.rawState);
    ghost var snap;
    r, snap := cr.Observe(api, true);
  }

  /** One reconcile of a named and known key, as the managed-resource runtime runs the controller's methods. A
      late-initialised spec that is invalid cannot be stored. `r` is Refused only when a read failed, and
      Aborted only when a call did; without either this is a round as above. */
  method ReconcileOnce(ghost reset: nat -> int, ghost m: TagMatch, cr: KeyResource, api: Endpoint<Key, KeyCall>)
    returns (ghost r: Outcome)
    requires api.service == KeyService(reset, m) && cr.externalName != ""
    modifies cr, api
    ensures r.Refused? ==> api.failed != old(api.failed)
    ensures r.Aborted? ==> |api.log| > |old(api.log)|
    ensures r.Completed? && api.failed == old(api.failed) ==>
              (cr.spec, api.state) == Round(reset, m, old(cr.spec), old(api.state))
    ensures cr.externalName == old(cr.externalName)
  {
    ghost var log0, failed0 := api.log, api.failed;
    var stored := cr.spec;
    var observation := ObserveFirst(cr, api);
    r := Completed;
    match observation
    case Failed =>
      r := if api.failed != failed0 then Refused else Completed;
    case Absent =>
    case Exists(upToDate, _) =>
      if !ValidParameters(cr.spec) {
        cr.spec := stored;
        return;
      }
      if !upToDate {
        r := UpdateLast(reset, m, cr, api);
      }
  }

  /** Update as the last part of a reconcile. */
  method UpdateLast(ghost reset: nat -> int, ghost m: TagMatch, cr: KeyResource, api: Endpoint<Key, KeyCall>)
    returns (ghost r: Outcome)
    requires api.service == KeyService(reset, m) && cr.externalName != "" && ValidParameters(cr.spec)
    modifies api
    ensures r.Refused? ==> api.failed != old(api.failed)
    ensures r.Aborted? ==> |api.log| > |old(api.log)|
    ensures old(api.failed) <= api.failed
    ensures r.Completed? && api.failed == old(api.failed) ==>
              api.state == if RealmMatches(cr.spec, old(api.state).res)
                           then Run(KeyService(reset, m), old(api.state), UpdatePlan(cr.spec, FullSnapshot(old(api.state))))
                           else old(api.state)
  {
    ghost var s0, log0, failed0 := api.state, api.log, api.failed;
    var updated, seen := cr.Update(api, true);
    r := if updated.Refused? && api.failed == failed0 then Completed else updated;
    if updated.Aborted? {
      SentFailed(api.service, s0, log0, UpdatePlan(cr.spec, seen), api.state, api.log);
    }
  }
}
