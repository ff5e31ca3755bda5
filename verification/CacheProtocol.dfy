/** Cache.GetClient as the atomic steps of any number of concurrent calls: look up under the read lock,
    connect and authenticate outside any lock, publish under the write lock. */
module CacheProtocol {
  import opened Basics
  import opened CacheIdentity
  import opened ClientCache

  /** Provider clients are numbered; a session shares one between calls. */
  datatype Slot = Slot(client: nat, hash: Digest)

  /** Where a call is. Its key and identity are fixed when its credentials are resolved. */
  datatype CallState =
    | Resolved(key: string, id: Identity)
    | Looked(key: string, id: Identity, cached: Option<Slot>)
    | Connected(key: string, id: Identity, client: nat)
    | Authenticated(key: string, id: Identity, client: nat)
    | Returned(id: Identity, client: nat, region: string)
    | Failed

  /** A provider client: not authenticated yet, or authenticated as `id` by the call `caller`. */
  datatype Provider = Unauthenticated | OwnedBy(id: Identity, caller: nat)

  datatype World = World(sessions: map<string, Slot>, providers: map<nat, Provider>, calls: map<nat, CallState>)

  ghost predicate Initial(w: World) {
    w == World(map[], map[], map[])
  }

  ghost function With(w: World, c: nat, s: CallState): World {
    w.(calls := w.calls[c := s])
  }

  ghost predicate StartStep(w: World, c: nat, t: World) {
    && c !in w.calls && c in t.calls
    && (|| t == With(w, c, CallState.Failed)
        || (t.calls[c].Resolved? && t == With(w, c, t.calls[c])))
  }

  ghost predicate LookStep(w: World, c: nat, t: World) {
    && c in w.calls && w.calls[c].Resolved?
    && var call := w.calls[c];
       t == With(w, c, Looked(call.key, call.id, if call.key in w.sessions then Some(w.sessions[call.key]) else None))
  }

  /** The comparison of the hashes: a hit returns, a miss connects a fresh unauthenticated client or fails. */
  ghost predicate DecideStep(w: World, c: nat, t: World) {
    && c in w.calls && w.calls[c].Looked?
    && var call := w.calls[c];
       if call.cached.Some? && call.cached.value.hash == CalculateHash(call.id)
       then t == With(w, c, Returned(call.id, call.cached.value.client, call.id.region))
       else || t == With(w, c, CallState.Failed)
            || (exists p: nat :: p !in w.providers &&
                  t == With(w, c, Connected(call.key, call.id, p)).(providers := w.providers[p := Unauthenticated]))
  }

  ghost predicate AuthenticateStep(w: World, c: nat, t: World) {
    && c in w.calls && w.calls[c].Connected?
    && var call := w.calls[c];
       || t == With(w, c, CallState.Failed)
       || t == With(w, c, Authenticated(call.key, call.id, call.client))
               .(providers := w.providers[call.client := OwnedBy(call.id, c)])
  }

  ghost predicate PublishStep(w: World, c: nat, t: World) {
    && c in w.calls && w.calls[c].Authenticated?
    && var call := w.calls[c];
       t == With(w, c, Returned(call.id, call.client, call.id.region))
            .(sessions := w.sessions[call.key := Slot(call.client, CalculateHash(call.id))])
  }

  /** A step of call c. */
  ghost predicate StepOf(w: World, c: nat, t: World) {
    || StartStep(w, c, t) || LookStep(w, c, t) || DecideStep(w, c, t)
    || AuthenticateStep(w, c, t) || PublishStep(w, c, t)
  }

  ghost predicate Next(w: World, t: World) {
    exists c :: StepOf(w, c, t)
  }

  ghost predicate IsRun(run: seq<World>) {
    run != [] && Initial(run[0]) && forall i | 0 <= i < |run| - 1 :: Next(run[i], run[i + 1])
  }

  // ----- invariant -----

  /** A slot's client is authenticated as somebody with the slot's hash. */
  ghost predicate SlotGood(w: World, s: Slot) {
    s.client in w.providers && w.providers[s.client].OwnedBy? && CalculateHash(w.providers[s.client].id) == s.hash
  }

  ghost predicate CallGood(w: World, call: CallState) {
    match call
    case Resolved(_, _) => true
    case Looked(_, _, cached) => cached.Some? ==> SlotGood(w, cached.value)
    case Connected(_, _, client) => client in w.providers && w.providers[client].Unauthenticated?
    case Authenticated(_, id, client) => client in w.providers && w.providers[client].OwnedBy? && w.providers[client].id == id
    case Returned(id, client, region) => SlotGood(w, Slot(client, CalculateHash(id))) && region == id.region
    case Failed => true
  }

  /** Whoever a client is authenticated as made a call that did not fail. */
  ghost predicate Traced(w: World) {
    forall p | p in w.providers && w.providers[p].OwnedBy? :: TracedTo(w, w.providers[p].id, w.providers[p].caller)
  }

  ghost predicate ConnectionsDistinct(w: World) {
    forall c, d | c in w.calls && d in w.calls && c != d && w.calls[c].Connected? && w.calls[d].Connected? ::
      w.calls[c].client != w.calls[d].client
  }

  ghost predicate Inv(w: World) {
    && (forall k | k in w.sessions :: SlotGood(w, w.sessions[k]))
    && (forall c | c in w.calls :: CallGood(w, w.calls[c]))
    && ConnectionsDistinct(w) && Traced(w)
  }

  /** Authenticated clients stay exactly as they are. */
  ghost predicate KeepsAuthenticated(w: World, t: World) {
    && (forall p | p in w.providers :: p in t.providers)
    && (forall p | p in w.providers && w.providers[p].OwnedBy? :: t.providers[p] == w.providers[p])
  }

  lemma GoodStaysGood(w: World, t: World)
    requires KeepsAuthenticated(w, t)
    ensures forall s | SlotGood(w, s) :: SlotGood(t, s)
    ensures forall call | CallGood(w, call) && !call.Connected? :: CallGood(t, call)
  {
  }

  lemma StepKeepsAuthenticated(w: World, c: nat, t: World)
    requires Inv(w) && StepOf(w, c, t)
    ensures KeepsAuthenticated(w, t)
  {
    if AuthenticateStep(w, c, t) {
      assert CallGood(w, w.calls[c]);
    }
  }

  /** The step of one call leaves every other call where it is. */
  lemma OthersKept(w: World, c: nat, t: World)
    requires StepOf(w, c, t)
    ensures c in t.calls && t.calls == w.calls[c := t.calls[c]]
  {
  }

  lemma OwnCallGood(w: World, c: nat, t: World)
    requires Inv(w) && StepOf(w, c, t)
    ensures CallGood(t, t.calls[c])
  {
    StepKeepsAuthenticated(w, c, t);
    GoodStaysGood(w, t);
    if c in w.calls {
      assert CallGood(w, w.calls[c]);
    }
  }

  lemma SessionsStayGood(w: World, c: nat, t: World)
    requires Inv(w) && StepOf(w, c, t)
    ensures forall k | k in t.sessions :: SlotGood(t, t.sessions[k])
  {
    StepKeepsAuthenticated(w, c, t);
    GoodStaysGood(w, t);
    if PublishStep(w, c, t) {
      assert CallGood(w, w.calls[c]);
    } else {
      assert t.sessions == w.sessions;
    }
  }

  lemma OtherConnectionsKept(w: World, c: nat, t: World, d: nat)
    requires Inv(w) && StepOf(w, c, t) && d in w.calls && d != c && w.calls[d].Connected?
    ensures CallGood(t, w.calls[d])
    ensures t.calls[c].Connected? ==> t.calls[c].client != w.calls[d].client
  {
    assert CallGood(w, w.calls[d]);
  }

  ghost predicate TracedTo(w: World, id: Identity, caller: nat) {
    caller in w.calls && (w.calls[caller].Authenticated? || w.calls[caller].Returned?) && w.calls[caller].id == id
  }

  /** A call stays one that has authenticated. */
  lemma TraceKept(w: World, c: nat, t: World, id: Identity, caller: nat)
    requires StepOf(w, c, t) && TracedTo(w, id, caller)
    ensures TracedTo(t, id, caller)
  {
    OthersKept(w, c, t);
  }

  /** A client authenticated by this step belongs to the call that made it. */
  lemma NewTrace(w: World, c: nat, t: World, p: nat)
    requires StepOf(w, c, t) && p in t.providers && t.providers[p].OwnedBy?
    ensures (p in w.providers && t.providers[p] == w.providers[p]) || TracedTo(t, t.providers[p].id, t.providers[p].caller)
  {
  }

  lemma StaysTraced(w: World, c: nat, t: World)
    requires Inv(w) && StepOf(w, c, t)
    ensures Traced(t)
  {
    forall p | p in t.providers && t.providers[p].OwnedBy? ensures TracedTo(t, t.providers[p].id, t.providers[p].caller) {
      NewTrace(w, c, t, p);
      if p in w.providers && t.providers[p] == w.providers[p] {
        TraceKept(w, c, t, t.providers[p].id, t.providers[p].caller);
      }
    }
  }

  lemma StepKeepsInv(w: World, c: nat, t: World)
    requires Inv(w) && StepOf(w, c, t)
    ensures Inv(t)
  {
    OthersKept(w, c, t);
    StepKeepsAuthenticated(w, c, t);
    GoodStaysGood(w, t);
    OwnCallGood(w, c, t);
    SessionsStayGood(w, c, t);
    StaysTraced(w, c, t);
    forall d | d in t.calls ensures CallGood(t, t.calls[d]) {
      if d != c && w.calls[d].Connected? {
        OtherConnectionsKept(w, c, t, d);
      }
    }
    forall d, e | d in t.calls && e in t.calls && d != e && t.calls[d].Connected? && t.calls[e].Connected?
      ensures t.calls[d].client != t.calls[e].client
    {
      if d == c {
        OtherConnectionsKept(w, c, t, e);
      } else if e == c {
        OtherConnectionsKept(w, c, t, d);
      }
    }
  }

  lemma {:induction false} InvAlways(run: seq<World>, i: nat)
    requires IsRun(run) && i < |run|
    ensures Inv(run[i])
  {
    if i > 0 {
      InvAlways(run, i - 1);
      assert Next(run[i - 1], run[i - 1 + 1]);
      var c :| StepOf(run[i - 1], c, run[i]);
      StepKeepsInv(run[i - 1], c, run[i]);
    }
  }

  // ----- what callers see -----

  /** No two calls that have not failed are taken for each other. */
  ghost predicate NoCollisions(w: World) {
    forall c, d | c in w.calls && d in w.calls && !w.calls[c].Failed? && !w.calls[d].Failed? ::
      !Collide(w.calls[c].id, w.calls[d].id)
  }

  lemma SeparableNoCollisions(w: World)
    requires forall c | c in w.calls && !w.calls[c].Failed? :: Separable(w.calls[c].id)
    ensures NoCollisions(w)
  {
    forall c, d | c in w.calls && d in w.calls && !w.calls[c].Failed? && !w.calls[d].Failed?
      ensures !Collide(w.calls[c].id, w.calls[d].id)
    {
      SeparableNeverCollide(w.calls[c].id, w.calls[d].id);
    }
  }

  /** Cache transparency: in every interleaving of any calls, a call that returns has a client authenticated
      as an identity with the hash of its own; so the client is authenticated with exactly the endpoint,
      project, region and credentials that call resolved, if no identities collide, and whatever the other
      calls ask for if the call's own fields hold no separator. */
  lemma CacheTransparent(run: seq<World>, i: nat, c: nat)
    requires IsRun(run) && i < |run| && c in run[i].calls && run[i].calls[c].Returned?
    ensures var r := run[i].calls[c];
            && r.client in run[i].providers && run[i].providers[r.client].OwnedBy? && r.region == r.id.region
            && var owner := run[i].providers[r.client].id;
               CalculateHash(owner) == CalculateHash(r.id) && (NoCollisions(run[i]) || Plain(r.id) ==> owner == r.id)
  {
    InvAlways(run, i);
    assert CallGood(run[i], run[i].calls[c]);
    var r := run[i].calls[c];
    var owner := run[i].providers[r.client];
    if NoCollisions(run[i]) {
      assert run[i].calls[owner.caller].id == owner.id;
    } else if Plain(r.id) {
      PlainUnique(r.id, owner.id);
    }
  }

  /** In terms of what the caller was given: its client's endpoint, project, region and keys are those of the
      provider configuration and the secret of that call, whatever the other calls ask for. */
  lemma ClientOfTheCaller(run: seq<World>, i: nat, c: nat, spec: ProviderSpec, creds: Credentials)
    requires IsRun(run) && i < |run| && c in run[i].calls && run[i].calls[c].Returned?
    requires run[i].calls[c].id == Resolve(spec, creds)
    requires NoCollisions(run[i]) || Plain(Resolve(spec, creds))
    ensures var client := run[i].calls[c].client;
            && client in run[i].providers && run[i].providers[client].OwnedBy?
            && var owner := run[i].providers[client].id;
               && owner.accessKey == creds.accessKey && owner.secretKey == creds.secretKey
               && owner.projectId == spec.projectId && owner.region == spec.region && owner.domainName == spec.domainName
               && owner.endpoint == (if spec.identityEndpoint.Some? && spec.identityEndpoint.value != "" then spec.identityEndpoint.value
                                     else "https://iam.eu-de.otc.t-systems.com/v3")
    ensures run[i].calls[c].region == spec.region
  {
    CacheTransparent(run, i, c);
  }

  /** Without either condition it fails: for any two colliding identities there is a run in which the call
      for the second is handed the client of the first. */
  lemma CollidingCallGetsTheOthersClient(a: Identity, b: Identity) returns (run: seq<World>)
    requires Collide(a, b)
    ensures IsRun(run) && |run| == 9
    ensures var w := run[8];
            && 1 in w.calls && w.calls[1].Returned? && w.calls[1].id == b
            && w.calls[1].client in w.providers && w.providers[w.calls[1].client].OwnedBy?
            && w.providers[w.calls[1].client].id == a
  {
    var slot := Slot(0, CalculateHash(a));
    var w0 := World(map[], map[], map[]);
    var w1 := With(w0, 0, Resolved("", a));
    var w2 := With(w1, 0, Looked("", a, None));
    var w3 := With(w2, 0, Connected("", a, 0)).(providers := map[0 := Unauthenticated]);
    var w4 := With(w3, 0, Authenticated("", a, 0)).(providers := map[0 := OwnedBy(a, 0)]);
    var w5 := With(w4, 0, Returned(a, 0, a.region)).(sessions := map["" := slot]);
    var w6 := With(w5, 1, Resolved("", b));
    var w7 := With(w6, 1, Looked("", b, Some(slot)));
    var w8 := With(w7, 1, Returned(b, 0, b.region));
    run := [w0, w1, w2, w3, w4, w5, w6, w7, w8];
    assert StepOf(w0, 0, w1) by { assert StartStep(w0, 0, w1); }
    assert StepOf(w1, 0, w2) by { assert LookStep(w1, 0, w2); }
    assert StepOf(w2, 0, w3) by { assert 0 !in w2.providers && DecideStep(w2, 0, w3); }
    assert StepOf(w3, 0, w4) by { assert AuthenticateStep(w3, 0, w4); }
    assert StepOf(w4, 0, w5) by { assert PublishStep(w4, 0, w5); }
    assert StepOf(w5, 1, w6) by { assert StartStep(w5, 1, w6); }
    assert StepOf(w6, 1, w7) by { assert LookStep(w6, 1, w7); }
    assert StepOf(w7, 1, w8) by { assert DecideStep(w7, 1, w8); }
  }

  /** From step to step, authenticated clients stay as they are. */
  ghost predicate KeepsThroughout(run: seq<World>) {
    forall i | 0 <= i < |run| - 1 :: KeepsAuthenticated(run[i], run[i + 1])
  }

  lemma RunKeepsAuthenticated(run: seq<World>)
    requires IsRun(run)
    ensures KeepsThroughout(run)
  {
    forall i | 0 <= i < |run| - 1 ensures KeepsAuthenticated(run[i], run[i + 1]) {
      InvAlways(run, i);
      assert Next(run[i], run[i + 1]);
      var c :| StepOf(run[i], c, run[i + 1]);
      StepKeepsAuthenticated(run[i], c, run[i + 1]);
    }
  }

  lemma {:induction false} AuthenticatedForEver(run: seq<World>, i: nat, j: nat, p: nat)
    requires KeepsThroughout(run) && i <= j < |run| && p in run[i].providers && run[i].providers[p].OwnedBy?
    ensures p in run[j].providers && run[j].providers[p] == run[i].providers[p]
  {
    if i < j {
      AuthenticatedForEver(run, i, j - 1, p);
      assert KeepsAuthenticated(run[j - 1], run[j - 1 + 1]);
    }
  }

  /** Once a session is published its client never changes, whatever happens to the slot later. */
  lemma PublishedNeverMutated(run: seq<World>, i: nat, j: nat, k: string)
    requires IsRun(run) && i <= j < |run| && k in run[i].sessions
    ensures var p := run[i].sessions[k].client;
            p in run[i].providers && p in run[j].providers && run[j].providers[p] == run[i].providers[p]
  {
    InvAlways(run, i);
    assert SlotGood(run[i], run[i].sessions[k]);
    RunKeepsAuthenticated(run);
    AuthenticatedForEver(run, i, j, run[i].sessions[k].client);
  }

  /** A call that ends in failure has changed no session at any of its steps. */
  lemma FailedCallPublishesNothing(run: seq<World>, i: nat, j: nat, c: nat)
    requires IsRun(run) && i < j < |run| && StepOf(run[i], c, run[i + 1])
    requires c in run[j].calls && run[j].calls[c].Failed?
    ensures run[i + 1].sessions == run[i].sessions
  {
    PublishingReturns(run[i], c, run[i + 1]);
    if run[i + 1].sessions != run[i].sessions {
      RunKeepsReturned(run);
      ReturnedStays(run, i + 1, j, c);
    }
  }

  lemma PublishingReturns(w: World, c: nat, t: World)
    requires StepOf(w, c, t)
    ensures t.sessions == w.sessions || (c in t.calls && t.calls[c].Returned?)
  {
  }

  /** Calls that have returned stay as they are. */
  ghost predicate ReturnedKept(w: World, t: World) {
    forall c | c in w.calls && w.calls[c].Returned? :: c in t.calls && t.calls[c] == w.calls[c]
  }

  ghost predicate ReturnedKeptThroughout(run: seq<World>) {
    forall i | 0 <= i < |run| - 1 :: ReturnedKept(run[i], run[i + 1])
  }

  lemma RunKeepsReturned(run: seq<World>)
    requires IsRun(run)
    ensures ReturnedKeptThroughout(run)
  {
    forall i | 0 <= i < |run| - 1 ensures ReturnedKept(run[i], run[i + 1]) {
      assert Next(run[i], run[i + 1]);
      var d :| StepOf(run[i], d, run[i + 1]);
      StepStates(run[i], d, run[i + 1]);
      OthersKept(run[i], d, run[i + 1]);
    }
  }

  lemma {:induction false} ReturnedStays(run: seq<World>, i: nat, j: nat, c: nat)
    requires ReturnedKeptThroughout(run) && i <= j < |run| && c in run[i].calls && run[i].calls[c].Returned?
    ensures c in run[j].calls && run[j].calls[c] == run[i].calls[c]
  {
    if i < j {
      ReturnedStays(run, i, j - 1, c);
      assert ReturnedKept(run[j - 1], run[j - 1 + 1]);
    }
  }

  // ----- refinement -----

  /** The cache-free service: every call authenticates afresh. */
  datatype Answer = Pending(id: Identity) | Answered(id: Identity, auth: AuthInfo, region: string) | Error

  type Fresh = map<nat, Answer>

  ghost predicate FreshNext(s: Fresh, t: Fresh) {
    exists c: nat ::
      || (c !in s && c in t && !t[c].Answered? && t == s[c := t[c]])
      || (c in s && s[c].Pending? && t == s[c := Error])
      || (c in s && s[c].Pending? && t == s[c := Answered(s[c].id, AuthOf(s[c].id), s[c].id.region)])
  }

  ghost function Seen(w: World, call: CallState): Answer {
    match call
    case Resolved(_, id) => Pending(id)
    case Looked(_, id, _) => Pending(id)
    case Connected(_, id, _) => Pending(id)
    case Authenticated(_, id, _) => Pending(id)
    case Returned(id, client, region) =>
      if client in w.providers && w.providers[client].OwnedBy? then Answered(id, AuthOf(w.providers[client].id), region) else Error
    case Failed => Error
  }

  ghost function Abstract(w: World): Fresh {
    map c | c in w.calls :: Seen(w, w.calls[c])
  }

  /** As long as no identities collide, every step of the cached protocol is a step of the cache-free
      service, or invisible to callers. */
  lemma RefinesFreshAuthentication(run: seq<World>, i: nat)
    requires IsRun(run) && i + 1 < |run| && NoCollisions(run[i + 1])
    ensures Abstract(run[i]) == Abstract(run[i + 1]) || FreshNext(Abstract(run[i]), Abstract(run[i + 1]))
  {
    InvAlways(run, i);
    InvAlways(run, i + 1);
    assert Next(run[i], run[i + 1]);
    var c :| StepOf(run[i], c, run[i + 1]);
    StepRefines(run[i], c, run[i + 1]);
  }

  lemma StepRefines(w: World, c: nat, t: World)
    requires Inv(w) && Inv(t) && StepOf(w, c, t) && NoCollisions(t)
    ensures Abstract(w) == Abstract(t) || FreshNext(Abstract(w), Abstract(t))
  {
    OthersKept(w, c, t);
    AbstractChangesAt(w, c, t);
    OwnAnswer(w, c, t);
    FreshStep(Abstract(w), c, Seen(t, t.calls[c]));
  }

  /** Giving one call an answer it may have is a step of the cache-free service, or no step. */
  lemma FreshStep(s: Fresh, c: nat, a: Answer)
    requires c !in s ==> !a.Answered?
    requires c in s ==> && s[c].Pending?
                        && a in {Pending(s[c].id), Error, Answered(s[c].id, AuthOf(s[c].id), s[c].id.region)}
    ensures s == s[c := a] || FreshNext(s, s[c := a])
  {
    var t := s[c := a];
    if c in s && a == s[c] {
      assert t == s;
    } else {
      assert c in t && t[c] == a;
    }
  }

  lemma AbstractChangesAt(w: World, c: nat, t: World)
    requires Inv(w) && StepOf(w, c, t) && t.calls == w.calls[c := t.calls[c]]
    ensures c in t.calls && Abstract(t) == Abstract(w)[c := Seen(t, t.calls[c])]
  {
    StepKeepsAuthenticated(w, c, t);
    forall d | d in w.calls && d != c ensures Seen(t, t.calls[d]) == Seen(w, w.calls[d]) {
      assert CallGood(w, w.calls[d]);
    }
  }

  /** The states a step of call c leads from and to. */
  lemma StepStates(w: World, c: nat, t: World)
    requires StepOf(w, c, t)
    ensures c in t.calls
    ensures c !in w.calls ==> t.calls[c].Failed? || t.calls[c].Resolved?
    ensures c in w.calls ==>
              && !w.calls[c].Failed? && !w.calls[c].Returned?
              && (t.calls[c].Failed? || t.calls[c].id == w.calls[c].id)
  {
  }

  /** A returned call that is good shows its own authentication. */
  lemma ReturnedAnswer(t: World, c: nat)
    requires Inv(t) && NoCollisions(t) && c in t.calls && t.calls[c].Returned?
    ensures var id := t.calls[c].id; Seen(t, t.calls[c]) == Answered(id, AuthOf(id), id.region)
  {
    assert CallGood(t, t.calls[c]);
    var owner := t.providers[t.calls[c].client];
    assert owner.OwnedBy? && t.calls[owner.caller].id == owner.id;
    assert !Collide(t.calls[c].id, t.calls[owner.caller].id);
  }

  lemma OwnAnswer(w: World, c: nat, t: World)
    requires Inv(t) && StepOf(w, c, t) && NoCollisions(t)
    ensures c in t.calls && (c !in w.calls ==> !Seen(t, t.calls[c]).Answered?)
    ensures c in w.calls ==>
              && Seen(w, w.calls[c]).Pending?
              && var id := Seen(w, w.calls[c]).id;
                 Seen(t, t.calls[c]) in {Pending(id), Error, Answered(id, AuthOf(id), id.region)}
  {
    StepStates(w, c, t);
    if t.calls[c].Returned? {
      ReturnedAnswer(t, c);
    }
  }
}
