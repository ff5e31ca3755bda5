/** internal/clients/clients.go: Cache.GetClient, one call at a time. */
module ClientCache {
  import opened Basics
  import opened CacheIdentity

  /** What a provider client was authenticated with. */
  datatype AuthInfo = AuthInfo(endpoint: string, accessKey: string, secretKey: string, projectId: string, region: string)

  function AuthOf(id: Identity): AuthInfo {
    AuthInfo(id.endpoint, id.accessKey, id.secretKey, id.projectId, id.region)
  }

  /** One request in a history: `credentialsOk` and `connectOk` say whether the credentials can be read
      and whether creating and authenticating a client would succeed. */
  datatype Request = Request(key: string, id: Identity, credentialsOk: bool, connectOk: bool)

  type Slots = map<string, Digest>

  predicate Hit(slots: Slots, r: Request) {
    r.credentialsOk && r.key in slots && slots[r.key] == CalculateHash(r.id)
  }

  predicate Succeeds(slots: Slots, r: Request) {
    r.credentialsOk && (Hit(slots, r) || r.connectOk)
  }

  /** A successful request that missed has authenticated. */
  predicate Authenticates(slots: Slots, r: Request) {
    Succeeds(slots, r) && !Hit(slots, r)
  }

  function AfterRequest(slots: Slots, r: Request): Slots {
    if Authenticates(slots, r) then slots[r.key := CalculateHash(r.id)] else slots
  }

  /** What a call that resolves `spec` and `creds` is authenticated with, field by field. */
  lemma ResolvedAuth(spec: ProviderSpec, creds: Credentials)
    ensures var auth := AuthOf(Resolve(spec, creds));
            && auth.accessKey == creds.accessKey && auth.secretKey == creds.secretKey
            && auth.projectId == spec.projectId && auth.region == spec.region
            && (spec.identityEndpoint.Some? && spec.identityEndpoint.value != "" ==> auth.endpoint == spec.identityEndpoint.value)
            && (spec.identityEndpoint.None? || spec.identityEndpoint.value == "" ==>
                  auth.endpoint == "https://iam.eu-de.otc.t-systems.com/v3")
  {
  }

  // ----- the cache object -----

  class ProviderClient {
    var auth: Option<AuthInfo>

    constructor ()
      ensures auth.None?
    {
      auth := None;
    }
  }

  /** The cloud's identity service, which counts the authentications it grants and the attempts it turns down. */
  class IdentityService {
    ghost var granted: nat
    ghost var refused: nat

    constructor ()
      ensures granted == 0 && refused == 0
    {
      granted, refused := 0, 0;
    }

    /** newClient: the endpoint may be unusable. */
    method NewClient() returns (client: Option<ProviderClient>)
      modifies this`refused
      ensures client.Some? ==> fresh(client.value) && client.value.auth.None? && refused == old(refused)
      ensures client.None? ==> refused == old(refused) + 1
    {
      var ok := *;
      if !ok {
        refused := refused + 1;
        return None;
      }
      var made := new ProviderClient();
      return Some(made);
    }

    method Authenticate(client: ProviderClient, id: Identity) returns (ok: bool)
      modifies this, client
      ensures client.auth == if ok then Some(AuthOf(id)) else old(client.auth)
      ensures granted == old(granted) + (if ok then 1 else 0) && refused == old(refused) + (if ok then 0 else 1)
    {
      ok := *;
      if ok {
        client.auth := Some(AuthOf(id));
        granted := granted + 1;
      } else {
        refused := refused + 1;
      }
    }
  }

  datatype Session = Session(client: ProviderClient, hash: Digest)

  datatype Client = Client(provider: ProviderClient, region: string)

  class Cache {
    const service: IdentityService
    var sessions: map<string, Session>
    /** Whom the client of each slot was authenticated as. */
    ghost var identities: map<string, Identity>

    ghost predicate Valid()
      reads this, set k | k in sessions :: sessions[k].client
    {
      && identities.Keys == sessions.Keys
      && forall k | k in sessions ::
           && sessions[k].hash == CalculateHash(identities[k])
           && sessions[k].client.auth == Some(AuthOf(identities[k]))
    }

    ghost function SlotHashes(): Slots
      reads this
    {
      map k | k in sessions :: sessions[k].hash
    }

    constructor (service: IdentityService)
      ensures Valid() && SlotHashes() == map[] && this.service == service
    {
      this.service, sessions, identities := service, map[], map[];
    }

    /** `creds` is None when the credentials could not be extracted. A call fails only then or when the identity
        service turns it down. A returned client belongs to an identity with the hash of what the caller `asked`
        for; unless the two collide, the client is authenticated with exactly that. */
    method GetClient(key: string, spec: ProviderSpec, creds: Option<Credentials>) returns (r: Option<Client>)
      requires Valid()
      modifies this, service
      ensures Valid()
      ensures r.None? <==> creds.None? || service.refused != old(service.refused)
      ensures r.Some? ==>
                var endpoint := if spec.identityEndpoint.Some? && spec.identityEndpoint.value != ""
                                then spec.identityEndpoint.value else "https://iam.eu-de.otc.t-systems.com/v3";
                var asked := Identity(endpoint, spec.domainName, spec.projectId, spec.region,
                                      creds.value.accessKey, creds.value.secretKey);
                && key in identities && sessions[key].client == r.value.provider && r.value.region == spec.region
                && CalculateHash(identities[key]) == CalculateHash(asked)
                && (!Collide(asked, identities[key]) ==>
                      && r.value.provider.auth.Some?
                      && var auth := r.value.provider.auth.value;
                         && auth.endpoint == endpoint && auth.accessKey == creds.value.accessKey
                         && auth.secretKey == creds.value.secretKey && auth.projectId == spec.projectId
                         && auth.region == spec.region)
      ensures r.None? ==> sessions == old(sessions) && service.granted == old(service.granted)
      ensures creds.Some? ==>
                var request := Request(key, Resolve(spec, creds.value), true, service.refused == old(service.refused));
                && (r.Some? <==> Succeeds(old(SlotHashes()), request))
                && SlotHashes() == AfterRequest(old(SlotHashes()), request)
                && service.granted == old(service.granted) + (if Authenticates(old(SlotHashes()), request) then 1 else 0)
                && identities == if Authenticates(old(SlotHashes()), request) then old(identities)[key := request.id] else old(identities)
      ensures r.Some? && service.granted == old(service.granted) ==>
                key in old(sessions) && r.value.provider == old(sessions)[key].client && sessions == old(sessions)
    {
      if creds.None? {
        return None;
      }
      var id := Resolve(spec, creds.value);
      var configHash := CalculateHash(id);
      if key in sessions && sessions[key].hash == configHash {
        return Some(Client(sessions[key].client, spec.region));
      }
      var provider := Connect(id);
      if provider.None? {
        return None;
      }
      Publish(key, id, provider.value);
      r := Some(Client(provider.value, spec.region));
    }

    /** Creates and authenticates a client; the identity service may turn down either. */
    method Connect(id: Identity) returns (provider: Option<ProviderClient>)
      modifies service
      ensures provider.Some? ==>
                && fresh(provider.value) && provider.value.auth == Some(AuthOf(id))
                && service.granted == old(service.granted) + 1 && service.refused == old(service.refused)
      ensures provider.None? ==> service.granted == old(service.granted) && service.refused == old(service.refused) + 1
    {
      var client := service.NewClient();
      if client.None? {
        return None;
      }
      var ok := service.Authenticate(client.value, id);
      return if ok then client else None;
    }

    /** What GetClient does under the write lock. */
    method Publish(key: string, id: Identity, provider: ProviderClient)
      requires Valid() && provider.auth == Some(AuthOf(id))
      modifies this
      ensures Valid()
      ensures sessions == old(sessions)[key := Session(provider, CalculateHash(id))]
      ensures identities == old(identities)[key := id]
    {
      sessions := sessions[key := Session(provider, CalculateHash(id))];
      identities := identities[key := id];
    }
  }

  // ----- how often a history authenticates -----

  ghost function SlotsAfter(history: seq<Request>): Slots {
    if history == [] then map[]
    else AfterRequest(SlotsAfter(history[..|history| - 1]), history[|history| - 1])
  }

  ghost function Authentications(history: seq<Request>): nat {
    if history == [] then 0
    else
      var init, last := history[..|history| - 1], history[|history| - 1];
      Authentications(init) + if Authenticates(SlotsAfter(init), last) then 1 else 0
  }

  ghost predicate Successful(history: seq<Request>, i: nat)
    requires i < |history|
  {
    Succeeds(SlotsAfter(history[..i]), history[i])
  }

  /** The last successful request on a key. */
  ghost predicate IsLast(history: seq<Request>, key: string, i: int) {
    && 0 <= i < |history| && history[i].key == key && Successful(history, i)
    && forall j | i < j < |history| :: !(history[j].key == key && Successful(history, j))
  }

  /** Request i succeeds as the first on its key, or after a successful one with another configuration. */
  ghost predicate FirstOrChanged(history: seq<Request>, i: nat)
    requires i < |history|
  {
    && Successful(history, i)
    && forall j | IsLast(history[..i], history[i].key, j) :: history[j].id != history[i].id
  }

  ghost function FirstOrChangedSet(history: seq<Request>): set<nat> {
    set i: nat | i < |history| && FirstOrChanged(history, i)
  }

  lemma SuccessfulPrefix(history: seq<Request>, n: nat, i: nat)
    requires i < n <= |history|
    ensures Successful(history[..n], i) <==> Successful(history, i)
    ensures FirstOrChanged(history[..n], i) <==> FirstOrChanged(history, i)
  {
    assert history[..n][..i] == history[..i];
  }

  /** A slot holds the hash of the last successful request on its key. */
  lemma {:induction false} SlotsHoldLast(history: seq<Request>, key: string)
    ensures key !in SlotsAfter(history) ==> forall i | 0 <= i < |history| && history[i].key == key :: !Successful(history, i)
    ensures key in SlotsAfter(history) ==>
              exists i :: IsLast(history, key, i) && SlotsAfter(history)[key] == CalculateHash(history[i].id)
  {
    if history != [] {
      var n := |history| - 1;
      var init := history[..n];
      SlotsHoldLast(init, key);
      forall i | 0 <= i < n ensures Successful(init, i) <==> Successful(history, i) {
        SuccessfulPrefix(history, n, i);
      }
      if key in SlotsAfter(history) {
        if history[n].key == key && Successful(history, n) {
          assert IsLast(history, key, n);
        } else {
          var i :| IsLast(init, key, i) && SlotsAfter(init)[key] == CalculateHash(init[i].id);
          LastKept(history, key, i);
        }
      }
    }
  }

  /** A request that fails or is for another key leaves the last successful one on this key the last. */
  lemma LastKept(history: seq<Request>, key: string, i: int)
    requires history != [] && IsLast(history[..|history| - 1], key, i)
    requires !(history[|history| - 1].key == key && Successful(history, |history| - 1))
    ensures IsLast(history, key, i)
  {
    var n := |history| - 1;
    forall j | 0 <= j < n ensures Successful(history[..n], j) <==> Successful(history, j) {
      SuccessfulPrefix(history, n, j);
    }
  }

  lemma LastIsUnique(history: seq<Request>, key: string, i: int, j: int)
    requires IsLast(history, key, i) && IsLast(history, key, j)
    ensures i == j
  {
  }

  /** No two identities of the history are taken for each other; so it is when they are separable. */
  ghost predicate NoCollisions(history: seq<Request>) {
    forall i, j | 0 <= i < |history| && 0 <= j < |history| :: !Collide(history[i].id, history[j].id)
  }

  lemma SeparableNoCollisions(history: seq<Request>)
    requires forall i | 0 <= i < |history| :: Separable(history[i].id)
    ensures NoCollisions(history)
  {
    forall i, j | 0 <= i < |history| && 0 <= j < |history| ensures !Collide(history[i].id, history[j].id) {
      SeparableNeverCollide(history[i].id, history[j].id);
    }
  }

  /** A request authenticates iff it succeeds as the first on its key or with a changed configuration. */
  lemma AuthenticatesIff(history: seq<Request>, i: nat)
    requires i < |history| && NoCollisions(history)
    ensures Authenticates(SlotsAfter(history[..i]), history[i]) <==> FirstOrChanged(history, i)
  {
    var before, r := history[..i], history[i];
    SlotsHoldLast(before, r.key);
    if r.key in SlotsAfter(before) {
      var last :| IsLast(before, r.key, last) && SlotsAfter(before)[r.key] == CalculateHash(before[last].id);
      if Hit(SlotsAfter(before), r) {
        assert !Collide(history[last].id, history[i].id);
      } else if r.credentialsOk {
        forall j | IsLast(before, r.key, j) ensures history[j].id != r.id {
          LastIsUnique(before, r.key, last, j);
        }
      }
    }
  }

  lemma FirstOrChangedStep(history: seq<Request>)
    requires history != []
    ensures var n := |history| - 1;
            FirstOrChangedSet(history) == FirstOrChangedSet(history[..n]) + if FirstOrChanged(history, n) then {n} else {}
  {
    var n := |history| - 1;
    forall i: nat | i < n ensures FirstOrChanged(history[..n], i) <==> FirstOrChanged(history, i) {
      SuccessfulPrefix(history, n, i);
    }
  }

  /** In any sequential history the successful authentications are exactly as many as the successful calls
      that are the first on their key or differ from the last successful call on it. */
  lemma {:induction false} AuthenticationCount(history: seq<Request>)
    requires NoCollisions(history)
    ensures Authentications(history) == |FirstOrChangedSet(history)|
  {
    if history != [] {
      var n := |history| - 1;
      AuthenticationCount(history[..n]);
      AuthenticatesIff(history, n);
      FirstOrChangedStep(history);
      assert n !in FirstOrChangedSet(history[..n]);
    }
  }
}
