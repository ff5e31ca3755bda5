/** The two strings the client cache lives by: the hash pre-image of internal/clients/clients.go and the
    slot key of internal/clients/providerconfig.go. */
module CacheIdentity {
  import opened Basics

  const DEFAULT_IDENTITY_ENDPOINT := "https://iam.eu-de.otc.t-systems.com/v3"

  datatype Credentials = Credentials(accessKey: string, secretKey: string)

  datatype ProviderSpec = ProviderSpec(identityEndpoint: Option<string>, domainName: string, projectId: string, region: string)

  /** Everything a call asks to be authenticated with. */
  datatype Identity = Identity(endpoint: string, domainName: string, projectId: string, region: string,
                               accessKey: string, secretKey: string)

  function Resolve(spec: ProviderSpec, creds: Credentials): Identity {
    var endpoint := if spec.identityEndpoint.GetOr("") != "" then spec.identityEndpoint.value else DEFAULT_IDENTITY_ENDPOINT;
    Identity(endpoint, spec.domainName, spec.projectId, spec.region, creds.accessKey, creds.secretKey)
  }

  /** The six fields, joined by '|'. */
  function PreImage(id: Identity): string {
    id.endpoint + "|" + (id.domainName + "|" + (id.projectId + "|" + (id.region + "|" + (id.accessKey + "|" + id.secretKey))))
  }

  /** SHA-256 in hexadecimal, taken as free of collisions. */
  datatype Digest = Sha256(preImage: string)

  function CalculateHash(id: Identity): Digest {
    Sha256(PreImage(id))
  }

  /** No field but the last contains the separator. */
  predicate Separable(id: Identity) {
    '|' !in id.endpoint && '|' !in id.domainName && '|' !in id.projectId && '|' !in id.region && '|' !in id.accessKey
  }

  /** A text is cut at the first separator in one way only. */
  lemma {:induction false} CutAtFirst(sep: char, a: string, r: string, b: string, q: string)
    requires sep !in a && sep !in b
    requires a + [sep] + r == b + [sep] + q
    ensures a == b && r == q
  {
    var s, t := a + [sep] + r, b + [sep] + q;
    assert s[|a|] == sep && t[|b|] == sep;
    assert |a| == |b|;
    assert a == s[..|a|] == t[..|b|] == b;
    assert r == s[|a| + 1..] == t[|b| + 1..] == q;
  }

  /** The pre-image determines all six fields. */
  lemma HashInjective(a: Identity, b: Identity)
    requires Separable(a) && Separable(b) && CalculateHash(a) == CalculateHash(b)
    ensures a == b
  {
    var a5, b5 := a.accessKey + "|" + a.secretKey, b.accessKey + "|" + b.secretKey;
    var a4, b4 := a.region + "|" + a5, b.region + "|" + b5;
    var a3, b3 := a.projectId + "|" + a4, b.projectId + "|" + b4;
    var a2, b2 := a.domainName + "|" + a3, b.domainName + "|" + b3;
    CutAtFirst('|', a.endpoint, a2, b.endpoint, b2);
    CutAtFirst('|', a.domainName, a3, b.domainName, b3);
    CutAtFirst('|', a.projectId, a4, b.projectId, b4);
    CutAtFirst('|', a.region, a5, b.region, b5);
    CutAtFirst('|', a.accessKey, a.secretKey, b.accessKey, b.secretKey);
  }

  /** Two identities that would be taken for each other. */
  ghost predicate Collide(a: Identity, b: Identity) {
    a != b && CalculateHash(a) == CalculateHash(b)
  }

  lemma SeparableNeverCollide(a: Identity, b: Identity)
    requires Separable(a) && Separable(b)
    ensures !Collide(a, b)
  {
    if CalculateHash(a) == CalculateHash(b) {
      HashInjective(a, b);
    }
  }

  /** No field at all contains the separator. */
  predicate Plain(id: Identity) {
    Separable(id) && '|' !in id.secretKey
  }

  /** An identity can be mistaken for no other at all exactly when none of its six fields contains '|'. */
  lemma CollidesWithNoneIff(a: Identity)
    ensures (forall b :: !Collide(a, b)) <==> Plain(a)
  {
    if Plain(a) {
      forall b ensures !Collide(a, b) {
        if CalculateHash(a) == CalculateHash(b) {
          PlainUnique(a, b);
        }
      }
    } else {
      var b := Colliding(a);
      assert Collide(a, b);
    }
  }

  function Separators(s: string): nat {
    if s == [] then 0 else (if s[0] == '|' then 1 else 0) + Separators(s[1..])
  }

  lemma {:induction false} SeparatorsAppend(s: string, t: string)
    ensures Separators(s + t) == Separators(s) + Separators(t)
  {
    if s == [] {
      assert s + t == t;
    } else {
      assert (s + t)[1..] == s[1..] + t;
      SeparatorsAppend(s[1..], t);
    }
  }

  lemma {:induction false} NoSeparatorsIff(s: string)
    ensures Separators(s) == 0 <==> '|' !in s
  {
    if s != [] {
      NoSeparatorsIff(s[1..]);
      assert s == [s[0]] + s[1..];
    }
  }

  lemma PreImageSeparators(a: Identity)
    ensures Separators(PreImage(a)) == 5 + Separators(a.endpoint) + Separators(a.domainName) + Separators(a.projectId)
                                         + Separators(a.region) + Separators(a.accessKey) + Separators(a.secretKey)
  {
    var a5 := a.accessKey + "|" + a.secretKey;
    var a4 := a.region + "|" + a5;
    var a3 := a.projectId + "|" + a4;
    var a2 := a.domainName + "|" + a3;
    JoinSeparators(a.accessKey, a.secretKey);
    JoinSeparators(a.region, a5);
    JoinSeparators(a.projectId, a4);
    JoinSeparators(a.domainName, a3);
    JoinSeparators(a.endpoint, a2);
  }

  lemma JoinSeparators(s: string, t: string)
    ensures Separators(s + "|" + t) == Separators(s) + 1 + Separators(t)
  {
    SeparatorsAppend(s + "|", t);
    SeparatorsAppend(s, "|");
    assert "|"[1..] == "";
  }

  lemma PlainIffNoSeparators(a: Identity)
    ensures Plain(a) <==> Separators(PreImage(a)) == 5
  {
    PreImageSeparators(a);
    NoSeparatorsIff(a.endpoint);
    NoSeparatorsIff(a.domainName);
    NoSeparatorsIff(a.projectId);
    NoSeparatorsIff(a.region);
    NoSeparatorsIff(a.accessKey);
    NoSeparatorsIff(a.secretKey);
  }

  lemma PlainUnique(a: Identity, b: Identity)
    requires Plain(a) && CalculateHash(a) == CalculateHash(b)
    ensures a == b
  {
    PlainIffNoSeparators(a);
    PlainIffNoSeparators(b);
    HashInjective(a, b);
  }

  /** The part of a text before a separator in it, and the part behind. */
  lemma Split(s: string) returns (front: string, back: string)
    requires '|' in s
    ensures s == front + "|" + back
  {
    var i :| 0 <= i < |s| && s[i] == '|';
    front, back := s[..i], s[i + 1..];
  }

  lemma Shift(front: string, back: string, rest: string)
    ensures (front + "|" + back) + "|" + rest == front + "|" + (back + "|" + rest)
  {
  }

  /** Moving what is behind a separator over to the next field, or what is before one over to the field
      before, gives a different identity with the same pre-image. */
  lemma Colliding(a: Identity) returns (b: Identity)
    requires !Plain(a)
    ensures Collide(a, b)
  {
    var a5 := a.accessKey + "|" + a.secretKey;
    var a4 := a.region + "|" + a5;
    var a3 := a.projectId + "|" + a4;
    if '|' in a.endpoint {
      var x, y := Split(a.endpoint);
      b := a.(endpoint := x, domainName := y + "|" + a.domainName);
      Shift(x, y, a.domainName + "|" + a3);
      Shift(y, a.domainName, a3);
    } else if '|' in a.domainName {
      var x, y := Split(a.domainName);
      b := a.(domainName := x, projectId := y + "|" + a.projectId);
      Shift(x, y, a3);
      Shift(y, a.projectId, a4);
    } else if '|' in a.projectId {
      var x, y := Split(a.projectId);
      b := a.(projectId := x, region := y + "|" + a.region);
      Shift(x, y, a4);
      Shift(y, a.region, a5);
    } else if '|' in a.region {
      var x, y := Split(a.region);
      b := a.(region := x, accessKey := y + "|" + a.accessKey);
      Shift(x, y, a5);
      Shift(y, a.accessKey, a.secretKey);
    } else if '|' in a.accessKey {
      var x, y := Split(a.accessKey);
      b := a.(accessKey := x, secretKey := y + "|" + a.secretKey);
      Shift(x, y, a.secretKey);
    } else {
      var x, y := Split(a.secretKey);
      b := a.(accessKey := a.accessKey + "|" + x, secretKey := y);
      Shift(a.accessKey, x, y);
    }
  }

  // ----- slot keys -----

  datatype ConfigRef = ConfigRef(kind: string, name: string)

  /** A configuration object: one of a namespace, or one of the whole cluster. */
  datatype Config = Namespaced(namespace: string, name: string) | ClusterWide(name: string)

  /** Which object a reference means; an unknown kind or no reference is an error. */
  function Referenced(ref: Option<ConfigRef>, namespace: string): Option<Config> {
    if ref.None? then None
    else if ref.value.kind == "ProviderConfig" then Some(Namespaced(namespace, ref.value.name))
    else if ref.value.kind == "" || ref.value.kind == "ClusterProviderConfig" then Some(ClusterWide(ref.value.name))
    else None
  }

  function SlotKey(config: Config): string {
    match config
    case Namespaced(namespace, name) => "ProviderConfig/" + (namespace + "/" + name)
    case ClusterWide(name) => "ClusterProviderConfig/" + name
  }

  /** Two configuration objects share a cache slot only if they are the same object. Namespaces hold no
      '/'; nothing is asked of names. */
  lemma SlotKeyInjective(a: Config, b: Config)
    requires a.Namespaced? ==> '/' !in a.namespace
    requires b.Namespaced? ==> '/' !in b.namespace
    requires SlotKey(a) == SlotKey(b)
    ensures a == b
  {
    var s, t := SlotKey(a), SlotKey(b);
    assert a.Namespaced? <==> s[0] == 'P';
    assert b.Namespaced? <==> t[0] == 'P';
    if a.Namespaced? {
      assert s[15..] == a.namespace + "/" + a.name && t[15..] == b.namespace + "/" + b.name;
      CutAtFirst('/', a.namespace, a.name, b.namespace, b.name);
    } else {
      assert s[22..] == a.name && t[22..] == b.name;
    }
  }

  datatype SlotConfig = SlotConfig(spec: ProviderSpec, key: string)

  /** GetProviderConfigSpec: the configuration a reference means and its slot key; None is an error. `kube`
      reads configuration objects, None for one that cannot be read. */
  function GetProviderConfigSpec(kube: Config -> Option<ProviderSpec>, ref: Option<ConfigRef>, namespace: string): (r: Option<SlotConfig>)
    ensures ref.None? ==> r.None?
    ensures ref.Some? && ref.value.kind !in {"ProviderConfig", "ClusterProviderConfig", ""} ==> r.None?
    ensures ref.Some? && ref.value.kind == "ProviderConfig" ==>
              var spec := kube(Namespaced(namespace, ref.value.name));
              && (r.None? <==> spec.None?)
              && (r.Some? ==> r.value.spec == spec.value && r.value.key == "ProviderConfig/" + (namespace + "/" + ref.value.name))
    ensures ref.Some? && (ref.value.kind == "ClusterProviderConfig" || ref.value.kind == "") ==>
              var spec := kube(ClusterWide(ref.value.name));
              && (r.None? <==> spec.None?)
              && (r.Some? ==> r.value.spec == spec.value && r.value.key == "ClusterProviderConfig/" + ref.value.name)
  {
    match Referenced(ref, namespace)
    case None => None
    case Some(config) => if kube(config).None? then None else Some(SlotConfig(kube(config).value, SlotKey(config)))
  }

  /** Two managed resources, whatever their namespaces, get the same slot exactly when their references mean
      the same configuration object; then they also get the same configuration. */
  lemma SameSlotIff(kube: Config -> Option<ProviderSpec>, ref1: Option<ConfigRef>, namespace1: string,
                    ref2: Option<ConfigRef>, namespace2: string)
    requires '/' !in namespace1 && '/' !in namespace2
    requires GetProviderConfigSpec(kube, ref1, namespace1).Some? && GetProviderConfigSpec(kube, ref2, namespace2).Some?
    ensures var a, b := GetProviderConfigSpec(kube, ref1, namespace1).value, GetProviderConfigSpec(kube, ref2, namespace2).value;
            && (a.key == b.key <==> Referenced(ref1, namespace1) == Referenced(ref2, namespace2))
            && (a.key == b.key ==> a.spec == b.spec)
  {
    var c, d := Referenced(ref1, namespace1).value, Referenced(ref2, namespace2).value;
    if SlotKey(c) == SlotKey(d) {
      SlotKeyInjective(c, d);
    }
  }
}
