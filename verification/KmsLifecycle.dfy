/** The life of the keys behind one KMS key resource: Observe, Create and Delete of
    internal/controller/kmskey/key.go against an account whose keys others may schedule for deletion. */
module KmsLifecycle {
  import opened Basics

  /** A key that is no longer in the account has been destroyed. */
  datatype Life = Live | Pending

  /** `status` is the key state last written to the resource's status: only whether it is PendingDeletion
      matters here. */
  datatype Status = Unknown | Usable | PendingDeletion

  /** Where the controller is between two steps of one reconcile. */
  datatype Phase = Idle | ReportedAbsent | ReportedPresent

  datatype World = World(
    account: map<string, Life>,
    created: set<string>,
    createCalls: nat,
    externalName: string,
    status: Status,
    phase: Phase)

  ghost predicate Initial(w: World) {
    w.created == {} && w.createCalls == 0 && w.externalName == "" && w.status == Unknown && w.phase == Idle
  }

  /** Observe. A named key may be reported as not found while it is there; a failed read or an invalid spec
      ends the reconcile. */
  ghost predicate ObserveStep(w: World, t: World) {
    && w.phase == Idle
    && t == w.(status := t.status, phase := t.phase)
    && (|| (t.phase == Idle && t.status == w.status)
        || (t.phase == ReportedAbsent && t.status == w.status)
        || (w.externalName != "" && w.externalName in w.account && w.account[w.externalName] == Pending
            && t.status == PendingDeletion && t.phase == ReportedAbsent)
        || (w.externalName != "" && w.externalName in w.account && w.account[w.externalName] == Live
            && t.status == Usable && t.phase == ReportedPresent))
  }

  /** A stale read: the named key is live and yet reported as not found. */
  ghost predicate StaleAbsence(w: World, t: World) {
    w.phase == Idle && t.phase == ReportedAbsent && w.externalName != "" && IsLive(w, w.externalName)
  }

  /** The stale reads that do harm: those made while the last observed state is still PendingDeletion. */
  ghost predicate HarmfulAbsence(w: World, t: World) {
    StaleAbsence(w, t) && w.status == PendingDeletion
  }

  /** Create skips a named key unless its last observed state was PendingDeletion. */
  predicate CreateAllowed(externalName: string, status: Status) {
    externalName == "" || status == PendingDeletion
  }

  ghost predicate CreateStep(w: World, t: World) {
    && w.phase == ReportedAbsent
    && (|| t == w.(phase := Idle)
        || (CreateAllowed(w.externalName, w.status) && t == w.(phase := Idle, createCalls := w.createCalls + 1))
        || (&& CreateAllowed(w.externalName, w.status)
            && t.externalName != "" && t.externalName !in w.account && t.externalName !in w.created
            && t == w.(phase := Idle, createCalls := w.createCalls + 1, externalName := t.externalName,
                       account := w.account[t.externalName := Live], created := w.created + {t.externalName})))
  }

  /** Update changes fields of the key only. */
  ghost predicate UpdateStep(w: World, t: World) {
    w.phase == ReportedPresent && t == w.(phase := Idle)
  }

  /** Delete of the resource, once its deletion was requested: schedules the named key for deletion, or fails. */
  ghost predicate DeleteStep(w: World, t: World) {
    && w.phase == ReportedPresent
    && (|| t == w.(phase := Idle)
        || (w.externalName in w.account
            && t == w.(phase := Idle, account := w.account[w.externalName := Pending])))
  }

  /** Others: create keys of their own, schedule any key for deletion, see keys destroyed for good. They do
      not cancel a deletion. */
  ghost predicate OutsideStep(w: World, t: World) {
    && t == w.(account := t.account)
    && (forall id | id in t.account ::
          if id in w.account then t.account[id] == Live ==> w.account[id] == Live else id !in w.created)
  }

  ghost predicate Next(w: World, t: World) {
    ObserveStep(w, t) || CreateStep(w, t) || UpdateStep(w, t) || DeleteStep(w, t) || OutsideStep(w, t)
  }

  ghost predicate IsRun(run: seq<World>) {
    run != [] && Initial(run[0]) && forall i | 0 <= i < |run| - 1 :: Next(run[i], run[i + 1])
  }

  /** No stale read of the run does harm; in particular, there may be none, which is read-your-writes. */
  ghost predicate NoHarmfulAbsence(run: seq<World>) {
    forall i | 0 <= i < |run| - 1 :: !HarmfulAbsence(run[i], run[i + 1])
  }

  ghost predicate IsLive(w: World, id: string) {
    id in w.account && w.account[id] == Live
  }

  /** Of all keys this resource ever created, only the one it names is live. */
  ghost predicate OwnsOneKey(w: World) {
    forall id | id in w.created && id != w.externalName :: !IsLive(w, id)
  }

  /** The resource names a key it created, once it has created one. */
  ghost predicate NamesOwnKey(w: World) {
    (w.externalName == "" ==> w.created == {}) && (w.externalName != "" ==> w.externalName in w.created)
  }

  /** What every harmless step keeps: one owned key, which the resource names, and about to be replaced only
      when it is not live. */
  ghost predicate Inv(w: World) {
    && OwnsOneKey(w) && NamesOwnKey(w)
    && (w.phase == ReportedAbsent && w.externalName != "" && w.status == PendingDeletion ==> !IsLive(w, w.externalName))
  }

  lemma StepKeepsInv(w: World, t: World)
    requires Next(w, t)
    ensures NamesOwnKey(w) ==> NamesOwnKey(t)
    ensures Inv(w) && !HarmfulAbsence(w, t) ==> Inv(t)
  {
    if OutsideStep(w, t) {
      forall id | id in w.created ensures IsLive(t, id) ==> IsLive(w, id) {
      }
    }
  }

  lemma {:induction false} NamedAlways(run: seq<World>, i: nat)
    requires IsRun(run) && i < |run|
    ensures NamesOwnKey(run[i])
  {
    if i > 0 {
      NamedAlways(run, i - 1);
      assert Next(run[i - 1], run[i - 1 + 1]);
      StepKeepsInv(run[i - 1], run[i]);
    }
  }

  /** In every run without a harmful stale read the resource never leaves behind a live key it created. */
  lemma {:induction false} NoKeyLeftBehind(run: seq<World>, i: nat)
    requires IsRun(run) && NoHarmfulAbsence(run) && i < |run|
    ensures Inv(run[i]) && OwnsOneKey(run[i])
  {
    if i > 0 {
      NoKeyLeftBehind(run, i - 1);
      assert Next(run[i - 1], run[i - 1 + 1]) && !HarmfulAbsence(run[i - 1], run[i - 1 + 1]);
      StepKeepsInv(run[i - 1], run[i]);
    }
  }

  /** A create call reaches the service only from a resource without a name or whose last observed state was
      PendingDeletion; without harmful stale reads, only when the named key, if any, is no longer live. */
  lemma CreateCallsAreGuarded(run: seq<World>, i: nat)
    requires IsRun(run) && i + 1 < |run| && run[i + 1].createCalls != run[i].createCalls
    ensures run[i].externalName == "" || run[i].status == PendingDeletion
    ensures NoHarmfulAbsence(run) && run[i].externalName != "" ==> !IsLive(run[i], run[i].externalName)
  {
    assert Next(run[i], run[i + 1]);
    if NoHarmfulAbsence(run) {
      NoKeyLeftBehind(run, i);
    }
  }

  // ----- stale reads -----

  /** From any world in which all is well and the named key is live: one stale read and one create leave that
      key behind exactly when the last observed state is PendingDeletion. */
  lemma StaleReadHarmfulIff(w: World)
    requires Inv(w) && w.phase == Idle && w.externalName != "" && IsLive(w, w.externalName)
    ensures (exists t, u :: ObserveStep(w, t) && StaleAbsence(w, t) && CreateStep(t, u) && !OwnsOneKey(u))
       <==> w.status == PendingDeletion
  {
    if w.status == PendingDeletion {
      var t := w.(phase := ReportedAbsent);
      var id := FreshName(w.account.Keys + w.created);
      var u := t.(phase := Idle, createCalls := w.createCalls + 1, externalName := id,
                  account := w.account[id := Live], created := w.created + {id});
      assert ObserveStep(w, t) && StaleAbsence(w, t) && CreateStep(t, u);
      assert w.externalName in u.created && IsLive(u, w.externalName);
    }
  }

  lemma FreshName(names: set<string>) returns (id: string)
    ensures id !in names && id != ""
  {
    var n := LongestName(names);
    id := seq(n + 1, _ => 'k');
  }

  lemma {:induction false} LongestName(names: set<string>) returns (n: nat)
    ensures forall x | x in names :: |x| <= n
  {
    if names == {} {
      n := 0;
    } else {
      var x :| x in names;
      n := LongestName(names - {x});
      n := if n < |x| then |x| else n;
    }
  }

  /** A run reaches such a world: after a replacement the status still says PendingDeletion, so one stale
      "not found" for the new key makes Create make another, and the first one is left behind live. */
  lemma StaleReadLeavesKeyBehind() returns (run: seq<World>)
    ensures IsRun(run) && |run| == 8 && HarmfulAbsence(run[5], run[6]) && !OwnsOneKey(run[7])
  {
    var w0 := World(map[], {}, 0, "", Unknown, Idle);
    var w1 := w0.(phase := ReportedAbsent);
    var w2 := w1.(account := map["a" := Live], created := {"a"}, createCalls := 1, externalName := "a", phase := Idle);
    var w3 := w2.(account := map["a" := Pending]);
    var w4 := w3.(status := PendingDeletion, phase := ReportedAbsent);
    var w5 := w4.(account := w4.account["b" := Live], created := {"a", "b"}, createCalls := 2, externalName := "b", phase := Idle);
    var w6 := w5.(phase := ReportedAbsent);
    var w7 := w6.(account := w6.account["c" := Live], created := {"a", "b", "c"}, createCalls := 3, externalName := "c", phase := Idle);
    run := [w0, w1, w2, w3, w4, w5, w6, w7];
    assert ObserveStep(w0, w1);
    assert CreateStep(w1, w2);
    assert OutsideStep(w2, w3);
    assert ObserveStep(w3, w4);
    assert CreateStep(w4, w5);
    assert ObserveStep(w5, w6);
    assert CreateStep(w6, w7);
    assert "b" in w7.created && IsLive(w7, "b");
  }

  // ----- lost keys -----

  /** A named key that no longer exists. */
  ghost predicate Lost(w: World) {
    w.externalName != "" && w.externalName !in w.account
  }

  /** A lost key is replaced by the next reconcile exactly when it was observed pending before it was gone. */
  lemma LostKeyReplacedIff(w: World)
    requires Lost(w) && w.phase == Idle
    ensures (exists t, u :: ObserveStep(w, t) && CreateStep(t, u) && u.createCalls > w.createCalls)
       <==> w.status == PendingDeletion
  {
    if w.status == PendingDeletion {
      var t := w.(phase := ReportedAbsent);
      var u := t.(phase := Idle, createCalls := w.createCalls + 1);
      assert ObserveStep(w, t) && CreateStep(t, u);
    }
  }

  /** Otherwise it is never replaced: from then on no step of any run issues a create call or names another
      key. */
  lemma {:induction false} LostKeyNeverReplaced(run: seq<World>, i: nat, j: nat)
    requires IsRun(run) && i <= j < |run| && Lost(run[i]) && run[i].status != PendingDeletion
    ensures run[j].externalName == run[i].externalName && Lost(run[j])
    ensures run[j].createCalls == run[i].createCalls && run[j].status != PendingDeletion
  {
    if i < j {
      LostKeyNeverReplaced(run, i, j - 1);
      NamedAlways(run, j - 1);
      assert Next(run[j - 1], run[j - 1 + 1]);
    }
  }

  /** A run reaches such a world: a key destroyed by others right after its creation. */
  lemma KeyGetsLost() returns (run: seq<World>)
    ensures IsRun(run) && |run| == 4 && Lost(run[3]) && run[3].phase == Idle && run[3].status == Unknown
  {
    var w0 := World(map[], {}, 0, "", Unknown, Idle);
    var w1 := w0.(phase := ReportedAbsent);
    var w2 := w1.(account := map["a" := Live], created := {"a"}, createCalls := 1, externalName := "a", phase := Idle);
    var w3 := w2.(account := map[]);
    run := [w0, w1, w2, w3];
    assert ObserveStep(w0, w1);
    assert CreateStep(w1, w2);
    assert OutsideStep(w2, w3);
  }

  // ----- the controller -----

  /** The steps above, as the controller's methods take them. */
  class Controller {
    var account: map<string, Life>
    ghost var created: set<string>
    ghost var createCalls: nat
    var externalName: string
    var status: Status
    ghost var phase: Phase

    ghost function Now(): World
      reads this
    {
      World(account, created, createCalls, externalName, status, phase)
    }

    constructor (account: map<string, Life>)
      ensures Initial(Now()) && this.account == account
    {
      this.account, created, createCalls, externalName, status, phase := account, {}, 0, "", Unknown, Idle;
    }

    /** The result says whether the key exists; None is an error, which ends the reconcile. `readOk` and
        `stale` are the service's: whether the read succeeds, and whether it overlooks the key. */
    method Observe(validSpec: bool, readOk: bool, stale: bool) returns (present: Option<bool>)
      requires phase == Idle
      modifies this
      ensures ObserveStep(old(Now()), Now())
      ensures !stale ==> !StaleAbsence(old(Now()), Now())
      ensures phase == if present.None? then Idle else if present.value then ReportedPresent else ReportedAbsent
      ensures present.None? <==> !validSpec || (externalName != "" && !readOk)
      ensures present == Some(true) <==>
                && validSpec && readOk && !stale
                && externalName != "" && externalName in account && account[externalName] == Live
      ensures status == PendingDeletion <==>
                || (validSpec && readOk && !stale
                    && externalName != "" && externalName in account && account[externalName] == Pending)
                || (old(status) == PendingDeletion && present != Some(true))
    {
      if !validSpec {
        return None;
      }
      if externalName == "" {
        phase := ReportedAbsent;
        return Some(false);
      }
      if !readOk {
        return None;
      }
      if stale || externalName !in account {
        phase := ReportedAbsent;
        return Some(false);
      }
      if account[externalName] == Pending {
        status, phase := PendingDeletion, ReportedAbsent;
        return Some(false);
      }
      status, phase := Usable, ReportedPresent;
      return Some(true);
    }

    /** `id` is the identifier the service gives a new key, `accepted` whether it accepts the call. */
    method Create(validSpec: bool, id: string, accepted: bool) returns (r: Outcome)
      requires phase == ReportedAbsent
      requires id != "" && id !in account && id !in created
      modifies this
      ensures CreateStep(old(Now()), Now())
      ensures createCalls > old(createCalls) <==> CreateAllowed(old(externalName), old(status)) && validSpec
      ensures externalName == if createCalls > old(createCalls) && accepted then id else old(externalName)
      ensures createCalls > old(createCalls) && accepted ==> IsLive(Now(), id)
      ensures r.Refused? <==> CreateAllowed(old(externalName), old(status)) && !validSpec
      ensures r.Aborted? <==> createCalls > old(createCalls) && !accepted
    {
      phase := Idle;
      if externalName != "" && status != PendingDeletion {
        return Completed;
      }
      if !validSpec {
        return Refused;
      }
      createCalls := createCalls + 1;
      if !accepted {
        return Aborted;
      }
      account := account[id := Live];
      created := created + {id};
      externalName := id;
      r := Completed;
    }

    method Delete(accepted: bool) returns (r: Outcome)
      requires phase == ReportedPresent
      modifies this
      ensures DeleteStep(old(Now()), Now())
      ensures r.Completed? <==> accepted
      ensures r.Completed? && externalName in account ==> account[externalName] == Pending
    {
      phase := Idle;
      if !accepted {
        return Aborted;
      }
      if externalName in account {
        account := account[externalName := Pending];
      }
      r := Completed;
    }
  }
}
