/** The cloud side of a controller: the stored resource and its tags, one step per API call, and a
    client whose calls may fail at any point. A failed call has no effect. */
module Cloud {
  import opened Basics

  datatype Tag = Tag(key: string, value: string)

  type Tags = map<string, string>

  /** Whether the tag service removes a tag by key and value, or by key alone. */
  datatype TagMatch = KeyAndValue | KeyOnly

  /** A mutating API call: the two of the shared tag service, or one of the resource's own. */
  datatype Call<R> = CreateTags(list: seq<Tag>) | DeleteTags(list: seq<Tag>) | Resource(call: R)

  datatype State<S> = State(res: S, tags: Tags)

  /** What the cloud does with a call on the resource, and how it matches deleted tags. */
  datatype Service<!S, !R> = Service(step: (S, R) -> S, tagMatch: TagMatch)

  /** ResourceTagsToMap on a list: later entries win. */
  function TagListMap(list: seq<Tag>): Tags {
    if list == [] then map[]
    else TagListMap(list[..|list| - 1])[list[|list| - 1].key := list[|list| - 1].value]
  }

  function WithoutTags(tagMatch: TagMatch, tags: Tags, deleted: Tags): Tags {
    map k | k in tags && !(k in deleted && (tagMatch.KeyOnly? || deleted[k] == tags[k])) :: tags[k]
  }

  function Apply<S, R>(service: Service<S, R>, s: State<S>, c: Call<R>): State<S> {
    match c
    case CreateTags(list) => s.(tags := s.tags + TagListMap(list))
    case DeleteTags(list) => s.(tags := WithoutTags(service.tagMatch, s.tags, TagListMap(list)))
    case Resource(call) => s.(res := service.step(s.res, call))
  }

  function Run<S, R>(service: Service<S, R>, s: State<S>, calls: seq<Call<R>>): State<S> {
    if calls == [] then s
    else Apply(service, Run(service, s, calls[..|calls| - 1]), calls[|calls| - 1])
  }

  lemma RunOne<S, R>(service: Service<S, R>, s: State<S>, calls: seq<Call<R>>)
    requires |calls| <= 1
    ensures Run(service, s, calls) == if calls == [] then s else Apply(service, s, calls[0])
  {
    if calls != [] {
      assert calls[..0] == [];
    }
  }

  lemma {:induction false} RunAppend<S, R>(service: Service<S, R>, s: State<S>, a: seq<Call<R>>, b: seq<Call<R>>)
    ensures Run(service, s, a + b) == Run(service, Run(service, s, a), b)
  {
    if b == [] {
      assert a + b == a;
    } else {
      var init := b[..|b| - 1];
      assert (a + b)[..|a + b| - 1] == a + init;
      RunAppend(service, s, a, init);
    }
  }

  lemma RunLast<S, R>(service: Service<S, R>, s: State<S>, calls: seq<Call<R>>, c: Call<R>)
    ensures Run(service, s, calls + [c]) == Apply(service, Run(service, s, calls), c)
  {
    assert (calls + [c])[..|calls|] == calls;
  }

  /** One more call of a plan. */
  lemma RunNext<S, R>(service: Service<S, R>, s: State<S>, plan: seq<Call<R>>, k: nat)
    requires k < |plan|
    ensures Run(service, s, plan[..k + 1]) == Apply(service, Run(service, s, plan[..k]), plan[k])
  {
    assert plan[..k + 1][..k] == plan[..k];
  }

  /** The state at a call boundary of a plan made of two parts. */
  lemma RunPrefix<S, R>(service: Service<S, R>, s: State<S>, a: seq<Call<R>>, b: seq<Call<R>>, k: nat)
    requires k <= |a + b|
    ensures k <= |a| ==> Run(service, s, (a + b)[..k]) == Run(service, s, a[..k])
    ensures |a| <= k ==> Run(service, s, (a + b)[..k]) == Run(service, Run(service, s, a), b[..k - |a|])
  {
    if k <= |a| {
      assert (a + b)[..k] == a[..k];
    }
    if |a| <= k {
      assert (a + b)[..k] == a + b[..k - |a|];
      RunAppend(service, s, a, b[..k - |a|]);
    }
  }

  /** The call boundaries of a plan made of two parts of at most one call each. */
  lemma TwoCallBoundary<S, R>(service: Service<S, R>, s: State<S>, a: seq<Call<R>>, b: seq<Call<R>>, k: nat)
    requires |a| <= 1 && |b| <= 1 && k <= |a + b|
    ensures Run(service, s, (a + b)[..k]) ==
            if k == 0 then s else if k < |a + b| then Run(service, s, a) else Run(service, Run(service, s, a), b)
  {
    RunPrefix(service, s, a, b, k);
    if k == 0 {
      assert a[..0] == [];
    } else if k < |a + b| {
      assert a[..k] == a;
    } else {
      assert b[..k - |a|] == b;
    }
  }

  /** `inv` holds at every call boundary of a plan. */
  ghost predicate Always<S, R>(service: Service<S, R>, inv: State<S> -> bool, s: State<S>, plan: seq<Call<R>>) {
    forall k | 0 <= k <= |plan| :: inv(Run(service, s, plan[..k]))
  }

  /** No call of a plan increases `measure`. */
  ghost predicate NeverGrows<S, R>(service: Service<S, R>, measure: State<S> -> nat, s: State<S>, plan: seq<Call<R>>) {
    forall k | 0 <= k < |plan| ::
      measure(Run(service, s, plan[..k + 1])) <= measure(Run(service, s, plan[..k]))
  }

  lemma AlwaysAppend<S, R>(service: Service<S, R>, inv: State<S> -> bool, s: State<S>, a: seq<Call<R>>, b: seq<Call<R>>)
    requires Always(service, inv, s, a) && Always(service, inv, Run(service, s, a), b)
    ensures Always(service, inv, s, a + b)
  {
    forall k | 0 <= k <= |a + b| ensures inv(Run(service, s, (a + b)[..k])) {
      RunPrefix(service, s, a, b, k);
    }
  }

  lemma NeverGrowsAppend<S, R>(service: Service<S, R>, measure: State<S> -> nat, s: State<S>, a: seq<Call<R>>, b: seq<Call<R>>)
    requires NeverGrows(service, measure, s, a) && NeverGrows(service, measure, Run(service, s, a), b)
    ensures NeverGrows(service, measure, s, a + b)
  {
    var mid := Run(service, s, a);
    forall k | 0 <= k < |a + b|
      ensures measure(Run(service, s, (a + b)[..k + 1])) <= measure(Run(service, s, (a + b)[..k]))
    {
      RunPrefix(service, s, a, b, k);
      RunPrefix(service, s, a, b, k + 1);
      if k < |a| {
        assert measure(Run(service, s, a[..k + 1])) <= measure(Run(service, s, a[..k]));
      } else {
        var j := k - |a|;
        assert measure(Run(service, mid, b[..j + 1])) <= measure(Run(service, mid, b[..j]));
      }
    }
  }

  /** A measure that no call increases is, at every boundary, at most what it was at the start. */
  lemma {:induction false} NeverGrowsBelow<S, R>(service: Service<S, R>, measure: State<S> -> nat, s: State<S>,
                                                 plan: seq<Call<R>>, k: nat)
    requires NeverGrows(service, measure, s, plan) && k <= |plan|
    ensures measure(Run(service, s, plan[..k])) <= measure(s)
  {
    if k > 0 {
      NeverGrowsBelow(service, measure, s, plan, k - 1);
    }
  }

  /** The calls of `plan` were sent in order from (s0, log0): all of them when `ok`, otherwise up to
      and including one that failed. */
  ghost predicate Sent<S, R>(service: Service<S, R>, s0: State<S>, log0: seq<Call<R>>, plan: seq<Call<R>>,
                             s1: State<S>, log1: seq<Call<R>>, ok: bool)
  {
    if ok then s1 == Run(service, s0, plan) && log1 == log0 + plan
    else exists k | 0 <= k < |plan| :: s1 == Run(service, s0, plan[..k]) && log1 == log0 + plan[..k + 1]
  }

  lemma SentNothing<S, R>(service: Service<S, R>, s: State<S>, log: seq<Call<R>>)
    ensures Sent(service, s, log, [], s, log, true)
  {
    assert log + [] == log;
  }

  /** A failing call is on the log. */
  lemma SentFailed<S, R>(service: Service<S, R>, s0: State<S>, log0: seq<Call<R>>, plan: seq<Call<R>>,
                         s1: State<S>, log1: seq<Call<R>>)
    requires Sent(service, s0, log0, plan, s1, log1, false)
    ensures |log1| > |log0|
  {
  }

  lemma SentThen<S, R>(service: Service<S, R>, s0: State<S>, log0: seq<Call<R>>, a: seq<Call<R>>,
                       s1: State<S>, log1: seq<Call<R>>, b: seq<Call<R>>,
                       s2: State<S>, log2: seq<Call<R>>, ok: bool)
    requires Sent(service, s0, log0, a, s1, log1, true)
    requires Sent(service, s1, log1, b, s2, log2, ok)
    ensures Sent(service, s0, log0, a + b, s2, log2, ok)
  {
    if ok {
      AllSent(service, s0, log0, a, b);
    } else {
      var k :| 0 <= k < |b| && s2 == Run(service, s1, b[..k]) && log2 == log1 + b[..k + 1];
      StoppedIn(service, s0, log0, a, b, k);
    }
  }

  lemma AllSent<S, R>(service: Service<S, R>, s0: State<S>, log0: seq<Call<R>>, a: seq<Call<R>>, b: seq<Call<R>>)
    ensures Sent(service, s0, log0, a + b, Run(service, Run(service, s0, a), b), log0 + a + b, true)
  {
    RunAppend(service, s0, a, b);
    assert log0 + a + b == log0 + (a + b);
  }

  lemma StoppedIn<S, R>(service: Service<S, R>, s0: State<S>, log0: seq<Call<R>>, a: seq<Call<R>>, b: seq<Call<R>>, k: nat)
    requires k < |b|
    ensures Sent(service, s0, log0, a + b, Run(service, Run(service, s0, a), b[..k]), log0 + a + b[..k + 1], false)
  {
    var j := |a| + k;
    RunPrefix(service, s0, a, b, j);
    PrefixPast(log0, a, b, k + 1);
    assert 0 <= j < |a + b|;
  }

  lemma PrefixPast<T>(before: seq<T>, a: seq<T>, b: seq<T>, k: nat)
    requires k <= |b|
    ensures before + (a + b)[..|a| + k] == before + a + b[..k]
  {
    assert (a + b)[..|a| + k] == a + b[..k];
  }

  lemma SentStop<S, R>(service: Service<S, R>, s0: State<S>, log0: seq<Call<R>>, a: seq<Call<R>>,
                       s1: State<S>, log1: seq<Call<R>>, b: seq<Call<R>>)
    requires Sent(service, s0, log0, a, s1, log1, false)
    ensures Sent(service, s0, log0, a + b, s1, log1, false)
  {
    var k :| 0 <= k < |a| && s1 == Run(service, s0, a[..k]) && log1 == log0 + a[..k + 1];
    assert (a + b)[..k] == a[..k] && (a + b)[..k + 1] == a[..k + 1];
  }

  /** What a read asks for: the resource, its tags, or a detail of it that is read apart. */
  datatype Part = Whole | Labels | Detail

  /** A client of one resource. `log` holds every mutating call issued, the failed ones included; `failed`
      holds every read that failed. */
  class Endpoint<S, R> {
    const service: Service<S, R>
    var state: State<S>
    var log: seq<Call<R>>
    ghost var failed: seq<Part>

    constructor (service: Service<S, R>, state: State<S>)
      ensures this.service == service && this.state == state && this.log == [] && failed == []
    {
      this.service, this.state, this.log, failed := service, state, [], [];
    }

    /** A mutating call; it succeeds or fails without the caller's doing. */
    method Send(c: Call<R>) returns (ok: bool)
      modifies this`state, this`log
      ensures Sent(service, old(state), old(log), [c], state, log, ok)
    {
      ghost var s0, log0 := state, log;
      ok := *;
      log := log + [c];
      if ok {
        state := Apply(service, state, c);
        assert Run(service, s0, [c][..0]) == s0;
      } else {
        assert [c][..0] == [] && [c][..0 + 1] == [c];
      }
    }

    /** A read of the current state; it fails without the caller's doing. */
    method Read(ghost part: Part := Whole) returns (r: Option<State<S>>)
      modifies this`failed
      ensures r.Some? ==> r.value == state && failed == old(failed)
      ensures r.None? ==> failed == old(failed) + [part] && failed[|old(failed)|] == part && failed != old(failed)
    {
      var ok := *;
      if !ok {
        failed := failed + [part];
        return None;
      }
      r := Some(state);
    }

    /** Sends one more call after those of `done`. */
    method SendNext(c: Call<R>, ghost s0: State<S>, ghost log0: seq<Call<R>>, ghost done: seq<Call<R>>)
      returns (ok: bool)
      requires Sent(service, s0, log0, done, state, log, true)
      modifies this`state, this`log
      ensures Sent(service, s0, log0, done + [c], state, log, ok)
    {
      ghost var s1, log1 := state, log;
      ok := Send(c);
      SentThen(service, s0, log0, done, s1, log1, [c], state, log, ok);
    }
  }
}
