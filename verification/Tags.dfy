/** internal/util/tags.go and the reconcileTags method that every tagged controller repeats. */
module TagReconciler {
  import opened Basics
  import opened Cloud

  /** The entries of a map that may be nil; Go reads a nil map as an empty one. */
  function Entries(m: Option<Tags>): Tags {
    m.GetOr(map[])
  }

  /** The entries of `a` that are missing from `b` or have another value there. */
  function Diff(a: Tags, b: Tags): Tags {
    map k | k in a && !(k in b && b[k] == a[k]) :: a[k]
  }

  method TagDiff(a: Option<Tags>, b: Option<Tags>) returns (out: Option<Tags>)
    ensures out == if Diff(Entries(a), Entries(b)) == map[] then None else Some(Diff(Entries(a), Entries(b)))
  {
    var source, other := Entries(a), Entries(b);
    if |source| == 0 {
      return None;
    }
    var found: Tags := map[];
    var todo := source.Keys;
    while todo != {}
      invariant todo <= source.Keys
      invariant found == map k | k in Diff(source, other) && k !in todo :: source[k]
    {
      var key :| key in todo;
      todo := todo - {key};
      if key !in other || other[key] != source[key] {
        found := found[key := source[key]];
      }
    }
    assert found == Diff(source, other);
    out := if |found| == 0 then None else Some(found);
  }

  /** No later tag has the key of tag i. */
  ghost predicate IsLastOfKey(list: seq<Tag>, i: int) {
    0 <= i < |list| && forall j | i < j < |list| :: list[j].key != list[i].key
  }

  lemma {:induction false} TagListKeys(list: seq<Tag>)
    ensures TagListMap(list).Keys == Elements(Keys(list))
  {
    if list != [] {
      var init, last := list[..|list| - 1], list[|list| - 1];
      TagListKeys(init);
      assert Keys(list) == Keys(init) + [last.key];
      ElementsAppend(Keys(init), [last.key]);
    }
  }

  lemma {:induction false} LastTagWins(list: seq<Tag>, i: nat)
    requires IsLastOfKey(list, i)
    ensures list[i].key in TagListMap(list) && TagListMap(list)[list[i].key] == list[i].value
  {
    if i < |list| - 1 {
      LastTagWins(list[..|list| - 1], i);
    }
  }

  method ResourceTagsToMap(list: seq<Tag>) returns (out: Tags)
    ensures out == TagListMap(list)
    ensures out.Keys == Elements(Keys(list))
    ensures forall i | IsLastOfKey(list, i) :: list[i].key in out && out[list[i].key] == list[i].value
  {
    TagListKeys(list);
    forall i | IsLastOfKey(list, i) ensures list[i].key in TagListMap(list) && TagListMap(list)[list[i].key] == list[i].value {
      LastTagWins(list, i);
    }
    if |list| == 0 {
      return map[];
    }
    out := map[];
    for i := 0 to |list|
      invariant out == TagListMap(list[..i])
    {
      assert list[..i + 1][..i] == list[..i];
      out := out[list[i].key := list[i].value];
    }
    assert list[..|list|] == list;
  }

  ghost function SetToSeq(s: set<string>): (r: seq<string>)
    ensures multiset(r) == multiset(s)
  {
    if s == {} then [] else
    var x :| x in s;
    SetToSeq(s - {x}) + [x]
  }

  ghost function SortedKeys(m: Tags): (r: seq<string>)
    ensures Ascending(r) && multiset(r) == multiset(m.Keys)
    ensures forall i | 0 <= i < |r| :: r[i] in m
  {
    var r := Sort(SetToSeq(m.Keys));
    assert forall i | 0 <= i < |r| :: r[i] in multiset(r);
    r
  }

  ghost function TagsFor(keys: seq<string>, m: Tags): (list: seq<Tag>)
    requires forall i | 0 <= i < |keys| :: keys[i] in m
  {
    if keys == [] then []
    else TagsFor(keys[..|keys| - 1], m) + [Tag(keys[|keys| - 1], m[keys[|keys| - 1]])]
  }

  /** The tag list of a map: one tag per entry, in ascending key order. */
  ghost function TagList(m: Tags): (list: seq<Tag>) {
    TagsFor(SortedKeys(m), m)
  }

  method MapToResourceTags(tags: Option<Tags>) returns (list: seq<Tag>)
    ensures list == TagList(Entries(tags))
  {
    var m := Entries(tags);
    if |m| == 0 {
      EmptyTagList(m);
      return [];
    }
    var keys := CollectKeys(m);
    keys := Sort(keys);
    SortedKeysUnique(m, keys);
    list := ListTags(keys, m);
  }

  /** The second loop of MapToResourceTags. */
  method ListTags(keys: seq<string>, m: Tags) returns (list: seq<Tag>)
    requires forall i | 0 <= i < |keys| :: keys[i] in m
    ensures list == TagsFor(keys, m)
  {
    list := [];
    for i := 0 to |keys|
      invariant list == TagsFor(keys[..i], m)
    {
      assert keys[..i + 1][..i] == keys[..i];
      list := list + [Tag(keys[i], m[keys[i]])];
    }
    assert keys[..|keys|] == keys;
  }

  /** The first loop of MapToResourceTags, which ranges over a map in no particular order. */
  method CollectKeys(m: Tags) returns (keys: seq<string>)
    ensures multiset(keys) == multiset(m.Keys)
  {
    keys := [];
    var todo := m.Keys;
    while todo != {}
      invariant todo <= m.Keys
      invariant multiset(keys) + multiset(todo) == multiset(m.Keys)
    {
      var key :| key in todo;
      todo := todo - {key};
      keys := keys + [key];
    }
  }

  lemma EmptyTagList(m: Tags)
    requires |m| == 0
    ensures TagList(m) == []
  {
    SortedKeysFacts(m);
  }

  lemma SortedKeysUnique(m: Tags, keys: seq<string>)
    requires Ascending(keys) && multiset(keys) == multiset(m.Keys)
    ensures keys == SortedKeys(m)
    ensures forall i | 0 <= i < |keys| :: keys[i] in m
  {
    AscendingUnique(keys, SortedKeys(m));
  }

  lemma {:induction false} TagsForMap(keys: seq<string>, m: Tags)
    requires forall i | 0 <= i < |keys| :: keys[i] in m
    ensures TagListMap(TagsFor(keys, m)) == map k | k in m && k in keys :: m[k]
    ensures Keys(TagsFor(keys, m)) == keys
  {
    if keys != [] {
      var init := keys[..|keys| - 1];
      assert keys == init + [keys[|keys| - 1]];
      TagsForMap(init, m);
    }
  }

  lemma SortedKeysFacts(m: Tags)
    ensures NoDuplicates(SortedKeys(m)) && |SortedKeys(m)| == |m|
    ensures forall k | k in m :: k in SortedKeys(m)
  {
    var keys := SortedKeys(m);
    assert |keys| == |multiset(keys)| == |multiset(m.Keys)| == |m.Keys|;
    forall i, j | 0 <= i < j < |keys| ensures keys[i] != keys[j] {
      if keys[i] == keys[j] {
        DuplicateCount(keys, i, j);
      }
    }
    forall k | k in m ensures k in keys {
      assert k in multiset(m.Keys) && k in multiset(keys);
    }
  }

  function Keys(list: seq<Tag>): seq<string> {
    seq(|list|, i requires 0 <= i < |list| => list[i].key)
  }

  /** MapToResourceTags lists a map in strictly ascending key order, and ResourceTagsToMap takes the
      list back. */
  lemma TagListRoundTrip(m: Tags)
    ensures Ascending(Keys(TagList(m))) && NoDuplicates(Keys(TagList(m)))
    ensures TagListMap(TagList(m)) == m
  {
    SortedKeysFacts(m);
    TagsForMap(SortedKeys(m), m);
    AllKeysKept(SortedKeys(m), m);
  }

  lemma AllKeysKept(keys: seq<string>, m: Tags)
    requires forall k | k in m :: k in keys
    ensures (map k | k in m && k in keys :: m[k]) == m
  {
  }

  /** Nothing to create and nothing to delete iff the maps are equal. */
  lemma BothDiffsEmptyIff(a: Tags, b: Tags)
    ensures Diff(a, b) == map[] && Diff(b, a) == map[] <==> a == b
  {
    if Diff(a, b) == map[] && Diff(b, a) == map[] {
      forall k | k in a ensures k in b && b[k] == a[k] { assert k !in Diff(a, b); }
      forall k | k in b ensures k in a { assert k !in Diff(b, a); }
    }
  }

  /** The calls of reconcileTags: create what is missing or different, then delete what is not wanted. */
  ghost function TagPlan<R>(current: Tags, desired: Option<Tags>): seq<Call<R>> {
    if desired.None? then []
    else
      TagCreatePlan(Diff(desired.value, current)) + TagDeletePlan(Diff(current, desired.value))
  }

  ghost function TagCreatePlan<R>(toCreate: Tags): seq<Call<R>> {
    if toCreate == map[] then [] else [CreateTags(TagList(toCreate))]
  }

  ghost function TagDeletePlan<R>(toDelete: Tags): seq<Call<R>> {
    if toDelete == map[] then [] else [DeleteTags(TagList(toDelete))]
  }

  lemma TagPlanOnlyTags<R>(current: Tags, desired: Option<Tags>)
    ensures forall c | c in TagPlan<R>(current, desired) :: !c.Resource?
  {
    if desired.Some? {
      forall c | c in TagPlan<R>(current, desired) ensures !c.Resource? {
        assert c in TagCreatePlan<R>(Diff(desired.value, current)) || c in TagDeletePlan<R>(Diff(current, desired.value));
      }
    }
  }

  method ReconcileTags<S, R>(api: Endpoint<S, R>, current: Tags, desired: Option<Tags>) returns (ok: bool)
    modifies api`state, api`log
    ensures Sent(api.service, old(api.state), old(api.log), TagPlan(current, desired), api.state, api.log, ok)
  {
    ghost var s0, log0 := api.state, api.log;
    SentNothing(api.service, s0, log0);
    if desired.None? {
      return true;
    }
    ghost var create, delete := TagCreatePlan<R>(Diff(desired.value, current)), TagDeletePlan<R>(Diff(current, desired.value));
    ok := true;
    var toCreate := TagDiff(desired, Some(current));
    if toCreate.Some? {
      var list := MapToResourceTags(toCreate);
      assert create == [CreateTags(list)];
      ok := api.Send(CreateTags(list));
      if !ok {
        SentStop(api.service, s0, log0, create, api.state, api.log, delete);
        return;
      }
    }
    ghost var s1, log1 := api.state, api.log;
    SentNothing(api.service, s1, log1);
    var toDelete := TagDiff(Some(current), desired);
    if toDelete.Some? {
      var list := MapToResourceTags(toDelete);
      assert delete == [DeleteTags(list)];
      ok := api.Send(DeleteTags(list));
    }
    SentThen(api.service, s0, log0, create, s1, log1, delete, api.state, api.log, ok);
  }

  /** The detector and the planner agree on tags. */
  lemma TagAgreement<R>(current: Tags, desired: Option<Tags>)
    ensures IsOptionalUpToDate(desired, current) <==> TagPlan<R>(current, desired) == []
  {
    if desired.Some? {
      BothDiffsEmptyIff(desired.value, current);
    }
  }

  /** The keys on which two tag maps differ. */
  ghost function DriftKeys(desired: Option<Tags>, tags: Tags): set<string> {
    if desired.None? then {}
    else (desired.value.Keys + tags.Keys) - Agreeing(desired.value, tags)
  }

  ghost function Agreeing(a: Tags, b: Tags): set<string> {
    set k | k in a && k in b && a[k] == b[k]
  }

  lemma NoDriftIff(desired: Option<Tags>, tags: Tags)
    ensures DriftKeys(desired, tags) == {} <==> IsOptionalUpToDate(desired, tags)
  {
    if desired.Some? {
      var d := desired.value;
      if DriftKeys(desired, tags) == {} {
        forall k ensures k in d <==> k in tags {
          if k in d || k in tags { assert k !in DriftKeys(desired, tags); }
        }
        forall k | k in d ensures d[k] == tags[k] { assert k !in DriftKeys(desired, tags); }
        assert d == tags;
      }
    }
  }

  /** The keys that are present on both sides with different values. */
  ghost function Changed(desired: Tags, current: Tags): set<string> {
    set k | k in desired && k in current && desired[k] != current[k]
  }

  ghost function AfterCreate(s: Tags, d: Tags): Tags {
    s + Diff(d, s)
  }

  lemma RunCreate<S, R>(service: Service<S, R>, s: State<S>, d: Tags)
    ensures Run(service, s, TagCreatePlan<R>(Diff(d, s.tags))) == s.(tags := AfterCreate(s.tags, d))
  {
    TagListRoundTrip(Diff(d, s.tags));
    RunOne(service, s, TagCreatePlan<R>(Diff(d, s.tags)));
    assert Diff(d, s.tags) == map[] ==> AfterCreate(s.tags, d) == s.tags;
  }

  lemma RunDelete<S, R>(service: Service<S, R>, s: State<S>, gone: Tags)
    ensures Run(service, s, TagDeletePlan<R>(gone)) == s.(tags := WithoutTags(service.tagMatch, s.tags, gone))
  {
    TagListRoundTrip(gone);
    RunOne(service, s, TagDeletePlan<R>(gone));
    assert gone == map[] ==> WithoutTags(service.tagMatch, s.tags, gone) == s.tags;
  }

  ghost function AfterPlan(tagMatch: TagMatch, s: Tags, d: Tags): Tags {
    if tagMatch.KeyOnly? then d - Changed(d, s) else d
  }

  lemma CreateThenDelete(tagMatch: TagMatch, s: Tags, d: Tags)
    ensures WithoutTags(tagMatch, AfterCreate(s, d), Diff(s, d)) == AfterPlan(tagMatch, s, d)
  {
    var mid, gone := AfterCreate(s, d), Diff(s, d);
    var end, want := WithoutTags(tagMatch, mid, gone), AfterPlan(tagMatch, s, d);
    forall k ensures k in end <==> k in want {
    }
    forall k | k in end ensures end[k] == want[k] {
    }
  }

  lemma TwoSteps<S, R>(service: Service<S, R>, s: State<S>, d: Tags)
    ensures var mid := Run(service, s, TagCreatePlan<R>(Diff(d, s.tags)));
            && mid == s.(tags := AfterCreate(s.tags, d))
            && Run(service, mid, TagDeletePlan<R>(Diff(s.tags, d))) == s.(tags := AfterPlan(service.tagMatch, s.tags, d))
  {
    RunCreate(service, s, d);
    RunDelete(service, s.(tags := AfterCreate(s.tags, d)), Diff(s.tags, d));
    CreateThenDelete(service.tagMatch, s.tags, d);
  }

  /** What the plan leaves: everything wanted, minus the changed keys when deletion ignores values. */
  lemma TagPlanResult<S, R>(service: Service<S, R>, s: State<S>, d: Tags)
    ensures Run(service, s, TagPlan<R>(s.tags, Some(d))) == s.(tags := AfterPlan(service.tagMatch, s.tags, d))
  {
    RunAppend(service, s, TagCreatePlan<R>(Diff(d, s.tags)), TagDeletePlan<R>(Diff(s.tags, d)));
    TwoSteps(service, s, d);
  }

  /** The tags after the whole plan, when there is a wanted map and when there is none. */
  ghost function TagsAfter(tagMatch: TagMatch, desired: Option<Tags>, tags: Tags): Tags {
    if desired.None? then tags else AfterPlan(tagMatch, tags, desired.value)
  }

  lemma RunTagPlan<S, R>(service: Service<S, R>, s: State<S>, desired: Option<Tags>)
    ensures Run(service, s, TagPlan<R>(s.tags, desired)) == s.(tags := TagsAfter(service.tagMatch, desired, s.tags))
  {
    if desired.Some? {
      TagPlanResult(service, s, desired.value);
    }
  }

  /** Deletion looks at values, or no tag changes its value. */
  ghost predicate OnePass(tagMatch: TagMatch, desired: Option<Tags>, tags: Tags) {
    desired.Some? && tagMatch.KeyOnly? ==> Changed(desired.value, tags) == {}
  }

  /** One pass of reconcileTags reaches the wanted map in exactly those cases. */
  lemma OnePassIff(tagMatch: TagMatch, desired: Option<Tags>, tags: Tags)
    ensures IsOptionalUpToDate(desired, TagsAfter(tagMatch, desired, tags)) <==> OnePass(tagMatch, desired, tags)
  {
    if desired.Some? && Changed(desired.value, tags) == {} {
      assert desired.value - {} == desired.value;
    } else if !OnePass(tagMatch, desired, tags) {
      var k :| k in Changed(desired.value, tags);
      assert k in desired.value && k !in AfterPlan(tagMatch, tags, desired.value);
    }
  }

  /** Tags that are up to date are left as they are. */
  lemma UpToDateTagsStay(tagMatch: TagMatch, desired: Option<Tags>, tags: Tags)
    requires IsOptionalUpToDate(desired, tags)
    ensures TagsAfter(tagMatch, desired, tags) == tags
  {
    if desired.Some? {
      assert Changed(desired.value, tags) == {};
      assert tags - {} == tags;
    }
  }

  lemma NoTagsOnePass(tagMatch: TagMatch, desired: Option<Tags>)
    ensures OnePass(tagMatch, desired, map[])
  {
    assert desired.Some? ==> Changed(desired.value, map[]) == {};
  }

  /** Two passes always reach it. */
  lemma SecondPass(tagMatch: TagMatch, desired: Option<Tags>, tags: Tags)
    ensures IsOptionalUpToDate(desired, TagsAfter(tagMatch, desired, TagsAfter(tagMatch, desired, tags)))
  {
    if desired.Some? {
      assert Changed(desired.value, AfterPlan(tagMatch, tags, desired.value)) == {};
    }
    OnePassIff(tagMatch, desired, TagsAfter(tagMatch, desired, tags));
  }

  lemma TwoPasses<S, R>(service: Service<S, R>, s: State<S>, d: Tags)
    ensures var s1 := Run(service, s, TagPlan<R>(s.tags, Some(d)));
            Run(service, s1, TagPlan<R>(s1.tags, Some(d))) == s.(tags := d)
  {
    RunTagPlan(service, s, Some(d));
    RunTagPlan(service, Run(service, s, TagPlan<R>(s.tags, Some(d))), Some(d));
    SecondPass(service.tagMatch, Some(d), s.tags);
  }

  /** The tags at the call boundaries of the plan. */
  lemma TagPlanBoundary<S, R>(service: Service<S, R>, s: State<S>, d: Tags, k: nat)
    requires k <= |TagPlan<R>(s.tags, Some(d))|
    ensures Run(service, s, TagPlan<R>(s.tags, Some(d))[..k]) ==
            s.(tags := if k == 0 then s.tags
                       else if k < |TagPlan<R>(s.tags, Some(d))| then AfterCreate(s.tags, d)
                       else AfterPlan(service.tagMatch, s.tags, d))
  {
    var create, delete := TagCreatePlan<R>(Diff(d, s.tags)), TagDeletePlan<R>(Diff(s.tags, d));
    TwoCallBoundary(service, s, create, delete, k);
    TwoSteps(service, s, d);
  }

  lemma DriftSteps(tagMatch: TagMatch, s: Tags, d: Tags)
    ensures DriftKeys(Some(d), AfterCreate(s, d)) <= DriftKeys(Some(d), s)
    ensures DriftKeys(Some(d), AfterPlan(tagMatch, s, d)) <= DriftKeys(Some(d), s)
    ensures DriftKeys(Some(d), d) == {}
  {
  }

  /** At every call boundary of the plan only the tags have changed and no key drifts that did not
      drift before; with deletion by value no call makes a key drift. */
  lemma TagPrefix<S, R>(service: Service<S, R>, s: State<S>, desired: Option<Tags>, k: nat)
    requires k <= |TagPlan<R>(s.tags, desired)|
    ensures var sk := Run(service, s, TagPlan<R>(s.tags, desired)[..k]);
            sk.res == s.res && DriftKeys(desired, sk.tags) <= DriftKeys(desired, s.tags)
    ensures service.tagMatch.KeyAndValue? && 0 < k ==>
            var plan := TagPlan<R>(s.tags, desired);
            DriftKeys(desired, Run(service, s, plan[..k]).tags) <= DriftKeys(desired, Run(service, s, plan[..k - 1]).tags)
  {
    if desired.Some? {
      TagPlanBoundary(service, s, desired.value, k);
      if 0 < k { TagPlanBoundary(service, s, desired.value, k - 1); }
      DriftSteps(service.tagMatch, s.tags, desired.value);
    }
  }
}
