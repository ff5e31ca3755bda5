/** internal/util/lateinit.go: filling unset spec fields from the observed state. */
module LateInit {
  import opened Basics

  class LateInitializer {
    var changed: bool

    constructor ()
      ensures !changed
    {
      changed := false;
    }

    method SetChanged()
      modifies this
      ensures changed
    {
      changed := true;
    }
  }

  function InitPtr<T>(current: Option<T>, observed: T): (r: Option<T>)
    ensures r.Some? && Fills(current, r, observed)
  {
    if current.Some? then current else Some(observed)
  }

  function InitPtrIfNonZero<T(==)>(current: Option<T>, observed: T, zero: T): (r: Option<T>)
    ensures FillsNonZero(current, r, observed, zero)
  {
    if current.Some? || observed == zero then current else Some(observed)
  }

  /** A field that was set is kept, and one that was unset stays so or takes the observed value. */
  ghost predicate Fills<T>(before: Option<T>, after: Option<T>, observed: T) {
    if before.Some? then after == before else after.None? || after.value == observed
  }

  /** The same, where the field stays unset exactly when the observed value is zero. */
  ghost predicate FillsNonZero<T>(before: Option<T>, after: Option<T>, observed: T, zero: T) {
    Fills(before, after, observed) && (after.None? <==> before.None? && observed == zero)
  }

  /** Filling a field from the observed state does not change whether it is up to date with that state. */
  lemma FillsKeepsVerdict<T>(before: Option<T>, after: Option<T>, observed: T)
    requires Fills(before, after, observed)
    ensures IsOptionalUpToDate(after, observed) <==> IsOptionalUpToDate(before, observed)
  {
  }

  method LateInitPtr<T>(current: Option<T>, observed: T, li: LateInitializer) returns (r: Option<T>)
    modifies li
    ensures r == InitPtr(current, observed)
    ensures li.changed == (old(li.changed) || r != current)
  {
    if current.Some? {
      return current;
    }
    li.SetChanged();
    r := Some(observed);
  }

  /** LateInitPtrIfNonZero; with `zero` the empty slice or map it is also LateInitSliceIfNonEmpty and
      LateInitMapIfNonEmpty. */
  method LateInitPtrIfNonZero<T(==)>(current: Option<T>, observed: T, zero: T, li: LateInitializer) returns (r: Option<T>)
    modifies li
    ensures r == InitPtrIfNonZero(current, observed, zero)
    ensures li.changed == (old(li.changed) || r != current)
  {
    if current.Some? || observed == zero {
      return current;
    }
    li.SetChanged();
    r := Some(observed);
  }
}
