/**
 * Game versions as `System.Version` values: four integer components (an undefined build or revision
 * is -1) ordered lexicographically, and the nullable comparison operators the launcher page uses,
 * under which an absent version is below every present one.
 */
module Versions {
  import opened Wrappers

  datatype Version = Version(major: int, minor: int, build: int, revision: int)

  /** `new Version()`: 0.0 with build and revision undefined. */
  const EmptyVersion := Version(0, 0, -1, -1)

  /** Strict lexicographic order on the four components, the reference the comparison is checked against. */
  predicate LexBefore(a: Version, b: Version) {
    a.major < b.major
    || (a.major == b.major && a.minor < b.minor)
    || (a.major == b.major && a.minor == b.minor && a.build < b.build)
    || (a.major == b.major && a.minor == b.minor && a.build == b.build && a.revision < b.revision)
  }

  /** `Version.CompareTo(Version)`: the first component that differs decides. */
  function Compare(a: Version, b: Version): (c: int)
    ensures c == 0 || c == 1 || c == -1
    ensures c == 0 <==> a == b
    ensures c < 0 <==> LexBefore(a, b)
    ensures c > 0 <==> LexBefore(b, a)
  {
    if a.major != b.major then (if a.major > b.major then 1 else -1)
    else if a.minor != b.minor then (if a.minor > b.minor then 1 else -1)
    else if a.build != b.build then (if a.build > b.build then 1 else -1)
    else if a.revision != b.revision then (if a.revision > b.revision then 1 else -1)
    else 0
  }

  /** `Version.CompareTo(object?)`: every version is above null. */
  function CompareToNullable(a: Version, b: Option<Version>): (c: int)
    ensures b.None? ==> c == 1
    ensures c == 0 <==> b == Some(a)
    ensures c < 0 <==> b.Some? && LexBefore(a, b.value)
  {
    if b.None? then 1 else Compare(a, b.value)
  }

  /** `operator <(Version?, Version?)` */
  function Less(a: Option<Version>, b: Option<Version>): (r: bool)
    ensures r <==> b.Some? && (a.None? || LexBefore(a.value, b.value))
  {
    if a.None? then b.Some? else CompareToNullable(a.value, b) < 0
  }

  /** `operator <=(Version?, Version?)` */
  function LessOrEqual(a: Option<Version>, b: Option<Version>): (r: bool)
    ensures r <==> a.None? || (b.Some? && !LexBefore(b.value, a.value))
  {
    if a.None? then true else CompareToNullable(a.value, b) <= 0
  }

  /** `operator >(Version?, Version?)` */
  function Greater(a: Option<Version>, b: Option<Version>): (r: bool)
    ensures r <==> a.Some? && (b.None? || LexBefore(b.value, a.value))
  {
    Less(b, a)
  }

  /** `operator >=(Version?, Version?)` */
  function GreaterOrEqual(a: Option<Version>, b: Option<Version>): (r: bool)
    ensures r <==> b.None? || (a.Some? && !LexBefore(a.value, b.value))
  {
    LessOrEqual(b, a)
  }

  /** The comparison is antisymmetric: swapping the operands negates it. */
  lemma CompareAntisymmetric(a: Version, b: Version)
    ensures Compare(b, a) == -Compare(a, b)
  {
  }

  /** The comparison is transitive. */
  lemma CompareTransitive(a: Version, b: Version, c: Version)
    requires Compare(a, b) <= 0 && Compare(b, c) <= 0
    ensures Compare(a, c) <= 0
  {
  }

  /**
   * The nullable operators form a total order with null at the bottom: of `a < b`, `a == b` and
   * `b < a` exactly one holds, `<=` is `<` or equality, and `>=` is the negation of `<`.
   */
  lemma NullableOrderTotal(a: Option<Version>, b: Option<Version>)
    ensures Less(a, b) || a == b || Less(b, a)
    ensures !(Less(a, b) && Less(b, a)) && !(Less(a, b) && a == b)
    ensures LessOrEqual(a, b) <==> Less(a, b) || a == b
    ensures GreaterOrEqual(a, b) <==> !Less(a, b)
    ensures Greater(a, b) <==> !LessOrEqual(a, b)
  {
  }

  /** The nullable `<` is transitive, so with `NullableOrderTotal` it is a strict total order. */
  lemma LessTransitive(a: Option<Version>, b: Option<Version>, c: Option<Version>)
    requires Less(a, b) && Less(b, c)
    ensures Less(a, c)
  {
  }

  /** Null sorts below every present version: `v >= null` holds and `v < null` does not. */
  lemma NullIsLeast(v: Version)
    ensures Less(None, Some(v)) && !Less(Some(v), None)
    ensures GreaterOrEqual(Some(v), None) && !Greater(None, Some(v))
    ensures LessOrEqual(None, None) && !Less(None, None)
  {
  }
}
