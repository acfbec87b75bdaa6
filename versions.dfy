/**
 * Red's `VersionInfo`, modelled as an abstract totally ordered version: a
 * (major, minor, micro) triple compared lexicographically. The parser
 * `VersionInfo.from_str` is not part of this model; it is passed around as a
 * function that may fail.
 */
module Versions {
  import opened Wrappers

  datatype Version = Version(major: nat, minor: nat, micro: nat)

  /** A partial parser from version text, standing for `VersionInfo.from_str`. */
  type Parser = string -> Option<Version>

  /** `a < b`: `a` is an older version than `b`. */
  predicate Less(a: Version, b: Version)
  {
    || a.major < b.major
    || (a.major == b.major && a.minor < b.minor)
    || (a.major == b.major && a.minor == b.minor && a.micro < b.micro)
  }

  /** `a >= b`: `a` is at least as new as `b`. */
  predicate AtLeast(a: Version, b: Version)
  {
    || a.major > b.major
    || (a.major == b.major && a.minor > b.minor)
    || (a.major == b.major && a.minor == b.minor && a.micro >= b.micro)
  }

  /** `>=` and `<` are complementary, as for any total order. */
  lemma AtLeastIsNotLess(a: Version, b: Version)
    ensures AtLeast(a, b) <==> !Less(a, b)
  {
  }

  lemma LessIsStrictTotalOrder(a: Version, b: Version, c: Version)
    ensures !Less(a, a)
    ensures Less(a, b) ==> !Less(b, a)
    ensures Less(a, b) && Less(b, c) ==> Less(a, c)
    ensures a != b ==> Less(a, b) || Less(b, a)
  {
  }
}
