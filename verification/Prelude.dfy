/** Datatypes shared by every module. */
module Prelude {

  /** A value that may be absent: a nil pointer or a missing map entry. */
  datatype Option<+T> = None | Some(value: T)

  /** Success or a typed failure. */
  datatype Result<+T, +E> = Ok(value: T) | Err(error: E)

  /** The total reading of a map that Go's index expression performs. */
  function Lookup<K, V>(m: map<K, V>, k: K, zero: V): V {
    if k in m then m[k] else zero
  }

  function Max(a: int, b: int): (m: int)
    ensures m >= a && m >= b && (m == a || m == b)
  {
    if a < b then b else a
  }

  function Min(a: int, b: int): (m: int)
    ensures m <= a && m <= b && (m == a || m == b)
  {
    if a < b then a else b
  }

  lemma SliceOfSlice<T>(s: seq<T>, i: nat, j: nat, a: nat, b: nat)
    requires i <= j <= |s| && a <= b <= j - i
    ensures s[i..j][a..b] == s[i + a..i + b]
  {
    var inner, outer := s[i..j][a..b], s[i + a..i + b];
    forall k | 0 <= k < b - a ensures inner[k] == outer[k] {
      assert inner[k] == s[i..j][a + k];
    }
  }

  lemma SliceSplit<T>(s: seq<T>, i: nat, j: nat, k: nat)
    requires i <= j <= |s| && k < j - i
    ensures s[i..j][..k] == s[i..i + k]
    ensures s[i..j][k] == s[i + k]
    ensures s[i..j][k + 1..] == s[i + k + 1..j]
  {
  }

  lemma SomeMember<T>(s: set<T>) returns (x: T)
    requires s != {}
    ensures x in s
  {
    x :| x in s;
  }

  lemma Associative<T>(a: seq<T>, b: seq<T>, c: seq<T>)
    ensures a + b + c == a + (b + c)
  {
  }
}
