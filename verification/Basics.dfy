// Vocabulary shared by the other modules.
module Basics {
  datatype Option<+T> = None | Some(value: T)

  datatype Result<+T, +E> = Success(value: T) | Failure(error: E)

  // Identities and digests are opaque: the source only compares them. The
  // empty string of an optional identity or digest is None.
  type Id = int
  type Digest = int

  // A Unix time in milliseconds. Every clock reading of the source is positive.
  type Millis = x: int | 0 < x witness 1

  // Sets and maps are compared by their members.
  lemma Included<T>(a: set<T>, b: set<T>)
    requires forall x :: x in a ==> x in b
    ensures a <= b && |a| <= |b|
  {
    assert b == a + (b - a);
  }

  lemma SameMembers<T>(a: set<T>, b: set<T>)
    requires forall x :: x in a <==> x in b
    ensures a == b
  {
  }

  lemma SameEntries<K, V>(a: map<K, V>, b: map<K, V>)
    requires forall k :: k in a <==> k in b
    requires forall k :: k in a ==> a[k] == b[k]
    ensures a == b
  {
  }
}
