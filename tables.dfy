/** The collection transforms both the client store and the mock backend apply to their
    record lists: `filter` on a key (`===` and `!==`), `map` that replaces records by key,
    and `findIndex`. Every record type is handled through a key extractor `key`. */
module Tables {

  /** `a` can be obtained from `b` by deleting elements: same elements, same relative order. */
  ghost predicate SubsequenceOf<T>(a: seq<T>, b: seq<T>)
    decreases |b|
  {
    if a == [] then true
    else if b == [] then false
    else (a[0] == b[0] && SubsequenceOf(a[1..], b[1..])) || SubsequenceOf(a, b[1..])
  }

  /** No two records of `s` share a key. */
  ghost predicate UniqueKeys<T>(s: seq<T>, key: T -> string)
  {
    forall i, j :: 0 <= i < j < |s| ==> key(s[i]) != key(s[j])
  }

  /** `s.filter(x => key(x) === k)`. */
  function Keep<T(==)>(s: seq<T>, key: T -> string, k: string): (r: seq<T>)
    ensures forall i :: 0 <= i < |r| ==> r[i] in s && key(r[i]) == k
    ensures forall i :: 0 <= i < |s| && key(s[i]) == k ==> s[i] in r
    ensures SubsequenceOf(r, s)
    ensures (forall i :: 0 <= i < |s| ==> key(s[i]) == k) ==> r == s
  {
    if s == [] then []
    else if key(s[0]) == k then [s[0]] + Keep(s[1..], key, k)
    else Keep(s[1..], key, k)
  }

  /** `s.filter(x => key(x) !== k)`. */
  function Drop<T(==)>(s: seq<T>, key: T -> string, k: string): (r: seq<T>)
    ensures forall i :: 0 <= i < |r| ==> r[i] in s && key(r[i]) != k
    ensures forall i :: 0 <= i < |s| && key(s[i]) != k ==> s[i] in r
    ensures SubsequenceOf(r, s)
    ensures (forall i :: 0 <= i < |s| ==> key(s[i]) != k) ==> r == s
  {
    if s == [] then []
    else if key(s[0]) != k then [s[0]] + Drop(s[1..], key, k)
    else Drop(s[1..], key, k)
  }

  /** `s.map(y => key(y) === k ? x : y)`. */
  function Replace<T>(s: seq<T>, key: T -> string, k: string, x: T): (r: seq<T>)
    ensures |r| == |s|
    ensures forall i :: 0 <= i < |s| ==> r[i] == if key(s[i]) == k then x else s[i]
    ensures (forall i :: 0 <= i < |s| ==> key(s[i]) != k) ==> r == s
  {
    if s == [] then []
    else [if key(s[0]) == k then x else s[0]] + Replace(s[1..], key, k, x)
  }

  /** `s.findIndex(x => key(x) === k)`: the first position holding key `k`, or -1. */
  function IndexOf<T>(s: seq<T>, key: T -> string, k: string): (i: int)
    ensures -1 <= i < |s|
    ensures i == -1 <==> forall j :: 0 <= j < |s| ==> key(s[j]) != k
    ensures 0 <= i ==> key(s[i]) == k && forall j :: 0 <= j < i ==> key(s[j]) != k
  {
    if s == [] then -1
    else if key(s[0]) == k then 0
    else
      var i := IndexOf(s[1..], key, k);
      if i == -1 then -1 else i + 1
  }

  /** The linear scan `findIndex` performs. */
  method FindIndex<T>(s: seq<T>, key: T -> string, k: string) returns (i: int)
    ensures i == IndexOf(s, key, k)
  {
    var n := 0;
    while n < |s|
      invariant 0 <= n <= |s|
      invariant forall j :: 0 <= j < n ==> key(s[j]) != k
    {
      if key(s[n]) == k {
        return n;
      }
      n := n + 1;
    }
    return -1;
  }

  /** Keeping and dropping key `k` split a list into two parts that together hold every
      record exactly as often as the list does. */
  lemma {:induction false} KeepDropPartition<T>(s: seq<T>, key: T -> string, k: string)
    ensures multiset(Keep(s, key, k)) + multiset(Drop(s, key, k)) == multiset(s)
    ensures |Keep(s, key, k)| + |Drop(s, key, k)| == |s|
  {
    if s != [] {
      KeepDropPartition(s[1..], key, k);
      assert s == [s[0]] + s[1..];
    }
  }

  /** Keeping key `k` keeps every record of that key exactly as often as the list holds it,
      and no other record; dropping `k` does the opposite. */
  lemma KeepDropCounts<T>(s: seq<T>, key: T -> string, k: string)
    ensures forall x :: multiset(Keep(s, key, k))[x] == if key(x) == k then multiset(s)[x] else 0
    ensures forall x :: multiset(Drop(s, key, k))[x] == if key(x) != k then multiset(s)[x] else 0
  {
    KeepDropPartition(s, key, k);
  }

  /** Dropping a key twice is dropping it once. */
  lemma DropIdempotent<T>(s: seq<T>, key: T -> string, k: string)
    ensures Drop(Drop(s, key, k), key, k) == Drop(s, key, k)
  {
  }

  /** Selecting one key after dropping another: nothing is left of the dropped key, and every
      other key keeps exactly the records it had. */
  lemma {:induction false} KeepAfterDrop<T>(s: seq<T>, key: T -> string, k: string, k': string)
    ensures Keep(Drop(s, key, k), key, k') == if k' == k then [] else Keep(s, key, k')
  {
    if s != [] {
      KeepAfterDrop(s[1..], key, k, k');
    }
  }

  /** Replacing the records of key `k` by a record of the same key, then dropping `k`, is
      dropping `k`: an update followed by a delete leaves no trace of the update. */
  lemma {:induction false} DropAfterReplace<T>(s: seq<T>, key: T -> string, k: string, x: T)
    requires key(x) == k
    ensures Drop(Replace(s, key, k, x), key, k) == Drop(s, key, k)
  {
    if s != [] {
      DropAfterReplace(s[1..], key, k, x);
      assert Replace(s, key, k, x)[1..] == Replace(s[1..], key, k, x);
    }
  }

  /** Dropping records keeps keys unique. */
  lemma {:induction false} DropKeepsUnique<T>(s: seq<T>, key: T -> string, k: string)
    requires UniqueKeys(s, key)
    ensures UniqueKeys(Drop(s, key, k), key)
  {
    if s != [] {
      DropKeepsUnique(s[1..], key, k);
      var rest := Drop(s[1..], key, k);
      if key(s[0]) != k {
        forall y | y in rest ensures key(y) != key(s[0]) {
          var j :| 0 <= j < |s[1..]| && s[1..][j] == y;
          assert s[j + 1] == y;
        }
        var r := [s[0]] + rest;
        forall i, j | 0 <= i < j < |r| ensures key(r[i]) != key(r[j]) {
          if i == 0 {
            assert r[j] in rest;
          } else {
            assert r[i] == rest[i - 1] && r[j] == rest[j - 1];
          }
        }
      }
    }
  }

  /** Appending a record whose key is new keeps keys unique. */
  lemma AppendFreshKeepsUnique<T>(s: seq<T>, key: T -> string, x: T)
    requires UniqueKeys(s, key)
    requires forall i :: 0 <= i < |s| ==> key(s[i]) != key(x)
    ensures UniqueKeys(s + [x], key)
  {
  }

  /** When keys are unique, replacing by key (the client's `map`) changes exactly the one
      position `findIndex` returns (the backend's `arr[index] = …`). */
  lemma ReplaceIsIndexUpdate<T>(s: seq<T>, key: T -> string, k: string, x: T)
    requires UniqueKeys(s, key)
    requires IndexOf(s, key, k) >= 0
    ensures Replace(s, key, k, x) == s[IndexOf(s, key, k) := x]
  {
  }
}
