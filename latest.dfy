/** Both Python clients pick "the latest" item of a list by sorting it on a
    key with Python's stable `list.sort` and taking the last element. The
    element that ends up last is the one with the greatest key and, among
    several with that key, the one that came last in the original list. */
module Latest {

  /** Index of the element a stable sort by `key` would put last. */
  function LastMaxIndex<T>(s: seq<T>, key: T -> int): (k: nat)
    requires |s| > 0
    ensures k < |s|
    ensures forall i :: 0 <= i < |s| ==> key(s[i]) <= key(s[k])
    ensures forall i :: k < i < |s| ==> key(s[i]) < key(s[k])
  {
    if |s| == 1 then 0
    else
      var k' := LastMaxIndex(s[..|s| - 1], key);
      if key(s[k']) <= key(s[|s| - 1]) then |s| - 1 else k'
  }

  /** The two properties of LastMaxIndex determine the index: no other
      index has them both. */
  lemma LastMaxIndexUnique<T>(s: seq<T>, key: T -> int, j: nat)
    requires j < |s|
    requires forall i :: 0 <= i < |s| ==> key(s[i]) <= key(s[j])
    requires forall i :: j < i < |s| ==> key(s[i]) < key(s[j])
    ensures j == LastMaxIndex(s, key)
  {
  }
}
