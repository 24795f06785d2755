/** Linear search by identifier, as used by the record store for both
    chunk records and their additions: `Array.prototype.find`,
    `findIndex` and a `splice(index, 1)` of the first match.
    Elements are compared through a key function that yields their id. */
module FirstMatch {

  /** Index of the first element whose key is `id`, or -1 when there is none
      (the result of `findIndex`). */
  function IndexOf<T>(s: seq<T>, key: T -> string, id: string): (i: int)
    ensures -1 <= i < |s|
    ensures 0 <= i ==> key(s[i]) == id && forall k :: 0 <= k < i ==> key(s[k]) != id
    ensures i == -1 <==> forall k :: 0 <= k < |s| ==> key(s[k]) != id
  {
    if s == [] then -1
    else if key(s[0]) == id then 0
    else
      var j := IndexOf(s[1..], key, id);
      if j == -1 then -1 else j + 1
  }

  /** `findIndex` as the loop it is: scan from the left, stop at the first match. */
  method FindIndex<T>(s: seq<T>, key: T -> string, id: string) returns (i: int)
    ensures i == IndexOf(s, key, id)
  {
    i := 0;
    while i < |s| && key(s[i]) != id
      invariant 0 <= i <= |s|
      invariant forall k :: 0 <= k < i ==> key(s[k]) != id
    {
      i := i + 1;
    }
    if i == |s| {
      i := -1;
    }
  }

  /** Reference definition of "remove the first element with this id":
      everything before the first match is kept, the match is dropped and
      everything after it is kept. */
  function RemoveFirst<T>(s: seq<T>, key: T -> string, id: string): (r: seq<T>)
  {
    if s == [] then []
    else if key(s[0]) == id then s[1..]
    else [s[0]] + RemoveFirst(s[1..], key, id)
  }

  /** `findIndex` followed by `splice(index, 1)` (or nothing when the index is -1)
      removes exactly the first match. */
  lemma {:induction false} RemoveFirstIsSplice<T>(s: seq<T>, key: T -> string, id: string)
    ensures var i := IndexOf(s, key, id);
            RemoveFirst(s, key, id) == if i == -1 then s else s[..i] + s[i + 1..]
  {
    if s != [] && key(s[0]) != id {
      var t := s[1..];
      RemoveFirstIsSplice(t, key, id);
      var j := IndexOf(t, key, id);
      assert RemoveFirst(s, key, id) == [s[0]] + RemoveFirst(t, key, id);
      if j == -1 {
        assert IndexOf(s, key, id) == -1;
        assert [s[0]] + t == s;
      } else {
        assert IndexOf(s, key, id) == j + 1;
        assert s[..j + 1] == [s[0]] + t[..j];
        assert s[j + 2..] == t[j + 1..];
      }
    }
  }

  /** Removal shortens the sequence by one exactly when some element matches,
      and otherwise leaves it as it was. */
  lemma RemoveFirstLength<T>(s: seq<T>, key: T -> string, id: string)
    ensures (exists k :: 0 <= k < |s| && key(s[k]) == id) ==> |RemoveFirst(s, key, id)| == |s| - 1
    ensures (forall k :: 0 <= k < |s| ==> key(s[k]) != id) ==> RemoveFirst(s, key, id) == s
  {
    RemoveFirstIsSplice(s, key, id);
  }
}
