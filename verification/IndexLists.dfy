/** One secondary index: a map from a key to the list of offer IDs filed under it. */
module IndexLists {
  import opened Types

  type Index = map<string, seq<string>>

  function ListAt(m: Index, k: string): seq<string> {
    if k in m then m[k] else []
  }

  function RemoveFirst(s: seq<string>, x: string): seq<string> {
    if s == [] then []
    else if s[0] == x then s[1..]
    else [s[0]] + RemoveFirst(s[1..], x)
  }

  lemma {:induction false} RemoveFirstCounts(s: seq<string>, x: string)
    ensures multiset(RemoveFirst(s, x)) == multiset(s) - multiset{x}
  {
    if s != [] {
      assert s == [s[0]] + s[1..];
      RemoveFirstCounts(s[1..], x);
    }
  }

  /** Drops the first occurrence of `item`, shifting the rest down. */
  method RemoveFromSlice(slice: seq<string>, item: string) returns (r: seq<string>)
    ensures r == RemoveFirst(slice, item)
  {
    for i := 0 to |slice|
      invariant forall j :: 0 <= j < i ==> slice[j] != item
    {
      if slice[i] == item {
        RemoveFirstAt(slice, item, i);
        return slice[..i] + slice[i + 1..];
      }
    }
    assert item !in multiset(slice);
    RemoveAbsent(slice, item);
    return slice;
  }

  lemma {:induction false} RemoveFirstAt(s: seq<string>, x: string, i: nat)
    requires i < |s| && s[i] == x
    requires forall j :: 0 <= j < i ==> s[j] != x
    ensures RemoveFirst(s, x) == s[..i] + s[i + 1..]
  {
    if i > 0 {
      var rest := s[1..];
      RemoveFirstAt(rest, x, i - 1);
      calc {
        RemoveFirst(s, x);
        [s[0]] + RemoveFirst(rest, x);
        [s[0]] + (rest[..i - 1] + rest[i..]);
        { assert [s[0]] + rest[..i - 1] == s[..i]; assert rest[i..] == s[i + 1..]; }
        s[..i] + s[i + 1..];
      }
    }
  }

  /** Files `id` under `key`; an offer without that key is not filed. */
  function Push(m: Index, key: Option<string>, id: string): Index {
    if key.None? then m else m[key.value := ListAt(m, key.value) + [id]]
  }

  /** Puts `l` in the place of the list under `k`; an empty list takes its key with it. */
  function SetList(m: Index, k: string, l: seq<string>): Index {
    if l == [] then m - {k} else m[k := l]
  }

  /** Removes one entry of `id` under `key`, and the key once its list is empty. */
  function Pull(m: Index, key: Option<string>, id: string): Index {
    if key.None? then m else SetList(m, key.value, RemoveFirst(ListAt(m, key.value), id))
  }

  /** How many times `id` is filed under `k`. */
  function Occ(m: Index, k: string, id: string): nat {
    multiset(ListAt(m, k))[id]
  }

  ghost predicate NoEmptyList(m: Index) {
    forall k :: k in m ==> m[k] != []
  }

  lemma OccPush(m: Index, key: Option<string>, id: string)
    ensures forall k, x :: Occ(Push(m, key, id), k, x)
                        == Occ(m, k, x) + if key == Some(k) && x == id then 1 else 0
    ensures NoEmptyList(m) ==> NoEmptyList(Push(m, key, id))
  {
  }

  lemma OccPull(m: Index, key: Option<string>, id: string)
    ensures forall k, x :: Occ(Pull(m, key, id), k, x)
                        == if key == Some(k) && x == id && Occ(m, k, x) > 0
                           then Occ(m, k, x) - 1 else Occ(m, k, x)
    ensures NoEmptyList(m) ==> NoEmptyList(Pull(m, key, id))
  {
    forall k, x
      ensures Occ(Pull(m, key, id), k, x)
           == if key == Some(k) && x == id && Occ(m, k, x) > 0
              then Occ(m, k, x) - 1 else Occ(m, k, x)
    {
      OccPullAt(m, key, id, k, x);
    }
  }

  lemma OccPullAt(m: Index, key: Option<string>, id: string, k: string, x: string)
    ensures Occ(Pull(m, key, id), k, x)
         == if key == Some(k) && x == id && Occ(m, k, x) > 0
            then Occ(m, k, x) - 1 else Occ(m, k, x)
  {
    if key == Some(k) {
      RemoveFirstCounts(ListAt(m, k), id);
      assert ListAt(Pull(m, key, id), k) == RemoveFirst(ListAt(m, k), id);
    }
  }

  /** Removing an entry that is not there leaves an index without empty lists as it is. */
  lemma PullAbsent(m: Index, key: Option<string>, id: string)
    requires NoEmptyList(m)
    requires key.Some? ==> Occ(m, key.value, id) == 0
    ensures Pull(m, key, id) == m
  {
    if key.Some? {
      var k := key.value;
      RemoveAbsent(ListAt(m, k), id);
      if k in m {
        assert m[k := m[k]] == m;
      }
    }
  }

  lemma {:induction false} RemoveAbsent(s: seq<string>, x: string)
    requires multiset(s)[x] == 0
    ensures RemoveFirst(s, x) == s
  {
    if s != [] {
      assert s == [s[0]] + s[1..];
      RemoveAbsent(s[1..], x);
    }
  }
}
