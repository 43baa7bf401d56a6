/** The filtered overwrite: what it leaves in the store, how many offers that is, and that the
    order in which the map happens to be ranged over makes no difference. */
module StoreOverwrite {
  import opened Types
  import opened IndexLists
  import opened StoreSpec
  import opened StoreInvariants
  import opened StoreRuns
  import opened StoreTheorems
  import opened StoreLookups

  // Contents

  /** `os[i]` is the last offer of the batch with its ID. */
  ghost predicate LastOfItsId(os: seq<Offer>, i: nat) {
    i < |os| && forall j :: i < j < |os| ==> os[j].id != os[i].id
  }

  lemma {:induction false} FillAllOffers(s: State, os: seq<Offer>, now: Time)
    ensures var t := FillAll(s, os, now).offers;
            && (forall id :: id in t <==> id in s.offers || Mentions(os, id))
            && (forall id :: id in s.offers && !Mentions(os, id) ==> t[id] == s.offers[id])
            && (forall i: nat :: LastOfItsId(os, i) ==> Mentions(os, os[i].id) && t[os[i].id] == StampFill(os[i], now))
    decreases |os|
  {
    if os != [] {
      var s' := Insert(s, StampFill(os[0], now));
      FillAllOffers(s', os[1..], now);
      forall id ensures Mentions(os, id) <==> os[0].id == id || Mentions(os[1..], id) {
        MentionsTail(os, id);
      }
      forall i: nat | LastOfItsId(os, i)
        ensures FillAll(s, os, now).offers[os[i].id] == StampFill(os[i], now)
      {
        assert forall j :: 1 <= j < |os| ==> os[j] == os[1..][j - 1];
        if i > 0 {
          assert LastOfItsId(os[1..], i - 1);
        } else {
          assert !Mentions(os[1..], os[0].id);
        }
      }
    }
  }

  /** The store after an overwrite: the offers the filter does not select, overlaid by the batch,
      where the last offer with an ID wins. A stored offer has the time of creation it was given, if
      it was given one, and not that of the offer it replaces. */
  lemma OverwriteContents(s: State, batch: seq<Option<Offer>>, filter: Option<OverwriteFilter>,
                          order: seq<string>, now: Time)
    requires Ranges(order, SelectedIds(s, filter)) && CheckAll(batch) == Ok
    ensures Overwrite(s, batch, filter, order, now).state.lastUpdate == now
    ensures var t := Overwrite(s, batch, filter, order, now).state.offers;
            var os := Offers(batch);
            && (forall id :: id in t <==>
                  (id in s.offers && !Selects(filter, s.offers[id])) || Mentions(os, id))
            && (forall id :: id in t && !Mentions(os, id) ==> t[id] == s.offers[id])
            && (forall i: nat :: LastOfItsId(os, i) ==>
                  t[os[i].id] == os[i].(created := if os[i].created == ZERO_TIME then now else os[i].created,
                                        updated := now))
  {
    var os, kept := Offers(batch), DropAll(s, s.offers, order);
    DropAllOffers(s, s.offers, order);
    assert forall id :: id in order <==> id in SelectedIds(s, filter);
    FillAllOffers(kept, os, now);
    assert Overwrite(s, batch, filter, order, now).state.offers == FillAll(kept, os, now).offers;
  }

  // Size

  lemma {:induction false} FillAllSize(s: State, os: seq<Offer>, now: Time)
    ensures |FillAll(s, os, now).offers| <= |s.offers| + |os|
    ensures |FillAll(s, os, now).offers| == |s.offers| + |os| <==> AllFresh(s, os)
    decreases |os|
  {
    if os != [] {
      var v := StampFill(os[0], now);
      var t := Insert(s, v);
      FillAllSize(t, os[1..], now);
      if v.id in s.offers {
        assert t.offers.Keys == s.offers.Keys;
        assert |t.offers| == |t.offers.Keys| == |s.offers.Keys|;
        assert os[0].id in s.offers;
      } else {
        assert t.offers.Keys == s.offers.Keys + {v.id};
        assert |t.offers| == |t.offers.Keys| == |s.offers.Keys| + 1;
        FreshTail(s, os, v);
      }
    }
  }

  lemma DropAllSize(s: State, filter: Option<OverwriteFilter>, order: seq<string>)
    requires Ranges(order, SelectedIds(s, filter))
    ensures |DropAll(s, s.offers, order).offers| == |s.offers| - |SelectedIds(s, filter)|
  {
    DropAllOffers(s, s.offers, order);
    var kept := DropAll(s, s.offers, order).offers;
    var ids := SelectedIds(s, filter);
    assert kept.Keys == s.offers.Keys - ids;
    assert |kept| == |kept.Keys|;
  }

  lemma KeptAndFilledSize(s: State, os: seq<Offer>, filter: Option<OverwriteFilter>, order: seq<string>, now: Time)
    requires Ranges(order, SelectedIds(s, filter))
    ensures var n := |FillAll(DropAll(s, s.offers, order), os, now).offers|;
            var expected := |s.offers| - |SelectedIds(s, filter)| + |os|;
            n <= expected && (n == expected <==> OverwriteSafe(s, os, filter))
  {
    var kept := DropAll(s, s.offers, order);
    DropAllSize(s, filter, order);
    FillAllSize(kept, os, now);
    SafeIsFresh(s, os, filter, order);
  }

  /** The count after an overwrite is the old count minus the selected offers plus the batch if
      and only if the call is index-safe; otherwise it is smaller. */
  lemma OverwriteCountIff(s: State, batch: seq<Option<Offer>>, filter: Option<OverwriteFilter>,
                          order: seq<string>, now: Time)
    requires Ranges(order, SelectedIds(s, filter)) && CheckAll(batch) == Ok
    ensures var n := |Overwrite(s, batch, filter, order, now).state.offers|;
            var expected := |s.offers| - |SelectedIds(s, filter)| + |batch|;
            n <= expected && (n == expected <==> OverwriteSafe(s, Offers(batch), filter))
  {
    KeptAndFilledSize(s, Offers(batch), filter, order, now);
  }

  // The order of ranging over the map

  lemma {:induction false} RemoveFirstCommutes(l: seq<string>, x: string, y: string)
    ensures RemoveFirst(RemoveFirst(l, x), y) == RemoveFirst(RemoveFirst(l, y), x)
  {
    if l != [] {
      if l[0] != x && l[0] != y {
        assert RemoveFirst(l, x)[1..] == RemoveFirst(l[1..], x);
        assert RemoveFirst(l, y)[1..] == RemoveFirst(l[1..], y);
        RemoveFirstCommutes(l[1..], x, y);
      } else if x != y {
        var a, b := l[0], if l[0] == x then y else x;
        assert RemoveFirst(l, b) == [a] + RemoveFirst(l[1..], b);
        assert ([a] + RemoveFirst(l[1..], b))[1..] == RemoveFirst(l[1..], b);
      }
    }
  }

  lemma SetListTwice(m: Index, k: string, l: seq<string>, l': seq<string>)
    ensures SetList(SetList(m, k, l), k, l') == SetList(m, k, l')
  {
  }

  lemma SetListsCommute(m: Index, k: string, l: seq<string>, k': string, l': seq<string>)
    requires k != k'
    ensures SetList(SetList(m, k, l), k', l') == SetList(SetList(m, k', l'), k, l)
  {
    if l == [] && l' == [] {
      assert m - {k} - {k'} == m - {k'} - {k};
    }
  }

  lemma ListAtSet(m: Index, k: string, l: seq<string>, k': string)
    ensures ListAt(SetList(m, k, l), k') == if k' == k then l else ListAt(m, k')
  {
  }

  lemma PullTwice(m: Index, k: string, x: string, y: string)
    ensures Pull(Pull(m, Some(k), x), Some(k), y)
         == SetList(m, k, RemoveFirst(RemoveFirst(ListAt(m, k), x), y))
  {
    var l := RemoveFirst(ListAt(m, k), x);
    ListAtSet(m, k, l, k);
    SetListTwice(m, k, l, RemoveFirst(l, y));
  }

  lemma PullsCommute(m: Index, k: Option<string>, x: string, k': Option<string>, y: string)
    ensures Pull(Pull(m, k, x), k', y) == Pull(Pull(m, k', y), k, x)
  {
    if k.Some? && k' == k {
      PullTwice(m, k.value, x, y);
      PullTwice(m, k.value, y, x);
      RemoveFirstCommutes(ListAt(m, k.value), x, y);
    } else if k.Some? && k'.Some? {
      PullsApart(m, k.value, x, k'.value, y);
    }
  }

  lemma PullsApart(m: Index, k: string, x: string, k': string, y: string)
    requires k != k'
    ensures Pull(Pull(m, Some(k), x), Some(k'), y) == Pull(Pull(m, Some(k'), y), Some(k), x)
  {
    var l, l' := RemoveFirst(ListAt(m, k), x), RemoveFirst(ListAt(m, k'), y);
    ListAtSet(m, k, l, k');
    ListAtSet(m, k', l', k);
    SetListsCommute(m, k, l, k', l');
  }

  lemma UnindexesCommute(ix: Indexes, o: Offer, p: Offer)
    ensures RemoveFromIndexes(RemoveFromIndexes(ix, o), p) == RemoveFromIndexes(RemoveFromIndexes(ix, p), o)
  {
    PullsCommute(ix.lender, KeyOf(ByLender, o), o.id, KeyOf(ByLender, p), p.id);
    PullsCommute(ix.token, KeyOf(ByToken, o), o.id, KeyOf(ByToken, p), p.id);
    PullsCommute(ix.offerType, KeyOf(ByType, o), o.id, KeyOf(ByType, p), p.id);
  }

  lemma RemovalsCommute(m: map<string, Offer>, x: string, y: string)
    ensures m - {x} - {y} == m - {y} - {x}
  {
    assert m - {x} - {y} == m - {x, y} == m - {y} - {x};
  }

  lemma DropsCommute(s: State, olds: map<string, Offer>, x: string, y: string)
    ensures DropOne(DropOne(s, olds, x), olds, y) == DropOne(DropOne(s, olds, y), olds, x)
  {
    if x in olds && y in olds {
      UnindexesCommute(s.indexes, olds[x], olds[y]);
    }
    RemovalsCommute(s.offers, x, y);
  }

  lemma {:induction false} DropMovesToFront(s: State, olds: map<string, Offer>, p: seq<string>, x: string, q: seq<string>)
    ensures DropAll(s, olds, p + [x] + q) == DropAll(DropOne(s, olds, x), olds, p + q)
    decreases |p|
  {
    if p == [] {
      assert p + [x] + q == [x] + q && p + q == q;
    } else {
      var y, r := p[0], p[1..];
      assert p + [x] + q == [y] + (r + [x] + q);
      assert p + q == [y] + (r + q);
      DropMovesToFront(DropOne(s, olds, y), olds, r, x, q);
      DropsCommute(s, olds, x, y);
    }
  }

  /** Ranging over the selected offers in another order leaves the same store, lists and all. */
  lemma {:induction false} DropOrderIrrelevant(s: State, olds: map<string, Offer>, a: seq<string>, b: seq<string>,
                                               ids: set<string>)
    requires Ranges(a, ids) && Ranges(b, ids)
    ensures DropAll(s, olds, a) == DropAll(s, olds, b)
    decreases |a|
  {
    if a == [] {
      DistinctCount(a, ids);
      DistinctCount(b, ids);
    } else {
      var x := a[0];
      assert x in a && x in b;
      var n :| 0 <= n < |b| && b[n] == x;
      var p, q := b[..n], b[n + 1..];
      assert b == p + [x] + q;
      DropMovesToFront(s, olds, p, x, q);
      RangesTail(a, ids);
      RangesWithout(b, n, ids);
      DropOrderIrrelevant(DropOne(s, olds, x), olds, a[1..], p + q, ids - {x});
    }
  }

  lemma RangesTail(a: seq<string>, ids: set<string>)
    requires a != [] && Ranges(a, ids)
    ensures Ranges(a[1..], ids - {a[0]})
  {
    assert a == [a[0]] + a[1..];
    forall i, j | 0 <= i < j < |a[1..]| ensures a[1..][i] != a[1..][j] {
      assert a[1..][i] == a[i + 1] && a[1..][j] == a[j + 1];
    }
    assert a[0] !in a[1..];
  }

  lemma RangesWithout(b: seq<string>, n: nat, ids: set<string>)
    requires n < |b| && Ranges(b, ids)
    ensures Ranges(b[..n] + b[n + 1..], ids - {b[n]})
  {
    var r := b[..n] + b[n + 1..];
    assert forall i :: 0 <= i < |r| ==> r[i] == b[if i < n then i else i + 1];
    forall id ensures id in r <==> id in ids && id != b[n] {
      if id in b && id != b[n] {
        var i :| 0 <= i < |b| && b[i] == id;
        assert r[if i < n then i else i - 1] == id;
      }
      if id in r {
        var i :| 0 <= i < |r| && r[i] == id;
        assert b[if i < n then i else i + 1] in b;
      }
    }
  }

  /** An overwrite is deterministic although it ranges over a map. */
  lemma OverwriteDeterministic(s: State, batch: seq<Option<Offer>>, filter: Option<OverwriteFilter>,
                               a: seq<string>, b: seq<string>, now: Time)
    requires Ranges(a, SelectedIds(s, filter)) && Ranges(b, SelectedIds(s, filter))
    ensures Overwrite(s, batch, filter, a, now) == Overwrite(s, batch, filter, b, now)
  {
    DropOrderIrrelevant(s, s.offers, a, b, SelectedIds(s, filter));
  }

  /** A map can be ranged over in some order. */
  lemma {:induction false} SomeOrder(ids: set<string>) returns (order: seq<string>)
    ensures Ranges(order, ids)
    decreases |ids|
  {
    if ids == {} {
      order := [];
    } else {
      var id :| id in ids;
      var rest := SomeOrder(ids - {id});
      order := [id] + rest;
      assert forall x :: x in order <==> x == id || x in rest;
      assert id !in rest;
    }
  }
}
