/** Reading the store: an indexed lookup against a scan of the map, the counts, and the total
    liquidity. */
module StoreLookups {
  import opened Types
  import opened IndexLists
  import opened StoreSpec
  import opened StoreInvariants
  import opened StoreTheorems

  type OfferMap = map<string, Offer>

  /** The stored offers behind a list of IDs, skipping IDs that are not stored. */
  function Collect(offers: OfferMap, ids: seq<string>): seq<Offer> {
    if ids == [] then []
    else (if ids[0] in offers then [offers[ids[0]]] else []) + Collect(offers, ids[1..])
  }

  function Lookup(s: State, kind: Kind, k: string): seq<Offer> {
    Collect(s.offers, ListAt(s.indexes.At(kind), k))
  }

  /** `r` holds the stored offers with these IDs, each once, in some order. */
  ghost predicate Enumerates(r: seq<Offer>, offers: OfferMap, ids: set<string>) {
    && DistinctIds(r)
    && (forall o :: o in r <==> o.id in ids && o.id in offers && offers[o.id] == o)
  }

  /** What a scan for one key of one index selects. */
  function ScanIds(s: State, kind: Kind, k: string): set<string> {
    set id | id in s.offers && KeyOf(kind, s.offers[id]) == Some(k)
  }

  /** Two enumerations of the same offers differ in their order only. */
  lemma EnumerationsAgree(r: seq<Offer>, r': seq<Offer>, offers: OfferMap, ids: set<string>)
    requires Enumerates(r, offers, ids) && Enumerates(r', offers, ids)
    ensures multiset(r) == multiset(r')
  {
    forall o ensures multiset(r)[o] == multiset(r')[o] {
      DistinctOccurrence(r, o);
      DistinctOccurrence(r', o);
    }
  }

  lemma {:induction false} DistinctOccurrence(r: seq<Offer>, o: Offer)
    requires DistinctIds(r)
    ensures multiset(r)[o] == if o in r then 1 else 0
  {
    if r != [] {
      assert r == [r[0]] + r[1..];
      assert forall i :: 0 <= i < |r[1..]| ==> r[1..][i] == r[i + 1];
      DistinctOccurrence(r[1..], o);
    }
  }

  lemma PermutationEnumerates(r: seq<Offer>, r': seq<Offer>, offers: OfferMap, ids: set<string>)
    requires Enumerates(r, offers, ids) && multiset(r') == multiset(r)
    ensures Enumerates(r', offers, ids)
  {
    forall o ensures o in r' <==> o in r {
      assert o in r' <==> o in multiset(r');
      assert o in r <==> o in multiset(r);
    }
    forall i, j | 0 <= i < j < |r'| ensures r'[i].id != r'[j].id {
      assert r'[i] in r && r'[j] in r;
      DistinctOccurrence(r, r'[i]);
      TwoOccurrences(r', i, j);
    }
  }

  lemma TwoOccurrences(r: seq<Offer>, i: nat, j: nat)
    requires i < j < |r|
    ensures r[i] == r[j] ==> multiset(r)[r[i]] >= 2
  {
    var a, b := r[..i + 1], r[i + 1..];
    assert r == a + b && a[i] in multiset(a) && b[j - i - 1] in multiset(b);
    assert multiset(r) == multiset(a) + multiset(b);
  }

  lemma EnumeratesOneMore(r: seq<Offer>, offers: OfferMap, ids: set<string>, id: string)
    requires Enumerates(r, offers, ids) && id in offers && id !in ids && offers[id].id == id
    ensures Enumerates(r + [offers[id]], offers, ids + {id})
  {
    var t := r + [offers[id]];
    assert forall o :: o in t <==> o in r || o == offers[id];
    forall i, j | 0 <= i < j < |t| ensures t[i].id != t[j].id {
      assert t[i] in r;
      if j < |r| { assert t[j] == r[j]; }
    }
  }

  lemma {:induction false} CollectMembers(offers: OfferMap, ids: seq<string>, o: Offer)
    ensures o in Collect(offers, ids) <==> exists i :: 0 <= i < |ids| && ids[i] in offers && offers[ids[i]] == o
  {
    if ids != [] {
      CollectMembers(offers, ids[1..], o);
      assert forall i :: 1 <= i < |ids| ==> ids[i] == ids[1..][i - 1];
      if o in Collect(offers, ids[1..]) {
        var i :| 0 <= i < |ids[1..]| && ids[1..][i] in offers && offers[ids[1..][i]] == o;
        assert ids[i + 1] == ids[1..][i];
      }
    }
  }

  lemma {:induction false} CollectDistinct(offers: OfferMap, ids: seq<string>)
    requires forall id :: id in offers ==> offers[id].id == id
    requires forall i, j :: 0 <= i < j < |ids| ==> ids[i] != ids[j]
    ensures DistinctIds(Collect(offers, ids))
  {
    if ids != [] {
      var rest := Collect(offers, ids[1..]);
      assert forall i :: 1 <= i < |ids| ==> ids[i] == ids[1..][i - 1];
      CollectDistinct(offers, ids[1..]);
      forall o | o in rest ensures o.id != ids[0] {
        CollectMembers(offers, ids[1..], o);
      }
      var r := Collect(offers, ids);
      if ids[0] in offers {
        assert r == [offers[ids[0]]] + rest;
        assert forall j :: 1 <= j < |r| ==> r[j] == rest[j - 1] && rest[j - 1] in rest;
      } else {
        assert r == rest;
      }
    }
  }

  /** In every reachable state an indexed lookup finds every offer with the key. */
  lemma LookupNeverMisses(s: State, kind: Kind, k: string, id: string)
    requires WellFormed(s) && id in ScanIds(s, kind, k)
    ensures s.offers[id] in Lookup(s, kind, k)
  {
    assert Excess(s, kind, k, id) >= 0;
    var ids := ListAt(s.indexes.At(kind), k);
    assert id in multiset(ids);
    var i :| 0 <= i < |ids| && ids[i] == id;
    CollectMembers(s.offers, ids, s.offers[id]);
  }

  /** With exact indexes it finds nothing else, and nothing twice. */
  lemma LookupIsScan(s: State, kind: Kind, k: string)
    requires WellFormed(s) && Exact(s)
    ensures Enumerates(Lookup(s, kind, k), s.offers, ScanIds(s, kind, k))
  {
    var ids := ListAt(s.indexes.At(kind), k);
    ExactIndexReads(s, kind, k);
    CollectDistinct(s.offers, ids);
    forall o
      ensures o in Lookup(s, kind, k) <==>
              o.id in ScanIds(s, kind, k) && o.id in s.offers && s.offers[o.id] == o
    {
      CollectMembers(s.offers, ids, o);
      if o.id in ScanIds(s, kind, k) && s.offers[o.id] == o {
        assert o.id in ids;
      }
    }
  }

  // Token pairs

  /** What a scan for a token pair selects. */
  function PairIds(s: State, collateral: string, borrow: string): set<string> {
    set id | id in s.offers && s.offers[id].terms.collateralToken == collateral && s.offers[id].terms.borrowToken == borrow
  }

  ghost predicate NoCollision(s: State, collateral: string, borrow: string) {
    forall id :: id in s.offers
                 && KeyOf(ByToken, s.offers[id]) == Some(TokenKey(collateral, borrow))
      ==> s.offers[id].terms.collateralToken == collateral
  }

  /** The joined key tells apart pairs whose collateral token has no bar in it. */
  lemma TokenKeyInjective(c: string, b: string, c': string, b': string)
    requires '|' !in c && '|' !in c' && TokenKey(c, b) == TokenKey(c', b')
    ensures c == c' && b == b'
  {
    var k := TokenKey(c, b);
    assert k[|c|] == '|' && k[|c'|] == '|';
    assert forall i :: 0 <= i < |c| ==> k[i] == c[i] && c[i] != '|';
    assert forall i :: 0 <= i < |c'| ==> k[i] == c'[i] && c'[i] != '|';
    assert k[..|c|] == c && k[..|c'|] == c';
    assert k[|c| + 1..] == b && k[|c'| + 1..] == b';
  }

  /** A lookup of a token pair is a scan for the pair if and only if no stored offer of another
      pair has the same joined key. */
  lemma PairLookupIsScanIff(s: State, c: string, b: string)
    requires WellFormed(s) && Exact(s)
    ensures Enumerates(Lookup(s, ByToken, TokenKey(c, b)), s.offers, PairIds(s, c, b))
            <==> NoCollision(s, c, b)
  {
    var k := TokenKey(c, b);
    LookupIsScan(s, ByToken, k);
    if NoCollision(s, c, b) {
      forall id | id in ScanIds(s, ByToken, k) ensures id in PairIds(s, c, b) {
        var o := s.offers[id];
        assert o.terms.collateralToken == c;
        assert TokenKey(c, o.terms.borrowToken)[|c| + 1..] == o.terms.borrowToken && k[|c| + 1..] == b;
      }
      assert ScanIds(s, ByToken, k) == PairIds(s, c, b);
    } else {
      var id :| id in s.offers && s.offers[id].terms.collateralToken != c
                && TokenKey(s.offers[id].terms.collateralToken, s.offers[id].terms.borrowToken) == k;
      assert s.offers[id] in Lookup(s, ByToken, k);
    }
  }

  /** Tokens without a bar never collide. */
  lemma BarFreeNeverCollides(s: State, c: string, b: string)
    requires '|' !in c && forall id :: id in s.offers ==> '|' !in s.offers[id].terms.collateralToken
    ensures NoCollision(s, c, b)
  {
    forall id | id in s.offers
                && TokenKey(s.offers[id].terms.collateralToken, s.offers[id].terms.borrowToken) == TokenKey(c, b)
      ensures s.offers[id].terms.collateralToken == c
    {
      TokenKeyInjective(s.offers[id].terms.collateralToken, s.offers[id].terms.borrowToken, c, b);
    }
  }

  // Counting

  function CountByOfferType(s: State, t: string): nat {
    |ListAt(s.indexes.offerType, t)|
  }

  lemma {:induction false} DistinctCount(ids: seq<string>, named: set<string>)
    requires Ranges(ids, named)
    ensures |ids| == |named|
  {
    if ids == [] {
      assert named == {} by { assert forall id :: id in named ==> id in ids; }
    } else {
      assert ids == [ids[0]] + ids[1..];
      assert forall i :: 0 <= i < |ids[1..]| ==> ids[1..][i] == ids[i + 1];
      assert ids[0] in ids && ids[0] !in ids[1..];
      DistinctCount(ids[1..], named - {ids[0]});
    }
  }

  /** With exact indexes the count for a type is the number of stored offers of that type. */
  lemma CountIsCardinality(s: State, t: string)
    requires Exact(s)
    ensures CountByOfferType(s, t) == |ScanIds(s, ByType, t)|
  {
    ExactIndexReads(s, ByType, t);
    DistinctCount(ListAt(s.indexes.offerType, t), ScanIds(s, ByType, t));
  }

  ghost function SumCounts(s: State, types: set<string>): nat {
    if types == {} then 0
    else
      var t :| t in types;
      CountByOfferType(s, t) + SumCounts(s, types - {t})
  }

  lemma {:induction false} SumCountsIsUnion(s: State, types: set<string>)
    requires Exact(s)
    ensures SumCounts(s, types) == |set id | id in s.offers && s.offers[id].terms.offerType in types|
  {
    var all := set id | id in s.offers && s.offers[id].terms.offerType in types;
    if types == {} {
      assert all == {};
    } else {
      var t :| t in types && SumCounts(s, types) == CountByOfferType(s, t) + SumCounts(s, types - {t});
      SumCountsIsUnion(s, types - {t});
      CountIsCardinality(s, t);
      var rest := set id | id in s.offers && s.offers[id].terms.offerType in types - {t};
      assert all == ScanIds(s, ByType, t) + rest && ScanIds(s, ByType, t) !! rest;
    }
  }

  /** The counts of the indexed types add up to the number of stored offers. */
  lemma CountsAddUp(s: State)
    requires Exact(s)
    ensures SumCounts(s, s.indexes.offerType.Keys) == |s.offers|
  {
    var types := s.indexes.offerType.Keys;
    SumCountsIsUnion(s, types);
    forall id | id in s.offers ensures s.offers[id].terms.offerType in types {
      ExactIndexReads(s, ByType, s.offers[id].terms.offerType);
    }
    assert (set id | id in s.offers && s.offers[id].terms.offerType in types) == s.offers.Keys;
    assert |s.offers| == |s.offers.Keys|;
  }

  // Liquidity

  function Amount(o: Offer, borrow: string): real {
    if o.terms.borrowToken == borrow then o.terms.availableBorrowAmount else 0.0
  }

  ghost function Total(offers: OfferMap, borrow: string, ids: set<string>): real
    requires ids <= offers.Keys
  {
    if ids == {} then 0.0
    else
      var id :| id in ids;
      Amount(offers[id], borrow) + Total(offers, borrow, ids - {id})
  }

  /** Any offer may be added first: the total does not depend on the order of the scan. */
  lemma {:induction false} TotalPicks(offers: OfferMap, borrow: string, ids: set<string>, x: string)
    requires ids <= offers.Keys && x in ids
    ensures Total(offers, borrow, ids) == Amount(offers[x], borrow) + Total(offers, borrow, ids - {x})
  {
    var id :| id in ids && Total(offers, borrow, ids)
                           == Amount(offers[id], borrow) + Total(offers, borrow, ids - {id});
    if id != x {
      TotalPicks(offers, borrow, ids - {id}, x);
      TotalPicks(offers, borrow, ids - {x}, id);
      assert ids - {id} - {x} == ids - {x} - {id};
    }
  }

  lemma {:induction false} TotalAgrees(m: OfferMap, n: OfferMap, borrow: string, ids: set<string>)
    requires ids <= m.Keys && ids <= n.Keys && forall id :: id in ids ==> m[id] == n[id]
    ensures Total(m, borrow, ids) == Total(n, borrow, ids)
  {
    if ids != {} {
      var id :| id in ids;
      TotalPicks(m, borrow, ids, id);
      TotalPicks(n, borrow, ids, id);
      TotalAgrees(m, n, borrow, ids - {id});
    }
  }

  ghost function Liquidity(offers: OfferMap, borrow: string): real {
    Total(offers, borrow, offers.Keys)
  }

  /** An empty store has none; storing an offer that lends the token adds its available amount, and what
      the offer that it replaces had available of the token no longer counts. */
  lemma LiquidityOfStore(offers: OfferMap, o: Offer, id: string, borrow: string)
    ensures Liquidity(map[], borrow) == 0.0
    ensures Liquidity(offers[id := o], borrow) == Liquidity(offers, borrow)
            - (if id in offers && offers[id].terms.borrowToken == borrow then offers[id].terms.availableBorrowAmount else 0.0)
            + (if o.terms.borrowToken == borrow then o.terms.availableBorrowAmount else 0.0)
  {
    var m := offers[id := o];
    TotalPicks(m, borrow, m.Keys, id);
    var rest := m.Keys - {id};
    assert rest == offers.Keys - {id};
    TotalAgrees(m, offers, borrow, rest);
    if id in offers {
      TotalPicks(offers, borrow, offers.Keys, id);
    } else {
      assert rest == offers.Keys;
    }
  }

  /** Deleting an offer takes exactly its amount out of the total. */
  lemma LiquidityOfDelete(offers: OfferMap, id: string, borrow: string)
    ensures Liquidity(offers - {id}, borrow) == Liquidity(offers, borrow)
            - if id in offers && offers[id].terms.borrowToken == borrow then offers[id].terms.availableBorrowAmount else 0.0
  {
    var m := offers - {id};
    assert m.Keys == offers.Keys - {id};
    TotalAgrees(m, offers, borrow, m.Keys);
    if id in offers {
      TotalPicks(offers, borrow, offers.Keys, id);
    } else {
      assert m == offers;
    }
  }
}
