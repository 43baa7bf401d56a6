/** Every run of the store: the invariant that needs nothing of the caller, and exactly when a
    call leaves the indexes exact. */
module StoreRuns {
  import opened Types
  import opened IndexLists
  import opened StoreSpec
  import opened StoreInvariants

  // Folds over a batch keep the invariant

  lemma {:induction false} CreateAllKeeps(s: State, os: seq<Offer>, now: Time)
    requires WellFormed(s) && AllValid(os) && DistinctIds(os) && !AnyStored(s, os)
    ensures WellFormed(CreateAll(s, os, now))
    ensures Exact(s) ==> Exact(CreateAll(s, os, now))
    decreases |os|
  {
    if os != [] {
      var t := Insert(s, StampNew(os[0], now));
      InsertKeeps(s, StampNew(os[0], now));
      ExactPasses(s, t);
      CreateAllKeeps(t, os[1..], now);
    }
  }

  lemma UpsertKeeps(s: State, o: Offer, now: Time)
    requires WellFormed(s) && Validate(o) == Ok
    ensures WellFormed(Upsert(s, o, now))
    ensures Exact(s) ==> Exact(Upsert(s, o, now))
  {
    var v := UpsertStamped(s, o, now);
    var t := Insert(if o.id in s.offers then Unindex(s, s.offers[o.id]) else s, v);
    if o.id in s.offers {
      ReplaceKeeps(s, s.offers[o.id], v);
    } else {
      InsertKeeps(s, v);
    }
    ExactPasses(s, t);
    Touched(t, now);
  }

  lemma {:induction false} UpsertAllKeeps(s: State, os: seq<Offer>, now: Time)
    requires WellFormed(s) && AllValid(os)
    ensures WellFormed(UpsertAll(s, os, now))
    ensures Exact(s) ==> Exact(UpsertAll(s, os, now))
    decreases |os|
  {
    if os != [] {
      UpsertKeeps(s, os[0], now);
      UpsertAllKeeps(Upsert(s, os[0], now), os[1..], now);
    }
  }

  ghost predicate KeyedById(olds: map<string, Offer>) {
    forall id :: id in olds ==> olds[id].id == id
  }

  lemma {:induction false} UpdateAllKeeps(s: State, olds: map<string, Offer>, os: seq<Offer>, now: Time)
    requires WellFormed(s) && AllValid(os) && KeyedById(olds)
    requires forall i :: 0 <= i < |os| ==> os[i].id in olds
    ensures WellFormed(UpdateAll(s, olds, os, now))
    decreases |os|
  {
    if os != [] {
      ReplaceKeeps(s, olds[os[0].id], StampKeep(os[0], olds[os[0].id], now));
      UpdateAllKeeps(UpdateStep(s, olds, os[0], now), olds, os[1..], now);
    }
  }

  lemma {:induction false} DropAllKeeps(s: State, olds: map<string, Offer>, ids: seq<string>)
    requires WellFormed(s) && KeyedById(olds)
    requires forall id :: id in s.offers ==> id in olds && olds[id] == s.offers[id]
    ensures WellFormed(DropAll(s, olds, ids))
    ensures Exact(s) ==> Exact(DropAll(s, olds, ids))
    decreases |ids|
  {
    if ids != [] {
      var t := DropOne(s, olds, ids[0]);
      if ids[0] in olds {
        DropKeeps(s, olds[ids[0]], ids[0]);
        if Exact(s) {
          ExactPasses(s, t);
        }
      }
      DropAllKeeps(t, olds, ids[1..]);
    }
  }

  lemma {:induction false} DropAllOffers(s: State, olds: map<string, Offer>, ids: seq<string>)
    requires forall id :: id in ids && id in s.offers ==> id in olds
    ensures var t := DropAll(s, olds, ids).offers;
            && (forall id :: id in t <==> id in s.offers && id !in ids)
            && (forall id :: id in t ==> t[id] == s.offers[id])
    decreases |ids|
  {
    if ids != [] {
      DropAllOffers(DropOne(s, olds, ids[0]), olds, ids[1..]);
      assert forall id :: id in ids <==> id == ids[0] || id in ids[1..];
    }
  }

  lemma {:induction false} FillAllKeeps(s: State, os: seq<Offer>, now: Time)
    requires WellFormed(s) && AllValid(os)
    ensures WellFormed(FillAll(s, os, now)) && NoLessExcess(s, FillAll(s, os, now))
    decreases |os|
  {
    if os != [] {
      var t := Insert(s, StampFill(os[0], now));
      InsertKeeps(s, StampFill(os[0], now));
      FillAllKeeps(t, os[1..], now);
      forall kind, k, id ensures Excess(FillAll(s, os, now), kind, k, id) >= Excess(s, kind, k, id) {
        assert Excess(t, kind, k, id) >= Excess(s, kind, k, id);
      }
    }
  }

  // Batch insertion without de-indexing: the overwrite's last step

  /** No offer of the batch replaces a stored one or an earlier one of the batch. */
  ghost predicate AllFresh(s: State, os: seq<Offer>) {
    DistinctIds(os) && !AnyStored(s, os)
  }

  lemma {:induction false} FillAllExactIff(s: State, os: seq<Offer>, now: Time)
    requires WellFormed(s) && Exact(s) && AllValid(os)
    ensures Exact(FillAll(s, os, now)) <==> AllFresh(s, os)
    decreases |os|
  {
    if os != [] {
      var v := StampFill(os[0], now);
      var t := Insert(s, v);
      InsertKeeps(s, v);
      FillAllKeeps(t, os[1..], now);
      if v.id in s.offers {
        // the entry of the replaced offer stays behind
        var k := TokenKey(s.offers[v.id].terms.collateralToken, s.offers[v.id].terms.borrowToken);
        ExcessInsert(s, v, ByToken, k, v.id);
        assert Excess(t, ByToken, k, v.id) > 0;
        assert Excess(FillAll(t, os[1..], now), ByToken, k, v.id) > 0;
        assert os[0].id in s.offers;
      } else {
        ExactPasses(s, t);
        FillAllExactIff(t, os[1..], now);
        FreshTail(s, os, v);
      }
    }
  }

  lemma FreshTail(s: State, os: seq<Offer>, v: Offer)
    requires os != [] && v.id == os[0].id && v.id !in s.offers
    ensures AllFresh(Insert(s, v), os[1..]) <==> AllFresh(s, os)
  {
    var t := Insert(s, v);
    assert forall i :: 1 <= i < |os| ==> os[i] == os[1..][i - 1];
    if AllFresh(s, os) {
      forall i | 0 <= i < |os[1..]| ensures os[1..][i].id !in t.offers {
        assert os[1..][i] == os[i + 1];
      }
    }
    if AllFresh(t, os[1..]) {
      forall i, j | 0 <= i < j < |os| ensures os[i].id != os[j].id {
        assert os[j] == os[1..][j - 1];
        assert os[j].id !in t.offers;
        if i > 0 { assert os[i] == os[1..][i - 1]; }
      }
      forall i | 0 <= i < |os| ensures os[i].id !in s.offers {
        if i > 0 { assert os[1..][i - 1].id !in t.offers; }
      }
    }
  }

  // Batch update against the offers looked up beforehand

  /** `o` is filed under no key under which `prev` is not. */
  predicate SameKeys(o: Offer, prev: Offer) {
    && (o.details.lenderAddress.None? || o.details.lenderAddress == prev.details.lenderAddress)
    && TokenKey(o.terms.collateralToken, o.terms.borrowToken) == TokenKey(prev.terms.collateralToken, prev.terms.borrowToken)
    && o.terms.offerType == prev.terms.offerType
  }

  /** Every offer of the batch that a later one replaces keeps the keys of the offer held
      before the batch. */
  ghost predicate UpdatesAgree(olds: map<string, Offer>, os: seq<Offer>)
    requires forall i :: 0 <= i < |os| ==> os[i].id in olds
  {
    forall i, j :: 0 <= i < j < |os| && os[i].id == os[j].id ==> SameKeys(os[i], olds[os[i].id])
  }

  /** Halfway through a batch update: what a repeated ID now holds. */
  ghost predicate Midway(s: State, olds: map<string, Offer>, os: seq<Offer>)
    requires forall i :: 0 <= i < |os| ==> os[i].id in olds
  {
    && KeyedById(olds)
    && forall i :: 0 <= i < |os| ==>
         os[i].id in s.offers && s.offers[os[i].id].created == olds[os[i].id].created
         && SameKeys(s.offers[os[i].id], olds[os[i].id])
  }

  /** De-indexing an offer's predecessor instead of the offer, when their keys agree. */
  lemma UnindexEither(s: State, prev: Offer)
    requires Exact(s) && prev.id in s.offers && s.offers[prev.id].id == prev.id
    requires SameKeys(s.offers[prev.id], prev)
    ensures Unindex(s, prev) == Unindex(s, s.offers[prev.id])
  {
    var cur := s.offers[prev.id];
    assert Pull(s.indexes.lender, KeyOf(ByLender, prev), prev.id)
        == Pull(s.indexes.lender, KeyOf(ByLender, cur), cur.id) by {
      if cur.details.lenderAddress.None? && prev.details.lenderAddress.Some? {
        LenderNotFiled(s, prev, prev.details.lenderAddress.value);
      }
    }
    assert KeyOf(ByToken, prev) == KeyOf(ByToken, cur);
    assert KeyOf(ByType, prev) == KeyOf(ByType, cur);
  }

  lemma LenderNotFiled(s: State, prev: Offer, k: string)
    requires Exact(s) && prev.details.lenderAddress == Some(k)
    requires prev.id in s.offers && s.offers[prev.id].details.lenderAddress.None?
    ensures Pull(s.indexes.lender, KeyOf(ByLender, prev), prev.id) == s.indexes.lender
  {
    assert Excess(s, ByLender, k, prev.id) == 0;
    assert NoEmptyList(s.indexes.At(ByLender));
    PullAbsent(s.indexes.lender, prev.details.lenderAddress, prev.id);
  }

  lemma {:induction false} AgreedUpdateIsUpsert(s: State, olds: map<string, Offer>, os: seq<Offer>, now: Time)
    requires WellFormed(s) && Exact(s) && AllValid(os)
    requires forall i :: 0 <= i < |os| ==> os[i].id in olds
    requires Midway(s, olds, os) && UpdatesAgree(olds, os)
    ensures UpdateAll(s, olds, os, now).(lastUpdate := now) == UpsertAll(s, os, now).(lastUpdate := now)
    decreases |os|
  {
    if os != [] {
      var prev := olds[os[0].id];
      var v := StampKeep(os[0], prev, now);
      UnindexEither(s, prev);
      var t := Insert(Unindex(s, prev), v);
      UpsertKeeps(s, os[0], now);
      assert t.(lastUpdate := now) == Upsert(s, os[0], now);
      Touched(t, now);
      assert Midway(t, olds, os[1..]) by {
        forall i | 0 <= i < |os[1..]|
          ensures os[1..][i].id in t.offers
          ensures t.offers[os[1..][i].id].created == olds[os[1..][i].id].created
          ensures SameKeys(t.offers[os[1..][i].id], olds[os[1..][i].id])
        {
          assert os[1..][i] == os[i + 1];
        }
      }
      AgreedUpdateIsUpsert(t, olds, os[1..], now);
      UpsertAllTouched(t, os[1..], now);
    }
  }

  lemma {:induction false} UpsertAllTouched(s: State, os: seq<Offer>, now: Time)
    ensures UpsertAll(s.(lastUpdate := now), os, now).(lastUpdate := now)
         == UpsertAll(s, os, now).(lastUpdate := now)
    decreases |os|
  {
    if os != [] {
      assert Upsert(s.(lastUpdate := now), os[0], now) == Upsert(s, os[0], now);
    }
  }

  lemma StepExcess(s: State, olds: map<string, Offer>, o: Offer, now: Time, kind: Kind, k: string, id: string)
    requires KeyedById(olds) && o.id in olds
    requires id in olds && KeyOf(kind, olds[id]) != Some(k)
    ensures Excess(UpdateStep(s, olds, o, now), kind, k, id)
         == Excess(s, kind, k, id) + if id == o.id then Due(s, kind, k, id) else 0
    ensures id != o.id ==> Due(UpdateStep(s, olds, o, now), kind, k, id) == Due(s, kind, k, id)
  {
    ExcessReplace(s, olds[o.id], StampKeep(o, olds[o.id], now), kind, k, id);
  }

  ghost predicate Mentions(os: seq<Offer>, id: string) {
    exists i :: 0 <= i < |os| && os[i].id == id
  }

  /** An entry under a key that the replaced offer did not have is never taken out again. */
  lemma {:induction false} StrayEntryStays(s: State, olds: map<string, Offer>, os: seq<Offer>, now: Time,
                                           kind: Kind, k: string, id: string)
    requires KeyedById(olds) && id in olds && KeyOf(kind, olds[id]) != Some(k)
    requires forall i :: 0 <= i < |os| ==> os[i].id in olds
    ensures Excess(UpdateAll(s, olds, os, now), kind, k, id) >= Excess(s, kind, k, id)
    ensures Mentions(os, id) && Due(s, kind, k, id) == 1 ==>
              Excess(UpdateAll(s, olds, os, now), kind, k, id) > Excess(s, kind, k, id)
    decreases |os|
  {
    if os != [] {
      StepExcess(s, olds, os[0], now, kind, k, id);
      StrayEntryStays(UpdateStep(s, olds, os[0], now), olds, os[1..], now, kind, k, id);
      MentionsTail(os, id);
    }
  }

  lemma MentionsTail(os: seq<Offer>, id: string)
    requires os != []
    ensures Mentions(os, id) <==> os[0].id == id || Mentions(os[1..], id)
  {
    forall i | 1 <= i < |os| && os[i].id == id ensures Mentions(os[1..], id) {
      assert os[1..][i - 1] == os[i];
    }
  }

  lemma StepMakesDue(s: State, olds: map<string, Offer>, o: Offer, now: Time, kind: Kind, k: string)
    requires WellFormed(s) && Validate(o) == Ok && o.id in olds && olds[o.id].id == o.id
    requires KeyOf(kind, o) == Some(k)
    ensures WellFormed(UpdateStep(s, olds, o, now))
    ensures Due(UpdateStep(s, olds, o, now), kind, k, o.id) == 1
    ensures Excess(UpdateStep(s, olds, o, now), kind, k, o.id) >= 0
  {
    ReplaceKeeps(s, olds[o.id], StampKeep(o, olds[o.id], now));
  }

  /** Two offers of the batch share an ID and the earlier one has a key of its own. */
  lemma {:induction false} StrayEntryAppears(s: State, olds: map<string, Offer>, os: seq<Offer>, now: Time,
                                             i: nat, j: nat, kind: Kind, k: string)
    requires WellFormed(s) && AllValid(os) && KeyedById(olds) && i < j < |os| && os[i].id == os[j].id
    requires forall n :: 0 <= n < |os| ==> os[n].id in olds
    requires KeyOf(kind, os[i]) == Some(k) && KeyOf(kind, olds[os[i].id]) != Some(k)
    ensures Excess(UpdateAll(s, olds, os, now), kind, k, os[i].id) > 0
    decreases |os|
  {
    var rest := os[1..];
    assert rest[j - 1] == os[j];
    ReplaceKeeps(s, olds[os[0].id], StampKeep(os[0], olds[os[0].id], now));
    if i == 0 {
      StepMakesDue(s, olds, os[0], now, kind, k);
      assert Mentions(rest, os[0].id);
      StrayEntryStays(UpdateStep(s, olds, os[0], now), olds, rest, now, kind, k, os[0].id);
    } else {
      assert rest[i - 1] == os[i];
      StrayEntryAppears(UpdateStep(s, olds, os[0], now), olds, rest, now, i - 1, j - 1, kind, k);
    }
  }

  lemma DisagreementLeavesStray(s: State, os: seq<Offer>, now: Time)
    requires WellFormed(s) && AllValid(os) && AllStored(s, os)
    requires !UpdatesAgree(s.offers, os)
    ensures !Exact(UpdateAll(s, s.offers, os, now))
  {
    var i, j :| 0 <= i < j < |os| && os[i].id == os[j].id && !SameKeys(os[i], s.offers[os[i].id]);
    var prev := s.offers[os[i].id];
    var kind := if KeyOf(ByToken, os[i]) != KeyOf(ByToken, prev) then ByToken
                else if os[i].terms.offerType != prev.terms.offerType then ByType else ByLender;
    var k := KeyOf(kind, os[i]).value;
    StrayEntryAppears(s, s.offers, os, now, i, j, kind, k);
  }

  /** A batch update of stored offers leaves the indexes exact, and is the same as upserting the
      offers one by one, if and only if the repeated IDs keep their keys. */
  lemma UpdateAllExactIff(s: State, os: seq<Offer>, now: Time)
    requires WellFormed(s) && Exact(s) && AllValid(os) && AllStored(s, os)
    ensures Exact(UpdateAll(s, s.offers, os, now)) <==> UpdatesAgree(s.offers, os)
    ensures UpdateAll(s, s.offers, os, now).(lastUpdate := now) == UpsertAll(s, os, now).(lastUpdate := now)
            <==> UpdatesAgree(s.offers, os)
  {
    var t := UpdateAll(s, s.offers, os, now);
    var u := UpsertAll(s, os, now);
    UpsertAllKeeps(s, os, now);
    Touched(u, now);
    Touched(t, now);
    if UpdatesAgree(s.offers, os) {
      AgreedUpdateIsUpsert(s, s.offers, os, now);
    } else {
      DisagreementLeavesStray(s, os, now);
    }
  }
}
