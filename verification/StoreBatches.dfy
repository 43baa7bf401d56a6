/** The batch operations against their single counterparts, and the filtered overwrite against
    what it is for. */
module StoreBatches {
  import opened Types
  import opened IndexLists
  import opened StoreSpec
  import opened StoreInvariants
  import opened StoreRuns
  import opened StoreTheorems

  // One call after another, stopping at the first error

  function CreateEach(s: State, batch: seq<Option<Offer>>, now: Time): Reply
    decreases |batch|
  {
    if batch == [] then Reply(s, Ok)
    else
      var r := Create(s, batch[0], now);
      if r.outcome == Ok then CreateEach(r.state, batch[1..], now) else r
  }

  function UpsertEach(s: State, batch: seq<Option<Offer>>, now: Time): Reply
    decreases |batch|
  {
    if batch == [] then Reply(s, Ok)
    else
      var r := CreateOrUpdate(s, batch[0], now);
      if r.outcome == Ok then UpsertEach(r.state, batch[1..], now) else r
  }

  /** One delete after another; deleting what is already gone changes nothing. */
  function DeleteEach(s: State, ids: seq<string>, now: Time): State
    decreases |ids|
  {
    if ids == [] then s else DeleteEach(Delete(s, ids[0], now).state, ids[1..], now)
  }

  // BulkCreate

  predicate Creatable(s: State, batch: seq<Option<Offer>>) {
    && (forall o :: o in batch ==> Checked(o) == Ok)
    && (forall i, j :: 0 <= i < j < |batch| && batch[i].Some? && batch[j].Some?
          ==> batch[i].value.id != batch[j].value.id)
    && (forall i :: 0 <= i < |batch| && batch[i].Some? ==> batch[i].value.id !in s.offers)
  }

  lemma CreatableTail(s: State, batch: seq<Option<Offer>>, now: Time)
    requires batch != [] && Create(s, batch[0], now).outcome == Ok
    ensures Creatable(s, batch) <==> Creatable(Create(s, batch[0], now).state, batch[1..])
  {
    var t := Create(s, batch[0], now).state;
    assert forall o :: o in batch <==> o == batch[0] || o in batch[1..];
    assert forall i :: 1 <= i < |batch| ==> batch[i] == batch[1..][i - 1];
    assert forall id :: id in t.offers <==> id in s.offers || id == batch[0].value.id;
    if Creatable(t, batch[1..]) {
      forall i, j | 0 <= i < j < |batch| && batch[i].Some? && batch[j].Some?
        ensures batch[i].value.id != batch[j].value.id
      {
        assert batch[j] == batch[1..][j - 1];
        if i > 0 { assert batch[i] == batch[1..][i - 1]; }
      }
    }
    if Creatable(s, batch) {
      forall i | 0 <= i < |batch[1..]| && batch[1..][i].Some?
        ensures batch[1..][i].value.id !in t.offers
      {
        assert batch[1..][i] == batch[i + 1];
      }
    }
  }

  lemma {:induction false} CreateEachFolds(s: State, batch: seq<Option<Offer>>, now: Time)
    ensures CreateEach(s, batch, now).outcome == Ok <==> Creatable(s, batch)
    ensures Creatable(s, batch) ==>
      && (forall o :: o in batch ==> o.Some?)
      && CreateEach(s, batch, now).state.(lastUpdate := now)
         == CreateAll(s, Offers(batch), now).(lastUpdate := now)
    decreases |batch|
  {
    if batch != [] && Create(s, batch[0], now).outcome == Ok {
      var t := Create(s, batch[0], now).state;
      CreateEachFolds(t, batch[1..], now);
      CreatableTail(s, batch, now);
      if Creatable(s, batch) {
        assert forall o :: o in batch <==> o == batch[0] || o in batch[1..];
        assert Offers(batch)[1..] == Offers(batch[1..]);
        CreateAllTouched(Insert(s, StampNew(batch[0].value, now)), Offers(batch[1..]), now);
      }
    } else if batch != [] {
      assert batch[0] in batch;
    }
  }

  lemma {:induction false} CreateAllTouched(s: State, os: seq<Offer>, now: Time)
    ensures CreateAll(s.(lastUpdate := now), os, now) == CreateAll(s, os, now).(lastUpdate := now)
    decreases |os|
  {
    if os != [] {
      var t := Insert(s, StampNew(os[0], now));
      assert Insert(s.(lastUpdate := now), StampNew(os[0], now)) == t.(lastUpdate := now);
      CreateAllTouched(t, os[1..], now);
    }
  }

  /** A batch creation succeeds exactly when creating the offers one by one does, and then does
      the same; otherwise it changes nothing. */
  lemma BulkCreateIsCreateEach(s: State, batch: seq<Option<Offer>>, now: Time)
    requires batch != []
    ensures var bulk, each := BulkCreate(s, batch, now), CreateEach(s, batch, now);
            && (bulk.outcome == Ok <==> each.outcome == Ok)
            && (bulk.outcome == Ok ==> bulk.state == each.state)
            && (bulk.outcome != Ok ==> bulk.state == s)
  {
    CheckNewPasses(batch);
    CreateEachFolds(s, batch, now);
    if CheckNew(batch) == Ok {
      assert forall i :: 0 <= i < |batch| ==> batch[i] in batch;
      assert forall i :: 0 <= i < |batch| ==> Offers(batch)[i] == batch[i].value;
    }
    if Creatable(s, batch) {
      LastCreateTouches(s, batch, now);
    }
  }

  lemma {:induction false} LastCreateTouches(s: State, batch: seq<Option<Offer>>, now: Time)
    requires batch != [] && CreateEach(s, batch, now).outcome == Ok
    ensures CreateEach(s, batch, now).state.lastUpdate == now
    decreases |batch|
  {
    if |batch| > 1 {
      LastCreateTouches(Create(s, batch[0], now).state, batch[1..], now);
    }
  }

  // BulkCreateOrUpdate

  lemma {:induction false} UpsertEachFolds(s: State, batch: seq<Option<Offer>>, now: Time)
    ensures UpsertEach(s, batch, now).outcome == Ok <==> CheckAll(batch) == Ok
    ensures CheckAll(batch) == Ok ==> UpsertEach(s, batch, now).state == UpsertAll(s, Offers(batch), now)
    ensures CheckAll(batch) == Ok && batch != [] ==> UpsertEach(s, batch, now).state.lastUpdate == now
    decreases |batch|
  {
    if batch != [] && Checked(batch[0]) == Ok {
      UpsertEachFolds(Upsert(s, batch[0].value, now), batch[1..], now);
      if CheckAll(batch) == Ok {
        assert forall o :: o in batch[1..] ==> o in batch;
        assert Offers(batch)[1..] == Offers(batch[1..]);
      }
    }
  }

  /** A batch upsert, repeated IDs included, is the upserts in order; a bad offer anywhere in it
      changes nothing. */
  lemma BulkUpsertIsUpsertEach(s: State, batch: seq<Option<Offer>>, now: Time)
    ensures var bulk, each := BulkCreateOrUpdate(s, batch, now), UpsertEach(s, batch, now);
            && (bulk.outcome == Ok <==> each.outcome == Ok)
            && (bulk.outcome == Ok ==> bulk.state == each.state)
            && (bulk.outcome != Ok ==> bulk.state == s)
  {
    UpsertEachFolds(s, batch, now);
  }

  /** Updates of distinct offers de-index what is stored, as upserts do. */
  lemma {:induction false} DistinctUpdateIsUpsert(s: State, olds: map<string, Offer>, os: seq<Offer>, now: Time)
    requires DistinctIds(os)
    requires forall i :: 0 <= i < |os| ==> os[i].id in s.offers && os[i].id in olds && s.offers[os[i].id] == olds[os[i].id]
    ensures UpdateAll(s, olds, os, now).(lastUpdate := now) == UpsertAll(s, os, now).(lastUpdate := now)
    decreases |os|
  {
    if os != [] {
      var t := UpdateStep(s, olds, os[0], now);
      assert t.(lastUpdate := now) == Upsert(s, os[0], now);
      assert forall i :: 0 <= i < |os[1..]| ==> os[1..][i] == os[i + 1];
      DistinctUpdateIsUpsert(t, olds, os[1..], now);
      UpsertAllTouched(t, os[1..], now);
    }
  }

  /** Repetitions or not, the batch stores what the upserts store. */
  lemma {:induction false} UpdateStoresAlike(s: State, t: State, olds: map<string, Offer>, os: seq<Offer>, now: Time)
    requires s.offers == t.offers
    requires forall i :: 0 <= i < |os| ==>
      os[i].id in s.offers && os[i].id in olds && s.offers[os[i].id].created == olds[os[i].id].created
    ensures UpdateAll(s, olds, os, now).offers == UpsertAll(t, os, now).offers
    decreases |os|
  {
    if os != [] {
      assert forall i :: 0 <= i < |os[1..]| ==> os[1..][i] == os[i + 1];
      UpdateStoresAlike(UpdateStep(s, olds, os[0], now), Upsert(t, os[0], now), olds, os[1..], now);
    }
  }

  /** From any state a batch update that fails changes nothing, and one that does not stores what
      the upserts in order store; it is those upserts, index lists and all, if the IDs are distinct,
      and from exact indexes if and only if repeated IDs keep their keys. */
  lemma BulkUpdateIsUpsertEachIff(s: State, batch: seq<Option<Offer>>, now: Time)
    ensures var bulk, each := BulkUpdate(s, batch, now), UpsertEach(s, batch, now);
            && (bulk.outcome != Ok ==> bulk.state == s)
            && (bulk.outcome == Ok ==>
                  && bulk.state.offers == each.state.offers && each.outcome == Ok
                  && (DistinctIds(Offers(batch)) ==> bulk.state == each.state)
                  && (WellFormed(s) && Exact(s) ==>
                        (bulk.state == each.state <==> IndexSafe(s, OpBulkUpdate(batch)))))
  {
    if batch != [] && BulkUpdate(s, batch, now).outcome == Ok {
      BatchOffers(batch);
      UpsertEachFolds(s, batch, now);
      UpdateStoresAlike(s, s, s.offers, Offers(batch), now);
      if DistinctIds(Offers(batch)) {
        DistinctUpdateIsUpsert(s, s.offers, Offers(batch), now);
      }
      if WellFormed(s) && Exact(s) {
        UpdateAllExactIff(s, Offers(batch), now);
      }
    }
  }

  // BulkDelete

  /** No index files `o` under a key of its own, not even in an empty list. */
  ghost predicate Gone(s: State, o: Offer) {
    forall kind: Kind :: Absent(s.indexes.At(kind), KeyOf(kind, o), o.id)
  }

  ghost predicate Absent(m: Index, key: Option<string>, id: string) {
    key.Some? ==> Occ(m, key.value, id) == 0 && (key.value in m ==> m[key.value] != [])
  }

  /** No index files `o` more than once under a key of its own. */
  ghost predicate Single(s: State, o: Offer) {
    forall kind: Kind :: KeyOf(kind, o).Some? ==> Filed(s, kind, KeyOf(kind, o).value, o.id) <= 1
  }

  /** The offers looked up for `ids` are stored and, if they come up again, filed once; or they
      are gone already. */
  ghost predicate Removable(s: State, olds: map<string, Offer>, ids: seq<string>) {
    forall i :: 0 <= i < |ids| ==>
      && ids[i] != "" && ids[i] in olds && olds[ids[i]].id == ids[i]
      && if ids[i] in s.offers
         then olds[ids[i]] == s.offers[ids[i]] && (ids[i] in ids[i + 1..] ==> Single(s, olds[ids[i]]))
         else Gone(s, olds[ids[i]])
  }

  lemma PullKeepsAbsent(m: Index, key: Option<string>, id: string, key': Option<string>, id': string)
    ensures Absent(m, key, id) ==> Absent(Pull(m, key', id'), key, id)
    ensures key == key' && id == id' && (key.Some? ==> Occ(m, key.value, id) <= 1) ==> Absent(Pull(m, key', id'), key, id)
  {
    OccPull(m, key', id');
  }

  lemma PullFromNowhere(m: Index, key: Option<string>, id: string)
    requires Absent(m, key, id)
    ensures Pull(m, key, id) == m
  {
    if key.Some? {
      RemoveAbsent(ListAt(m, key.value), id);
    }
  }

  lemma UnindexGone(s: State, o: Offer)
    requires Gone(s, o)
    ensures Unindex(s, o) == s
  {
    forall kind: Kind ensures Pull(s.indexes.At(kind), KeyOf(kind, o), o.id) == s.indexes.At(kind) {
      PullFromNowhere(s.indexes.At(kind), KeyOf(kind, o), o.id);
    }
    assert s.indexes.At(ByLender) == s.indexes.lender;
    assert s.indexes.At(ByToken) == s.indexes.token;
    assert s.indexes.At(ByType) == s.indexes.offerType;
  }

  /** What de-indexing one offer makes of another, or of itself. */
  lemma UnindexKeeps(s: State, o: Offer, p: Offer)
    ensures Gone(s, p) ==> Gone(Unindex(s, o), p)
    ensures Single(s, p) ==> Single(Unindex(s, o), p)
    ensures Single(s, o) ==> Gone(Unindex(s, o), o)
  {
    var t := Unindex(s, o);
    forall kind: Kind
      ensures Gone(s, p) ==> Absent(t.indexes.At(kind), KeyOf(kind, p), p.id)
      ensures Single(s, p) && KeyOf(kind, p).Some? ==> Filed(t, kind, KeyOf(kind, p).value, p.id) <= 1
      ensures Single(s, o) ==> Absent(t.indexes.At(kind), KeyOf(kind, o), o.id)
    {
      var m := s.indexes.At(kind);
      PullKeepsAbsent(m, KeyOf(kind, p), p.id, KeyOf(kind, o), o.id);
      PullKeepsAbsent(m, KeyOf(kind, o), o.id, KeyOf(kind, o), o.id);
      OccPull(m, KeyOf(kind, o), o.id);
      assert Gone(s, p) ==> Absent(m, KeyOf(kind, p), p.id);
      assert Single(s, o) && KeyOf(kind, o).Some? ==> Filed(s, kind, KeyOf(kind, o).value, o.id) <= 1;
      assert Single(s, p) && KeyOf(kind, p).Some? ==> Filed(s, kind, KeyOf(kind, p).value, p.id) <= 1;
    }
  }

  lemma RemovableTail(s: State, olds: map<string, Offer>, ids: seq<string>)
    requires ids != [] && Removable(s, olds, ids)
    ensures Removable(DropOne(s, olds, ids[0]), olds, ids[1..])
  {
    var t, rest := DropOne(s, olds, ids[0]), ids[1..];
    var u := Unindex(s, olds[ids[0]]);
    assert t.indexes == u.indexes;
    forall i | 0 <= i < |rest|
      ensures rest[i] != "" && rest[i] in olds && olds[rest[i]].id == rest[i]
      ensures if rest[i] in t.offers
              then olds[rest[i]] == t.offers[rest[i]] && (rest[i] in rest[i + 1..] ==> Single(t, olds[rest[i]]))
              else Gone(t, olds[rest[i]])
    {
      assert rest[i] == ids[i + 1] && rest[i + 1..] == ids[i + 2..];
      UnindexKeeps(s, olds[ids[0]], olds[rest[i]]);
      assert Single(u, olds[rest[i]]) ==> Single(t, olds[rest[i]]);
      assert Gone(u, olds[rest[i]]) ==> Gone(t, olds[rest[i]]);
    }
  }

  lemma {:induction false} DropAllIsDeleteEach(s: State, olds: map<string, Offer>, ids: seq<string>, now: Time)
    requires Removable(s, olds, ids)
    ensures DropAll(s, olds, ids).(lastUpdate := now) == DeleteEach(s, ids, now).(lastUpdate := now)
    decreases |ids|
  {
    if ids != [] {
      var t := DropOne(s, olds, ids[0]);
      RemovableTail(s, olds, ids);
      if ids[0] !in s.offers {
        UnindexGone(s, olds[ids[0]]);
        assert s.offers - {ids[0]} == s.offers;
      }
      DropAllIsDeleteEach(t, olds, ids[1..], now);
      DeleteEachTouched(t, ids[1..], now);
    }
  }

  lemma {:induction false} DeleteEachTouched(s: State, ids: seq<string>, now: Time)
    ensures DeleteEach(s.(lastUpdate := now), ids, now).(lastUpdate := now)
         == DeleteEach(s, ids, now).(lastUpdate := now)
    decreases |ids|
  {
    if ids != [] {
      if ids[0] == "" || ids[0] !in s.offers {
        DeleteEachTouched(s, ids[1..], now);
      } else {
        assert Delete(s.(lastUpdate := now), ids[0], now).state == Delete(s, ids[0], now).state;
      }
    }
  }

  /** How often the entry of a deleted offer is taken out: once for every time its ID is named. */
  lemma {:induction false} DropAllFiled(s: State, olds: map<string, Offer>, ids: seq<string>, kind: Kind, id: string)
    requires id in olds && KeyOf(kind, olds[id]).Some? && forall x :: x in olds ==> olds[x].id == x
    requires forall i :: 0 <= i < |ids| ==> ids[i] in olds
    ensures var k := KeyOf(kind, olds[id]).value;
            var n := Filed(s, kind, k, id) - multiset(ids)[id];
            Filed(DropAll(s, olds, ids), kind, k, id) == if n < 0 then 0 else n
    decreases |ids|
  {
    if ids != [] {
      assert ids == [ids[0]] + ids[1..];
      FiledUnindex(s, olds[ids[0]], kind, KeyOf(kind, olds[id]).value, id);
      var t := DropOne(s, olds, ids[0]);
      assert t.indexes == Unindex(s, olds[ids[0]]).indexes;
      DropAllFiled(t, olds, ids[1..], kind, id);
    }
  }

  lemma {:induction false} DeleteEachFiled(s: State, ids: seq<string>, now: Time, kind: Kind, k: string, id: string)
    requires forall x :: x in s.offers ==> s.offers[x].id == x
    ensures Filed(DeleteEach(s, ids, now), kind, k, id) >= Filed(s, kind, k, id) - if id in s.offers then 1 else 0
    decreases |ids|
  {
    if ids != [] {
      var t := Delete(s, ids[0], now).state;
      if ids[0] in s.offers {
        FiledUnindex(s, s.offers[ids[0]], kind, k, id);
        assert t.indexes == (if ids[0] == "" then s else Unindex(s, s.offers[ids[0]])).indexes;
      }
      DeleteEachFiled(t, ids[1..], now, kind, k, id);
    }
  }

  /** Whether an offer whose ID a batch delete repeats has stale or repeated entries under a key
      of its own. */
  ghost predicate SurplusRepeated(s: State, ids: seq<string>)
    requires forall i :: 0 <= i < |ids| ==> ids[i] in s.offers
  {
    exists i, j, kind: Kind :: 0 <= i < j < |ids| && ids[i] == ids[j] && Surplus(s, kind, s.offers[ids[i]])
  }

  ghost predicate Surplus(s: State, kind: Kind, o: Offer) {
    KeyOf(kind, o).Some? && Excess(s, kind, KeyOf(kind, o).value, o.id) > 0
  }

  lemma NoSurplusIsRemovable(s: State, ids: seq<string>)
    requires WellFormed(s) && forall i :: 0 <= i < |ids| ==> ids[i] in s.offers
    requires !SurplusRepeated(s, ids)
    ensures Removable(s, s.offers, ids)
  {
    forall i | 0 <= i < |ids| && ids[i] in ids[i + 1..] ensures Single(s, s.offers[ids[i]]) {
      var j :| i < j < |ids| && ids[j] == ids[i];
      forall kind: Kind | KeyOf(kind, s.offers[ids[i]]).Some?
        ensures Filed(s, kind, KeyOf(kind, s.offers[ids[i]]).value, s.offers[ids[i]].id) <= 1
      {
        assert !Surplus(s, kind, s.offers[ids[i]]);
      }
    }
  }

  lemma {:induction false} DistinctDropsAreDeletes(s: State, olds: map<string, Offer>, ids: seq<string>, now: Time)
    requires forall i, j :: 0 <= i < j < |ids| ==> ids[i] != ids[j]
    requires forall i :: 0 <= i < |ids| ==>
      ids[i] != "" && ids[i] in s.offers && ids[i] in olds && s.offers[ids[i]] == olds[ids[i]]
    ensures DropAll(s, olds, ids).(lastUpdate := now) == DeleteEach(s, ids, now).(lastUpdate := now)
    decreases |ids|
  {
    if ids != [] {
      var t := DropOne(s, olds, ids[0]);
      assert forall i :: 0 <= i < |ids[1..]| ==> ids[1..][i] == ids[i + 1];
      DistinctDropsAreDeletes(t, olds, ids[1..], now);
      DeleteEachTouched(t, ids[1..], now);
    }
  }

  lemma SurplusMakesDifference(s: State, ids: seq<string>, now: Time)
    requires WellFormed(s) && forall i :: 0 <= i < |ids| ==> ids[i] in s.offers
    requires SurplusRepeated(s, ids)
    ensures DropAll(s, s.offers, ids).indexes != DeleteEach(s, ids, now).indexes
  {
    var i, j, kind: Kind :| 0 <= i < j < |ids| && ids[i] == ids[j] && Surplus(s, kind, s.offers[ids[i]]);
    var k := KeyOf(kind, s.offers[ids[i]]).value;
    TwiceNamed(ids, i, j);
    DropAllFiled(s, s.offers, ids, kind, ids[i]);
    DeleteEachFiled(s, ids, now, kind, k, ids[i]);
    assert Filed(s, kind, k, ids[i]) >= 2;
    assert Filed(DropAll(s, s.offers, ids), kind, k, ids[i]) < Filed(DeleteEach(s, ids, now), kind, k, ids[i]);
  }

  lemma TwiceNamed(ids: seq<string>, i: nat, j: nat)
    requires i < j < |ids| && ids[i] == ids[j]
    ensures multiset(ids)[ids[i]] >= 2
  {
    var a, b := ids[..j], ids[j..];
    assert ids == a + b && a[i] in multiset(a) && b[0] in multiset(b);
    assert multiset(ids) == multiset(a) + multiset(b);
  }

  /** From any state a batch delete succeeds exactly when every ID is stored and not empty; it then
      removes that set of IDs, and an error changes nothing. With distinct IDs it is the single
      deletes; and with repeated ones, in a reachable state, if and only if no offer whose ID is
      repeated has surplus entries under its own keys. */
  lemma BulkDeleteIsDeleteEach(s: State, ids: seq<string>, now: Time)
    ensures var bulk, each := BulkDelete(s, ids, now), DeleteEach(s, ids, now);
            && (bulk.outcome == Ok <==> forall i :: 0 <= i < |ids| ==> ids[i] in s.offers && ids[i] != "")
            && (bulk.outcome != Ok ==> bulk.state == s)
            && (bulk.outcome == Ok ==>
                  && (forall id :: id in bulk.state.offers <==> id in s.offers && id !in ids)
                  && (forall id :: id in bulk.state.offers ==> bulk.state.offers[id] == s.offers[id])
                  && ((forall i, j :: 0 <= i < j < |ids| ==> ids[i] != ids[j]) ==>
                        bulk.state.(lastUpdate := now) == each.(lastUpdate := now))
                  && (WellFormed(s) ==>
                        (bulk.state.(lastUpdate := now) == each.(lastUpdate := now) <==> !SurplusRepeated(s, ids))))
  {
    if ids != [] && CheckIds(s, ids) == Ok {
      DropAllOffers(s, s.offers, ids);
      if forall i, j :: 0 <= i < j < |ids| ==> ids[i] != ids[j] {
        DistinctDropsAreDeletes(s, s.offers, ids, now);
      }
      if WellFormed(s) && !SurplusRepeated(s, ids) {
        NoSurplusIsRemovable(s, ids);
        DropAllIsDeleteEach(s, s.offers, ids, now);
      } else if WellFormed(s) {
        SurplusMakesDifference(s, ids, now);
      }
    }
  }
}
