/** The store over every run. */
module StoreTheorems {
  import opened Types
  import opened IndexLists
  import opened StoreSpec
  import opened StoreInvariants
  import opened StoreRuns

  lemma BatchOffers(batch: seq<Option<Offer>>)
    requires forall o :: o in batch ==> Checked(o) == Ok
    ensures (forall o :: o in batch ==> o.Some?) && AllValid(Offers(batch))
  {
    forall i | 0 <= i < |batch| ensures Validate(Offers(batch)[i]) == Ok {
      assert batch[i] in batch;
    }
  }

  lemma CreateKeeps(s: State, o: Option<Offer>, now: Time)
    requires WellFormed(s)
    ensures WellFormed(Create(s, o, now).state)
    ensures Exact(s) ==> Exact(Create(s, o, now).state)
  {
    if Create(s, o, now).outcome == Ok {
      var t := Insert(s, StampNew(o.value, now));
      InsertKeeps(s, StampNew(o.value, now));
      ExactPasses(s, t);
      Touched(t, now);
    }
  }

  lemma UpdateKeeps(s: State, o: Option<Offer>, now: Time)
    requires WellFormed(s)
    ensures WellFormed(Update(s, o, now).state)
    ensures Exact(s) ==> Exact(Update(s, o, now).state)
  {
    if Update(s, o, now).outcome == Ok {
      var prev := s.offers[o.value.id];
      var t := Insert(Unindex(s, prev), o.value.(updated := now));
      ReplaceKeeps(s, prev, o.value.(updated := now));
      ExactPasses(s, t);
      Touched(t, now);
    }
  }

  lemma DeleteKeeps(s: State, id: string, now: Time)
    requires WellFormed(s)
    ensures WellFormed(Delete(s, id, now).state)
    ensures Exact(s) ==> Exact(Delete(s, id, now).state)
  {
    if Delete(s, id, now).outcome == Ok {
      var t := Unindex(s, s.offers[id]).(offers := s.offers - {id});
      DropKeeps(s, s.offers[id], id);
      ExactPasses(s, t);
      Touched(t, now);
    }
  }

  lemma CreateOrUpdateKeeps(s: State, o: Option<Offer>, now: Time)
    requires WellFormed(s)
    ensures WellFormed(CreateOrUpdate(s, o, now).state)
    ensures Exact(s) ==> Exact(CreateOrUpdate(s, o, now).state)
  {
    if Checked(o) == Ok {
      UpsertKeeps(s, o.value, now);
    }
  }

  lemma BulkUpsertKeeps(s: State, batch: seq<Option<Offer>>, now: Time)
    requires WellFormed(s)
    ensures WellFormed(BulkCreateOrUpdate(s, batch, now).state)
    ensures Exact(s) ==> Exact(BulkCreateOrUpdate(s, batch, now).state)
  {
    if batch != [] && CheckAll(batch) == Ok {
      BatchOffers(batch);
      UpsertAllKeeps(s, Offers(batch), now);
      Touched(UpsertAll(s, Offers(batch), now), now);
    }
  }

  /** Whether a batch operation that passes its checks keeps to IDs it may touch only once. */
  ghost predicate IndexSafe(s: State, op: Op)
    requires Possible(s, op)
  {
    match op
    case OpBulkUpdate(batch) =>
      CheckAll(batch) == Ok && AllStored(s, Offers(batch)) ==> UpdatesAgree(s.offers, Offers(batch))
    case OpOverwrite(batch, filter, _) =>
      CheckAll(batch) == Ok ==> OverwriteSafe(s, Offers(batch), filter)
    case _ => true
  }

  /** The new offers have IDs of their own, none of them that of an offer the filter retains. */
  ghost predicate OverwriteSafe(s: State, os: seq<Offer>, filter: Option<OverwriteFilter>) {
    && DistinctIds(os)
    && forall i :: 0 <= i < |os| && os[i].id in s.offers ==> Selects(filter, s.offers[os[i].id])
  }

  lemma BulkCreateKeeps(s: State, batch: seq<Option<Offer>>, now: Time)
    requires WellFormed(s)
    ensures WellFormed(BulkCreate(s, batch, now).state)
    ensures Exact(s) ==> Exact(BulkCreate(s, batch, now).state)
  {
    if batch != [] && BulkCreate(s, batch, now).outcome == Ok {
      CheckNewPasses(batch);
      BatchOffers(batch);
      CreateAllKeeps(s, Offers(batch), now);
      Touched(CreateAll(s, Offers(batch), now), now);
    }
  }

  lemma BulkUpdateKeeps(s: State, batch: seq<Option<Offer>>, now: Time)
    requires WellFormed(s)
    ensures WellFormed(BulkUpdate(s, batch, now).state)
    ensures Exact(s) ==>
      (Exact(BulkUpdate(s, batch, now).state) <==> IndexSafe(s, OpBulkUpdate(batch)))
  {
    if batch == [] {
      assert UpdatesAgree(s.offers, []);
    } else if BulkUpdate(s, batch, now).outcome == Ok {
      BatchOffers(batch);
      UpdateAllKeeps(s, s.offers, Offers(batch), now);
      Touched(UpdateAll(s, s.offers, Offers(batch), now), now);
      if Exact(s) {
        UpdateAllExactIff(s, Offers(batch), now);
      }
    }
  }

  lemma BulkDeleteKeeps(s: State, ids: seq<string>, now: Time)
    requires WellFormed(s)
    ensures WellFormed(BulkDelete(s, ids, now).state)
    ensures Exact(s) ==> Exact(BulkDelete(s, ids, now).state)
  {
    if ids != [] && CheckIds(s, ids) == Ok {
      DropAllKeeps(s, s.offers, ids);
      Touched(DropAll(s, s.offers, ids), now);
    }
  }

  lemma OverwriteKeeps(s: State, batch: seq<Option<Offer>>, filter: Option<OverwriteFilter>,
                       order: seq<string>, now: Time)
    requires WellFormed(s) && Possible(s, OpOverwrite(batch, filter, order))
    ensures WellFormed(Apply(s, OpOverwrite(batch, filter, order), now).state)
    ensures Exact(s) ==>
      (Exact(Apply(s, OpOverwrite(batch, filter, order), now).state)
       <==> IndexSafe(s, OpOverwrite(batch, filter, order)))
  {
    if CheckAll(batch) == Ok {
      var kept := DropAll(s, s.offers, order);
      var os := Offers(batch);
      BatchOffers(batch);
      DropAllKeeps(s, s.offers, order);
      FillAllKeeps(kept, os, now);
      Touched(FillAll(kept, os, now), now);
      if Exact(s) {
        FillAllExactIff(kept, os, now);
        SafeIsFresh(s, os, filter, order);
      }
    }
  }

  lemma SafeIsFresh(s: State, os: seq<Offer>, filter: Option<OverwriteFilter>, order: seq<string>)
    requires Ranges(order, SelectedIds(s, filter))
    ensures AllFresh(DropAll(s, s.offers, order), os) <==> OverwriteSafe(s, os, filter)
  {
    DropAllOffers(s, s.offers, order);
    var kept := DropAll(s, s.offers, order);
    forall i | 0 <= i < |os|
      ensures os[i].id in kept.offers <==> os[i].id in s.offers && !Selects(filter, s.offers[os[i].id])
    {
      assert os[i].id in order <==> os[i].id in SelectedIds(s, filter);
    }
  }

  /** Whatever the caller passes, a call keeps what every reachable state satisfies; and from
      exact indexes it leaves exact indexes if and only if it is index-safe. */
  lemma CallKeeps(s: State, op: Op, now: Time)
    requires WellFormed(s) && Possible(s, op)
    ensures WellFormed(Apply(s, op, now).state)
    ensures Exact(s) ==> (Exact(Apply(s, op, now).state) <==> IndexSafe(s, op))
  {
    match op
    case OpCreate(o) => CreateKeeps(s, o, now);
    case OpUpdate(o) => UpdateKeeps(s, o, now);
    case OpDelete(id) => DeleteKeeps(s, id, now);
    case OpUpsert(o) => CreateOrUpdateKeeps(s, o, now);
    case OpBulkCreate(batch) => BulkCreateKeeps(s, batch, now);
    case OpBulkUpdate(batch) => BulkUpdateKeeps(s, batch, now);
    case OpBulkUpsert(batch) => BulkUpsertKeeps(s, batch, now);
    case OpBulkDelete(ids) => BulkDeleteKeeps(s, ids, now);
    case OpOverwrite(batch, filter, order) => OverwriteKeeps(s, batch, filter, order, now);
  }

  lemma EmptyIsExact()
    ensures WellFormed(EMPTY) && Exact(EMPTY)
  {
    assert forall kind: Kind :: EMPTY.indexes.At(kind) == map[];
  }

  /** Index completeness, for every run and with nothing asked of the caller. */
  lemma {:induction false} RunsStayWellFormed(s: State, calls: seq<Call>)
    requires WellFormed(s) && PossibleRun(s, calls)
    ensures WellFormed(Run(s, calls))
    decreases |calls|
  {
    if calls != [] {
      CallKeeps(s, calls[0].op, calls[0].now);
      RunsStayWellFormed(Apply(s, calls[0].op, calls[0].now).state, calls[1..]);
    }
  }

  ghost predicate SafeRun(s: State, calls: seq<Call>)
    requires PossibleRun(s, calls)
    decreases |calls|
  {
    calls == [] || (IndexSafe(s, calls[0].op)
                    && SafeRun(Apply(s, calls[0].op, calls[0].now).state, calls[1..]))
  }

  /** Index exactness, for every run of index-safe calls. */
  lemma {:induction false} SafeRunsStayExact(s: State, calls: seq<Call>)
    requires WellFormed(s) && Exact(s) && PossibleRun(s, calls) && SafeRun(s, calls)
    ensures WellFormed(Run(s, calls)) && Exact(Run(s, calls))
    decreases |calls|
  {
    if calls != [] {
      CallKeeps(s, calls[0].op, calls[0].now);
      SafeRunsStayExact(Apply(s, calls[0].op, calls[0].now).state, calls[1..]);
    }
  }

  /** What exactness says of one index: every list is non-empty and free of repetitions, and
      holds the IDs of exactly the stored offers with its key. */
  lemma ExactIndexReads(s: State, kind: Kind, k: string)
    requires Exact(s)
    ensures var ids := ListAt(s.indexes.At(kind), k);
            && (k in s.indexes.At(kind) <==> ids != [])
            && (forall i, j :: 0 <= i < j < |ids| ==> ids[i] != ids[j])
            && (forall id :: id in ids <==> id in s.offers && KeyOf(kind, s.offers[id]) == Some(k))
  {
    var m := s.indexes.At(kind);
    var ids := ListAt(m, k);
    assert NoEmptyList(m);
    forall id
      ensures id in ids <==> id in s.offers && KeyOf(kind, s.offers[id]) == Some(k)
      ensures multiset(ids)[id] <= 1
    {
      assert Excess(s, kind, k, id) == 0;
      assert id in ids <==> id in multiset(ids);
    }
    forall i, j | 0 <= i < j < |ids| ensures ids[i] != ids[j] {
      OnceOnly(ids, i, j);
    }
  }

  lemma OnceOnly(ids: seq<string>, i: nat, j: nat)
    requires i < j < |ids| && multiset(ids)[ids[i]] <= 1
    ensures ids[i] != ids[j]
  {
    var a, b := ids[..i + 1], ids[i + 1..];
    assert ids == a + b;
    assert multiset(ids) == multiset(a) + multiset(b);
    assert a[i] in multiset(a) && b[j - i - 1] in multiset(b);
  }
}
