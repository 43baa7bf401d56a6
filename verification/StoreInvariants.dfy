/** The secondary indexes against the primary map: what every run keeps, and exactly when a
    batch operation leaves the indexes in agreement with a scan of the map. */
module StoreInvariants {
  import opened Types
  import opened IndexLists
  import opened StoreSpec

  /** How often `id` is filed under `k` in the index of this kind. */
  function Filed(s: State, kind: Kind, k: string, id: string): nat {
    Occ(s.indexes.At(kind), k, id)
  }

  /** How often it should be. */
  function Due(s: State, kind: Kind, k: string, id: string): nat {
    if id in s.offers && KeyOf(kind, s.offers[id]) == Some(k) then 1 else 0
  }

  /** Stale or repeated entries. */
  function Excess(s: State, kind: Kind, k: string, id: string): int {
    Filed(s, kind, k, id) - Due(s, kind, k, id)
  }

  ghost predicate NoEmptyLists(s: State) {
    forall kind: Kind :: NoEmptyList(s.indexes.At(kind))
  }

  /** Every stored offer is filed under each of its keys. */
  ghost predicate Complete(s: State) {
    forall kind, k, id :: Excess(s, kind, k, id) >= 0
  }

  /** The indexes file every stored offer once under each of its keys, and nothing else. */
  ghost predicate Exact(s: State) {
    NoEmptyLists(s) && forall kind, k, id :: Excess(s, kind, k, id) == 0
  }

  ghost predicate Sound(s: State) {
    forall id :: id in s.offers ==> s.offers[id].id == id && Validate(s.offers[id]) == Ok
  }

  /** What every reachable state satisfies. */
  ghost predicate WellFormed(s: State) {
    Sound(s) && NoEmptyLists(s) && Complete(s)
  }

  ghost predicate SameExcess(s: State, t: State) {
    forall kind, k, id :: Excess(t, kind, k, id) == Excess(s, kind, k, id)
  }

  ghost predicate NoLessExcess(s: State, t: State) {
    forall kind, k, id :: Excess(t, kind, k, id) >= Excess(s, kind, k, id)
  }

  ghost predicate AllValid(os: seq<Offer>) {
    forall i :: 0 <= i < |os| ==> Validate(os[i]) == Ok
  }

  // Elementary steps

  function One(b: bool): nat { if b then 1 else 0 }

  lemma FiledInsert(s: State, o: Offer, kind: Kind, k: string, id: string)
    ensures Filed(Insert(s, o), kind, k, id)
         == Filed(s, kind, k, id) + One(KeyOf(kind, o) == Some(k) && id == o.id)
  {
    OccPush(s.indexes.At(kind), KeyOf(kind, o), o.id);
  }

  lemma FiledUnindex(s: State, o: Offer, kind: Kind, k: string, id: string)
    ensures Filed(Unindex(s, o), kind, k, id)
         == Filed(s, kind, k, id)
            - One(KeyOf(kind, o) == Some(k) && id == o.id && Filed(s, kind, k, id) > 0)
  {
    OccPull(s.indexes.At(kind), KeyOf(kind, o), o.id);
  }

  lemma NoEmptySteps(s: State, o: Offer)
    requires NoEmptyLists(s)
    ensures NoEmptyLists(Insert(s, o)) && NoEmptyLists(Unindex(s, o))
  {
    forall kind: Kind
      ensures NoEmptyList(Insert(s, o).indexes.At(kind)) && NoEmptyList(Unindex(s, o).indexes.At(kind))
    {
      OccPush(s.indexes.At(kind), KeyOf(kind, o), o.id);
      OccPull(s.indexes.At(kind), KeyOf(kind, o), o.id);
    }
  }

  /** Inserting an offer without de-indexing what was stored under its ID leaves an entry
      behind under each key of the offer it replaces. */
  lemma ExcessInsert(s: State, o: Offer, kind: Kind, k: string, id: string)
    ensures Excess(Insert(s, o), kind, k, id)
         == Excess(s, kind, k, id) + if id == o.id then Due(s, kind, k, id) else 0
  {
    FiledInsert(s, o, kind, k, id);
  }

  /** De-indexing `prev` and then inserting an offer with the same ID. */
  lemma ExcessReplace(s: State, prev: Offer, o: Offer, kind: Kind, k: string, id: string)
    requires prev.id == o.id
    ensures Excess(Insert(Unindex(s, prev), o), kind, k, id)
         == Excess(s, kind, k, id)
            + if id != o.id then 0
              else Due(s, kind, k, id) - One(KeyOf(kind, prev) == Some(k) && Filed(s, kind, k, id) > 0)
  {
    FiledUnindex(s, prev, kind, k, id);
    ExcessInsert(Unindex(s, prev), o, kind, k, id);
  }

  lemma InsertKeeps(s: State, o: Offer)
    requires WellFormed(s) && Validate(o) == Ok
    ensures WellFormed(Insert(s, o)) && NoLessExcess(s, Insert(s, o))
    ensures o.id !in s.offers ==> SameExcess(s, Insert(s, o))
  {
    NoEmptySteps(s, o);
    forall kind, k, id
      ensures Excess(Insert(s, o), kind, k, id)
           == Excess(s, kind, k, id) + if id == o.id then Due(s, kind, k, id) else 0
    {
      ExcessInsert(s, o, kind, k, id);
    }
  }

  /** Replacing what is stored under an ID, with or without de-indexing the right offer. */
  lemma ReplaceKeeps(s: State, prev: Offer, o: Offer)
    requires WellFormed(s) && Validate(o) == Ok && prev.id == o.id
    ensures WellFormed(Insert(Unindex(s, prev), o))
    ensures o.id in s.offers && prev == s.offers[o.id] ==> SameExcess(s, Insert(Unindex(s, prev), o))
  {
    NoEmptySteps(s, prev);
    NoEmptySteps(Unindex(s, prev), o);
    forall kind, k, id
      ensures Excess(Insert(Unindex(s, prev), o), kind, k, id) >= 0
      ensures o.id in s.offers && prev == s.offers[o.id] ==>
                Excess(Insert(Unindex(s, prev), o), kind, k, id) == Excess(s, kind, k, id)
    {
      ReplaceKeepsExcess(s, prev, o, kind, k, id);
    }
  }

  lemma ReplaceKeepsExcess(s: State, prev: Offer, o: Offer, kind: Kind, k: string, id: string)
    requires Complete(s) && prev.id == o.id
    ensures var e := Excess(Insert(Unindex(s, prev), o), kind, k, id);
            && e >= 0
            && (o.id in s.offers && prev == s.offers[o.id] ==> e == Excess(s, kind, k, id))
  {
    ExcessReplace(s, prev, o, kind, k, id);
    assert Excess(s, kind, k, id) >= 0;
  }

  /** Deleting `id`, de-indexing `prev`: the stored offer, or one already gone. */
  lemma DropKeeps(s: State, prev: Offer, id: string)
    requires WellFormed(s) && prev.id == id
    requires id in s.offers ==> s.offers[id] == prev
    ensures var t := Unindex(s, prev).(offers := s.offers - {id});
            WellFormed(t) && (id in s.offers || Exact(s) ==> SameExcess(s, t))
  {
    NoEmptySteps(s, prev);
    var t := Unindex(s, prev).(offers := s.offers - {id});
    forall kind, k, x
      ensures Excess(t, kind, k, x) >= 0
      ensures id in s.offers || Exact(s) ==> Excess(t, kind, k, x) == Excess(s, kind, k, x)
    {
      FiledUnindex(s, prev, kind, k, x);
      assert Filed(t, kind, k, x) == Filed(Unindex(s, prev), kind, k, x);
      assert Excess(s, kind, k, x) >= 0;
      assert x != id ==> Due(t, kind, k, x) == Due(s, kind, k, x);
    }
  }

  lemma ExactPasses(s: State, t: State)
    requires SameExcess(s, t) && NoEmptyLists(t)
    ensures Exact(s) ==> Exact(t)
  {
    if Exact(s) {
      forall kind, k, id ensures Excess(t, kind, k, id) == 0 {
        assert Excess(t, kind, k, id) == Excess(s, kind, k, id);
      }
    }
  }

  /** The time of the last update plays no part. */
  lemma Touched(s: State, now: Time)
    ensures WellFormed(s) <==> WellFormed(s.(lastUpdate := now))
    ensures Exact(s) <==> Exact(s.(lastUpdate := now))
  {
    var t := s.(lastUpdate := now);
    assert forall kind, k, id :: Excess(s, kind, k, id) == Excess(t, kind, k, id);
    assert forall kind: Kind :: s.indexes.At(kind) == t.indexes.At(kind);
  }
}
