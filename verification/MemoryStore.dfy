/** The in-memory store: objects of its own in a map, and three indexes kept by hand. Every
    method is proved to do to the abstract state what StoreSpec says, and to keep the stored
    objects apart from those that callers hold. */
module MemoryStores {
  import opened Types
  import opened IndexLists
  import opened StoreSpec
  import opened StoreLookups
  import opened StoreRuns
  import opened Listing

  /** `w` is `v` up to the time stamps, its pointers included. */
  predicate SameButStamps(v: Fields, w: Fields) {
    v.id == w.id && v.terms == w.terms && v.pointers == w.pointers
  }

  /** Only time stamps have been written, and the time of update is `now`. */
  predicate OnlyStamped(before: Fields, after: Fields, now: Time) {
    SameButStamps(before, after) && after.updated == now
  }

  /** A checked batch: the objects, their structs and values at the start of the call, and the cells
      that they point to. */
  datatype Batch = Batch(objects: seq<MarginOffer>, structs: seq<Fields>, offers: seq<Offer>, cells: set<object>)

  ghost function StructsOf(os: seq<MarginOffer>): seq<Fields>
    reads os
  {
    seq(|os|, i requires 0 <= i < |os| reads os => os[i].fields)
  }

  const NO_BATCH := Batch([], [], [], {})

  /** The values of structs whose pointers point into `cells`. */
  ghost predicate Backed(structs: seq<Fields>, offers: seq<Offer>, cells: set<object>)
    reads cells
  {
    |structs| == |offers| && forall j :: 0 <= j < |structs| ==>
      PointInto(structs[j].pointers, cells) && ValueIn(structs[j]) == offers[j]
  }

  /** The objects have been changed in their time stamps only, and the first `n` have been stamped. */
  ghost predicate Stamping(b: Batch, n: nat, now: Time)
    reads b.objects
  {
    |b.objects| == |b.structs| == |b.offers| && forall j :: 0 <= j < |b.objects| ==>
      SameButStamps(b.structs[j], b.objects[j].fields) && (j < n ==> b.objects[j].fields.updated == now)
  }

  /** An object among `repr`, with its value. */
  ghost predicate Keeps(o: MarginOffer, v: Offer, repr: set<object>)
    reads repr
  {
    o in repr && PointInto(o.fields.pointers, repr) && o.Value() == v
  }

  /** Every stored object is among `repr` and has the value that the model gives it. */
  ghost predicate Mirrors(offers: map<string, MarginOffer>, model: map<string, Offer>, repr: set<object>)
    reads repr
  {
    offers.Keys == model.Keys && forall id :: id in offers ==> Keeps(offers[id], model[id], repr) && model[id].id == id
  }

  lemma MirrorsPut(offers: map<string, MarginOffer>, model: map<string, Offer>, repr: set<object>, o: MarginOffer)
    requires Mirrors(offers, model, repr)
    ensures Mirrors(offers[o.fields.id := o], model[o.fields.id := o.Value()], repr + o.Footprint())
  {
    forall id | id in offers ensures Keeps(offers[id], model[id], repr + o.Footprint()) {
      assert Keeps(offers[id], model[id], repr);
    }
  }

  /** An object about to be listed, with its value. */
  datatype Item = Item(offer: MarginOffer, value: Offer)

  function ItemValues(items: seq<Item>): seq<Offer> {
    seq(|items|, i requires 0 <= i < |items| => items[i].value)
  }

  function ItemOffers(items: seq<Item>): seq<MarginOffer> {
    seq(|items|, i requires 0 <= i < |items| => items[i].offer)
  }

  /** Puts `x` in its place in a sorted list. */
  method InsertSorted(sorted: seq<Item>, x: Item, sortBy: string, sortOrder: string) returns (r: seq<Item>)
    requires Sorted(ItemValues(sorted), sortBy, sortOrder)
    ensures Sorted(ItemValues(r), sortBy, sortOrder)
    ensures multiset(ItemValues(r)) == multiset(ItemValues(sorted)) + multiset{x.value}
    ensures forall y :: y in r ==> y in sorted || y == x
  {
    ghost var was := ItemValues(sorted);
    var p := 0;
    while p < |sorted| && MayPrecede(sorted[p].value, x.value, sortBy, sortOrder)
      invariant p <= |sorted|
      invariant forall i :: 0 <= i < p ==> MayPrecede(was[i], x.value, sortBy, sortOrder)
    {
      p := p + 1;
    }
    InsertionStaysSorted(was, p, x.value, sortBy, sortOrder);
    r := sorted[..p] + [x] + sorted[p..];
    assert ItemValues(r) == was[..p] + [x.value] + was[p..];
    InsertionCounts(was, p, x.value);
  }

  /** The objects of a list, all of them among `made`, have the values that the list says. */
  ghost predicate Honest(items: seq<Item>, made: set<object>)
    reads made
  {
    forall x :: x in items ==> Keeps(x.offer, x.value, made)
  }

  lemma OneMoreHonest(items: seq<Item>, item: Item, made: set<object>)
    requires Honest(items, made) && item.offer.Value() == item.value
    ensures Honest(items + [item], made + item.offer.Footprint())
  {
    forall x | x in items + [item] ensures Keeps(x.offer, x.value, made + item.offer.Footprint()) {
      if x in items { assert Keeps(x.offer, x.value, made); }
    }
  }

  lemma OneMoreItem(items: seq<Item>, item: Item, offers: OfferMap, ids: set<string>, id: string)
    requires Enumerates(ItemValues(items), offers, ids) && id in offers && id !in ids && offers[id].id == id
    requires item.value == offers[id]
    ensures Enumerates(ItemValues(items + [item]), offers, ids + {id})
  {
    EnumeratesOneMore(ItemValues(items), offers, ids, id);
    assert ItemValues(items + [item]) == ItemValues(items) + [offers[id]];
  }

  lemma InsertionCounts(r: seq<Offer>, p: nat, o: Offer)
    requires p <= |r|
    ensures multiset(r[..p] + [o] + r[p..]) == multiset(r) + multiset{o}
  {
    assert r == r[..p] + r[p..];
  }

  /** A sort: a permutation in which every key is in its place. */
  method SortOffers(found: seq<Item>, sortBy: string, sortOrder: string) returns (r: seq<Item>)
    ensures Sorted(ItemValues(r), sortBy, sortOrder)
    ensures multiset(ItemValues(r)) == multiset(ItemValues(found))
    ensures forall x :: x in r ==> x in found
  {
    r := [];
    ghost var values := ItemValues(found);
    for i := 0 to |found|
      invariant Sorted(ItemValues(r), sortBy, sortOrder)
      invariant multiset(ItemValues(r)) == multiset(values[..i])
      invariant forall x :: x in r ==> x in found
    {
      assert values[..i + 1] == values[..i] + [found[i].value];
      r := InsertSorted(r, found[i], sortBy, sortOrder);
    }
    assert values[..|found|] == values;
  }

  class MemoryStore {
    var offers: map<string, MarginOffer>
    var lenderIndex: Index
    var tokenIndex: Index
    var offerTypeIndex: Index
    var lastUpdate: Time

    /** The value of each stored object, and the objects the store has made for itself. */
    ghost var model: map<string, Offer>
    ghost var repr: set<object>

    ghost predicate Valid()
      reads this, repr
    {
      this !in repr && Mirrors(offers, model, repr)
    }

    /** The store has made new objects for itself, if any, and given none away. */
    twostate predicate Grew()
      reads this
    {
      old(repr) <= repr && forall o :: o in repr && o !in old(repr) ==> fresh(o)
    }

    function Indexed(): Indexes
      reads this
    {
      Indexes(lenderIndex, tokenIndex, offerTypeIndex)
    }

    ghost function State(): State
      reads this
    {
      StoreSpec.State(model, Indexed(), lastUpdate)
    }

    constructor ()
      ensures Valid() && State() == EMPTY && repr == {}
    {
      offers, model, repr := map[], map[], {};
      lenderIndex, tokenIndex, offerTypeIndex := map[], map[], map[];
      lastUpdate := ZERO_TIME;
    }

    method Touch(now: Time)
      requires Valid()
      modifies this`lastUpdate
      ensures Valid() && State() == old(State()).(lastUpdate := now)
    {
      lastUpdate := now;
    }

    /** The same at the end of a batch. */
    method TouchAfter(ghost b: Batch, now: Time)
      requires Going(b, |b.objects|, now)
      modifies this`lastUpdate
      ensures Going(b, |b.objects|, now) && State() == old(State()).(lastUpdate := now)
    {
      lastUpdate := now;
      assert Valid() && Apart(b.objects);
      assert Stamping(b, |b.objects|, now) && Backed(b.structs, b.offers, b.cells);
    }

    // Index maintenance

    method AddToIndexes(offer: MarginOffer)
      modifies this`lenderIndex, this`tokenIndex, this`offerTypeIndex
      ensures Indexed() == StoreSpec.AddToIndexes(old(Indexed()), offer.Value())
    {
      if offer.fields.pointers.lenderAddress != null {
        var lender := offer.fields.pointers.lenderAddress.value;
        lenderIndex := lenderIndex[lender := ListAt(lenderIndex, lender) + [offer.fields.id]];
      }
      var pair := offer.fields.terms.collateralToken + "|" + offer.fields.terms.borrowToken;
      tokenIndex := tokenIndex[pair := ListAt(tokenIndex, pair) + [offer.fields.id]];
      var kind := offer.fields.terms.offerType;
      offerTypeIndex := offerTypeIndex[kind := ListAt(offerTypeIndex, kind) + [offer.fields.id]];
    }

    method RemoveFromIndexes(offer: MarginOffer)
      modifies this`lenderIndex, this`tokenIndex, this`offerTypeIndex
      ensures Indexed() == StoreSpec.RemoveFromIndexes(old(Indexed()), offer.Value())
    {
      if offer.fields.pointers.lenderAddress != null {
        lenderIndex := RemoveEntry(lenderIndex, offer.fields.pointers.lenderAddress.value, offer.fields.id);
      }
      tokenIndex := RemoveEntry(tokenIndex,
          offer.fields.terms.collateralToken + "|" + offer.fields.terms.borrowToken, offer.fields.id);
      offerTypeIndex := RemoveEntry(offerTypeIndex, offer.fields.terms.offerType, offer.fields.id);
    }

    static method RemoveEntry(m: Index, k: string, id: string) returns (r: Index)
      ensures r == Pull(m, Some(k), id)
    {
      var rest := RemoveFromSlice(ListAt(m, k), id);
      r := m[k := rest];
      if |rest| == 0 {
        r := r - {k};
        assert r == m - {k};
      }
    }

    /** Puts an object that is to be the store's own into the map. */
    method Keep(clone: MarginOffer, ghost v: Offer)
      requires Valid() && this !in clone.Footprint() && clone.Value() == v
      modifies this`offers, this`model, this`repr
      ensures Valid() && repr == old(repr) + clone.Footprint()
      ensures model == old(model)[v.id := v]
    {
      MirrorsPut(offers, model, repr, clone);
      ghost var m, all := model[v.id := v], repr + clone.Footprint();
      var os := offers[clone.fields.id := clone];
      assert this !in all;
      SetOffers(os, m, all);
    }

    method SetOffers(os: map<string, MarginOffer>, ghost m: map<string, Offer>, ghost all: set<object>)
      requires Mirrors(os, m, all) && this !in all
      modifies this`offers, this`model, this`repr
      ensures Valid() && model == m && repr == all
    {
      offers, model, repr := os, m, all;
    }

    /** Stores a copy of the caller's object and indexes it. */
    method Put(offer: MarginOffer)
      requires Valid() && offer !in repr
      modifies this`offers, this`model, this`repr, this`lenderIndex, this`tokenIndex, this`offerTypeIndex
      ensures Valid() && Grew() && offer !in repr
      ensures State() == Insert(old(State()), offer.Value()) && lastUpdate == old(lastUpdate)
    {
      ghost var v := offer.Value();
      var clone := offer.Clone();
      Keep(clone, v);
      assert offer.Value() == v;
      AddToIndexes(offer);
      assert offer.Value() == v;
    }

    /** Stamps a new offer and stores it. */
    method PutNew(offer: MarginOffer, now: Time)
      requires Valid() && offer !in repr
      modifies this, offer
      ensures Valid() && Grew() && offer !in repr
      ensures OnlyStamped(old(offer.fields), offer.fields, now) && offer.Value() == StampNew(old(offer.Value()), now)
      ensures State() == Insert(old(State()), offer.Value())
    {
      offer.SetCreated(now);
      offer.UpdateTimestamp(now);
      Put(offer);
    }

    /** Stores an offer, which keeps the time of creation that it has, if any. */
    method PutFilled(offer: MarginOffer, now: Time)
      requires Valid() && offer !in repr
      modifies this, offer
      ensures Valid() && Grew() && offer !in repr
      ensures OnlyStamped(old(offer.fields), offer.fields, now) && offer.Value() == StampFill(old(offer.Value()), now)
      ensures State() == Insert(old(State()), offer.Value())
    {
      if offer.fields.created == ZERO_TIME {
        offer.SetCreated(now);
      }
      offer.UpdateTimestamp(now);
      Put(offer);
    }

    /** De-indexes `prev` and stores a copy of the caller's object. */
    method Swap(offer: MarginOffer, prev: MarginOffer)
      requires Valid() && offer !in repr && Keeps(prev, prev.Value(), repr)
      modifies this`offers, this`model, this`repr, this`lenderIndex, this`tokenIndex, this`offerTypeIndex
      ensures Valid() && Grew() && offer !in repr
      ensures State() == Insert(Unindex(old(State()), old(prev.Value())), offer.Value())
    {
      RemoveFromIndexes(prev);
      Put(offer);
    }

    /** Stores an offer in the place of `prev`, whose time of creation it gets. */
    method Replace(offer: MarginOffer, prev: MarginOffer, now: Time)
      requires Valid() && offer !in repr && Keeps(prev, prev.Value(), repr)
      modifies this, offer
      ensures Valid() && Grew() && offer !in repr
      ensures OnlyStamped(old(offer.fields), offer.fields, now)
      ensures offer.Value() == StampKeep(old(offer.Value()), old(prev.Value()), now)
      ensures State() == Insert(Unindex(old(State()), old(prev.Value())), offer.Value())
    {
      offer.SetCreated(prev.fields.created);
      offer.UpdateTimestamp(now);
      Swap(offer, prev);
    }

    // Single operations

    method Create(offer: MarginOffer?, now: Time) returns (outcome: Outcome)
      requires Valid() && offer !in repr
      modifies this, offer
      ensures Valid() && Grew() && offer !in repr
      ensures Reply(State(), outcome) == StoreSpec.Create(old(State()), old(ValueOf(offer)), now)
      ensures offer != null && outcome != Ok ==> offer.fields == old(offer.fields)
      ensures outcome == Ok ==>
        OnlyStamped(old(offer.fields), offer.fields, now) && offer.Value() == StampNew(old(offer.Value()), now)
    {
      if offer == null {
        return Err(InvalidEventData);
      }
      outcome := Validate(offer.Value());
      if outcome != Ok {
        return;
      }
      if offer.fields.id in offers {
        return Err(OfferAlreadyExists);
      }
      PutNew(offer, now);
      Touch(now);
    }

    method GetByID(id: string) returns (r: Result<MarginOffer>)
      requires Valid()
      ensures match StoreSpec.GetByID(State(), id)
              case Success(v) => r.Success? && fresh(r.value.Footprint()) && r.value.Value() == v
              case Failure(e) => r == Failure(e)
    {
      if id == "" {
        return Failure(MissingId);
      }
      if id !in offers {
        return Failure(OfferNotFound);
      }
      var clone := offers[id].Clone();
      return Success(clone);
    }

    method Update(offer: MarginOffer?, now: Time) returns (outcome: Outcome)
      requires Valid() && offer !in repr
      modifies this, offer
      ensures Valid() && Grew() && offer !in repr
      ensures Reply(State(), outcome) == StoreSpec.Update(old(State()), old(ValueOf(offer)), now)
      ensures offer != null && outcome != Ok ==> offer.fields == old(offer.fields)
      ensures outcome == Ok ==>
        OnlyStamped(old(offer.fields), offer.fields, now) && offer.Value() == old(offer.Value()).(updated := now)
    {
      if offer == null {
        return Err(InvalidEventData);
      }
      outcome := Validate(offer.Value());
      if outcome != Ok {
        return;
      }
      if offer.fields.id !in offers {
        return Err(OfferNotFound);
      }
      assert Keeps(offers[offer.fields.id], model[offer.fields.id], repr);
      offer.UpdateTimestamp(now);
      Swap(offer, offers[offer.fields.id]);
      Touch(now);
    }

    method Delete(id: string, now: Time) returns (outcome: Outcome)
      requires Valid()
      modifies this
      ensures Valid() && repr == old(repr)
      ensures Reply(State(), outcome) == StoreSpec.Delete(old(State()), id, now)
    {
      if id == "" {
        return Err(MissingId);
      }
      if id !in offers {
        return Err(OfferNotFound);
      }
      assert Keeps(offers[id], model[id], repr);
      Remove(offers[id], model[id]);
      Touch(now);
      return Ok;
    }

    method Drop(id: string)
      requires Valid()
      modifies this`offers, this`model, this`repr
      ensures Valid() && model == old(model) - {id} && repr == old(repr)
    {
      SetOffers(offers - {id}, model - {id}, repr);
    }

    /** De-indexes an offer and deletes what is stored under its ID. */
    method Remove(offer: MarginOffer, ghost v: Offer)
      requires Valid() && Keeps(offer, v, repr)
      modifies this`offers, this`model, this`repr, this`lenderIndex, this`tokenIndex, this`offerTypeIndex
      ensures Valid() && repr == old(repr)
      ensures State() == Unindex(old(State()), v).(offers := old(State()).offers - {v.id})
    {
      RemoveFromIndexes(offer);
      Drop(offer.fields.id);
    }

    /** The upsert of a valid offer. */
    method CreateOrUpdateInternal(offer: MarginOffer, now: Time)
      requires Valid() && offer !in repr
      modifies this, offer
      ensures Valid() && Grew() && offer !in repr
      ensures State() == Upsert(old(State()), old(offer.Value()), now)
      ensures OnlyStamped(old(offer.fields), offer.fields, now)
      ensures offer.Value() == UpsertStamped(old(State()), old(offer.Value()), now)
    {
      StampAndPut(offer, now);
      Touch(now);
    }

    method StampAndPut(offer: MarginOffer, now: Time)
      requires Valid() && offer !in repr
      modifies this, offer
      ensures Valid() && Grew() && offer !in repr
      ensures OnlyStamped(old(offer.fields), offer.fields, now)
      ensures offer.Value() == UpsertStamped(old(State()), old(offer.Value()), now)
      ensures State().(lastUpdate := now) == Upsert(old(State()), old(offer.Value()), now)
    {
      if offer.fields.id in offers {
        assert Keeps(offers[offer.fields.id], model[offer.fields.id], repr);
        Replace(offer, offers[offer.fields.id], now);
      } else {
        PutFilled(offer, now);
      }
    }

    method CreateOrUpdate(offer: MarginOffer?, now: Time) returns (outcome: Outcome)
      requires Valid() && offer !in repr
      modifies this, offer
      ensures Valid() && Grew() && offer !in repr
      ensures Reply(State(), outcome) == StoreSpec.CreateOrUpdate(old(State()), old(ValueOf(offer)), now)
      ensures offer != null && outcome != Ok ==> offer.fields == old(offer.fields)
      ensures outcome == Ok ==>
        && OnlyStamped(old(offer.fields), offer.fields, now)
        && offer.Value() == UpsertStamped(old(State()), old(offer.Value()), now)
    {
      if offer == null {
        return Err(InvalidEventData);
      }
      outcome := Validate(offer.Value());
      if outcome != Ok {
        return;
      }
      CreateOrUpdateInternal(offer, now);
    }

    /** None of the caller's objects is one of the store's. */
    ghost predicate Apart(batch: seq<MarginOffer?>)
      reads this
    {
      forall o :: o in batch ==> o !in repr
    }

    // Batches: check everything first, then change the store

    method CheckBatch(batch: seq<MarginOffer?>, now: Time) returns (outcome: Outcome, ghost b: Batch)
      requires Valid() && Apart(batch)
      ensures outcome == CheckAll(old(ValuesOf(batch)))
      ensures outcome == Ok ==> Admitted(batch, old(ValuesOf(batch)), b, now)
    {
      b := NO_BATCH;
      ghost var vs := ValuesOf(batch);
      for i := 0 to |batch|
        invariant CheckAll(vs) == CheckAll(vs[i..])
        invariant forall j :: 0 <= j < i ==> batch[j] != null
      {
        assert vs[i..][1..] == vs[i + 1..];
        if batch[i] == null {
          return Err(InvalidEventData), b;
        }
        outcome := Validate(batch[i].Value());
        if outcome != Ok {
          return;
        }
      }
      b := MakeBatch(batch, now);
      return Ok, b;
    }

    method CheckNewBatch(batch: seq<MarginOffer?>, now: Time) returns (outcome: Outcome, ghost b: Batch)
      requires Valid() && Apart(batch)
      ensures outcome == CheckNew(old(ValuesOf(batch)))
      ensures outcome == Ok ==> Admitted(batch, old(ValuesOf(batch)), b, now)
    {
      b := NO_BATCH;
      ghost var vs := ValuesOf(batch);
      for i := 0 to |batch|
        invariant CheckNew(vs) == CheckNew(vs[i..])
        invariant forall j :: 0 <= j < i ==> batch[j] != null
      {
        ghost var rest := vs[i..];
        assert rest[1..] == vs[i + 1..];
        if batch[i] == null {
          return Err(InvalidEventData), b;
        }
        outcome := Validate(batch[i].Value());
        if outcome != Ok {
          return;
        }
        for j := i + 1 to |batch|
          invariant forall k :: i < k < j && batch[k] != null ==> batch[k].fields.id != batch[i].fields.id
        {
          if batch[j] != null && batch[j].fields.id == batch[i].fields.id {
            assert rest[j - i] == vs[j];
            return Err(OfferAlreadyExists), b;
          }
        }
        assert forall k :: 1 <= k < |rest| ==> rest[k] == vs[k + i];
        assert !RepeatedLater(rest);
      }
      b := MakeBatch(batch, now);
      return Ok, b;
    }

    /** `b` is what a batch is before anything has been written. */
    ghost predicate Admitted(batch: seq<MarginOffer?>, vs: seq<Option<Offer>>, b: Batch, now: Time)
      reads this, repr, b.objects, b.cells
    {
      && b.objects == batch && (forall o :: o in vs ==> o.Some?) && b.offers == Offers(vs)
      && |b.structs| == |batch| && (forall i :: 0 <= i < |batch| ==> b.structs[i] == b.objects[i].fields)
      && AsCreated(b, 0)
      && Going(b, 0, now)
    }

    lemma MakeBatch(objects: seq<MarginOffer>, now: Time) returns (b: Batch)
      requires Valid() && Apart(objects)
      ensures Admitted(objects, ValuesOf(objects), b, now)
    {
      var vs := ValuesOf(objects);
      assert forall i :: 0 <= i < |objects| ==> vs[i] == Some(objects[i].Value());
      b := Batch(objects, StructsOf(objects), Offers(vs), AllSeen(objects));
      AllSeenBacks(objects, b.structs, b.offers);
      NoCells(objects);
    }

    static lemma AllSeenBacks(objects: seq<MarginOffer>, structs: seq<Fields>, offers: seq<Offer>)
      requires |structs| == |objects| == |offers|
      requires forall j :: 0 <= j < |objects| ==> structs[j] == objects[j].fields && offers[j] == objects[j].Value()
      ensures Backed(structs, offers, AllSeen(objects))
    {
      forall j | 0 <= j < |objects| ensures PointInto(structs[j].pointers, AllSeen(objects)) {
        assert objects[j] in objects && Seen(objects[j]) <= AllSeen(objects);
      }
    }

    /** Neither the store nor an offer is a cell. */
    lemma NoCells(objects: seq<MarginOffer>)
      ensures this !in AllSeen(objects) && forall o :: o in objects ==> o !in AllSeen(objects)
    {
    }

    /** The objects from `n` on still have the time of creation that they came with. */
    static ghost predicate AsCreated(b: Batch, n: nat)
      reads b.objects
    {
      |b.objects| == |b.offers| && forall j :: n <= j < |b.objects| ==> b.objects[j].fields.created == b.offers[j].created
    }

    /** What every step of a batch keeps. */
    ghost predicate Going(b: Batch, n: nat, now: Time)
      reads this, repr, b.objects, b.cells
    {
      && Valid() && Apart(b.objects) && this !in b.cells && (forall o :: o in b.objects ==> o !in b.cells)
      && Stamping(b, n, now) && Backed(b.structs, b.offers, b.cells)
    }

    /** The value of an object of the batch, up to the stamps that it has got so far. */
    static lemma InBatch(b: Batch, i: nat, n: nat, now: Time)
      requires Stamping(b, n, now) && Backed(b.structs, b.offers, b.cells) && i < |b.objects|
      ensures var f := b.objects[i].fields;
              b.objects[i].Value() == b.offers[i].(created := f.created, updated := f.updated)
    {
      assert ValueIn(b.structs[i]) == b.offers[i];
    }

    method BulkCreate(batch: seq<MarginOffer?>, now: Time) returns (outcome: Outcome)
      requires Valid() && Apart(batch)
      modifies this, batch
      ensures Valid() && Grew() && Apart(batch)
      ensures Reply(State(), outcome) == StoreSpec.BulkCreate(old(State()), old(ValuesOf(batch)), now)
      ensures outcome != Ok ==> forall i :: 0 <= i < |batch| && batch[i] != null ==> batch[i].fields == old(batch[i].fields)
      ensures outcome == Ok && |batch| > 0 ==> forall i :: 0 <= i < |batch| ==>
        batch[i] != null && OnlyStamped(old(batch[i].fields), batch[i].fields, now)
    {
      if |batch| == 0 {
        return Ok;
      }
      ghost var b;
      CheckNewPasses(ValuesOf(batch));
      outcome, b := CheckNewBatch(batch, now);
      if outcome != Ok {
        return;
      }
      var objects: seq<MarginOffer> := batch;
      outcome := CheckAbsent(objects, b, now);
      if outcome != Ok {
        return;
      }
      InsertNew(objects, b, now);
    }

    method CheckAbsent(batch: seq<MarginOffer>, ghost b: Batch, now: Time) returns (outcome: Outcome)
      requires Going(b, 0, now) && batch == b.objects
      ensures outcome == if AnyStored(State(), b.offers) then Err(OfferAlreadyExists) else Ok
    {
      for i := 0 to |batch|
        invariant forall j :: 0 <= j < i ==> b.offers[j].id !in offers
      {
        InBatch(b, i, 0, now);
        if batch[i].fields.id in offers {
          assert b.offers[i].id in model;
          return Err(OfferAlreadyExists);
        }
      }
      return Ok;
    }

    method InsertNew(batch: seq<MarginOffer>, ghost b: Batch, now: Time)
      requires Going(b, 0, now) && batch == b.objects
      modifies this, batch
      ensures Going(b, |batch|, now) && Grew()
      ensures State() == CreateAll(old(State()), b.offers, now).(lastUpdate := now)
    {
      ghost var s := State();
      for i := 0 to |batch|
        invariant Going(b, i, now) && Grew()
        invariant CreateAll(State(), b.offers[i..], now) == CreateAll(s, b.offers, now)
      {
        CreateAllStep(State(), b.offers, i, now);
        InsertNewAt(batch, b, i, now);
      }
      TouchAfter(b, now);
    }

    method InsertNewAt(batch: seq<MarginOffer>, ghost b: Batch, i: nat, now: Time)
      requires Going(b, i, now) && batch == b.objects && i < |batch|
      modifies this, batch
      ensures Going(b, i + 1, now) && Grew()
      ensures State() == Insert(old(State()), StampNew(b.offers[i], now))
    {
      InBatch(b, i, i, now);
      assert batch[i] in batch;
      PutNew(batch[i], now);
    }

    method BulkUpdate(batch: seq<MarginOffer?>, now: Time) returns (outcome: Outcome)
      requires Valid() && Apart(batch)
      modifies this, batch
      ensures Valid() && Grew() && Apart(batch)
      ensures Reply(State(), outcome) == StoreSpec.BulkUpdate(old(State()), old(ValuesOf(batch)), now)
      ensures outcome != Ok ==> forall i :: 0 <= i < |batch| && batch[i] != null ==> batch[i].fields == old(batch[i].fields)
      ensures outcome == Ok && |batch| > 0 ==> forall i :: 0 <= i < |batch| ==>
        batch[i] != null && OnlyStamped(old(batch[i].fields), batch[i].fields, now)
    {
      if |batch| == 0 {
        return Ok;
      }
      ghost var b;
      outcome, b := CheckBatch(batch, now);
      if outcome != Ok {
        return;
      }
      var objects: seq<MarginOffer> := batch;
      var olds;
      outcome, olds := LookUpStored(objects, b, now);
      if outcome != Ok {
        return;
      }
      ReplaceStored(objects, b, olds, now);
    }

    method LookUpStored(batch: seq<MarginOffer>, ghost b: Batch, now: Time) returns (outcome: Outcome, olds: seq<MarginOffer>)
      requires Going(b, 0, now) && batch == b.objects
      ensures outcome == if AllStored(State(), b.offers) then Ok else Err(OfferNotFound)
      ensures outcome == Ok ==> LookedUp(olds, IdsOf(b.offers), model, repr)
    {
      olds := [];
      for i := 0 to |batch|
        invariant |olds| == i
        invariant forall j :: 0 <= j < i ==> b.offers[j].id in offers && olds[j] == offers[b.offers[j].id]
      {
        InBatch(b, i, 0, now);
        if batch[i].fields.id !in offers {
          assert b.offers[i].id !in model;
          return Err(OfferNotFound), [];
        }
        olds := olds + [offers[batch[i].fields.id]];
      }
      return Ok, olds;
    }

    /** The store's objects for these IDs, looked up in `was` and still as they were. */
    static ghost predicate LookedUp(found: seq<MarginOffer>, ids: seq<string>, was: map<string, Offer>, repr: set<object>)
      reads repr
    {
      |found| == |ids| && forall j :: 0 <= j < |ids| ==> ids[j] in was && Keeps(found[j], was[ids[j]], repr)
    }

    static function IdsOf(os: seq<Offer>): seq<string> {
      seq(|os|, i requires 0 <= i < |os| => os[i].id)
    }

    method ReplaceStored(batch: seq<MarginOffer>, ghost b: Batch, olds: seq<MarginOffer>, now: Time)
      requires Going(b, 0, now) && batch == b.objects && LookedUp(olds, IdsOf(b.offers), model, repr)
      modifies this, batch
      ensures Going(b, |batch|, now) && Grew()
      ensures State() == UpdateAll(old(State()), old(model), b.offers, now).(lastUpdate := now)
    {
      ghost var s, was := State(), model;
      for i := 0 to |batch|
        invariant Going(b, i, now) && Grew()
        invariant LookedUp(olds, IdsOf(b.offers), was, old(repr))
        invariant UpdateAll(State(), was, b.offers[i..], now) == UpdateAll(s, was, b.offers, now)
      {
        UpdateAllStep(State(), was, b.offers, i, now);
        ReplaceAt(batch, b, olds, was, old(repr), i, now);
      }
      TouchAfter(b, now);
    }

    method ReplaceAt(batch: seq<MarginOffer>, ghost b: Batch, olds: seq<MarginOffer>, ghost was: map<string, Offer>,
                     ghost mine: set<object>, i: nat, now: Time)
      requires Going(b, i, now) && batch == b.objects && i < |batch| && mine <= repr
          && LookedUp(olds, IdsOf(b.offers), was, mine)
      modifies this, batch
      ensures Going(b, i + 1, now) && Grew()
      ensures LookedUp(olds, IdsOf(b.offers), was, mine)
      ensures State() == UpdateStep(old(State()), was, b.offers[i], now)
    {
      InBatch(b, i, i, now);
      assert batch[i] in batch;
      assert Keeps(olds[i], was[b.offers[i].id], mine);
      Replace(batch[i], olds[i], now);
    }

    method BulkCreateOrUpdate(batch: seq<MarginOffer?>, now: Time) returns (outcome: Outcome)
      requires Valid() && Apart(batch)
      modifies this, batch
      ensures Valid() && Grew() && Apart(batch)
      ensures Reply(State(), outcome) == StoreSpec.BulkCreateOrUpdate(old(State()), old(ValuesOf(batch)), now)
      ensures outcome != Ok ==> forall i :: 0 <= i < |batch| && batch[i] != null ==> batch[i].fields == old(batch[i].fields)
      ensures outcome == Ok && |batch| > 0 ==> forall i :: 0 <= i < |batch| ==>
        batch[i] != null && OnlyStamped(old(batch[i].fields), batch[i].fields, now)
    {
      if |batch| == 0 {
        return Ok;
      }
      ghost var b;
      outcome, b := CheckBatch(batch, now);
      if outcome != Ok {
        return;
      }
      var objects: seq<MarginOffer> := batch;
      UpsertStored(objects, b, now);
    }

    method UpsertStored(batch: seq<MarginOffer>, ghost b: Batch, now: Time)
      requires Going(b, 0, now) && batch == b.objects && Unstamped(b, 0)
      modifies this, batch
      ensures Going(b, |batch|, now) && Grew()
      ensures State() == UpsertAll(old(State()), b.offers, now).(lastUpdate := now)
    {
      ghost var s := State();
      for i := 0 to |batch|
        invariant Going(b, i, now) && Grew()
        invariant Unstamped(b, i)
        invariant UpsertAll(State(), b.offers[i..], now) == UpsertAll(s, b.offers, now)
      {
        UpsertAllStep(State(), b.offers, i, now);
        UpsertAt(batch, b, i, now);
      }
      TouchAfter(b, now);
    }

    /** From `i` on, an object that will be created still has the creation time it came with. */
    ghost predicate Unstamped(b: Batch, i: nat)
      reads this, b.objects
    {
      |b.objects| == |b.offers| && forall j :: i <= j < |b.objects| && b.offers[j].id !in model ==>
        b.objects[j].fields.created == b.offers[j].created
    }

    method UpsertAt(batch: seq<MarginOffer>, ghost b: Batch, i: nat, now: Time)
      requires Going(b, i, now) && batch == b.objects && i < |batch| && Unstamped(b, i)
      modifies this, batch
      ensures Going(b, i + 1, now) && Grew()
      ensures Unstamped(b, i + 1)
      ensures State() == Upsert(old(State()), b.offers[i], now)
    {
      InBatch(b, i, i, now);
      assert batch[i] in batch;
      SameUpsert(State(), batch[i].Value(), b.offers[i], now);
      CreateOrUpdateInternal(batch[i], now);
    }

    static lemma SameUpsert(s: State, v: Offer, w: Offer, now: Time)
      requires v == w.(created := v.created, updated := v.updated) && (w.id !in s.offers ==> v.created == w.created)
      ensures Upsert(s, v, now) == Upsert(s, w, now)
    {
      assert UpsertStamped(s, v, now) == UpsertStamped(s, w, now);
    }

    method BulkDelete(ids: seq<string>, now: Time) returns (outcome: Outcome)
      requires Valid()
      modifies this
      ensures Valid() && repr == old(repr)
      ensures Reply(State(), outcome) == StoreSpec.BulkDelete(old(State()), ids, now)
    {
      if |ids| == 0 {
        return Ok;
      }
      var doomed;
      outcome, doomed := LookUpIds(ids);
      if outcome != Ok {
        return;
      }
      RemoveAll(doomed, ids);
      Touch(now);
    }

    method LookUpIds(ids: seq<string>) returns (outcome: Outcome, doomed: seq<MarginOffer>)
      requires Valid()
      ensures outcome == CheckIds(State(), ids)
      ensures outcome == Ok ==> LookedUp(doomed, ids, model, repr)
    {
      doomed := [];
      for i := 0 to |ids|
        invariant LookedUp(doomed, ids[..i], model, repr)
        invariant CheckIds(State(), ids) == CheckIds(State(), ids[i..])
      {
        assert ids[i..][0] == ids[i] && ids[i..][1..] == ids[i + 1..];
        if ids[i] == "" {
          return Err(MissingId), [];
        }
        if ids[i] !in offers {
          return Err(OfferNotFound), [];
        }
        assert Keeps(offers[ids[i]], model[ids[i]], repr);
        doomed := doomed + [offers[ids[i]]];
      }
      assert ids[..|ids|] == ids;
      return Ok, doomed;
    }

    /** De-indexes and deletes offers that were looked up before. */
    method RemoveAll(doomed: seq<MarginOffer>, ghost ids: seq<string>)
      requires Valid() && LookedUp(doomed, ids, model, repr)
      modifies this`offers, this`model, this`repr, this`lenderIndex, this`tokenIndex, this`offerTypeIndex
      ensures Valid() && repr == old(repr)
      ensures State() == DropAll(old(State()), old(model), ids)
    {
      ghost var s, was := State(), model;
      assert forall j :: 0 <= j < |ids| ==> was[ids[j]].id == ids[j];
      for i := 0 to |doomed|
        invariant Valid() && LookedUp(doomed, ids, was, repr) && repr == old(repr)
        invariant DropAll(State(), was, ids[i..]) == DropAll(s, was, ids)
      {
        DropAllStep(State(), was, ids, i);
        RemoveAt(doomed, ids, was, i);
      }
    }

    method RemoveAt(doomed: seq<MarginOffer>, ghost ids: seq<string>, ghost was: map<string, Offer>, i: nat)
      requires Valid() && LookedUp(doomed, ids, was, repr) && i < |ids| && was[ids[i]].id == ids[i]
      modifies this`offers, this`model, this`repr, this`lenderIndex, this`tokenIndex, this`offerTypeIndex
      ensures Valid() && LookedUp(doomed, ids, was, repr) && repr == old(repr)
      ensures State() == DropOne(old(State()), was, ids[i])
    {
      assert Keeps(doomed[i], was[ids[i]], repr);
      Remove(doomed[i], was[ids[i]]);
    }

    // Filtered overwrite

    /** The selected objects, in the order in which the map was ranged over. */
    method IdentifyOffersToDelete(filter: Option<OverwriteFilter>)
        returns (found: seq<MarginOffer>, ghost order: seq<string>)
      requires Valid()
      ensures Ranges(order, SelectedIds(State(), filter)) && LookedUp(found, order, model, repr)
      ensures forall i :: 0 <= i < |order| ==> order[i] in offers && found[i] == offers[order[i]]
    {
      found, order := [], [];
      var todo := offers.Keys;
      while todo != {}
        invariant todo <= offers.Keys && LookedUp(found, order, model, repr)
        invariant forall i :: 0 <= i < |order| ==> order[i] in offers && found[i] == offers[order[i]]
        invariant forall i, j :: 0 <= i < j < |order| ==> order[i] != order[j]
        invariant forall id :: id in order <==> id in SelectedIds(State(), filter) && id !in todo
      {
        var id :| id in todo;
        todo := todo - {id};
        assert Keeps(offers[id], model[id], repr);
        if Selects(filter, offers[id].Value()) {
          found, order := found + [offers[id]], order + [id];
        }
      }
    }

    method BulkOverwriteByFilter(batch: seq<MarginOffer?>, filter: Option<OverwriteFilter>, now: Time)
        returns (outcome: Outcome, ghost order: seq<string>)
      requires Valid() && Apart(batch)
      modifies this, batch
      ensures Valid() && Grew() && Apart(batch)
      ensures var bad := CheckAll(old(ValuesOf(batch)));
              bad != Ok ==> outcome == bad && State() == old(State())
      ensures CheckAll(old(ValuesOf(batch))) == Ok ==>
        && Ranges(order, SelectedIds(old(State()), filter))
        && Reply(State(), outcome) == Overwrite(old(State()), old(ValuesOf(batch)), filter, order, now)
      ensures outcome != Ok ==> forall i :: 0 <= i < |batch| && batch[i] != null ==> batch[i].fields == old(batch[i].fields)
      ensures outcome == Ok ==> forall i :: 0 <= i < |batch| ==>
        batch[i] != null && OnlyStamped(old(batch[i].fields), batch[i].fields, now)
    {
      order := [];
      ghost var b;
      outcome, b := CheckBatch(batch, now);
      if outcome != Ok {
        return;
      }
      var objects: seq<MarginOffer> := batch;
      order := OverwriteStored(objects, b, filter, now);
    }

    /** Removes what the filter selects and stores a checked batch. */
    method OverwriteStored(batch: seq<MarginOffer>, ghost b: Batch, filter: Option<OverwriteFilter>, now: Time)
        returns (ghost order: seq<string>)
      requires Going(b, 0, now) && batch == b.objects && FillsAlike(b, now)
      modifies this, batch
      ensures Going(b, |batch|, now) && Grew()
      ensures Ranges(order, SelectedIds(old(State()), filter))
      ensures State() == FillAll(DropAll(old(State()), old(model), order), b.offers, now).(lastUpdate := now)
    {
      order := RemoveSelected(filter);
      InsertFilled(batch, b, now);
      TouchAfter(b, now);
    }

    method RemoveSelected(filter: Option<OverwriteFilter>) returns (ghost order: seq<string>)
      requires Valid()
      modifies this`offers, this`model, this`repr, this`lenderIndex, this`tokenIndex, this`offerTypeIndex
      ensures Valid() && repr == old(repr) && Ranges(order, SelectedIds(old(State()), filter))
      ensures State() == DropAll(old(State()), old(model), order)
    {
      var found;
      found, order := IdentifyOffersToDelete(filter);
      RemoveAll(found, order);
    }

    method InsertFilled(batch: seq<MarginOffer>, ghost b: Batch, now: Time)
      requires Going(b, 0, now) && batch == b.objects && FillsAlike(b, now)
      modifies this, batch
      ensures Going(b, |batch|, now) && Grew()
      ensures State() == FillAll(old(State()), b.offers, now)
    {
      ghost var s := State();
      for i := 0 to |batch|
        invariant Going(b, i, now) && Grew()
        invariant FillsAlike(b, now)
        invariant FillAll(State(), b.offers[i..], now) == FillAll(s, b.offers, now)
      {
        FillAllStep(State(), b.offers, i, now);
        InsertFilledAt(batch, b, i, now);
      }
    }

    /** Filling in the time of creation of an object once more makes no difference. */
    static ghost predicate FillsAlike(b: Batch, now: Time)
      reads b.objects
    {
      |b.objects| == |b.offers| && forall j :: 0 <= j < |b.objects| ==>
        CreatedOr(b.objects[j].fields.created, now) == CreatedOr(b.offers[j].created, now)
    }

    method InsertFilledAt(batch: seq<MarginOffer>, ghost b: Batch, i: nat, now: Time)
      requires Going(b, i, now) && batch == b.objects && i < |batch| && FillsAlike(b, now)
      modifies this, batch
      ensures Going(b, i + 1, now) && Grew()
      ensures FillsAlike(b, now)
      ensures State() == Insert(old(State()), StampFill(b.offers[i], now))
    {
      InBatch(b, i, i, now);
      assert batch[i] in batch;
      PutFilled(batch[i], now);
    }

    /** Replaces the whole data set. */
    method BulkOverwrite(batch: seq<MarginOffer?>, now: Time) returns (outcome: Outcome, ghost order: seq<string>)
      requires Valid() && Apart(batch)
      modifies this, batch
      ensures Valid() && Grew() && Apart(batch)
      ensures var bad := CheckAll(old(ValuesOf(batch)));
              bad != Ok ==> outcome == bad && State() == old(State())
      ensures CheckAll(old(ValuesOf(batch))) == Ok ==>
        && Ranges(order, old(State()).offers.Keys)
        && Reply(State(), outcome) == Overwrite(old(State()), old(ValuesOf(batch)), None, order, now)
      ensures outcome != Ok ==> forall i :: 0 <= i < |batch| && batch[i] != null ==> batch[i].fields == old(batch[i].fields)
      ensures outcome == Ok ==> forall i :: 0 <= i < |batch| ==>
        batch[i] != null && OnlyStamped(old(batch[i].fields), batch[i].fields, now)
    {
      assert SelectedIds(State(), None) == State().offers.Keys;
      outcome, order := BulkOverwriteByFilter(batch, None, now);
    }

    /** How many offers an overwrite with this filter would remove. */
    method GetOverwriteStats(filter: Option<OverwriteFilter>) returns (n: nat)
      requires Valid()
      ensures n == |SelectedIds(State(), filter)|
    {
      var found, order := IdentifyOffersToDelete(filter);
      DistinctCount(order, SelectedIds(State(), filter));
      n := |found|;
    }

    /** Which ones. */
    method PreviewOverwrite(filter: Option<OverwriteFilter>) returns (ids: seq<string>)
      requires Valid()
      ensures Ranges(ids, SelectedIds(State(), filter))
    {
      var found, order := IdentifyOffersToDelete(filter);
      ids := [];
      for i := 0 to |found|
        invariant ids == order[..i]
      {
        ids := ids + [found[i].fields.id];
      }
    }

    // Queries: every object returned is a new one

    method Count() returns (n: nat)
      requires Valid()
      ensures n == |State().offers|
    {
      assert |offers| == |offers.Keys| == |model.Keys| == |model|;
      n := |offers|;
    }

    method CountByOfferType(offerType: string) returns (n: nat)
      ensures n == StoreLookups.CountByOfferType(State(), offerType)
    {
      if offerType !in offerTypeIndex {
        return 0;
      }
      n := |offerTypeIndex[offerType]|;
    }

    /** Adds up in whatever order the map is ranged over. */
    method GetTotalLiquidity(borrowToken: string) returns (total: real)
      requires Valid()
      ensures total == Liquidity(State().offers, borrowToken)
    {
      total := 0.0;
      var todo := offers.Keys;
      while todo != {}
        invariant todo <= model.Keys
        invariant total + Total(model, borrowToken, todo) == Liquidity(model, borrowToken)
      {
        var id :| id in todo;
        TotalPicks(model, borrowToken, todo, id);
        if offers[id].fields.terms.borrowToken == borrowToken {
          total := total + offers[id].fields.terms.availableBorrowAmount;
        }
        todo := todo - {id};
      }
    }

    /** Copies of the offers behind a list of IDs. */
    method CloneAll(ids: seq<string>) returns (found: seq<MarginOffer>)
      requires Valid()
      ensures FieldsOf(found) == Collect(State().offers, ids)
      ensures forall o :: o in found ==> fresh(o.Footprint())
    {
      found := [];
      for i := 0 to |ids|
        invariant forall o :: o in found ==> fresh(o.Footprint())
        invariant FieldsOf(found) + Collect(model, ids[i..]) == Collect(model, ids)
      {
        ghost var before := FieldsOf(found);
        assert ids[i..][0] == ids[i] && ids[i..][1..] == ids[i + 1..];
        if ids[i] in offers {
          var clone := offers[ids[i]].Clone();
          found := found + [clone];
          assert FieldsOf(found) == before + [model[ids[i]]];
        }
      }
    }

    method GetOffersByLenderFromIndex(lender: string) returns (found: seq<MarginOffer>)
      requires Valid()
      ensures FieldsOf(found) == Lookup(State(), ByLender, lender)
      ensures forall o :: o in found ==> fresh(o.Footprint())
    {
      if lender !in lenderIndex {
        return [];
      }
      found := CloneAll(lenderIndex[lender]);
    }

    method GetOffersByTokenFromIndex(collateral: string, borrow: string) returns (found: seq<MarginOffer>)
      requires Valid()
      ensures FieldsOf(found) == Lookup(State(), ByToken, TokenKey(collateral, borrow))
      ensures forall o :: o in found ==> fresh(o.Footprint())
    {
      var pair := collateral + "|" + borrow;
      if pair !in tokenIndex {
        return [];
      }
      found := CloneAll(tokenIndex[pair]);
    }

    method GetOffersByTypeFromIndex(offerType: string) returns (found: seq<MarginOffer>)
      requires Valid()
      ensures FieldsOf(found) == Lookup(State(), ByType, offerType)
      ensures forall o :: o in found ==> fresh(o.Footprint())
    {
      if offerType !in offerTypeIndex {
        return [];
      }
      found := CloneAll(offerTypeIndex[offerType]);
    }

    /** Copies of the offers that a request selects, in the order the map is ranged over. */
    method CloneMatching(req: ListRequest, now: Time) returns (found: seq<Item>, ghost made: set<object>)
      requires Valid()
      ensures Enumerates(ItemValues(found), State().offers, MatchingIds(State().offers, req, now))
      ensures fresh(made) && Honest(found, made)
    {
      found, made := [], {};
      var todo := offers.Keys;
      ghost var seen := {};
      while todo != {}
        invariant todo <= model.Keys && fresh(made) && Honest(found, made)
        invariant seen == MatchingIds(model, req, now) - todo
        invariant Enumerates(ItemValues(found), model, seen)
      {
        var id :| id in todo;
        todo := todo - {id};
        var item := CloneIfMatching(id, req, now);
        if item.Some? {
          OneMoreItem(found, item.value, model, seen, id);
          OneMoreHonest(found, item.value, made);
          found, made := found + [item.value], made + item.value.offer.Footprint();
          seen := seen + {id};
        }
      }
    }

    method CloneIfMatching(id: string, req: ListRequest, now: Time) returns (item: Option<Item>)
      requires Valid() && id in model
      ensures item.Some? <==> MatchesFilters(model[id], req, now)
      ensures item.Some? ==>
        fresh(item.value.offer.Footprint()) && item.value.offer.Value() == item.value.value == model[id]
    {
      assert Keeps(offers[id], model[id], repr);
      if !MatchesFilters(offers[id].Value(), req, now) {
        return None;
      }
      var clone := offers[id].Clone();
      return Some(Item(clone, clone.Value()));
    }

    /** One page of the sorted selection; `None` where the slice expression panics. */
    method List(request: Option<ListRequest>, now: Time)
        returns (page: Option<seq<MarginOffer>>, ghost sorted: seq<Offer>)
      requires Valid()
      ensures var req := if request.None? then DEFAULT_REQUEST else request.value;
              && Listed(sorted, State().offers, req, now)
              && (page.None? <==> PageOf(sorted, req.offset, req.limit).None?)
              && (page.Some? ==> FieldsOf(page.value) == PageOf(sorted, req.offset, req.limit).value)
      ensures page.Some? ==> forall o :: o in page.value ==> fresh(o.Footprint())
    {
      var req := if request.None? then DEFAULT_REQUEST else request.value;
      var all, made := ListAll(req, now);
      sorted := ItemValues(all);
      var start, end := req.offset as int, req.offset + req.limit;
      if start >= |all| {
        return Some([]), sorted;
      }
      if end > |all| {
        end := |all|;
      }
      if 0 <= start <= end {
        ItemSlice(all, made, start, end);
        return Some(ItemOffers(all[start..end])), sorted;
      }
      return None, sorted;
    }

    static lemma ItemSlice(items: seq<Item>, made: set<object>, start: nat, end: nat)
      requires start <= end <= |items| && Honest(items, made)
      ensures FieldsOf(ItemOffers(items[start..end])) == ItemValues(items)[start..end]
      ensures forall o :: o in ItemOffers(items[start..end]) ==> o.Footprint() <= made
    {
      var part := items[start..end];
      forall i | 0 <= i < |part|
        ensures ItemOffers(part)[i].Value() == ItemValues(items)[start + i] && ItemOffers(part)[i].Footprint() <= made
      {
        assert part[i] == items[start + i] && Keeps(part[i].offer, part[i].value, made);
      }
    }

    /** The whole sorted selection. */
    method ListAll(req: ListRequest, now: Time) returns (all: seq<Item>, ghost made: set<object>)
      requires Valid()
      ensures Listed(ItemValues(all), State().offers, req, now)
      ensures fresh(made) && Honest(all, made)
    {
      var found;
      found, made := CloneMatching(req, now);
      all := SortOffers(found, req.sortBy, req.sortOrder);
      PermutationEnumerates(ItemValues(found), ItemValues(all), model, MatchingIds(model, req, now));
    }

    method ListByLender(lender: string, request: Option<ListRequest>, now: Time)
        returns (page: Result<Option<seq<MarginOffer>>>, ghost sorted: seq<Offer>)
      requires Valid()
      ensures lender == "" <==> page == Failure(InvalidEventData)
      ensures page.Success? ==>
        var req := (if request.None? then DEFAULT_REQUEST else request.value).(lenderAddress := Some(lender));
        && Listed(sorted, State().offers, req, now)
        && (page.value.None? <==> PageOf(sorted, req.offset, req.limit).None?)
        && (page.value.Some? ==> FieldsOf(page.value.value) == PageOf(sorted, req.offset, req.limit).value)
      ensures page.Success? && page.value.Some? ==> forall o :: o in page.value.value ==> fresh(o.Footprint())
    {
      sorted := [];
      if lender == "" {
        return Failure(InvalidEventData), sorted;
      }
      var req := if request.None? then DEFAULT_REQUEST else request.value;
      req := req.(lenderAddress := Some(lender));
      var p;
      p, sorted := List(Some(req), now);
      page := Success(p);
    }

    method ListByToken(collateral: string, borrow: string, request: Option<ListRequest>, now: Time)
        returns (page: Result<Option<seq<MarginOffer>>>, ghost sorted: seq<Offer>)
      requires Valid()
      ensures collateral == "" || borrow == "" <==> page == Failure(InvalidEventData)
      ensures page.Success? ==>
        var req := (if request.None? then DEFAULT_REQUEST else request.value)
                   .(collateralToken := Some(collateral), borrowToken := Some(borrow));
        && Listed(sorted, State().offers, req, now)
        && (page.value.None? <==> PageOf(sorted, req.offset, req.limit).None?)
        && (page.value.Some? ==> FieldsOf(page.value.value) == PageOf(sorted, req.offset, req.limit).value)
      ensures page.Success? && page.value.Some? ==> forall o :: o in page.value.value ==> fresh(o.Footprint())
    {
      sorted := [];
      if collateral == "" || borrow == "" {
        return Failure(InvalidEventData), sorted;
      }
      var req := if request.None? then DEFAULT_REQUEST else request.value;
      req := req.(collateralToken := Some(collateral));
      req := req.(borrowToken := Some(borrow));
      var p;
      p, sorted := List(Some(req), now);
      page := Success(p);
    }

    method ListByOfferType(offerType: string, request: Option<ListRequest>, now: Time)
        returns (page: Option<seq<MarginOffer>>, ghost sorted: seq<Offer>)
      requires Valid()
      ensures var req := (if request.None? then DEFAULT_REQUEST else request.value).(offerType := Some(offerType));
              && Listed(sorted, State().offers, req, now)
              && (page.None? <==> PageOf(sorted, req.offset, req.limit).None?)
              && (page.Some? ==> FieldsOf(page.value) == PageOf(sorted, req.offset, req.limit).value)
      ensures page.Some? ==> forall o :: o in page.value ==> fresh(o.Footprint())
    {
      var req := if request.None? then DEFAULT_REQUEST else request.value;
      req := req.(offerType := Some(offerType));
      page, sorted := List(Some(req), now);
    }
  }
}
