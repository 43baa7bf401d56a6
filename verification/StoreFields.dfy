/** What each operation leaves in the store, field by field, and what it leaves alone; which offers
    it accepts, and how it refuses the others. */
module StoreFields {
  import opened Types
  import opened IndexLists
  import opened StoreSpec
  import opened StoreInvariants
  import opened StoreRuns
  import opened StoreTheorems
  import opened StoreBatches

  // Refusals

  /** What an error says is wrong with an offer. */
  predicate Fault(o: Offer, e: Error) {
    match e
    case MissingId => o.id == ""
    case MissingCollateralToken => o.terms.collateralToken == ""
    case MissingBorrowToken => o.terms.borrowToken == ""
    case InvalidBorrowAmount => o.terms.availableBorrowAmount < 0.0
    case InvalidMaxOpenLTV => !(0.0 <= o.terms.maxOpenLTV <= 1.0)
    case InvalidLiquidationLTV => !(0.0 <= o.terms.liquidationLTV <= 1.0)
    case InvalidLTVRatio => o.terms.liquidationLTV <= o.terms.maxOpenLTV
    case InvalidInterestRate => o.terms.interestRate < 0.0
    case MissingLiquiditySource => o.terms.liquiditySource == ""
    case _ => false
  }

  /** The order in which faults are looked for. */
  function Rank(e: Error): nat {
    match e
    case MissingId => 0
    case MissingCollateralToken => 1
    case MissingBorrowToken => 2
    case InvalidBorrowAmount => 3
    case InvalidMaxOpenLTV => 4
    case InvalidLiquidationLTV => 5
    case InvalidLTVRatio => 6
    case InvalidInterestRate => 7
    case _ => 8
  }

  /** An offer is accepted if it has no fault, and refused with the first of its faults if it has any. */
  lemma FirstFault(o: Offer)
    ensures Validate(o) == Ok <==> forall e :: !Fault(o, e)
    ensures Validate(o) != Ok ==>
      Fault(o, Validate(o).error) && forall e :: Fault(o, e) ==> Rank(Validate(o).error) <= Rank(e)
  {
    if Validate(o) != Ok {
      assert Fault(o, Validate(o).error);
    }
  }

  /** A batch is refused with the first error of the first offer that has one. */
  lemma {:induction false} FirstRefused(batch: seq<Option<Offer>>, i: nat)
    requires i < |batch| && Checked(batch[i]) != Ok && forall j :: 0 <= j < i ==> Checked(batch[j]) == Ok
    ensures CheckAll(batch) == Checked(batch[i])
  {
    if i > 0 {
      assert batch[0] in batch;
      FirstRefused(batch[1..], i - 1);
    }
  }

  /** A batch of IDs is refused with the error of the first ID that cannot be deleted. */
  lemma {:induction false} FirstUndeletable(s: State, ids: seq<string>, i: nat, now: Time)
    requires i < |ids| && Delete(s, ids[i], now).outcome != Ok
    requires forall j :: 0 <= j < i ==> Delete(s, ids[j], now).outcome == Ok
    ensures BulkDelete(s, ids, now) == Reply(s, Delete(s, ids[i], now).outcome)
  {
    if i > 0 {
      assert Delete(s, ids[0], now).outcome == Ok;
      FirstUndeletable(s, ids[1..], i - 1, now);
    }
  }

  /** A batch creation that is refused although every offer of it is valid is refused because an ID exists
      already, in the store or in the batch; a batch update, because an ID is not stored. */
  lemma {:induction false} RefusedIds(s: State, batch: seq<Option<Offer>>, now: Time)
    requires forall o :: o in batch ==> Checked(o) == Ok
    ensures BulkCreate(s, batch, now).outcome in {Ok, Err(OfferAlreadyExists)}
    ensures CheckNew(batch) in {Ok, Err(OfferAlreadyExists)}
    ensures BulkUpdate(s, batch, now).outcome in {Ok, Err(OfferNotFound)}
  {
    if batch != [] {
      RefusedIds(s, batch[1..], now);
    }
  }

  // Single operations

  /** After a call the store holds `o` under its ID and is otherwise as it was. */
  ghost predicate Stores(s: State, t: State, o: Offer, now: Time) {
    && t.lastUpdate == now && o.id in t.offers && t.offers[o.id] == o
    && t.offers.Keys == s.offers.Keys + {o.id} && forall id :: id in s.offers && id != o.id ==> t.offers[id] == s.offers[id]
  }

  /** A valid offer with a new ID is created, at the time of the call whatever time it came with. */
  lemma CreateStores(s: State, o: Offer, now: Time)
    ensures var r := Create(s, Some(o), now);
            if Validate(o) != Ok then r == Reply(s, Validate(o))
            else if o.id in s.offers then r == Reply(s, Err(OfferAlreadyExists))
            else r.outcome == Ok && Stores(s, r.state, o.(created := now, updated := now), now)
  {
  }

  /** An update keeps the time of creation that comes with the offer. */
  lemma UpdateStores(s: State, o: Offer, now: Time)
    ensures var r := Update(s, Some(o), now);
            if Validate(o) != Ok then r == Reply(s, Validate(o))
            else if o.id !in s.offers then r == Reply(s, Err(OfferNotFound))
            else r.outcome == Ok && Stores(s, r.state, o.(updated := now), now)
  {
  }

  /** An upsert keeps the time of creation of the offer stored before, if there is one; otherwise it
      keeps the one that comes with the offer, if there is one; otherwise it is the time of the call. */
  lemma UpsertStores(s: State, o: Offer, now: Time)
    ensures var r := CreateOrUpdate(s, Some(o), now);
            var created := if o.id in s.offers then s.offers[o.id].created
                           else if o.created != ZERO_TIME then o.created else now;
            if Validate(o) != Ok then r == Reply(s, Validate(o))
            else r.outcome == Ok && Stores(s, r.state, o.(created := created, updated := now), now)
  {
  }

  /** A delete removes one offer and leaves the others. */
  lemma DeleteRemoves(s: State, id: string, now: Time)
    ensures var r := Delete(s, id, now);
            if id == "" then r == Reply(s, Err(MissingId))
            else if id !in s.offers then r == Reply(s, Err(OfferNotFound))
            else
              && r.outcome == Ok && r.state.lastUpdate == now && r.state.offers.Keys == s.offers.Keys - {id}
              && forall x :: x in r.state.offers ==> r.state.offers[x] == s.offers[x]
  {
  }

  // The time of creation over runs

  /** The operations that do not forget when a stored offer was created. */
  predicate Remembers(op: Op) {
    op.OpCreate? || op.OpUpsert? || op.OpBulkCreate? || op.OpBulkUpdate? || op.OpBulkUpsert?
  }

  /** Every offer of `s` is still there, created when it was. */
  ghost predicate StillCreated(s: State, t: State) {
    forall id :: id in s.offers ==> id in t.offers && t.offers[id].created == s.offers[id].created
  }

  lemma {:induction false} CreateEachRemembers(s: State, batch: seq<Option<Offer>>, now: Time)
    ensures StillCreated(s, CreateEach(s, batch, now).state)
    decreases |batch|
  {
    if batch != [] {
      CreateEachRemembers(Create(s, batch[0], now).state, batch[1..], now);
    }
  }

  lemma {:induction false} UpsertEachRemembers(s: State, batch: seq<Option<Offer>>, now: Time)
    ensures StillCreated(s, UpsertEach(s, batch, now).state)
    decreases |batch|
  {
    if batch != [] {
      UpsertEachRemembers(CreateOrUpdate(s, batch[0], now).state, batch[1..], now);
    }
  }

  lemma CallRemembers(s: State, op: Op, now: Time)
    requires Possible(s, op) && Remembers(op)
    ensures StillCreated(s, Apply(s, op, now).state)
  {
    match op
    case OpBulkCreate(batch) =>
      if batch != [] {
        BulkCreateIsCreateEach(s, batch, now);
        CreateEachRemembers(s, batch, now);
      }
    case OpBulkUpdate(batch) =>
      BulkUpdateIsUpsertEachIff(s, batch, now);
      UpsertEachRemembers(s, batch, now);
    case OpBulkUpsert(batch) =>
      BulkUpsertIsUpsertEach(s, batch, now);
      UpsertEachRemembers(s, batch, now);
    case _ =>
  }

  /** Over every run of creations, upserts and batch updates a stored offer keeps the time at which it
      was created, however often it is stored again. */
  lemma {:induction false} CreationTimeLasts(s: State, calls: seq<Call>)
    requires PossibleRun(s, calls) && forall i :: 0 <= i < |calls| ==> Remembers(calls[i].op)
    ensures StillCreated(s, Run(s, calls))
    decreases |calls|
  {
    if calls != [] {
      CallRemembers(s, calls[0].op, calls[0].now);
      assert forall i :: 0 <= i < |calls[1..]| ==> calls[1..][i] == calls[i + 1];
      CreationTimeLasts(Apply(s, calls[0].op, calls[0].now).state, calls[1..]);
    }
  }

  // The order within index lists

  /** The other IDs of a list. */
  function Others(l: seq<string>, id: string): seq<string> {
    if l == [] then []
    else (if l[0] == id then [] else [l[0]]) + Others(l[1..], id)
  }

  lemma {:induction false} OthersAre(l: seq<string>, id: string)
    ensures multiset(l)[id] == 0 ==> Others(l, id) == l
    ensures multiset(l)[id] <= 1 ==> RemoveFirst(l, id) == Others(l, id)
  {
    if l != [] {
      assert l == [l[0]] + l[1..];
      OthersAre(l[1..], id);
    }
  }

  /** Taking an ID out from under `was` and filing it under `key`, seen in one list. */
  lemma FiledAnew(m: Index, was: Option<string>, key: Option<string>, id: string, k: string)
    requires Occ(m, k, id) == if was == Some(k) then 1 else 0
    ensures ListAt(Push(Pull(m, was, id), key, id), k)
         == Others(ListAt(m, k), id) + if key == Some(k) then [id] else []
  {
    OthersAre(ListAt(m, k), id);
    var pulled := Pull(m, was, id);
    assert ListAt(pulled, k) == Others(ListAt(m, k), id);
  }

  /** From exact indexes, a stored offer goes to the end of the lists of its keys; the other entries of
      every list stay in order. So a lookup returns the offers in the order in which they were stored. */
  lemma StoredIsFiledLast(s: State, o: Offer, now: Time, kind: Kind, k: string)
    requires Exact(s) && Sound(s) && Validate(o) == Ok
    ensures ListAt(CreateOrUpdate(s, Some(o), now).state.indexes.At(kind), k)
         == Others(ListAt(s.indexes.At(kind), k), o.id) + if KeyOf(kind, o) == Some(k) then [o.id] else []
  {
    var was := if o.id in s.offers then KeyOf(kind, s.offers[o.id]) else None;
    assert Excess(s, kind, k, o.id) == 0;
    FiledAnew(s.indexes.At(kind), was, KeyOf(kind, o), o.id, k);
    UpsertIndexes(s, o, now, kind);
  }

  lemma UpsertIndexes(s: State, o: Offer, now: Time, kind: Kind)
    requires Sound(s) && Validate(o) == Ok
    ensures var was := if o.id in s.offers then KeyOf(kind, s.offers[o.id]) else None;
            CreateOrUpdate(s, Some(o), now).state.indexes.At(kind)
            == Push(Pull(s.indexes.At(kind), was, o.id), KeyOf(kind, o), o.id)
  {
    var v := UpsertStamped(s, o, now);
    assert KeyOf(kind, v) == KeyOf(kind, o) && v.id == o.id;
  }
}
