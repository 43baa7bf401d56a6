/** The offer store on values: what each operation makes of the primary map and of the
    three indexes. The class in MemoryStore is proved against these functions. */
module StoreSpec {
  import opened Types
  import opened IndexLists

  datatype Kind = ByLender | ByToken | ByType

  function TokenKey(collateral: string, borrow: string): string {
    collateral + "|" + borrow
  }

  /** The key under which an index of this kind files an offer, if it files it at all. */
  function KeyOf(kind: Kind, o: Offer): Option<string> {
    match kind
    case ByLender => o.details.lenderAddress
    case ByToken => Some(TokenKey(o.terms.collateralToken, o.terms.borrowToken))
    case ByType => Some(o.terms.offerType)
  }

  datatype Indexes = Indexes(lender: Index, token: Index, offerType: Index) {
    function At(kind: Kind): Index {
      match kind
      case ByLender => lender
      case ByToken => token
      case ByType => offerType
    }
  }

  datatype State = State(offers: map<string, Offer>, indexes: Indexes, lastUpdate: Time)

  const EMPTY: State := State(map[], Indexes(map[], map[], map[]), ZERO_TIME)

  datatype Reply = Reply(state: State, outcome: Outcome)

  // Index maintenance

  function AddToIndexes(ix: Indexes, o: Offer): Indexes {
    Indexes(Push(ix.lender, KeyOf(ByLender, o), o.id),
            Push(ix.token, KeyOf(ByToken, o), o.id),
            Push(ix.offerType, KeyOf(ByType, o), o.id))
  }

  function RemoveFromIndexes(ix: Indexes, o: Offer): Indexes {
    Indexes(Pull(ix.lender, KeyOf(ByLender, o), o.id),
            Pull(ix.token, KeyOf(ByToken, o), o.id),
            Pull(ix.offerType, KeyOf(ByType, o), o.id))
  }

  function Insert(s: State, o: Offer): State {
    s.(offers := s.offers[o.id := o], indexes := AddToIndexes(s.indexes, o))
  }

  function Unindex(s: State, o: Offer): State {
    s.(indexes := RemoveFromIndexes(s.indexes, o))
  }

  // The time stamps an operation puts on the offer it stores

  function StampNew(o: Offer, now: Time): Offer {
    o.(created := now, updated := now)
  }

  function StampFill(o: Offer, now: Time): Offer {
    o.(created := CreatedOr(o.created, now), updated := now)
  }

  function CreatedOr(created: Time, now: Time): Time {
    if created == ZERO_TIME then now else created
  }

  function StampKeep(o: Offer, prev: Offer, now: Time): Offer {
    o.(created := prev.created, updated := now)
  }

  // Single operations

  function Checked(o: Option<Offer>): Outcome {
    if o.None? then Err(InvalidEventData) else Validate(o.value)
  }

  function Create(s: State, o: Option<Offer>, now: Time): Reply {
    if Checked(o) != Ok then Reply(s, Checked(o))
    else if o.value.id in s.offers then Reply(s, Err(OfferAlreadyExists))
    else Reply(Insert(s, StampNew(o.value, now)).(lastUpdate := now), Ok)
  }

  function GetByID(s: State, id: string): Result<Offer> {
    if id == "" then Failure(MissingId)
    else if id !in s.offers then Failure(OfferNotFound)
    else Success(s.offers[id])
  }

  function Update(s: State, o: Option<Offer>, now: Time): Reply {
    if Checked(o) != Ok then Reply(s, Checked(o))
    else if o.value.id !in s.offers then Reply(s, Err(OfferNotFound))
    else
      var removed := Unindex(s, s.offers[o.value.id]);
      Reply(Insert(removed, o.value.(updated := now)).(lastUpdate := now), Ok)
  }

  function Delete(s: State, id: string, now: Time): Reply {
    if id == "" then Reply(s, Err(MissingId))
    else if id !in s.offers then Reply(s, Err(OfferNotFound))
    else Reply(Unindex(s, s.offers[id]).(offers := s.offers - {id}, lastUpdate := now), Ok)
  }

  function UpsertStamped(s: State, o: Offer, now: Time): Offer {
    if o.id in s.offers then StampKeep(o, s.offers[o.id], now) else StampFill(o, now)
  }

  /** The upsert of a valid offer. */
  function Upsert(s: State, o: Offer, now: Time): State {
    var removed := if o.id in s.offers then Unindex(s, s.offers[o.id]) else s;
    Insert(removed, UpsertStamped(s, o, now)).(lastUpdate := now)
  }

  function CreateOrUpdate(s: State, o: Option<Offer>, now: Time): Reply {
    if Checked(o) != Ok then Reply(s, Checked(o)) else Reply(Upsert(s, o.value, now), Ok)
  }

  // Batches. Each batch operation checks everything first and then folds over the batch.

  /** The first error of a batch, in order. */
  function CheckAll(batch: seq<Option<Offer>>): (r: Outcome)
    ensures r == Ok <==> forall o :: o in batch ==> Checked(o) == Ok
  {
    if batch == [] then Ok
    else if Checked(batch[0]) != Ok then Checked(batch[0])
    else CheckAll(batch[1..])
  }

  /** As `CheckAll`, but an offer whose ID occurs again later is an error too. */
  function CheckNew(batch: seq<Option<Offer>>): Outcome {
    if batch == [] then Ok
    else if Checked(batch[0]) != Ok then Checked(batch[0])
    else if RepeatedLater(batch) then Err(OfferAlreadyExists)
    else CheckNew(batch[1..])
  }

  predicate RepeatedLater(batch: seq<Option<Offer>>)
    requires batch != [] && batch[0].Some?
  {
    exists j :: 1 <= j < |batch| && batch[j].Some? && batch[j].value.id == batch[0].value.id
  }

  function Offers(batch: seq<Option<Offer>>): (os: seq<Offer>)
    requires forall o :: o in batch ==> o.Some?
  {
    seq(|batch|, i requires 0 <= i < |batch| => batch[i].value)
  }

  ghost predicate DistinctIds(os: seq<Offer>) {
    forall i, j :: 0 <= i < j < |os| ==> os[i].id != os[j].id
  }

  function CreateAll(s: State, os: seq<Offer>, now: Time): State
    decreases |os|
  {
    if os == [] then s else CreateAll(Insert(s, StampNew(os[0], now)), os[1..], now)
  }

  predicate AnyStored(s: State, os: seq<Offer>) {
    exists i :: 0 <= i < |os| && os[i].id in s.offers
  }

  predicate AllStored(s: State, os: seq<Offer>) {
    forall i :: 0 <= i < |os| ==> os[i].id in s.offers
  }

  function BulkCreate(s: State, batch: seq<Option<Offer>>, now: Time): Reply {
    if batch == [] then Reply(s, Ok)
    else if CheckNew(batch) != Ok then Reply(s, CheckNew(batch))
    else
      CheckNewPasses(batch);
      if AnyStored(s, Offers(batch)) then Reply(s, Err(OfferAlreadyExists))
      else Reply(CreateAll(s, Offers(batch), now).(lastUpdate := now), Ok)
  }

  /** What was looked up for the ID of `o`; a batch whose lookup fails is not carried out. */
  function Prior(olds: map<string, Offer>, o: Offer): Offer {
    if o.id in olds then olds[o.id] else o
  }

  /** Replaces an offer, de-indexing what was looked up for its ID. */
  function UpdateStep(s: State, olds: map<string, Offer>, o: Offer, now: Time): State {
    Insert(Unindex(s, Prior(olds, o)), StampKeep(o, Prior(olds, o), now))
  }

  /** `olds` is what the store held before the batch: it is looked up once, up front. */
  function UpdateAll(s: State, olds: map<string, Offer>, os: seq<Offer>, now: Time): State
    decreases |os|
  {
    if os == [] then s else UpdateAll(UpdateStep(s, olds, os[0], now), olds, os[1..], now)
  }

  function BulkUpdate(s: State, batch: seq<Option<Offer>>, now: Time): Reply {
    if batch == [] then Reply(s, Ok)
    else if CheckAll(batch) != Ok then Reply(s, CheckAll(batch))
    else if !AllStored(s, Offers(batch)) then Reply(s, Err(OfferNotFound))
    else Reply(UpdateAll(s, s.offers, Offers(batch), now).(lastUpdate := now), Ok)
  }

  function UpsertAll(s: State, os: seq<Offer>, now: Time): State
    decreases |os|
  {
    if os == [] then s else UpsertAll(Upsert(s, os[0], now), os[1..], now)
  }

  function BulkCreateOrUpdate(s: State, batch: seq<Option<Offer>>, now: Time): Reply {
    if batch == [] then Reply(s, Ok)
    else if CheckAll(batch) != Ok then Reply(s, CheckAll(batch))
    else Reply(UpsertAll(s, Offers(batch), now).(lastUpdate := now), Ok)
  }

  /** De-indexes and deletes one offer that was looked up before. */
  function DropOne(s: State, olds: map<string, Offer>, id: string): State {
    if id in olds then Unindex(s, olds[id]).(offers := s.offers - {id}) else s
  }

  /** De-indexes and deletes, one after another, the offers that `olds` gives for `ids`. */
  function DropAll(s: State, olds: map<string, Offer>, ids: seq<string>): State
    decreases |ids|
  {
    if ids == [] then s else DropAll(DropOne(s, olds, ids[0]), olds, ids[1..])
  }

  /** The first ID that cannot be deleted decides the error. */
  function CheckIds(s: State, ids: seq<string>): (r: Outcome)
    ensures r == Ok <==> forall i :: 0 <= i < |ids| ==> ids[i] != "" && ids[i] in s.offers
  {
    if ids == [] then Ok
    else if ids[0] == "" then Err(MissingId)
    else if ids[0] !in s.offers then Err(OfferNotFound)
    else
      assert forall i :: 1 <= i < |ids| ==> ids[i] == ids[1..][i - 1];
      CheckIds(s, ids[1..])
  }

  function BulkDelete(s: State, ids: seq<string>, now: Time): Reply {
    if ids == [] then Reply(s, Ok)
    else if CheckIds(s, ids) != Ok then Reply(s, CheckIds(s, ids))
    else Reply(DropAll(s, s.offers, ids).(lastUpdate := now), Ok)
  }

  // Filtered overwrite

  datatype OverwriteFilter = OverwriteFilter(
    offerType: Option<string>,
    collateralToken: Option<string>,
    borrowToken: Option<string>,
    lenderAddress: Option<string>,
    liquiditySource: Option<string>,
    source: Option<string>,
    createdAfter: Option<Time>,
    createdBefore: Option<Time>,
    updatedAfter: Option<Time>,
    updatedBefore: Option<Time>)

  /** `want` is absent, or it is what the offer has. */
  predicate Asks<T(==)>(want: Option<T>, has: T) {
    want.None? || want.value == has
  }

  predicate Within(after: Option<Time>, before: Option<Time>, t: Time) {
    (after.Some? ==> after.value <= t) && (before.Some? ==> t <= before.value)
  }

  /** The `source` of the filter is never looked at. */
  predicate MatchesOverwriteFilter(o: Offer, f: OverwriteFilter) {
    && Asks(f.offerType, o.terms.offerType)
    && Asks(f.collateralToken, o.terms.collateralToken)
    && Asks(f.borrowToken, o.terms.borrowToken)
    && (f.lenderAddress.Some? ==> o.details.lenderAddress == f.lenderAddress)
    && Asks(f.liquiditySource, o.terms.liquiditySource)
    && Within(f.createdAfter, f.createdBefore, o.created)
    && Within(f.updatedAfter, f.updatedBefore, o.updated)
  }

  predicate Selects(filter: Option<OverwriteFilter>, o: Offer) {
    filter.None? || MatchesOverwriteFilter(o, filter.value)
  }

  function SelectedIds(s: State, filter: Option<OverwriteFilter>): set<string> {
    set id | id in s.offers && Selects(filter, s.offers[id])
  }

  /** `order` lists the members of `ids`, each once: an order in which a map may be ranged over. */
  ghost predicate Ranges(order: seq<string>, ids: set<string>) {
    && (forall i, j :: 0 <= i < j < |order| ==> order[i] != order[j])
    && (forall id :: id in order <==> id in ids)
  }

  function FillAll(s: State, os: seq<Offer>, now: Time): State
    decreases |os|
  {
    if os == [] then s else FillAll(Insert(s, StampFill(os[0], now)), os[1..], now)
  }

  /** `order` is the order in which the run happened to range over the selected offers. */
  function Overwrite(s: State, batch: seq<Option<Offer>>, filter: Option<OverwriteFilter>,
                     order: seq<string>, now: Time): Reply
  {
    if CheckAll(batch) != Ok then Reply(s, CheckAll(batch))
    else
      var kept := DropAll(s, s.offers, order);
      Reply(FillAll(kept, Offers(batch), now).(lastUpdate := now), Ok)
  }

  // Any operation

  datatype Op =
    | OpCreate(offer: Option<Offer>)
    | OpUpdate(offer: Option<Offer>)
    | OpDelete(id: string)
    | OpUpsert(offer: Option<Offer>)
    | OpBulkCreate(batch: seq<Option<Offer>>)
    | OpBulkUpdate(batch: seq<Option<Offer>>)
    | OpBulkUpsert(batch: seq<Option<Offer>>)
    | OpBulkDelete(ids: seq<string>)
    | OpOverwrite(batch: seq<Option<Offer>>, filter: Option<OverwriteFilter>, order: seq<string>)

  /** What can happen: an overwrite ranges over exactly the offers its filter selects. */
  ghost predicate Possible(s: State, op: Op) {
    op.OpOverwrite? ==> Ranges(op.order, SelectedIds(s, op.filter))
  }

  ghost function Apply(s: State, op: Op, now: Time): Reply
    requires Possible(s, op)
  {
    match op
    case OpCreate(o) => Create(s, o, now)
    case OpUpdate(o) => Update(s, o, now)
    case OpDelete(id) => Delete(s, id, now)
    case OpUpsert(o) => CreateOrUpdate(s, o, now)
    case OpBulkCreate(batch) => BulkCreate(s, batch, now)
    case OpBulkUpdate(batch) => BulkUpdate(s, batch, now)
    case OpBulkUpsert(batch) => BulkCreateOrUpdate(s, batch, now)
    case OpBulkDelete(ids) => BulkDelete(s, ids, now)
    case OpOverwrite(batch, filter, order) => Overwrite(s, batch, filter, order, now)
  }

  /** One call: an operation and the clock it reads. */
  datatype Call = Call(op: Op, now: Time)

  ghost predicate PossibleRun(s: State, calls: seq<Call>)
    decreases |calls|
  {
    calls == [] || (Possible(s, calls[0].op)
                    && PossibleRun(Apply(s, calls[0].op, calls[0].now).state, calls[1..]))
  }

  ghost function Run(s: State, calls: seq<Call>): State
    requires PossibleRun(s, calls)
    decreases |calls|
  {
    if calls == [] then s
    else Run(Apply(s, calls[0].op, calls[0].now).state, calls[1..])
  }

  // The up-front checks of a batch

  lemma {:induction false} CheckNewPasses(batch: seq<Option<Offer>>)
    ensures CheckNew(batch) == Ok <==>
            && (forall o :: o in batch ==> Checked(o) == Ok)
            && (forall i, j :: 0 <= i < j < |batch| && batch[i].Some? && batch[j].Some?
                  ==> batch[i].value.id != batch[j].value.id)
  {
    if batch != [] {
      CheckNewPasses(batch[1..]);
      assert forall o :: o in batch <==> o == batch[0] || o in batch[1..];
      assert forall i :: 1 <= i < |batch| ==> batch[i] == batch[1..][i - 1];
      if Checked(batch[0]) == Ok && !RepeatedLater(batch) {
        assert forall i, j :: 1 <= i < j < |batch| ==>
          batch[i] == batch[1..][i - 1] && batch[j] == batch[1..][j - 1];
      }
      if CheckNew(batch) != Ok && Checked(batch[0]) == Ok && !RepeatedLater(batch) {
        assert CheckNew(batch[1..]) != Ok;
      }
    }
  }

  // One step of a fold that has come to position `i` of a batch

  lemma CreateAllStep(s: State, os: seq<Offer>, i: nat, now: Time)
    requires i < |os|
    ensures CreateAll(s, os[i..], now) == CreateAll(Insert(s, StampNew(os[i], now)), os[i + 1..], now)
  {
    assert os[i..][0] == os[i] && os[i..][1..] == os[i + 1..];
  }

  lemma UpdateAllStep(s: State, olds: map<string, Offer>, os: seq<Offer>, i: nat, now: Time)
    requires i < |os|
    ensures UpdateAll(s, olds, os[i..], now) == UpdateAll(UpdateStep(s, olds, os[i], now), olds, os[i + 1..], now)
  {
    assert os[i..][0] == os[i] && os[i..][1..] == os[i + 1..];
  }

  lemma UpsertAllStep(s: State, os: seq<Offer>, i: nat, now: Time)
    requires i < |os|
    ensures UpsertAll(s, os[i..], now) == UpsertAll(Upsert(s, os[i], now), os[i + 1..], now)
  {
    assert os[i..][0] == os[i] && os[i..][1..] == os[i + 1..];
  }

  lemma FillAllStep(s: State, os: seq<Offer>, i: nat, now: Time)
    requires i < |os|
    ensures FillAll(s, os[i..], now) == FillAll(Insert(s, StampFill(os[i], now)), os[i + 1..], now)
  {
    assert os[i..][0] == os[i] && os[i..][1..] == os[i + 1..];
  }

  lemma DropAllStep(s: State, olds: map<string, Offer>, ids: seq<string>, i: nat)
    requires i < |ids|
    ensures DropAll(s, olds, ids[i..]) == DropAll(DropOne(s, olds, ids[i]), olds, ids[i + 1..])
  {
    assert ids[i..][0] == ids[i] && ids[i..][1..] == ids[i + 1..];
  }
}
