/** The ETL event handlers against the store: what each event does, and that liquidity and
    interest-rate events for whatever offers commute. */
module EtlEvents {
  import opened Types
  import opened IndexLists
  import opened StoreSpec
  import opened StoreInvariants
  import opened StoreRuns
  import opened StoreTheorems

  datatype LiquidityKind = LiquidityAdded | LiquidityRemoved | OtherLiquidity

  datatype LiquidityEvent = LiquidityEvent(kind: LiquidityKind, offerId: string, newTotalAmount: real)

  datatype InterestRateEvent = InterestRateEvent(offerId: string, newRate: real, rateModel: string)

  datatype OfferKind = OfferCreated | OfferUpdated | OfferDeleted | OtherOfferEvent

  datatype OfferEvent = OfferEvent(kind: OfferKind, offerId: string, transactionHash: string, lender: string,
                                   timestamp: Time, offerData: Option<Offer>)

  /** The state after an event and whether it succeeded. */
  datatype Result = Result(state: State, success: bool)

  function WithLiquidity(o: Offer, ev: LiquidityEvent): Offer {
    o.(terms := o.terms.(availableBorrowAmount := ev.newTotalAmount))
  }

  function WithRate(o: Offer, ev: InterestRateEvent): Offer {
    o.(terms := o.terms.(interestRate := ev.newRate, interestModel := ev.rateModel))
  }

  function Store(s: State, o: Offer, now: Time): Result {
    var r := CreateOrUpdate(s, Some(o), now);
    Result(r.state, r.outcome == Ok)
  }

  function ProcessLiquidityEvent(s: State, ev: LiquidityEvent, now: Time): Result {
    match GetByID(s, ev.offerId)
    case Failure(_) => Result(s, false)
    case Success(o) => if ev.kind.OtherLiquidity? then Result(s, false) else Store(s, WithLiquidity(o, ev), now)
  }

  function ProcessInterestRateEvent(s: State, ev: InterestRateEvent, now: Time): Result {
    match GetByID(s, ev.offerId)
    case Failure(_) => Result(s, false)
    case Success(o) => Store(s, WithRate(o, ev), now)
  }

  /** The offer of an event, with the gaps filled from the event itself. */
  function Completed(ev: OfferEvent, o: Offer): Offer {
    o.(id := if o.id == "" then ev.offerId else o.id,
       created := if o.created == ZERO_TIME then ev.timestamp else o.created,
       updated := ev.timestamp)
  }

  function ProcessMarginOfferEvent(s: State, ev: OfferEvent, now: Time): Result {
    if ev.offerId == "" || ev.transactionHash == "" || ev.lender == "" then Result(s, false)
    else
      match ev.kind
      case OtherOfferEvent => Result(s, false)
      case OfferDeleted =>
        var r := Delete(s, ev.offerId, now);
        Result(r.state, r.outcome == Ok)
      case _ => if ev.offerData.None? then Result(s, false) else Store(s, Completed(ev, ev.offerData.value), now)
  }

  // Commutation

  /** Equal but for the times of update and the order within index lists. */
  ghost predicate Similar(s: State, t: State) {
    && s.offers.Keys == t.offers.Keys
    && (forall id :: id in s.offers ==> SameButUpdated(s.offers[id], t.offers[id]))
    && forall kind, k ::
         && multiset(ListAt(s.indexes.At(kind), k)) == multiset(ListAt(t.indexes.At(kind), k))
         && (k in s.indexes.At(kind) <==> k in t.indexes.At(kind))
  }

  predicate SameButUpdated(o: Offer, p: Offer) {
    o.(updated := ZERO_TIME) == p.(updated := ZERO_TIME)
  }

  ghost predicate SameFiling(s: State, t: State) {
    NoEmptyLists(t) && forall kind, k, id :: Filed(t, kind, k, id) == Filed(s, kind, k, id)
  }

  /** Storing an offer again under the keys it already has leaves the index lists as they were,
      up to their order. */
  lemma RestoreKeepsFiling(s: State, o: Offer, now: Time)
    requires WellFormed(s) && Validate(o) == Ok && o.id in s.offers
    requires forall kind: Kind :: KeyOf(kind, o) == KeyOf(kind, s.offers[o.id])
    ensures WellFormed(Upsert(s, o, now)) && SameFiling(s, Upsert(s, o, now))
  {
    var prev, v := s.offers[o.id], UpsertStamped(s, o, now);
    UpsertKeeps(s, o, now);
    assert forall kind: Kind :: KeyOf(kind, v) == KeyOf(kind, o);
    forall kind, k, id ensures Filed(Upsert(s, o, now), kind, k, id) == Filed(s, kind, k, id) {
      assert Excess(s, kind, k, id) >= 0;
      FiledUnindex(s, prev, kind, k, id);
      FiledInsert(Unindex(s, prev), v, kind, k, id);
      assert Filed(Upsert(s, o, now), kind, k, id) == Filed(Insert(Unindex(s, prev), v), kind, k, id);
    }
  }

  /** What either event does to the store, if it does anything. */
  ghost predicate Rewrites(s: State, t: State, id: string, o: Offer) {
    && WellFormed(t) && SameFiling(s, t)
    && t.offers.Keys == s.offers.Keys
    && (forall x :: x in s.offers && x != id ==> t.offers[x] == s.offers[x])
    && id in t.offers && SameButUpdated(t.offers[id], o)
  }

  lemma LiquidityRewrites(s: State, ev: LiquidityEvent, now: Time)
    requires WellFormed(s)
    ensures var r := ProcessLiquidityEvent(s, ev, now);
            && (r.success <==> ev.offerId in s.offers && !ev.kind.OtherLiquidity? && ev.newTotalAmount >= 0.0)
            && (if r.success
                then
                  var was := s.offers[ev.offerId];
                  && Rewrites(s, r.state, ev.offerId,
                              was.(terms := was.terms.(availableBorrowAmount := ev.newTotalAmount)))
                  && r.state.offers[ev.offerId].updated == now
                else r.state == s)
  {
    if ev.offerId in s.offers && !ev.kind.OtherLiquidity? && ev.newTotalAmount >= 0.0 {
      var o := WithLiquidity(s.offers[ev.offerId], ev);
      RestoreKeepsFiling(s, o, now);
    }
  }

  lemma RateRewrites(s: State, ev: InterestRateEvent, now: Time)
    requires WellFormed(s)
    ensures var r := ProcessInterestRateEvent(s, ev, now);
            && (r.success <==> ev.offerId in s.offers && ev.newRate >= 0.0)
            && (if r.success
                then
                  var was := s.offers[ev.offerId];
                  && Rewrites(s, r.state, ev.offerId,
                              was.(terms := was.terms.(interestRate := ev.newRate, interestModel := ev.rateModel)))
                  && r.state.offers[ev.offerId].updated == now
                else r.state == s)
  {
    if ev.offerId in s.offers && ev.newRate >= 0.0 {
      var o := WithRate(s.offers[ev.offerId], ev);
      RestoreKeepsFiling(s, o, now);
    }
  }

  lemma SameFilingSimilarLists(s: State, t: State, u: State, kind: Kind, k: string)
    requires SameFiling(s, t) && SameFiling(s, u)
    ensures multiset(ListAt(t.indexes.At(kind), k)) == multiset(ListAt(u.indexes.At(kind), k))
    ensures k in t.indexes.At(kind) <==> k in u.indexes.At(kind)
  {
    var l, m := ListAt(t.indexes.At(kind), k), ListAt(u.indexes.At(kind), k);
    forall id ensures multiset(l)[id] == multiset(m)[id] {
      assert Filed(t, kind, k, id) == Filed(s, kind, k, id) == Filed(u, kind, k, id);
    }
    assert |multiset(l)| == |l| && |multiset(m)| == |m|;
    assert NoEmptyList(t.indexes.At(kind)) && NoEmptyList(u.indexes.At(kind));
  }

  lemma FilingIsTransitive(s: State, t: State, u: State)
    requires SameFiling(s, t) && SameFiling(t, u)
    ensures SameFiling(s, u)
  {
    forall kind, k, id ensures Filed(u, kind, k, id) == Filed(s, kind, k, id) {
      assert Filed(u, kind, k, id) == Filed(t, kind, k, id);
    }
  }

  /** Each event succeeds or fails alike in either order, and the two orders leave similar stores;
      this rests on what every reachable store satisfies, that stored offers are valid. */
  lemma EventsCommute(s: State, e: LiquidityEvent, f: InterestRateEvent, t: Time, u: Time)
    requires WellFormed(s)
    ensures var ef := ProcessInterestRateEvent(ProcessLiquidityEvent(s, e, t).state, f, u);
            var fe := ProcessLiquidityEvent(ProcessInterestRateEvent(s, f, u).state, e, t);
            && (ProcessLiquidityEvent(s, e, t).success <==> fe.success)
            && (ProcessInterestRateEvent(s, f, u).success <==> ef.success)
            && Similar(ef.state, fe.state)
  {
    var a, b := ProcessLiquidityEvent(s, e, t), ProcessInterestRateEvent(s, f, u);
    LiquidityRewrites(s, e, t);
    RateRewrites(s, f, u);
    RateRewrites(a.state, f, u);
    LiquidityRewrites(b.state, e, t);
    var ef, fe := ProcessInterestRateEvent(a.state, f, u).state, ProcessLiquidityEvent(b.state, e, t).state;
    SimilarFiling(s, a.state, ef);
    SimilarFiling(s, b.state, fe);
    forall kind, k
      ensures multiset(ListAt(ef.indexes.At(kind), k)) == multiset(ListAt(fe.indexes.At(kind), k))
      ensures k in ef.indexes.At(kind) <==> k in fe.indexes.At(kind)
    {
      SameFilingSimilarLists(s, ef, fe, kind, k);
    }
  }

  lemma SimilarFiling(s: State, t: State, u: State)
    requires WellFormed(s) && (t == s || SameFiling(s, t)) && (u == t || SameFiling(t, u))
    ensures SameFiling(s, u)
  {
    assert SameFiling(s, s);
    FilingIsTransitive(s, if t == s then s else t, t);
    if u != t {
      FilingIsTransitive(s, t, u);
    }
  }

  /** A failed event of any kind leaves the store as it was, so retrying it starts afresh. */
  lemma FailureChangesNothing(s: State, ev: OfferEvent, now: Time)
    requires WellFormed(s)
    ensures var r := ProcessMarginOfferEvent(s, ev, now);
            && (!r.success ==> r.state == s)
            && WellFormed(r.state)
            && (Exact(s) ==> Exact(r.state))
            && (r.success <==>
                  ev.offerId != "" && ev.transactionHash != "" && ev.lender != "" &&
                  match ev.kind
                  case OtherOfferEvent => false
                  case OfferDeleted => ev.offerId in s.offers
                  case _ => ev.offerData.Some? && Validate(Completed(ev, ev.offerData.value)) == Ok)
  {
    if ev.kind.OfferDeleted? {
      DeleteKeeps(s, ev.offerId, now);
    } else if ev.offerData.Some? {
      CreateOrUpdateKeeps(s, Some(Completed(ev, ev.offerData.value)), now);
    }
  }

  /** A deletion event that succeeds takes its offer out of the store and one entry for it, if there is any,
      out of the list of each of its keys: all of them if the indexes are exact. Every other offer
      and every other entry stays. */
  lemma DeletionEvent(s: State, ev: OfferEvent, now: Time)
    requires WellFormed(s) && ev.kind.OfferDeleted? && ProcessMarginOfferEvent(s, ev, now).success
    ensures var t := ProcessMarginOfferEvent(s, ev, now).state;
            && ev.offerId in s.offers && ev.offerId !in t.offers
            && t.offers.Keys == s.offers.Keys - {ev.offerId}
            && (forall id :: id in t.offers ==> t.offers[id] == s.offers[id])
            && (forall kind, k, id :: Filed(t, kind, k, id) == Filed(s, kind, k, id)
                  - if id == ev.offerId && KeyOf(kind, s.offers[id]) == Some(k) then 1 else 0)
            && (Exact(s) ==> forall kind, k :: ev.offerId !in ListAt(t.indexes.At(kind), k))
  {
    var t, o := ProcessMarginOfferEvent(s, ev, now).state, s.offers[ev.offerId];
    forall kind, k, id
      ensures Filed(t, kind, k, id) == Filed(s, kind, k, id)
              - if id == ev.offerId && KeyOf(kind, s.offers[id]) == Some(k) then 1 else 0
      ensures Exact(s) ==> Filed(t, kind, k, ev.offerId) == 0
    {
      DeletedFiling(s, o, kind, k, id);
      DeletedFiling(s, o, kind, k, ev.offerId);
      assert t.indexes == Unindex(s, o).indexes;
    }
    forall kind, k | Exact(s) ensures ev.offerId !in ListAt(t.indexes.At(kind), k) {
      assert Filed(t, kind, k, ev.offerId) == 0;
      assert ev.offerId in ListAt(t.indexes.At(kind), k) <==> ev.offerId in multiset(ListAt(t.indexes.At(kind), k));
    }
  }

  lemma DeletedFiling(s: State, o: Offer, kind: Kind, k: string, id: string)
    requires Complete(s) && o.id in s.offers && s.offers[o.id] == o
    ensures Filed(Unindex(s, o), kind, k, id)
         == Filed(s, kind, k, id) - if id == o.id && KeyOf(kind, o) == Some(k) then 1 else 0
    ensures Exact(s) ==> Filed(Unindex(s, o), kind, k, o.id) == 0
  {
    FiledUnindex(s, o, kind, k, id);
    FiledUnindex(s, o, kind, k, o.id);
    assert Excess(s, kind, k, id) >= 0 && Excess(s, kind, k, o.id) >= 0;
    assert Exact(s) ==> Excess(s, kind, k, o.id) == 0;
  }

  /** A creation or update event that succeeds stores the offer that it carries, under the ID of the event
      if the offer has none. The time of creation is that of the offer stored before, if there was one;
      otherwise that of the offer, of the event, or of the call, the first of these that is given. Every
      other offer stays. */
  lemma StoringEvent(s: State, ev: OfferEvent, now: Time)
    requires ev.kind.OfferCreated? || ev.kind.OfferUpdated?
    requires ProcessMarginOfferEvent(s, ev, now).success
    ensures ev.offerData.Some?
    ensures var t, data := ProcessMarginOfferEvent(s, ev, now).state, ev.offerData.value;
            var id := if data.id == "" then ev.offerId else data.id;
            && id in t.offers && t.offers.Keys == s.offers.Keys + {id}
            && (forall x :: x in s.offers && x != id ==> t.offers[x] == s.offers[x])
            && var o := t.offers[id];
               && o.id == id && o.terms == data.terms && o.details == data.details && o.updated == now
               && o.created == if id in s.offers then s.offers[id].created
                               else if data.created != ZERO_TIME then data.created
                               else if ev.timestamp != ZERO_TIME then ev.timestamp
                               else now
  {
  }
}
