/** The gRPC handlers that do more than pass a call on: the paged list, the two-step upsert, and
    the overwrite that reports counts. */
module GrpcServers {
  import opened Types
  import opened StoreSpec
  import opened StoreLookups
  import opened StoreInvariants
  import opened StoreTheorems
  import opened StoreOverwrite
  import opened Listing
  import opened MemoryStores

  datatype UpsertReply = Done(offer: Offer, wasCreated: bool) | Refused(error: Error)

  datatype OverwriteReply =
    | Overwritten(deletedCount: Int32, createdCount: Int32, createdIds: seq<string>)
    | NothingAsked
    | Rejected(error: Error)

  class GRPCServer {
    const store: MemoryStore

    constructor (store: MemoryStore)
      ensures this.store == store
    {
      this.store := store;
    }

    /** `None` where slicing the list panics. */
    method ListMarginOffers(request: ListRequest, now: Time)
        returns (response: Option<ListResponse>, ghost sorted: seq<Offer>)
      requires store.Valid()
      ensures var req := request.(limit := ClampLimit(request.limit));
              var page := PageOf(sorted, req.offset, req.limit);
              && Listed(sorted, store.State().offers, req, now)
              && (response.None? <==> page.None?)
              && (response.Some? ==>
                    response.value == Respond(page.value, |store.State().offers|, req.limit, req.offset))
    {
      var req := request;
      if req.limit <= 0 {
        req := req.(limit := 100);
      }
      if req.limit > 1000 {
        req := req.(limit := 1000);
      }
      var page;
      page, sorted := store.List(Some(req), now);
      if page.None? {
        return None, sorted;
      }
      var total := store.Count();
      var offers := ValuesOfPage(page.value);
      var next := Wrap32(req.offset + req.limit);
      var hasMore := next < total;
      var nextOffset: Option<Int32> := None;
      if hasMore {
        nextOffset := Some(next);
      }
      response := Some(ListResponse(offers, total, req.limit, req.offset, hasMore, nextOffset));
    }

    static method ValuesOfPage(page: seq<MarginOffer>) returns (offers: seq<Offer>)
      ensures offers == FieldsOf(page)
    {
      offers := [];
      for i := 0 to |page|
        invariant offers == FieldsOf(page)[..i]
      {
        offers := offers + [page[i].Value()];
      }
    }

    /** Asks first whether the offer is there, then creates or updates it; here nothing happens
        in between. */
    method CreateOrUpdateMarginOffer(request: Offer, now: Time) returns (reply: UpsertReply)
      requires store.Valid()
      modifies store
      ensures store.Valid() && store.Grew()
      ensures var known := request.id in old(store.State()).offers;
              var r := if known then StoreSpec.Update(old(store.State()), Some(request), now)
                       else StoreSpec.Create(old(store.State()), Some(request), now);
              && store.State() == r.state
              && reply == match r.outcome
                          case Ok => Done(r.state.offers[request.id], !known)
                          case Err(e) => Refused(e)
    {
      var offer := NewOffer(request);
      var existing := store.GetByID(request.id);
      var wasCreated := false;
      if existing.Failure? {
        if existing.error != OfferNotFound {
          return Refused(existing.error);
        }
        var outcome := store.Create(offer, now);
        if outcome != Ok {
          return Refused(outcome.error);
        }
        wasCreated := true;
      } else {
        var outcome := store.Update(offer, now);
        if outcome != Ok {
          return Refused(outcome.error);
        }
      }
      return Done(offer.Value(), wasCreated);
    }

    /** Reports how many offers went and came. */
    method BulkOverwriteMarginOffers(request: seq<Offer>, filter: Option<OverwriteFilter>, now: Time)
        returns (reply: OverwriteReply, ghost order: seq<string>)
      requires store.Valid()
      modifies store
      ensures store.Valid() && store.Grew()
      ensures reply.Overwritten? || store.State() == old(store.State())
      ensures reply == NothingAsked <==> request == [] && filter.None?
      ensures reply.Overwritten? ==>
        && Ranges(order, SelectedIds(old(store.State()), filter))
        && CheckAll(Somes(request)) == Ok
        && store.State() == Overwrite(old(store.State()), Somes(request), filter, order, now).state
        && reply.deletedCount == ReportedDeleted(old(store.State()), filter)
        && reply.createdCount == Wrap32(|request|)
        && |reply.createdIds| == |request|
        && (forall i :: 0 <= i < |request| ==> reply.createdIds[i] == request[i].id)
      ensures reply.Rejected? ==> CheckAll(Somes(request)) == Err(reply.error)
    {
      order := [];
      if |request| == 0 && filter.None? {
        return NothingAsked, order;
      }
      var made, own := NewOffers(request);
      var deletedCount := 0;
      if filter.Some? {
        deletedCount := store.GetOverwriteStats(filter);
      }
      var outcome;
      outcome, order := OverwriteWith(made, request, own, filter, now);
      if outcome != Ok {
        return Rejected(outcome.error), order;
      }
      var ids := IdsOf(made);
      return Overwritten(Wrap32(deletedCount), Wrap32(|made|), ids), order;
    }

    /** Overwrites with or without a filter. */
    method OverwriteWith(made: seq<MarginOffer>, ghost request: seq<Offer>, ghost own: set<object>,
                         filter: Option<OverwriteFilter>, now: Time)
        returns (outcome: Outcome, ghost order: seq<string>)
      requires store.Valid() && store.Apart(made) && Carries(made, request, own)
      modifies store, made
      ensures store.Valid() && store.Grew()
      ensures outcome == CheckAll(Somes(request))
      ensures outcome != Ok ==> store.State() == old(store.State())
      ensures outcome == Ok ==>
        && Ranges(order, SelectedIds(old(store.State()), filter))
        && store.State() == Overwrite(old(store.State()), Somes(request), filter, order, now).state
        && forall i :: 0 <= i < |made| ==> made[i].fields.id == request[i].id
    {
      CarriedValues(made, request, own);
      if filter.Some? {
        outcome, order := store.BulkOverwriteByFilter(made, filter, now);
      } else {
        assert SelectedIds(store.State(), None) == store.State().offers.Keys;
        outcome, order := store.BulkOverwrite(made, now);
      }
    }

    /** The objects, all of them and their cells among `own`, have the values of the request. */
    static ghost predicate Carries(made: seq<MarginOffer>, request: seq<Offer>, own: set<object>)
      reads own
    {
      |made| == |request| && forall i :: 0 <= i < |made| ==> Keeps(made[i], request[i], own)
    }

    static lemma CarriedValues(made: seq<MarginOffer>, request: seq<Offer>, own: set<object>)
      requires Carries(made, request, own)
      ensures ValuesOf(made) == Somes(request)
      ensures forall i :: 0 <= i < |made| ==> made[i].fields.id == request[i].id
    {
      assert forall i :: 0 <= i < |made| ==> Keeps(made[i], request[i], own);
    }

    /** The offers of a request, as new objects. */
    static method NewOffers(request: seq<Offer>) returns (made: seq<MarginOffer>, ghost own: set<object>)
      ensures Carries(made, request, own) && fresh(own)
    {
      made, own := [], {};
      for i := 0 to |request|
        invariant Carries(made, request[..i], own) && fresh(own)
      {
        var offer := NewOffer(request[i]);
        OneMoreCarried(made, request[..i], own, offer);
        assert request[..i] + [request[i]] == request[..i + 1];
        made, own := made + [offer], own + offer.Footprint();
      }
      assert request[..|request|] == request;
    }

    static lemma OneMoreCarried(made: seq<MarginOffer>, request: seq<Offer>, own: set<object>, offer: MarginOffer)
      requires Carries(made, request, own)
      ensures Carries(made + [offer], request + [offer.Value()], own + offer.Footprint())
    {
      forall i | 0 <= i < |made| ensures Keeps(made[i], request[i], own + offer.Footprint()) {
        assert Keeps(made[i], request[i], own);
      }
    }

    static method IdsOf(batch: seq<MarginOffer>) returns (ids: seq<string>)
      ensures |ids| == |batch| && forall i :: 0 <= i < |batch| ==> ids[i] == batch[i].fields.id
    {
      ids := [];
      for i := 0 to |batch|
        invariant |ids| == i && forall j :: 0 <= j < i ==> ids[j] == batch[j].fields.id
      {
        ids := ids + [batch[i].fields.id];
      }
    }
  }

  function Somes(os: seq<Offer>): seq<Option<Offer>> {
    seq(|os|, i requires 0 <= i < |os| => Some(os[i]))
  }

  /** The number of deleted offers that the handler reports. */
  function ReportedDeleted(s: State, filter: Option<OverwriteFilter>): Int32 {
    if filter.None? then 0 else Wrap32(|SelectedIds(s, filter)|)
  }

  /** The reported counts balance (offers before, less deleted, plus created, are offers after)
      if and only if the overwrite is index-safe and had a filter or nothing to delete. */
  lemma ReportBalancesIff(s: State, request: seq<Offer>, filter: Option<OverwriteFilter>,
                          order: seq<string>, now: Time)
    requires Ranges(order, SelectedIds(s, filter)) && CheckAll(Somes(request)) == Ok
    requires |s.offers| + |request| <= MAX_INT32
    ensures |Overwrite(s, Somes(request), filter, order, now).state.offers|
            == |s.offers| - ReportedDeleted(s, filter) + Wrap32(|request|)
            <==> (filter.Some? || |s.offers| == 0) && OverwriteSafe(s, request, filter)
  {
    assert Offers(Somes(request)) == request;
    SelectedSize(s, filter);
    BalanceCases(s, request, filter, order, now);
  }

  lemma BalanceCases(s: State, os: seq<Offer>, filter: Option<OverwriteFilter>, order: seq<string>, now: Time)
    requires Ranges(order, SelectedIds(s, filter))
    requires |s.offers| + |os| <= MAX_INT32 && |SelectedIds(s, filter)| <= |s.offers|
    requires filter.None? ==> |SelectedIds(s, filter)| == |s.offers|
    ensures |FillAll(DropAll(s, s.offers, order), os, now).offers|
            == |s.offers| - ReportedDeleted(s, filter) + Wrap32(|os|)
            <==> (filter.Some? || |s.offers| == 0) && OverwriteSafe(s, os, filter)
  {
    KeptAndFilledSize(s, os, filter, order, now);
    var n, d := |FillAll(DropAll(s, s.offers, order), os, now).offers|, |SelectedIds(s, filter)|;
    var safe := OverwriteSafe(s, os, filter);
    WrapSmall(d);
    WrapSmall(|os|);
    assert n <= |s.offers| - d + |os| && (n == |s.offers| - d + |os| <==> safe);
  }

  lemma WrapSmall(x: int)
    requires 0 <= x <= MAX_INT32
    ensures Wrap32(x) == x
  {
  }

  lemma SelectedSize(s: State, filter: Option<OverwriteFilter>)
    ensures |SelectedIds(s, filter)| <= |s.offers|
    ensures filter.None? ==> |SelectedIds(s, filter)| == |s.offers|
  {
    var ids := SelectedIds(s, filter);
    assert ids <= s.offers.Keys && |s.offers| == |s.offers.Keys|;
    assert |s.offers.Keys| == |ids| + |s.offers.Keys - ids|;
    if filter.None? {
      assert ids == s.offers.Keys;
    }
  }
}
