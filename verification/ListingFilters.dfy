/** Which offers a listing has and in what order, field by field: one criterion alone, several at once,
    criteria made stricter, and each sort field in each direction. */
module ListingFilters {
  import opened Types
  import opened StoreSpec
  import opened StoreLookups
  import opened Listing
  import opened Selection

  /** The request selects the stored offers that meet a condition, and every listing for it has exactly
      those, each once. */
  ghost predicate Lists(offers: OfferMap, req: ListRequest, now: Time, meets: Offer -> bool) {
    && MatchingIds(offers, req, now) == (set id | id in offers && meets(offers[id]))
    && forall r: seq<Offer> :: Listed(r, offers, req, now) ==>
         DistinctIds(r) && forall o :: o in r <==> o.id in offers && offers[o.id] == o && meets(o)
  }

  /** A request that selects every offer. */
  ghost predicate SelectsAll(req: ListRequest) {
    AsksForAll(req.(offset := 0, limit := 0), 0)
  }

  lemma ListsWhere(offers: OfferMap, req: ListRequest, now: Time, meets: Offer -> bool)
    requires forall o :: MatchesFilters(o, req, now) <==> meets(o)
    ensures Lists(offers, req, now, meets)
  {
    var ids := MatchingIds(offers, req, now);
    forall r: seq<Offer>, o | Listed(r, offers, req, now)
      ensures o in r <==> o.id in offers && offers[o.id] == o && meets(o)
    {
      assert o in r <==> o.id in ids && o.id in offers && offers[o.id] == o;
    }
  }

  // One criterion alone

  /** A text: the type, either token, the interest model, the liquidity source or the lender. */
  lemma ListsByText(offers: OfferMap, req: ListRequest, now: Time, text: string)
    requires SelectsAll(req)
    ensures Lists(offers, req.(offerType := Some(text)), now, (o: Offer) => o.terms.offerType == text)
    ensures Lists(offers, req.(collateralToken := Some(text)), now, (o: Offer) => o.terms.collateralToken == text)
    ensures Lists(offers, req.(borrowToken := Some(text)), now, (o: Offer) => o.terms.borrowToken == text)
    ensures Lists(offers, req.(interestModel := Some(text)), now, (o: Offer) => o.terms.interestModel == text)
    ensures Lists(offers, req.(liquiditySource := Some(text)), now, (o: Offer) => o.terms.liquiditySource == text)
    ensures Lists(offers, req.(lenderAddress := Some(text)), now, (o: Offer) => o.details.lenderAddress == Some(text))
  {
    ListsWhere(offers, req.(offerType := Some(text)), now, (o: Offer) => o.terms.offerType == text);
    ListsWhere(offers, req.(collateralToken := Some(text)), now, (o: Offer) => o.terms.collateralToken == text);
    ListsWhere(offers, req.(borrowToken := Some(text)), now, (o: Offer) => o.terms.borrowToken == text);
    ListsWhere(offers, req.(interestModel := Some(text)), now, (o: Offer) => o.terms.interestModel == text);
    ListsWhere(offers, req.(liquiditySource := Some(text)), now, (o: Offer) => o.terms.liquiditySource == text);
    ListsWhere(offers, req.(lenderAddress := Some(text)), now, (o: Offer) => o.details.lenderAddress == Some(text));
  }

  /** A least or a greatest amount, rate or opening ratio, itself included. */
  lemma ListsByNumber(offers: OfferMap, req: ListRequest, now: Time, x: real)
    requires SelectsAll(req)
    ensures Lists(offers, req.(minBorrowAmount := Some(x)), now, (o: Offer) => x <= o.terms.availableBorrowAmount)
    ensures Lists(offers, req.(maxBorrowAmount := Some(x)), now, (o: Offer) => o.terms.availableBorrowAmount <= x)
    ensures Lists(offers, req.(minInterestRate := Some(x)), now, (o: Offer) => x <= o.terms.interestRate)
    ensures Lists(offers, req.(maxInterestRate := Some(x)), now, (o: Offer) => o.terms.interestRate <= x)
    ensures Lists(offers, req.(minMaxOpenLTV := Some(x)), now, (o: Offer) => x <= o.terms.maxOpenLTV)
    ensures Lists(offers, req.(maxMaxOpenLTV := Some(x)), now, (o: Offer) => o.terms.maxOpenLTV <= x)
  {
    ListsWhere(offers, req.(minBorrowAmount := Some(x)), now, (o: Offer) => x <= o.terms.availableBorrowAmount);
    ListsWhere(offers, req.(maxBorrowAmount := Some(x)), now, (o: Offer) => o.terms.availableBorrowAmount <= x);
    ListsWhere(offers, req.(minInterestRate := Some(x)), now, (o: Offer) => x <= o.terms.interestRate);
    ListsWhere(offers, req.(maxInterestRate := Some(x)), now, (o: Offer) => o.terms.interestRate <= x);
    ListsWhere(offers, req.(minMaxOpenLTV := Some(x)), now, (o: Offer) => x <= o.terms.maxOpenLTV);
    ListsWhere(offers, req.(maxMaxOpenLTV := Some(x)), now, (o: Offer) => o.terms.maxOpenLTV <= x);
  }

  /** An earliest or a latest time of creation or of update, itself included. */
  lemma ListsByTime(offers: OfferMap, req: ListRequest, now: Time, t: Time)
    requires SelectsAll(req)
    ensures Lists(offers, req.(createdAfter := Some(t)), now, (o: Offer) => t <= o.created)
    ensures Lists(offers, req.(createdBefore := Some(t)), now, (o: Offer) => o.created <= t)
    ensures Lists(offers, req.(updatedAfter := Some(t)), now, (o: Offer) => t <= o.updated)
    ensures Lists(offers, req.(updatedBefore := Some(t)), now, (o: Offer) => o.updated <= t)
  {
    ListsWhere(offers, req.(createdAfter := Some(t)), now, (o: Offer) => t <= o.created);
    ListsWhere(offers, req.(createdBefore := Some(t)), now, (o: Offer) => o.created <= t);
    ListsWhere(offers, req.(updatedAfter := Some(t)), now, (o: Offer) => t <= o.updated);
    ListsWhere(offers, req.(updatedBefore := Some(t)), now, (o: Offer) => o.updated <= t);
  }

  // What has expired, and what is not active

  /** An offer without a term does not expire; one with a term expires when so many days have passed since
      it was created. */
  predicate Over(o: Offer, now: Time) {
    match o.details.termDays
    case None => false
    case Some(days) => now - o.created > days * 24 * HOUR
  }

  lemma ListsUnexpired(offers: OfferMap, req: ListRequest, now: Time)
    requires SelectsAll(req)
    ensures Lists(offers, req, now, (o: Offer) => true)
    ensures Lists(offers, req.(includeExpired := false), now, (o: Offer) => !Over(o, now))
  {
    ListsWhere(offers, req, now, (o: Offer) => true);
    ListsWhere(offers, req.(includeExpired := false), now, (o: Offer) => !Over(o, now));
  }

  lemma ListsActive(offers: OfferMap, req: ListRequest, now: Time)
    requires SelectsAll(req)
    ensures Lists(offers, req.(activeOnly := true), now,
                  (o: Offer) => !Over(o, now) && o.terms.availableBorrowAmount > 0.0)
  {
    ListsWhere(offers, req.(activeOnly := true), now,
               (o: Offer) => !Over(o, now) && o.terms.availableBorrowAmount > 0.0);
  }

  // Several criteria

  ghost predicate NothingAskedTwice(f: ListRequest, g: ListRequest) {
    && Apart(f.offerType, g.offerType) && Apart(f.collateralToken, g.collateralToken)
    && Apart(f.borrowToken, g.borrowToken) && Apart(f.interestModel, g.interestModel)
    && Apart(f.liquiditySource, g.liquiditySource) && Apart(f.lenderAddress, g.lenderAddress)
    && Apart(f.minBorrowAmount, g.minBorrowAmount) && Apart(f.maxBorrowAmount, g.maxBorrowAmount)
    && Apart(f.minInterestRate, g.minInterestRate) && Apart(f.maxInterestRate, g.maxInterestRate)
    && Apart(f.minMaxOpenLTV, g.minMaxOpenLTV) && Apart(f.maxMaxOpenLTV, g.maxMaxOpenLTV)
    && Apart(f.createdAfter, g.createdAfter) && Apart(f.createdBefore, g.createdBefore)
    && Apart(f.updatedAfter, g.updatedAfter) && Apart(f.updatedBefore, g.updatedBefore)
  }

  /** The criteria of both requests, with the page and the order of the first. */
  function BothAsked(f: ListRequest, g: ListRequest): ListRequest {
    ListRequest(f.limit, f.offset, f.sortBy, f.sortOrder,
                OneOf(f.offerType, g.offerType), OneOf(f.collateralToken, g.collateralToken),
                OneOf(f.borrowToken, g.borrowToken), OneOf(f.interestModel, g.interestModel),
                OneOf(f.liquiditySource, g.liquiditySource), OneOf(f.lenderAddress, g.lenderAddress),
                OneOf(f.source, g.source),
                OneOf(f.minBorrowAmount, g.minBorrowAmount), OneOf(f.maxBorrowAmount, g.maxBorrowAmount),
                OneOf(f.minInterestRate, g.minInterestRate), OneOf(f.maxInterestRate, g.maxInterestRate),
                OneOf(f.minMaxOpenLTV, g.minMaxOpenLTV), OneOf(f.maxMaxOpenLTV, g.maxMaxOpenLTV),
                OneOf(f.createdAfter, g.createdAfter), OneOf(f.createdBefore, g.createdBefore),
                OneOf(f.updatedAfter, g.updatedAfter), OneOf(f.updatedBefore, g.updatedBefore),
                f.includeExpired && g.includeExpired, f.activeOnly || g.activeOnly)
  }

  /** Two requests at once select what each of them selects, so that a request can be taken apart until
      only single criteria are left. */
  lemma ListsBoth(offers: OfferMap, f: ListRequest, g: ListRequest, now: Time)
    requires NothingAskedTwice(f, g)
    ensures MatchingIds(offers, BothAsked(f, g), now) == MatchingIds(offers, f, now) * MatchingIds(offers, g, now)
  {
    forall o: Offer
      ensures MatchesFilters(o, BothAsked(f, g), now) <==> MatchesFilters(o, f, now) && MatchesFilters(o, g, now)
    {
      BothMatch(o, f, g, now);
    }
  }

  lemma BothMatch(o: Offer, f: ListRequest, g: ListRequest, now: Time)
    requires NothingAskedTwice(f, g)
    ensures MatchesFilters(o, BothAsked(f, g), now) <==> MatchesFilters(o, f, now) && MatchesFilters(o, g, now)
  {
  }

  // Stricter criteria

  /** Nothing that was asked for is given up. */
  predicate Kept<T(==)>(a: Option<T>, b: Option<T>) {
    a.Some? ==> b == a
  }

  predicate Raised(a: Option<real>, b: Option<real>) {
    a.Some? ==> b.Some? && a.value <= b.value
  }

  predicate Lowered(a: Option<real>, b: Option<real>) {
    a.Some? ==> b.Some? && b.value <= a.value
  }

  predicate Later(a: Option<Time>, b: Option<Time>) {
    a.Some? ==> b.Some? && a.value <= b.value
  }

  predicate Earlier(a: Option<Time>, b: Option<Time>) {
    a.Some? ==> b.Some? && b.value <= a.value
  }

  predicate Stricter(f: ListRequest, g: ListRequest) {
    && Kept(f.offerType, g.offerType) && Kept(f.collateralToken, g.collateralToken)
    && Kept(f.borrowToken, g.borrowToken) && Kept(f.interestModel, g.interestModel)
    && Kept(f.liquiditySource, g.liquiditySource) && Kept(f.lenderAddress, g.lenderAddress)
    && Raised(f.minBorrowAmount, g.minBorrowAmount) && Lowered(f.maxBorrowAmount, g.maxBorrowAmount)
    && Raised(f.minInterestRate, g.minInterestRate) && Lowered(f.maxInterestRate, g.maxInterestRate)
    && Raised(f.minMaxOpenLTV, g.minMaxOpenLTV) && Lowered(f.maxMaxOpenLTV, g.maxMaxOpenLTV)
    && Later(f.createdAfter, g.createdAfter) && Earlier(f.createdBefore, g.createdBefore)
    && Later(f.updatedAfter, g.updatedAfter) && Earlier(f.updatedBefore, g.updatedBefore)
    && (g.includeExpired ==> f.includeExpired) && (f.activeOnly ==> g.activeOnly)
  }

  /** Asking for more, raising a minimum or lowering a maximum never adds an offer. */
  lemma StricterListsLess(offers: OfferMap, f: ListRequest, g: ListRequest, now: Time)
    requires Stricter(f, g)
    ensures MatchingIds(offers, g, now) <= MatchingIds(offers, f, now)
  {
    forall o: Offer | MatchesFilters(o, g, now) ensures MatchesFilters(o, f, now) {
      StricterMatch(o, f, g, now);
    }
  }

  lemma StricterMatch(o: Offer, f: ListRequest, g: ListRequest, now: Time)
    requires Stricter(f, g) && MatchesFilters(o, g, now)
    ensures MatchesFilters(o, f, now)
  {
  }

  // Order: ascending if that is asked for, in capitals or not, and descending otherwise

  predicate InOrder(sortOrder: string, ascending: bool, descending: bool) {
    if ToLower(sortOrder) == "asc" then ascending else descending
  }

  /** `r[i]` comes before `r[j]` in a listing sorted by this field, whatever the case of its letters. */
  ghost predicate Comes(r: seq<Offer>, i: nat, j: nat, offers: OfferMap, req: ListRequest, now: Time, field: string) {
    Listed(r, offers, req, now) && i < j < |r| && ToLower(req.sortBy) == field
  }

  /** The fields that hold numbers. */
  lemma SortedByNumber(r: seq<Offer>, i: nat, j: nat, offers: OfferMap, req: ListRequest, now: Time, field: string)
    requires Comes(r, i, j, offers, req, now, field)
    ensures field == "interest_rate" ==>
      InOrder(req.sortOrder, r[i].terms.interestRate <= r[j].terms.interestRate, r[j].terms.interestRate <= r[i].terms.interestRate)
    ensures field == "available_borrow_amount" ==>
      InOrder(req.sortOrder, r[i].terms.availableBorrowAmount <= r[j].terms.availableBorrowAmount, r[j].terms.availableBorrowAmount <= r[i].terms.availableBorrowAmount)
    ensures field == "max_open_ltv" ==>
      InOrder(req.sortOrder, r[i].terms.maxOpenLTV <= r[j].terms.maxOpenLTV, r[j].terms.maxOpenLTV <= r[i].terms.maxOpenLTV)
    ensures field == "liquidation_ltv" ==>
      InOrder(req.sortOrder, r[i].terms.liquidationLTV <= r[j].terms.liquidationLTV, r[j].terms.liquidationLTV <= r[i].terms.liquidationLTV)
  {
    assert MayPrecede(r[i], r[j], req.sortBy, req.sortOrder);
  }

  /** The times, of which the time of creation is the default field; in the default direction the latest
      offer comes first. */
  lemma SortedByTime(r: seq<Offer>, i: nat, j: nat, offers: OfferMap, req: ListRequest, now: Time, field: string)
    requires Comes(r, i, j, offers, req, now, field)
    ensures field == "created_timestamp" || field == "" ==>
      InOrder(req.sortOrder, r[i].created <= r[j].created, r[j].created <= r[i].created)
    ensures field == "updated_timestamp" ==>
      InOrder(req.sortOrder, r[i].updated <= r[j].updated, r[j].updated <= r[i].updated)
  {
    assert MayPrecede(r[i], r[j], req.sortBy, req.sortOrder);
    TimeFields(req.sortBy, r[i]);
    TimeFields(req.sortBy, r[j]);
  }

  lemma TimeFields(sortBy: string, o: Offer)
    ensures ToLower(sortBy) == "created_timestamp" || ToLower(sortBy) == "" ==> KeyFor(sortBy, o) == TimeKey(o.created)
    ensures ToLower(sortBy) == "updated_timestamp" ==> KeyFor(sortBy, o) == TimeKey(o.updated)
  {
    assert ToLower("created_timestamp") == "created_timestamp";
  }

  /** The fields that hold texts. */
  lemma SortedByText(r: seq<Offer>, i: nat, j: nat, offers: OfferMap, req: ListRequest, now: Time, field: string)
    requires Comes(r, i, j, offers, req, now, field)
    ensures field == "offer_type" ==>
      InOrder(req.sortOrder, !TextLess(r[j].terms.offerType, r[i].terms.offerType), !TextLess(r[i].terms.offerType, r[j].terms.offerType))
    ensures field == "collateral_token" ==>
      InOrder(req.sortOrder, !TextLess(r[j].terms.collateralToken, r[i].terms.collateralToken), !TextLess(r[i].terms.collateralToken, r[j].terms.collateralToken))
    ensures field == "borrow_token" ==>
      InOrder(req.sortOrder, !TextLess(r[j].terms.borrowToken, r[i].terms.borrowToken), !TextLess(r[i].terms.borrowToken, r[j].terms.borrowToken))
  {
    assert MayPrecede(r[i], r[j], req.sortBy, req.sortOrder);
  }

  /** The same letters, small or capital, and the same other characters. */
  ghost predicate SameLetters(a: string, b: string) {
    |a| == |b| && forall i :: 0 <= i < |a| ==>
      a[i] == b[i] || ('a' <= a[i] <= 'z' && b[i] as int == a[i] as int - 32)
      || ('a' <= b[i] <= 'z' && a[i] as int == b[i] as int - 32)
  }

  lemma SameLettersLower(a: string, b: string)
    requires SameLetters(a, b)
    ensures ToLower(a) == ToLower(b)
  {
  }

  /** Capital and small letters make no difference in the names of fields and directions. */
  lemma CaseIsIgnored(r: seq<Offer>, offers: OfferMap, f: ListRequest, g: ListRequest, now: Time)
    requires SameLetters(f.sortBy, g.sortBy) && SameLetters(f.sortOrder, g.sortOrder)
    requires g == f.(sortBy := g.sortBy, sortOrder := g.sortOrder)
    ensures Listed(r, offers, f, now) <==> Listed(r, offers, g, now)
  {
    SameLettersLower(f.sortBy, g.sortBy);
    SameLettersLower(f.sortOrder, g.sortOrder);
    assert MatchingIds(offers, f, now) == MatchingIds(offers, g, now);
    forall a, b ensures MayPrecede(a, b, f.sortBy, f.sortOrder) <==> MayPrecede(a, b, g.sortBy, g.sortOrder) {
      SameOrder(a, b, f.sortBy, g.sortBy, f.sortOrder, g.sortOrder);
    }
  }

  lemma SameOrder(a: Offer, b: Offer, field: string, field': string, order: string, order': string)
    requires ToLower(field) == ToLower(field') && ToLower(order) == ToLower(order')
    ensures MayPrecede(a, b, field, order) <==> MayPrecede(a, b, field', order')
  {
    assert |ToLower(field)| == |field| && |ToLower(field')| == |field'|;
    assert |ToLower(order)| == |order| && |ToLower(order')| == |order'|;
  }

  const SORT_FIELDS := ["", "created_timestamp", "updated_timestamp", "interest_rate", "available_borrow_amount",
                        "max_open_ltv", "liquidation_ltv", "offer_type", "collateral_token", "borrow_token"]

  lemma OtherFieldIsId(sortBy: string, o: Offer)
    requires ToLower(sortBy) !in SORT_FIELDS
    ensures KeyFor(sortBy, o) == TextKey(o.id)
  {
    var field := ToLower(sortBy);
    assert field != SORT_FIELDS[0] && field != SORT_FIELDS[1] && field != SORT_FIELDS[2] && field != SORT_FIELDS[3];
    assert field != SORT_FIELDS[4] && field != SORT_FIELDS[5] && field != SORT_FIELDS[6] && field != SORT_FIELDS[7];
    assert field != SORT_FIELDS[8] && field != SORT_FIELDS[9];
  }

  /** Any other name of a field sorts by ID; the IDs of the offers in a listing differ. */
  lemma SortedById(r: seq<Offer>, i: nat, j: nat, offers: OfferMap, req: ListRequest, now: Time)
    requires Comes(r, i, j, offers, req, now, ToLower(req.sortBy)) && ToLower(req.sortBy) !in SORT_FIELDS
    ensures InOrder(req.sortOrder, TextLess(r[i].id, r[j].id), TextLess(r[j].id, r[i].id))
  {
    assert MayPrecede(r[i], r[j], req.sortBy, req.sortOrder);
    OtherFieldIsId(req.sortBy, r[i]);
    OtherFieldIsId(req.sortBy, r[j]);
    TextOrderTotal(r[i].id, r[j].id);
  }

  /** One text is less than another if it is a proper beginning of it or has the smaller character where
      the two first differ. */
  lemma {:induction false} TextLessIff(a: string, b: string)
    ensures TextLess(a, b) <==> exists k :: DiffersAt(a, b, k)
  {
    if a == [] || b == [] || a[0] != b[0] {
      assert TextLess(a, b) ==> DiffersAt(a, b, 0);
    } else {
      TextLessIff(a[1..], b[1..]);
      if TextLess(a, b) {
        var k :| DiffersAt(a[1..], b[1..], k);
        assert a[..k + 1] == [a[0]] + a[1..][..k] && b[..k + 1] == [b[0]] + b[1..][..k];
        assert DiffersAt(a, b, k + 1);
      }
      if k :| DiffersAt(a, b, k) {
        assert a[1..][..k - 1] == a[..k][1..] && b[1..][..k - 1] == b[..k][1..];
        assert DiffersAt(a[1..], b[1..], k - 1);
      }
    }
  }

  /** The two agree up to `k`, and there `a` ends or has the smaller character. */
  predicate DiffersAt(a: string, b: string, k: int) {
    && 0 <= k <= |a| && k < |b| && a[..k] == b[..k]
    && (k == |a| || a[k] < b[k])
  }

  // The page

  /** A page is as many offers as asked for, from the offset on, as far as there are; cutting it panics
      exactly if the offset is negative, or if the limit is and the offset is within the list. */
  lemma PageReads(r: seq<Offer>, offset: Int32, limit: Int32)
    ensures PageOf(r, offset, limit) == None <==> offset < |r| && (offset < 0 || limit < 0)
    ensures offset >= 0 && limit >= 0 ==>
      && PageOf(r, offset, limit).Some?
      && var page := PageOf(r, offset, limit).value;
         && (forall k :: 0 <= k < |page| ==> k < limit && offset + k < |r| && page[k] == r[offset + k])
         && (|page| == limit || |r| <= offset + |page|)
  {
  }

  /** A call without a request gets the first hundred offers that have not expired, the latest first. */
  lemma DefaultPage(r: seq<Offer>, offers: OfferMap, now: Time)
    requires Listed(r, offers, DEFAULT_REQUEST, now)
    ensures PageOf(r, DEFAULT_REQUEST.offset, DEFAULT_REQUEST.limit) == Some(if |r| <= 100 then r else r[..100])
    ensures forall o :: o in r <==> o.id in offers && offers[o.id] == o && !Over(o, now)
    ensures forall i, j :: 0 <= i < j < |r| ==> r[j].created <= r[i].created
  {
    assert r[0..|r|] == r;
    ListsUnexpired(offers, DEFAULT_REQUEST.(includeExpired := true), now);
    assert DEFAULT_REQUEST.(includeExpired := true).(includeExpired := false) == DEFAULT_REQUEST;
    forall i, j | 0 <= i < j < |r| ensures r[j].created <= r[i].created {
      SortedByTime(r, i, j, offers, DEFAULT_REQUEST, now, "");
    }
  }
}
