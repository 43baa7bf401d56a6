/** Listing: which offers a request selects, in what order they come, and what one page and a
    walk along the cursor return. */
module Listing {
  import opened Types
  import opened StoreSpec
  import opened StoreInvariants
  import opened StoreLookups

  datatype ListRequest = ListRequest(
    limit: Int32,
    offset: Int32,
    sortBy: string,
    sortOrder: string,
    offerType: Option<string>,
    collateralToken: Option<string>,
    borrowToken: Option<string>,
    interestModel: Option<string>,
    liquiditySource: Option<string>,
    lenderAddress: Option<string>,
    source: Option<string>,
    minBorrowAmount: Option<real>,
    maxBorrowAmount: Option<real>,
    minInterestRate: Option<real>,
    maxInterestRate: Option<real>,
    minMaxOpenLTV: Option<real>,
    maxMaxOpenLTV: Option<real>,
    createdAfter: Option<Time>,
    createdBefore: Option<Time>,
    updatedAfter: Option<Time>,
    updatedBefore: Option<Time>,
    includeExpired: bool,
    activeOnly: bool)

  const DEFAULT_REQUEST := ListRequest(100, 0, "", "", None, None, None, None, None, None, None, None, None,
                                       None, None, None, None, None, None, None, None, false, false)

  predicate InRange(low: Option<real>, high: Option<real>, x: real) {
    (low.Some? ==> low.value <= x) && (high.Some? ==> x <= high.value)
  }

  /** The `source` of the request is never looked at. */
  predicate MatchesFilters(o: Offer, req: ListRequest, now: Time) {
    && Asks(req.offerType, o.terms.offerType)
    && Asks(req.collateralToken, o.terms.collateralToken)
    && Asks(req.borrowToken, o.terms.borrowToken)
    && Asks(req.interestModel, o.terms.interestModel)
    && Asks(req.liquiditySource, o.terms.liquiditySource)
    && (req.lenderAddress.Some? ==> o.details.lenderAddress == req.lenderAddress)
    && InRange(req.minBorrowAmount, req.maxBorrowAmount, o.terms.availableBorrowAmount)
    && InRange(req.minInterestRate, req.maxInterestRate, o.terms.interestRate)
    && InRange(req.minMaxOpenLTV, req.maxMaxOpenLTV, o.terms.maxOpenLTV)
    && Within(req.createdAfter, req.createdBefore, o.created)
    && Within(req.updatedAfter, req.updatedBefore, o.updated)
    && (req.includeExpired || !IsExpired(o, now))
    && (req.activeOnly ==> o.terms.availableBorrowAmount > 0.0 && !IsExpired(o, now))
  }

  function MatchingIds(offers: OfferMap, req: ListRequest, now: Time): set<string> {
    set id | id in offers && MatchesFilters(offers[id], req, now)
  }

  // Order

  datatype SortKey = TimeKey(t: Time) | NumberKey(x: real) | TextKey(s: string)

  predicate TextLess(a: string, b: string) {
    b != [] && (a == [] || a[0] < b[0] || (a[0] == b[0] && TextLess(a[1..], b[1..])))
  }

  predicate KeyLess(a: SortKey, b: SortKey) {
    match (a, b)
    case (TimeKey(t), TimeKey(u)) => t < u
    case (NumberKey(x), NumberKey(y)) => x < y
    case (TextKey(s), TextKey(r)) => TextLess(s, r)
    case _ => false
  }

  function LowerChar(c: char): char {
    if 'A' <= c <= 'Z' then (c as int + 32) as char else c
  }

  function ToLower(s: string): string {
    seq(|s|, i requires 0 <= i < |s| => LowerChar(s[i]))
  }

  function KeyFor(sortBy: string, o: Offer): SortKey {
    var field := ToLower(if sortBy == "" then "created_timestamp" else sortBy);
    if field == "created_timestamp" then TimeKey(o.created)
    else if field == "updated_timestamp" then TimeKey(o.updated)
    else if field == "interest_rate" then NumberKey(o.terms.interestRate)
    else if field == "available_borrow_amount" then NumberKey(o.terms.availableBorrowAmount)
    else if field == "max_open_ltv" then NumberKey(o.terms.maxOpenLTV)
    else if field == "liquidation_ltv" then NumberKey(o.terms.liquidationLTV)
    else if field == "offer_type" then TextKey(o.terms.offerType)
    else if field == "collateral_token" then TextKey(o.terms.collateralToken)
    else if field == "borrow_token" then TextKey(o.terms.borrowToken)
    else TextKey(o.id)
  }

  predicate Ascending(sortOrder: string) {
    ToLower(if sortOrder == "" then "desc" else sortOrder) == "asc"
  }

  /** `a` must not come after `b`; offers with equal keys may come in either order. */
  predicate MayPrecede(a: Offer, b: Offer, sortBy: string, sortOrder: string) {
    if Ascending(sortOrder) then !KeyLess(KeyFor(sortBy, b), KeyFor(sortBy, a))
    else !KeyLess(KeyFor(sortBy, a), KeyFor(sortBy, b))
  }

  ghost predicate Sorted(r: seq<Offer>, sortBy: string, sortOrder: string) {
    forall i, j :: 0 <= i < j < |r| ==> MayPrecede(r[i], r[j], sortBy, sortOrder)
  }

  /** A sequence that sorting the selected offers may produce. */
  ghost predicate Listed(r: seq<Offer>, offers: OfferMap, req: ListRequest, now: Time) {
    Enumerates(r, offers, MatchingIds(offers, req, now)) && Sorted(r, req.sortBy, req.sortOrder)
  }

  lemma {:induction false} TextOrderTotal(a: string, b: string)
    ensures TextLess(a, b) ==> !TextLess(b, a)
    ensures a != b ==> TextLess(a, b) || TextLess(b, a)
    ensures !TextLess(a, a)
  {
    if a != [] {
      TextOrderTotal(a[1..], if b == [] then [] else b[1..]);
      if b != [] && a != b && a[0] == b[0] {
        assert a == [a[0]] + a[1..] && b == [b[0]] + b[1..];
      }
    }
  }

  lemma {:induction false} TextOrderTransitive(a: string, b: string, c: string)
    requires !TextLess(b, a) && !TextLess(c, b)
    ensures !TextLess(c, a)
  {
    if a != [] && b != [] && c != [] && a[0] == b[0] == c[0] {
      TextOrderTransitive(a[1..], b[1..], c[1..]);
    }
  }

  lemma MayPrecedeTransitive(a: Offer, b: Offer, c: Offer, sortBy: string, sortOrder: string)
    requires MayPrecede(a, b, sortBy, sortOrder) && MayPrecede(b, c, sortBy, sortOrder)
    ensures MayPrecede(a, c, sortBy, sortOrder)
  {
    var ka, kb, kc := KeyFor(sortBy, a), KeyFor(sortBy, b), KeyFor(sortBy, c);
    if ka.TextKey? {
      if Ascending(sortOrder) {
        TextOrderTransitive(ka.s, kb.s, kc.s);
      } else {
        TextOrderTransitive(kc.s, kb.s, ka.s);
      }
    }
  }

  lemma MayPrecedeTotal(a: Offer, b: Offer, sortBy: string, sortOrder: string)
    ensures MayPrecede(a, b, sortBy, sortOrder) || MayPrecede(b, a, sortBy, sortOrder)
    ensures MayPrecede(a, b, sortBy, sortOrder) && MayPrecede(b, a, sortBy, sortOrder)
            <==> KeyFor(sortBy, a) == KeyFor(sortBy, b)
  {
    var ka, kb := KeyFor(sortBy, a), KeyFor(sortBy, b);
    if ka.TextKey? {
      TextOrderTotal(ka.s, kb.s);
    }
  }

  /** Putting an offer after every one that may precede it keeps a sequence sorted. */
  lemma InsertionStaysSorted(r: seq<Offer>, p: nat, o: Offer, sortBy: string, sortOrder: string)
    requires Sorted(r, sortBy, sortOrder) && p <= |r|
    requires forall i :: 0 <= i < p ==> MayPrecede(r[i], o, sortBy, sortOrder)
    requires p < |r| ==> !MayPrecede(r[p], o, sortBy, sortOrder)
    ensures Sorted(r[..p] + [o] + r[p..], sortBy, sortOrder)
  {
    forall j | p <= j < |r| ensures MayPrecede(o, r[j], sortBy, sortOrder) {
      MayPrecedeTotal(o, r[p], sortBy, sortOrder);
      if p < j {
        MayPrecedeTransitive(o, r[p], r[j], sortBy, sortOrder);
      }
    }
  }

  // One page

  function Wrap32(x: int): Int32 {
    (x + 0x8000_0000) % 0x1_0000_0000 - 0x8000_0000
  }

  /** The page of a sorted list; `None` where slicing the list panics. */
  function PageOf(r: seq<Offer>, offset: Int32, limit: Int32): Option<seq<Offer>> {
    if offset >= |r| then Some([])
    else
      var end := if offset + limit > |r| then |r| else offset + limit;
      if 0 <= offset <= end then Some(r[offset..end]) else None
  }

  function ClampLimit(limit: Int32): (l: Int32)
    ensures 1 <= l <= 1000
    ensures 1 <= limit <= 1000 ==> l == limit
    ensures limit <= 0 ==> l == 100
    ensures limit > 1000 ==> l == 1000
  {
    if limit <= 0 then 100 else if limit > 1000 then 1000 else limit
  }

  datatype ListResponse = ListResponse(offers: seq<Offer>, total: nat, limit: Int32, offset: Int32,
                                       hasMore: bool, nextOffset: Option<Int32>)

  /** `total` is the number of stored offers, selected or not. */
  function Respond(page: seq<Offer>, total: nat, limit: Int32, offset: Int32): ListResponse {
    var next := Wrap32(offset + limit);
    ListResponse(page, total, limit, offset, next < total, if next < total then Some(next) else None)
  }

  // Following the cursor

  const MAX_INT32 := 0x7FFF_FFFF

  /** All pages from `offset` on, when page number `n` is cut from `orders(n)`; `None` if the
      walk ends in a panic. */
  function Walk(orders: nat -> seq<Offer>, n: nat, total: nat, limit: Int32, offset: Int32): Option<seq<Offer>>
    requires 1 <= limit <= 1000
    decreases if offset < 0 then 0 else 0x8000_0000 - offset
  {
    var page := PageOf(orders(n), offset, limit);
    if page.None? then None
    else
      var next := Respond(page.value, total, limit, offset).nextOffset;
      if next.None? then page
      else
        var rest := Walk(orders, n + 1, total, limit, next.value);
        if rest.None? then None else Some(page.value + rest.value)
  }

  /** The largest count for which a cursor in steps of `limit` stays within 32 bits. */
  function CursorBound(limit: Int32): int
    requires 1 <= limit
  {
    MAX_INT32 - MAX_INT32 % limit
  }

  function RestFrom(r: seq<Offer>, offset: nat): seq<Offer> {
    if offset >= |r| then [] else r[offset..]
  }

  lemma PageThenRest(r: seq<Offer>, offset: Int32, limit: Int32)
    requires 0 <= offset && 1 <= limit
    ensures PageOf(r, offset, limit).Some?
    ensures PageOf(r, offset, limit).value + RestFrom(r, offset + limit) == RestFrom(r, offset)
  {
  }

  /** Page `n` of a walk that starts at 0 begins at `n * limit`; position `k` of the walk comes from
      the list that page `k / limit` is cut from. */
  lemma WalkPages(orders: nat -> seq<Offer>, last: seq<Offer>, n: nat, total: nat, limit: Int32)
    requires 1 <= limit <= 1000 && |last| <= total <= CursorBound(limit)
    requires n == 0 || n * limit < total
    requires forall p: nat :: SamePage(orders(p), last, p, limit)
    ensures 0 <= n * limit <= MAX_INT32
    ensures Walk(orders, n, total, limit, n * limit) == Some(RestFrom(last, n * limit))
  {
    CursorStep(n, total, limit);
    WalkFrom(orders, last, n, n * limit, total, limit);
  }

  /** The same with the offset as a number of its own. */
  lemma {:induction false} WalkFrom(orders: nat -> seq<Offer>, last: seq<Offer>, n: nat, offset: Int32, total: nat, limit: Int32)
    requires 1 <= limit <= 1000 && |last| <= total <= CursorBound(limit) && offset == n * limit
    requires 0 <= offset && (n == 0 || offset < total)
    requires forall p: nat :: SamePage(orders(p), last, p, limit)
    ensures Walk(orders, n, total, limit, offset) == Some(RestFrom(last, offset))
    decreases total - offset
  {
    CursorStep(n, total, limit);
    SamePageCut(orders(n), last, n, limit);
    PageThenRest(last, offset, limit);
    if offset + limit < total {
      NextOffset(n, limit);
      WalkFrom(orders, last, n + 1, offset + limit, total, limit);
      WalkOnce(orders, n, total, limit, offset);
    } else {
      assert PageOf(last, offset, limit).value == RestFrom(last, offset);
    }
  }

  lemma NextOffset(n: nat, limit: int)
    ensures (n + 1) * limit == n * limit + limit
  {
  }

  /** A page with a cursor, and then the rest of the walk. */
  lemma WalkOnce(orders: nat -> seq<Offer>, n: nat, total: nat, limit: Int32, offset: Int32)
    requires 1 <= limit <= 1000 && 0 <= offset && offset + limit <= MAX_INT32 && offset + limit < total
    ensures var rest := Walk(orders, n + 1, total, limit, offset + limit);
            PageOf(orders(n), offset, limit).Some?
            && Walk(orders, n, total, limit, offset)
               == if rest.None? then None else Some(PageOf(orders(n), offset, limit).value + rest.value)
  {
    assert Wrap32(offset + limit) == offset + limit;
  }

  /** The two lists agree on page `n`. */
  ghost predicate SamePage(r: seq<Offer>, last: seq<Offer>, n: nat, limit: Int32)
    requires 1 <= limit
  {
    |r| == |last| && forall k: nat :: k < |last| && k / limit == n ==> r[k] == last[k]
  }

  lemma SamePageCut(r: seq<Offer>, last: seq<Offer>, n: nat, limit: Int32)
    requires 1 <= limit && 0 <= n * limit <= MAX_INT32 && SamePage(r, last, n, limit)
    ensures PageOf(r, n * limit, limit) == PageOf(last, n * limit, limit)
  {
    var offset := n * limit;
    var end := if offset + limit > |r| then |r| else offset + limit;
    forall k | offset <= k < end ensures r[k] == last[k] {
      QuotientIs(k, limit, n);
    }
    if offset < |r| {
      assert r[offset..end] == last[offset..end];
    }
  }

  lemma QuotientIs(n: int, d: int, q: int)
    requires d >= 1 && 0 <= n - q * d < d
    ensures n / d == q
  {
    var e := n / d - q;
    assert n == n / d * d + n % d;
    assert e * d == (n - q * d) - n % d;
    assert e >= 1 ==> e * d >= d;
    assert e <= -1 ==> e * d <= -d;
  }

  lemma CursorStep(n: nat, total: nat, limit: Int32)
    requires 1 <= limit <= 1000 && total <= CursorBound(limit)
    requires n == 0 || n * limit < total
    ensures 0 <= n * limit && n * limit + limit <= MAX_INT32
    ensures Wrap32(n * limit + limit) == n * limit + limit
  {
    var q := MAX_INT32 / limit;
    assert CursorBound(limit) == q * limit;
    if n > 0 {
      StepBelow(n, q, limit);
    }
  }

  lemma StepBelow(n: nat, q: nat, limit: int)
    requires limit >= 1 && n * limit < q * limit
    ensures (n + 1) * limit <= q * limit
  {
    if q <= n {
      TimesMonotone(q, n, limit);
      assert false;
    }
    TimesMonotone(n + 1, q, limit);
  }

  lemma TimesMonotone(a: int, b: int, c: int)
    requires a <= b && 0 <= c
    ensures a * c <= b * c
  {
    assert 0 <= (b - a) * c == b * c - a * c;
  }

  /** Above the bound the cursor wraps around and the walk panics. */
  lemma {:induction false} WalkOverflows(orders: nat -> seq<Offer>, n: nat, offset: Int32, total: nat, limit: Int32)
    requires 1 <= limit <= 1000 && total > CursorBound(limit)
    requires offset == n * limit && 0 <= offset <= CursorBound(limit)
    ensures Walk(orders, n, total, limit, offset) == None
    decreases CursorBound(limit) - offset
  {
    var q := MAX_INT32 / limit;
    assert CursorBound(limit) == q * limit;
    NextOffset(n, limit);
    if offset == q * limit {
      WalkWraps(orders, n, total, limit, offset);
    } else {
      StepBelow(n, q, limit);
      WalkOverflows(orders, n + 1, offset + limit, total, limit);
      WalkOnce(orders, n, total, limit, offset);
    }
  }

  /** From the last offset within the bound. */
  lemma WalkWraps(orders: nat -> seq<Offer>, n: nat, total: nat, limit: Int32, offset: Int32)
    requires 1 <= limit <= 1000 && 0 <= offset <= MAX_INT32 < offset + limit
    ensures Walk(orders, n, total, limit, offset) == None
  {
    var next := Wrap32(offset + limit);
    assert next < 0;
    assert PageOf(orders(n + 1), next, limit).None?;
    assert Walk(orders, n + 1, total, limit, next) == None;
  }

  /** A walk along the cursor returns every selected offer exactly once, in order, if and only
      if the number of stored offers is within the cursor's range; otherwise it panics. */
  lemma CursorCoversIff(orders: nat -> seq<Offer>, r: seq<Offer>, total: nat, limit: Int32)
    requires 1 <= limit <= 1000 && |r| <= total && forall k: nat :: orders(k) == r
    ensures total <= CursorBound(limit) ==> Walk(orders, 0, total, limit, 0) == Some(r)
    ensures total > CursorBound(limit) ==> Walk(orders, 0, total, limit, 0) == None
  {
    if total <= CursorBound(limit) {
      WalkPages(orders, r, 0, total, limit);
    } else {
      WalkOverflows(orders, 0, 0, total, limit);
    }
  }

  // Pages cut from lists sorted anew

  ghost predicate KeysDiffer(offers: OfferMap, ids: set<string>, sortBy: string) {
    forall x, y :: x in ids && y in ids && x in offers && y in offers && x != y
      ==> KeyFor(sortBy, offers[x]) != KeyFor(sortBy, offers[y])
  }

  /** With keys that tell the selected offers apart, as IDs do, every call sorts them alike. */
  lemma ListedUnique(r: seq<Offer>, r': seq<Offer>, offers: OfferMap, req: ListRequest, now: Time)
    requires Listed(r, offers, req, now) && Listed(r', offers, req, now)
    requires KeysDiffer(offers, MatchingIds(offers, req, now), req.sortBy)
    ensures r == r'
  {
    ListingsLineUp(r, r', offers, req, now);
    forall i | 0 <= i < |r| ensures r[i] == r'[i] {
      assert r[i] in r && r'[i] in r';
      assert KeysBy(req.sortBy)(r[i]) == KeysBy(req.sortBy)(r'[i]);
    }
  }

  /** Any sort field that is not one of the named ones sorts by ID. */
  lemma IdKeysDiffer(offers: OfferMap, ids: set<string>)
    requires forall id :: id in offers ==> offers[id].id == id
    ensures KeysDiffer(offers, ids, "id")
  {
    assert ToLower("id") == "id";
    assert forall o: Offer :: KeyFor("id", o) == TextKey(o.id);
  }

  /** Paging end to end: on an unchanged store, with each page cut from a list sorted anew, the
      walk returns the matching offers exactly once, in order. */
  lemma PagingCovers(orders: nat -> seq<Offer>, offers: OfferMap, req: ListRequest, now: Time, limit: Int32)
    requires forall k: nat :: Listed(orders(k), offers, req, now)
    requires KeysDiffer(offers, MatchingIds(offers, req, now), req.sortBy)
    requires 1 <= limit <= 1000 && |offers| <= CursorBound(limit)
    ensures Walk(orders, 0, |offers|, limit, 0) == Some(orders(0))
  {
    forall k: nat ensures orders(k) == orders(0) {
      ListedUnique(orders(k), orders(0), offers, req, now);
    }
    ListedSize(orders(0), offers, MatchingIds(offers, req, now));
    CursorCoversIff(orders, orders(0), |offers|, limit);
  }

  lemma ListedSize(r: seq<Offer>, offers: OfferMap, ids: set<string>)
    requires Enumerates(r, offers, ids)
    ensures |r| <= |offers|
  {
    var listed := IdsIn(r);
    forall id | id in listed ensures id in offers.Keys {
      var o :| o in r && o.id == id;
    }
    assert |offers.Keys| == |listed| + |offers.Keys - listed|;
    assert |offers| == |offers.Keys|;
    IdsInSize(r);
  }

  function IdsIn(r: seq<Offer>): set<string> {
    set o | o in r :: o.id
  }

  lemma IdsInCons(o: Offer, r: seq<Offer>)
    ensures IdsIn([o] + r) == {o.id} + IdsIn(r)
    ensures DistinctIds([o] + r) ==> DistinctIds(r) && o.id !in IdsIn(r)
  {
    var t := [o] + r;
    assert t[0] == o && forall i :: 0 <= i < |r| ==> t[i + 1] == r[i];
    assert forall p :: p in t <==> p == o || p in r;
  }

  lemma {:induction false} IdsInSize(r: seq<Offer>)
    requires DistinctIds(r)
    ensures |IdsIn(r)| == |r|
    decreases |r|
  {
    if r == [] {
      assert IdsIn(r) == {};
    } else {
      var t := r[1..];
      assert r == [r[0]] + t;
      IdsInSize(t);
      IdsInCons(r[0], t);
    }
  }

  // Indexed lookups against the listing methods

  /** A request that adds no filter of its own, keeps expired offers, and asks for a single page. */
  ghost predicate AsksForAll(req: ListRequest, n: nat) {
    && req.offset == 0 && n <= req.limit && req.includeExpired && !req.activeOnly
    && req.offerType == req.collateralToken == req.borrowToken == None
    && req.interestModel == req.liquiditySource == req.lenderAddress == None
    && req.minBorrowAmount == req.maxBorrowAmount == req.minInterestRate == req.maxInterestRate == None
    && req.minMaxOpenLTV == req.maxMaxOpenLTV == None
    && req.createdAfter == req.createdBefore == req.updatedAfter == req.updatedBefore == None
  }

  /** Two ways to the same offers: the page of a listing and an enumeration by other means. */
  lemma PageAgrees(sorted: seq<Offer>, found: seq<Offer>, offers: OfferMap, req: ListRequest, now: Time)
    requires Listed(sorted, offers, req, now) && Enumerates(found, offers, MatchingIds(offers, req, now))
    requires req.offset == 0 && |offers| <= req.limit
    ensures var page := PageOf(sorted, req.offset, req.limit);
            page.Some? && multiset(page.value) == multiset(found)
  {
    ListedSize(sorted, offers, MatchingIds(offers, req, now));
    EnumerationsAgree(sorted, found, offers, MatchingIds(offers, req, now));
    assert sorted[0..|sorted|] == sorted;
  }

  /** From exact indexes, looking up a lender and listing by lender give the same offers. */
  lemma LenderLookupIsListing(s: State, lender: string, req: ListRequest, sorted: seq<Offer>, now: Time)
    requires WellFormed(s) && Exact(s) && AsksForAll(req, |s.offers|)
    requires Listed(sorted, s.offers, req.(lenderAddress := Some(lender)), now)
    ensures var page := PageOf(sorted, req.offset, req.limit);
            page.Some? && multiset(page.value) == multiset(Lookup(s, ByLender, lender))
  {
    LookupIsScan(s, ByLender, lender);
    assert MatchingIds(s.offers, req.(lenderAddress := Some(lender)), now) == ScanIds(s, ByLender, lender);
    PageAgrees(sorted, Lookup(s, ByLender, lender), s.offers, req.(lenderAddress := Some(lender)), now);
  }

  /** Looking up a type and listing by type. */
  lemma TypeLookupIsListing(s: State, t: string, req: ListRequest, sorted: seq<Offer>, now: Time)
    requires WellFormed(s) && Exact(s) && AsksForAll(req, |s.offers|)
    requires Listed(sorted, s.offers, req.(offerType := Some(t)), now)
    ensures var page := PageOf(sorted, req.offset, req.limit);
            page.Some? && multiset(page.value) == multiset(Lookup(s, ByType, t))
  {
    LookupIsScan(s, ByType, t);
    assert MatchingIds(s.offers, req.(offerType := Some(t)), now) == ScanIds(s, ByType, t);
    PageAgrees(sorted, Lookup(s, ByType, t), s.offers, req.(offerType := Some(t)), now);
  }

  /** Looking up a token pair and listing by token pair agree if and only if no stored offer of
      another pair has the same joined key. */
  lemma TokenLookupIsListingIff(s: State, c: string, b: string, req: ListRequest, sorted: seq<Offer>, now: Time)
    requires WellFormed(s) && Exact(s) && AsksForAll(req, |s.offers|)
    requires Listed(sorted, s.offers, req.(collateralToken := Some(c), borrowToken := Some(b)), now)
    ensures var page := PageOf(sorted, req.offset, req.limit);
            page.Some? && (multiset(page.value) == multiset(Lookup(s, ByToken, TokenKey(c, b))) <==> NoCollision(s, c, b))
  {
    var asked := req.(collateralToken := Some(c), borrowToken := Some(b));
    var found := Lookup(s, ByToken, TokenKey(c, b));
    PairLookupIsScanIff(s, c, b);
    assert MatchingIds(s.offers, asked, now) == PairIds(s, c, b);
    PageAgrees(sorted, sorted, s.offers, asked, now);
    if NoCollision(s, c, b) {
      PageAgrees(sorted, found, s.offers, asked, now);
    } else if multiset(sorted) == multiset(found) {
      PermutationEnumerates(sorted, found, s.offers, PairIds(s, c, b));
    }
  }

  // Ties

  lemma TiesMaySwap(r: seq<Offer>, i: nat, j: nat, offers: OfferMap, req: ListRequest, now: Time)
    requires Listed(r, offers, req, now) && i < j < |r|
    requires KeyFor(req.sortBy, r[i]) == KeyFor(req.sortBy, r[j])
    ensures Listed(r[i := r[j]][j := r[i]], offers, req, now)
  {
    var t := r[i := r[j]][j := r[i]];
    forall k ensures 0 <= k < |r| ==> KeyFor(req.sortBy, t[k]) == KeyFor(req.sortBy, r[k]) {}
    forall o ensures o in t <==> o in r {
      if o in r {
        var k :| 0 <= k < |r| && r[k] == o;
        assert t[if k == i then j else if k == j then i else k] == o;
      }
    }
  }

  type Keys = Offer -> SortKey

  type Order = (SortKey, SortKey) -> bool

  type Pages = nat -> nat

  function KeysBy(sortBy: string): Keys {
    o => KeyFor(sortBy, o)
  }

  /** The page on which a place of the list is. */
  function PagesOf(limit: int): Pages
    requires 1 <= limit
  {
    (k: nat) => k / limit
  }

  /** Whether offers with the same key stand on different pages. */
  ghost predicate TieAcrossPages(r: seq<Offer>, key: Keys, page: Pages) {
    exists i, j :: 0 <= i < j < |r| && key(r[i]) == key(r[j]) && page(i) != page(j)
  }

  lemma SwapWalk(r: seq<Offer>, swapped: seq<Offer>, i: nat, j: nat, total: nat, limit: Int32)
    requires 1 <= limit <= 1000 && i < j < |r| <= total <= CursorBound(limit) && i / limit != j / limit
    requires DistinctIds(r) && swapped == r[i := r[j]][j := r[i]]
    ensures Walk(Either(r, swapped, j / limit), 0, total, limit, 0) == Some(r[j := r[i]])
    ensures r[j] !in r[j := r[i]]
  {
    WalkPages(Either(r, swapped, j / limit), r[j := r[i]], 0, total, limit);
  }

  /** `s` for page `p` and `r` for all others. */
  function Either(r: seq<Offer>, s: seq<Offer>, p: int): nat -> seq<Offer> {
    (n: nat) => if n == p then s else r
  }

  /** Two matching offers with the same key can be ordered differently by different calls, and if
      they stand on different pages a walk then returns one of them twice and the other never. */
  lemma TiesLoseOffers(r: seq<Offer>, i: nat, j: nat, offers: OfferMap, req: ListRequest, now: Time, limit: Int32)
    requires Listed(r, offers, req, now) && i < j < |r| && 1 <= limit <= 1000 && |offers| <= CursorBound(limit)
    requires KeyFor(req.sortBy, r[i]) == KeyFor(req.sortBy, r[j]) && i / limit != j / limit
    ensures var orders := Either(r, r[i := r[j]][j := r[i]], j / limit);
            && AllListed(orders, offers, req, now)
            && Walk(orders, 0, |offers|, limit, 0) == Some(r[j := r[i]])
            && r[j] !in r[j := r[i]]
  {
    TiesMaySwap(r, i, j, offers, req, now);
    ListedSize(r, offers, MatchingIds(offers, req, now));
    var swapped := r[i := r[j]][j := r[i]];
    EitherListed(r, swapped, j / limit, offers, req, now);
    SwapWalk(r, swapped, i, j, |offers|, limit);
  }

  lemma EitherListed(r: seq<Offer>, s: seq<Offer>, p: int, offers: OfferMap, req: ListRequest, now: Time)
    requires Listed(r, offers, req, now) && Listed(s, offers, req, now)
    ensures AllListed(Either(r, s, p), offers, req, now)
  {
  }

  /** Each call may sort anew. */
  ghost predicate AllListed(orders: nat -> seq<Offer>, offers: OfferMap, req: ListRequest, now: Time) {
    forall n: nat :: Listed(orders(n), offers, req, now)
  }

  /** However the calls sort, the pages of the walk make up a listing of the matching offers. */
  ghost predicate AlwaysCovers(offers: OfferMap, req: ListRequest, now: Time, limit: Int32)
    requires 1 <= limit <= 1000
  {
    forall orders: nat -> seq<Offer> :: AllListed(orders, offers, req, now) ==>
      WalkIsListed(orders, offers, req, now, limit)
  }

  ghost predicate WalkIsListed(orders: nat -> seq<Offer>, offers: OfferMap, req: ListRequest, now: Time, limit: Int32)
    requires 1 <= limit <= 1000
  {
    var w := Walk(orders, 0, |offers|, limit, 0);
    w.Some? && Listed(w.value, offers, req, now)
  }

  // Sorting by a key, whatever the key

  ghost predicate Ordered(r: seq<Offer>, key: Keys, before: Order) {
    forall i, j :: 0 <= i < j < |r| ==> before(key(r[i]), key(r[j]))
  }

  ghost predicate Antisymmetric(key: Keys, before: Order) {
    forall a, b :: before(key(a), key(b)) && before(key(b), key(a)) ==> key(a) == key(b)
  }

  /** Two sorted arrangements of the same offers have the same key in every place. */
  lemma {:induction false} SameKeysEverywhere(r: seq<Offer>, r': seq<Offer>, key: Keys, before: Order)
    requires Antisymmetric(key, before) && multiset(r) == multiset(r') && Ordered(r, key, before) && Ordered(r', key, before)
    ensures |r| == |r'|
    ensures forall i :: 0 <= i < |r| ==> key(r[i]) == key(r'[i])
    decreases |r|
  {
    assert |r| == |multiset(r)| == |multiset(r')| == |r'|;
    if r != [] {
      var t := SameHead(r, r', key, before);
      assert Ordered(r[1..], key, before);
      SameKeysEverywhere(r[1..], t, key, before);
      assert forall i :: 1 <= i < |r| ==> r[i] == r[1..][i - 1];
    }
  }

  lemma FirstsAgree(r: seq<Offer>, r': seq<Offer>, key: Keys, before: Order)
    requires Antisymmetric(key, before) && r != [] && r' != [] && r[0] in r' && r'[0] in r
    requires Ordered(r, key, before) && Ordered(r', key, before)
    ensures key(r[0]) == key(r'[0])
  {
    if r[0] != r'[0] {
      var i :| 0 <= i < |r| && r[i] == r'[0];
      var j :| 0 <= j < |r'| && r'[j] == r[0];
      assert before(key(r[0]), key(r[i])) && before(key(r'[0]), key(r'[j]));
    }
  }

  /** Takes the first offer of `r` out of `r'`, leaving the keys where they are. */
  lemma SameHead(r: seq<Offer>, r': seq<Offer>, key: Keys, before: Order) returns (t: seq<Offer>)
    requires Antisymmetric(key, before) && multiset(r) == multiset(r') && r != [] && r' != []
    requires Ordered(r, key, before) && Ordered(r', key, before)
    ensures key(r[0]) == key(r'[0]) && multiset(r[1..]) == multiset(t) && Ordered(t, key, before)
    ensures |t| == |r'| - 1 && forall i :: 0 <= i < |t| ==> key(t[i]) == key(r'[i + 1])
  {
    assert r[0] in multiset(r') && r'[0] in multiset(r);
    FirstsAgree(r, r', key, before);
    var j :| 0 <= j < |r'| && r'[j] == r[0];
    t := r'[j := r'[0]][1..];
    TakeOut(r, r', j);
  }

  lemma TakeOut(r: seq<Offer>, r': seq<Offer>, j: nat)
    requires multiset(r) == multiset(r') && r != [] && j < |r'| && r'[j] == r[0]
    ensures multiset(r[1..]) == multiset(r'[j := r'[0]][1..])
  {
    var t := r'[j := r'[0]];
    ReplaceCounts(r', j, r'[0]);
    TailCounts(r);
    TailCounts(t);
    assert t[0] == r'[0];
  }

  lemma TailCounts(r: seq<Offer>)
    requires r != []
    ensures multiset(r[1..]) == multiset(r) - multiset{r[0]}
  {
    assert r == [r[0]] + r[1..];
  }

  lemma ReplaceCounts(r: seq<Offer>, j: nat, o: Offer)
    requires j < |r|
    ensures multiset(r[j := o]) == multiset(r) + multiset{o} - multiset{r[j]}
  {
  }

  /** An arrangement of the same offers with the same keys in the same places. */
  ghost predicate LinesUp(r: seq<Offer>, s: seq<Offer>, offers: OfferMap, ids: set<string>, key: Keys) {
    Enumerates(s, offers, ids) && |s| == |r| && forall i :: 0 <= i < |r| ==> key(s[i]) == key(r[i])
  }

  /** What the walk returns, place by place: `cut[k]` is the list that the page of place `k` is cut from. */
  function Pieced(cut: seq<seq<Offer>>): seq<Offer>
    requires forall k :: 0 <= k < |cut| ==> |cut[k]| == |cut|
  {
    seq(|cut|, k requires 0 <= k < |cut| => cut[k][k])
  }

  ghost predicate CutByPages(cut: seq<seq<Offer>>, page: Pages) {
    forall i, j :: 0 <= i < j < |cut| && page(i) == page(j) ==> cut[i] == cut[j]
  }

  ghost predicate AllLineUp(r: seq<Offer>, cut: seq<seq<Offer>>, offers: OfferMap, ids: set<string>, key: Keys) {
    |cut| == |r| && forall k :: 0 <= k < |cut| ==> |cut[k]| == |cut| && LinesUp(r, cut[k], offers, ids, key)
  }

  lemma PiecedEnumerates(cut: seq<seq<Offer>>, r: seq<Offer>, offers: OfferMap, ids: set<string>, key: Keys, page: Pages)
    requires Enumerates(r, offers, ids) && !TieAcrossPages(r, key, page)
    requires AllLineUp(r, cut, offers, ids, key) && CutByPages(cut, page)
    ensures LinesUp(r, Pieced(cut), offers, ids, key)
  {
    PiecedDistinct(cut, r, offers, ids, key, page);
    PiecedBelong(cut, r, offers, ids, key);
    forall o | Belongs(o, offers, ids) ensures o in Pieced(cut) {
      PiecedHolds(cut, r, offers, ids, key, page, o);
    }
    Assembled(Pieced(cut), r, offers, ids, key);
  }

  lemma PiecedHolds(cut: seq<seq<Offer>>, r: seq<Offer>, offers: OfferMap, ids: set<string>, key: Keys, page: Pages, o: Offer)
    requires Enumerates(r, offers, ids) && !TieAcrossPages(r, key, page) && Belongs(o, offers, ids)
    requires AllLineUp(r, cut, offers, ids, key) && CutByPages(cut, page)
    ensures o in Pieced(cut)
  {
    var i := PlaceOf(r, offers, ids, o);
    SameCut(cut, page, i);
    PieceFound(r, cut[i], Pieced(cut), offers, ids, key, page, i);
  }

  lemma SameCut(cut: seq<seq<Offer>>, page: Pages, i: nat)
    requires (forall k :: 0 <= k < |cut| ==> |cut[k]| == |cut|) && CutByPages(cut, page) && i < |cut|
    ensures forall k: nat :: k < |cut| && page(k) == page(i) ==> Pieced(cut)[k] == cut[i][k]
  {
  }

  lemma Assembled(w: seq<Offer>, r: seq<Offer>, offers: OfferMap, ids: set<string>, key: Keys)
    requires DistinctIds(w) && |w| == |r| && (forall o :: Belongs(o, offers, ids) ==> o in w)
    requires forall i :: 0 <= i < |w| ==> key(w[i]) == key(r[i]) && Belongs(w[i], offers, ids)
    ensures LinesUp(r, w, offers, ids, key)
  {
    forall o ensures o in w <==> o.id in ids && o.id in offers && offers[o.id] == o {
      assert Belongs(o, offers, ids) <==> o.id in ids && o.id in offers && offers[o.id] == o;
    }
  }

  lemma PiecedDistinct(cut: seq<seq<Offer>>, r: seq<Offer>, offers: OfferMap, ids: set<string>, key: Keys, page: Pages)
    requires AllLineUp(r, cut, offers, ids, key) && CutByPages(cut, page) && !TieAcrossPages(r, key, page)
    ensures DistinctIds(Pieced(cut))
  {
    forall i, j | 0 <= i < j < |cut| ensures cut[i][i].id != cut[j][j].id {
      assert LinesUp(r, cut[i], offers, ids, key) && LinesUp(r, cut[j], offers, ids, key);
      PiecesDiffer(r, cut[i], cut[j], offers, ids, key, page, i, j);
    }
  }

  lemma PiecedBelong(cut: seq<seq<Offer>>, r: seq<Offer>, offers: OfferMap, ids: set<string>, key: Keys)
    requires AllLineUp(r, cut, offers, ids, key)
    ensures forall i :: 0 <= i < |cut| ==> key(Pieced(cut)[i]) == key(r[i]) && Belongs(Pieced(cut)[i], offers, ids)
  {
    forall i | 0 <= i < |cut| ensures key(cut[i][i]) == key(r[i]) && Belongs(cut[i][i], offers, ids) {
      assert LinesUp(r, cut[i], offers, ids, key);
      PieceBelongs(r, cut[i], offers, ids, key, i);
    }
  }

  predicate Belongs(o: Offer, offers: OfferMap, ids: set<string>) {
    o.id in ids && o.id in offers && offers[o.id] == o
  }

  lemma PieceBelongs(r: seq<Offer>, a: seq<Offer>, offers: OfferMap, ids: set<string>, key: Keys, i: nat)
    requires LinesUp(r, a, offers, ids, key) && i < |r|
    ensures key(a[i]) == key(r[i]) && Belongs(a[i], offers, ids)
  {
    assert a[i] in a;
  }

  lemma PieceFound(r: seq<Offer>, a: seq<Offer>, w: seq<Offer>, offers: OfferMap, ids: set<string>, key: Keys,
                   page: Pages, i: nat)
    requires i < |r| == |w| && Enumerates(r, offers, ids) && LinesUp(r, a, offers, ids, key) && !TieAcrossPages(r, key, page)
    requires forall k: nat :: k < |r| && page(k) == page(i) ==> w[k] == a[k]
    ensures r[i] in w
  {
    assert r[i] in r;
    var j := PlaceOf(a, offers, ids, r[i]);
    PieceHolds(r, a, w, i, j, key, page);
  }

  lemma PiecesDiffer(r: seq<Offer>, a: seq<Offer>, b: seq<Offer>, offers: OfferMap, ids: set<string>, key: Keys, page: Pages,
                     i: nat, j: nat)
    requires i < j < |r| && LinesUp(r, a, offers, ids, key) && LinesUp(r, b, offers, ids, key)
    requires !TieAcrossPages(r, key, page) && (page(i) == page(j) ==> a == b)
    ensures a[i].id != b[j].id
  {
    assert a[i] in a && b[j] in b;
    if page(i) != page(j) {
      assert key(r[i]) != key(r[j]);
    }
  }

  /** The offer in place `i` of `r` is, in `w`, wherever the list that its page is cut from has it. */
  lemma PieceHolds(r: seq<Offer>, a: seq<Offer>, w: seq<Offer>, i: nat, j: nat, key: Keys, page: Pages)
    requires !TieAcrossPages(r, key, page) && i < |r| == |w| == |a| && j < |a| && a[j] == r[i] && key(a[j]) == key(r[j])
    requires forall k: nat :: k < |r| && page(k) == page(i) ==> w[k] == a[k]
    ensures w[j] == r[i]
  {
    assert key(r[i]) == key(r[j]);
    assert page(i) == page(j);
  }

  lemma PlaceOf(r: seq<Offer>, offers: OfferMap, ids: set<string>, o: Offer) returns (i: nat)
    requires Enumerates(r, offers, ids) && o.id in ids && o.id in offers && offers[o.id] == o
    ensures i < |r| && r[i] == o
  {
    assert o in r;
    i :| 0 <= i < |r| && r[i] == o;
  }

  /** The sort order of a request, as a relation between keys. */
  function OrderBy(sortOrder: string): Order {
    (a, b) => if Ascending(sortOrder) then !KeyLess(b, a) else !KeyLess(a, b)
  }

  lemma ListingsLineUp(r: seq<Offer>, s: seq<Offer>, offers: OfferMap, req: ListRequest, now: Time)
    requires Listed(r, offers, req, now) && Listed(s, offers, req, now)
    ensures LinesUp(r, s, offers, MatchingIds(offers, req, now), KeysBy(req.sortBy))
  {
    var before, key := OrderBy(req.sortOrder), KeysBy(req.sortBy);
    forall a, b ensures before(key(a), key(b)) && before(key(b), key(a)) ==> key(a) == key(b) {
      MayPrecedeTotal(a, b, req.sortBy, req.sortOrder);
    }
    EnumerationsAgree(r, s, offers, MatchingIds(offers, req, now));
    assert Ordered(r, key, before) && Ordered(s, key, before);
    SameKeysEverywhere(r, s, key, before);
  }

  lemma LinedUpIsListed(r: seq<Offer>, s: seq<Offer>, offers: OfferMap, req: ListRequest, now: Time)
    requires Listed(r, offers, req, now) && LinesUp(r, s, offers, MatchingIds(offers, req, now), KeysBy(req.sortBy))
    ensures Listed(s, offers, req, now)
  {
    forall i, j | 0 <= i < j < |s| ensures MayPrecede(s[i], s[j], req.sortBy, req.sortOrder) {
      assert MayPrecede(r[i], r[j], req.sortBy, req.sortOrder);
      assert KeysBy(req.sortBy)(s[i]) == KeysBy(req.sortBy)(r[i]) && KeysBy(req.sortBy)(s[j]) == KeysBy(req.sortBy)(r[j]);
    }
  }

  lemma WalkIsPieced(orders: nat -> seq<Offer>, r: seq<Offer>, offers: OfferMap, req: ListRequest, now: Time, limit: Int32)
    requires 1 <= limit <= 1000 && |offers| <= CursorBound(limit) && Listed(r, offers, req, now)
    requires AllListed(orders, offers, req, now) && !TieAcrossPages(r, KeysBy(req.sortBy), PagesOf(limit))
    ensures WalkIsListed(orders, offers, req, now, limit)
  {
    var ids, key := MatchingIds(offers, req, now), KeysBy(req.sortBy);
    forall p: nat ensures LinesUp(r, orders(p), offers, ids, key) {
      ListingsLineUp(r, orders(p), offers, req, now);
    }
    var w := WalkPieces(orders, r, offers, ids, key, limit);
    LinedUpIsListed(r, w, offers, req, now);
    ListedSize(r, offers, ids);
    WalkPages(orders, w, 0, |offers|, limit);
  }

  lemma WalkPieces(orders: nat -> seq<Offer>, r: seq<Offer>, offers: OfferMap, ids: set<string>, key: Keys, limit: Int32)
      returns (w: seq<Offer>)
    requires 1 <= limit && Enumerates(r, offers, ids) && !TieAcrossPages(r, key, PagesOf(limit))
    requires forall p: nat :: LinesUp(r, orders(p), offers, ids, key)
    ensures LinesUp(r, w, offers, ids, key) && forall p: nat :: SamePage(orders(p), w, p, limit)
  {
    forall p: nat ensures |orders(p)| == |r| {
      assert LinesUp(r, orders(p), offers, ids, key);
    }
    var cut := seq(|r|, k requires 0 <= k < |r| => orders(k / limit));
    w := Pieced(cut);
    PiecedEnumerates(cut, r, offers, ids, key, PagesOf(limit));
  }

  /** Whatever the sort field, a walk along the cursor is sure to return every matching offer exactly
      once, in order, if and only if the stored offers are within the cursor's range and no two
      matching offers with the same key stand on different pages. */
  lemma PagingCompleteIff(r: seq<Offer>, offers: OfferMap, req: ListRequest, now: Time, limit: Int32)
    requires 1 <= limit <= 1000 && Listed(r, offers, req, now)
    ensures AlwaysCovers(offers, req, now, limit)
            <==> |offers| <= CursorBound(limit) && !TieAcrossPages(r, KeysBy(req.sortBy), PagesOf(limit))
  {
    if |offers| > CursorBound(limit) {
      EitherListed(r, r, 0, offers, req, now);
      WalkOverflows(Either(r, r, 0), 0, 0, |offers|, limit);
    } else if TieAcrossPages(r, KeysBy(req.sortBy), PagesOf(limit)) {
      TiesBreakWalk(r, offers, req, now, limit);
    } else {
      forall orders: nat -> seq<Offer> | AllListed(orders, offers, req, now)
        ensures WalkIsListed(orders, offers, req, now, limit)
      {
        WalkIsPieced(orders, r, offers, req, now, limit);
      }
    }
  }

  lemma TiesBreakWalk(r: seq<Offer>, offers: OfferMap, req: ListRequest, now: Time, limit: Int32)
    requires 1 <= limit <= 1000 && |offers| <= CursorBound(limit) && Listed(r, offers, req, now)
    requires TieAcrossPages(r, KeysBy(req.sortBy), PagesOf(limit))
    ensures !AlwaysCovers(offers, req, now, limit)
  {
    var key, page := KeysBy(req.sortBy), PagesOf(limit);
    var i, j :| 0 <= i < j < |r| && key(r[i]) == key(r[j]) && page(i) != page(j);
    TiesLoseOffers(r, i, j, offers, req, now, limit);
    LosesSomething(r, r[j := r[i]], j, offers, MatchingIds(offers, req, now));
  }

  lemma LosesSomething(r: seq<Offer>, s: seq<Offer>, j: nat, offers: OfferMap, ids: set<string>)
    requires Enumerates(r, offers, ids) && j < |r| && r[j] !in s
    ensures !Enumerates(s, offers, ids)
  {
    assert r[j] in r;
  }
}
