/** What a filtered overwrite removes: for each criterion alone, the stored offers whose own field says
    so; for several criteria, those that each of them removes. */
module Selection {
  import opened Types
  import opened StoreSpec
  import opened StoreRuns
  import opened StoreTheorems
  import opened StoreLookups
  import opened StoreOverwrite

  const ANY := OverwriteFilter(None, None, None, None, None, None, None, None, None, None)

  /** A call that goes through, ranging over the selected offers in this order. */
  datatype Overwriting = Overwriting(batch: seq<Option<Offer>>, order: seq<string>, now: Time)

  ghost predicate GoesThrough(s: State, filter: Option<OverwriteFilter>, call: Overwriting) {
    Possible(s, OpOverwrite(call.batch, filter, call.order)) && CheckAll(call.batch) == Ok
  }

  /** The offers `gone` are what the call is said to select, and but for what its batch stores it leaves
      the other stored offers, as they were, and nothing else. */
  ghost predicate Removes(s: State, filter: Option<OverwriteFilter>, call: Overwriting, gone: set<string>)
    requires GoesThrough(s, filter, call)
  {
    var t := Overwrite(s, call.batch, filter, call.order, call.now).state.offers;
    && SelectedIds(s, filter) == gone
    && forall id :: !Mentions(Offers(call.batch), id) ==>
         && (id in t <==> id in s.offers && id !in gone)
         && (id in t ==> t[id] == s.offers[id])
  }

  lemma RemovesSelected(s: State, filter: Option<OverwriteFilter>, call: Overwriting)
    requires GoesThrough(s, filter, call)
    ensures Removes(s, filter, call, SelectedIds(s, filter))
  {
    OverwriteContents(s, call.batch, filter, call.order, call.now);
  }

  /** The stored offers that meet a condition. */
  ghost function Those(s: State, meets: Offer -> bool): set<string> {
    set id | id in s.offers && meets(s.offers[id])
  }

  /** Without a filter, or with one that has no criterion, everything goes. */
  lemma RemovesAll(s: State, filter: Option<OverwriteFilter>, call: Overwriting)
    requires GoesThrough(s, filter, call) && (filter == None || filter == Some(ANY))
    ensures Removes(s, filter, call, s.offers.Keys)
  {
    RemovesSelected(s, filter, call);
    assert SelectedIds(s, filter) == s.offers.Keys;
  }

  /** The offers of a token pair. */
  lemma RemovesPair(s: State, c: string, b: string, call: Overwriting)
    requires GoesThrough(s, Some(ANY.(collateralToken := Some(c), borrowToken := Some(b))), call)
    ensures Removes(s, Some(ANY.(collateralToken := Some(c), borrowToken := Some(b))), call, PairIds(s, c, b))
  {
    var filter := Some(ANY.(collateralToken := Some(c), borrowToken := Some(b)));
    RemovesSelected(s, filter, call);
    assert SelectedIds(s, filter) == PairIds(s, c, b);
  }

  // One criterion alone. The text of a type, of either token, of a lender or of a liquidity source

  lemma RemovesType(s: State, text: string, call: Overwriting)
    requires GoesThrough(s, Some(ANY.(offerType := Some(text))), call)
    ensures Removes(s, Some(ANY.(offerType := Some(text))), call, ScanIds(s, ByType, text))
    ensures ScanIds(s, ByType, text) == Those(s, (o: Offer) => o.terms.offerType == text)
  {
    RemovesWhere(s, ANY.(offerType := Some(text)), (o: Offer) => o.terms.offerType == text, call);
  }

  lemma RemovesCollateral(s: State, text: string, call: Overwriting)
    requires GoesThrough(s, Some(ANY.(collateralToken := Some(text))), call)
    ensures Removes(s, Some(ANY.(collateralToken := Some(text))), call,
                    Those(s, (o: Offer) => o.terms.collateralToken == text))
  {
    RemovesWhere(s, ANY.(collateralToken := Some(text)), (o: Offer) => o.terms.collateralToken == text, call);
  }

  lemma RemovesBorrow(s: State, text: string, call: Overwriting)
    requires GoesThrough(s, Some(ANY.(borrowToken := Some(text))), call)
    ensures Removes(s, Some(ANY.(borrowToken := Some(text))), call, Those(s, (o: Offer) => o.terms.borrowToken == text))
  {
    RemovesWhere(s, ANY.(borrowToken := Some(text)), (o: Offer) => o.terms.borrowToken == text, call);
  }

  lemma RemovesLender(s: State, text: string, call: Overwriting)
    requires GoesThrough(s, Some(ANY.(lenderAddress := Some(text))), call)
    ensures Removes(s, Some(ANY.(lenderAddress := Some(text))), call, ScanIds(s, ByLender, text))
    ensures ScanIds(s, ByLender, text) == Those(s, (o: Offer) => o.details.lenderAddress == Some(text))
  {
    RemovesWhere(s, ANY.(lenderAddress := Some(text)), (o: Offer) => o.details.lenderAddress == Some(text), call);
  }

  lemma RemovesLiquiditySource(s: State, text: string, call: Overwriting)
    requires GoesThrough(s, Some(ANY.(liquiditySource := Some(text))), call)
    ensures Removes(s, Some(ANY.(liquiditySource := Some(text))), call,
                    Those(s, (o: Offer) => o.terms.liquiditySource == text))
  {
    RemovesWhere(s, ANY.(liquiditySource := Some(text)), (o: Offer) => o.terms.liquiditySource == text, call);
  }

  lemma RemovesWhere(s: State, f: OverwriteFilter, meets: Offer -> bool, call: Overwriting)
    requires GoesThrough(s, Some(f), call) && forall o :: MatchesOverwriteFilter(o, f) <==> meets(o)
    ensures Removes(s, Some(f), call, Those(s, meets))
  {
    RemovesSelected(s, Some(f), call);
    assert SelectedIds(s, Some(f)) == Those(s, meets);
  }

  // The times of creation and of update: each bound is inclusive

  lemma RemovesCreatedAfter(s: State, t: Time, call: Overwriting)
    requires GoesThrough(s, Some(ANY.(createdAfter := Some(t))), call)
    ensures Removes(s, Some(ANY.(createdAfter := Some(t))), call, Those(s, (o: Offer) => t <= o.created))
  {
    RemovesWhere(s, ANY.(createdAfter := Some(t)), (o: Offer) => t <= o.created, call);
  }

  lemma RemovesCreatedBefore(s: State, t: Time, call: Overwriting)
    requires GoesThrough(s, Some(ANY.(createdBefore := Some(t))), call)
    ensures Removes(s, Some(ANY.(createdBefore := Some(t))), call, Those(s, (o: Offer) => o.created <= t))
  {
    RemovesWhere(s, ANY.(createdBefore := Some(t)), (o: Offer) => o.created <= t, call);
  }

  lemma RemovesUpdatedAfter(s: State, t: Time, call: Overwriting)
    requires GoesThrough(s, Some(ANY.(updatedAfter := Some(t))), call)
    ensures Removes(s, Some(ANY.(updatedAfter := Some(t))), call, Those(s, (o: Offer) => t <= o.updated))
  {
    RemovesWhere(s, ANY.(updatedAfter := Some(t)), (o: Offer) => t <= o.updated, call);
  }

  lemma RemovesUpdatedBefore(s: State, t: Time, call: Overwriting)
    requires GoesThrough(s, Some(ANY.(updatedBefore := Some(t))), call)
    ensures Removes(s, Some(ANY.(updatedBefore := Some(t))), call, Those(s, (o: Offer) => o.updated <= t))
  {
    RemovesWhere(s, ANY.(updatedBefore := Some(t)), (o: Offer) => o.updated <= t, call);
  }

  // Several criteria

  /** The criterion that either filter has; they must not both have it. */
  function OneOf<T>(a: Option<T>, b: Option<T>): Option<T> {
    if a.Some? then a else b
  }

  predicate Apart<T>(a: Option<T>, b: Option<T>) {
    a.None? || b.None?
  }

  predicate NothingTwice(f: OverwriteFilter, g: OverwriteFilter) {
    && Apart(f.offerType, g.offerType) && Apart(f.collateralToken, g.collateralToken)
    && Apart(f.borrowToken, g.borrowToken) && Apart(f.lenderAddress, g.lenderAddress)
    && Apart(f.liquiditySource, g.liquiditySource)
    && Apart(f.createdAfter, g.createdAfter) && Apart(f.createdBefore, g.createdBefore)
    && Apart(f.updatedAfter, g.updatedAfter) && Apart(f.updatedBefore, g.updatedBefore)
  }

  /** The criteria of both filters. */
  function Both(f: OverwriteFilter, g: OverwriteFilter): OverwriteFilter {
    OverwriteFilter(OneOf(f.offerType, g.offerType), OneOf(f.collateralToken, g.collateralToken),
                    OneOf(f.borrowToken, g.borrowToken), OneOf(f.lenderAddress, g.lenderAddress),
                    OneOf(f.liquiditySource, g.liquiditySource), OneOf(f.source, g.source),
                    OneOf(f.createdAfter, g.createdAfter), OneOf(f.createdBefore, g.createdBefore),
                    OneOf(f.updatedAfter, g.updatedAfter), OneOf(f.updatedBefore, g.updatedBefore))
  }

  /** With the criteria of two filters an overwrite removes what it would remove with each of them. A
      filter with several criteria can be taken apart in this way until only single ones are left; the
      `source` that a filter may name selects nothing. */
  lemma RemovesBoth(s: State, f: OverwriteFilter, g: OverwriteFilter, call: Overwriting)
    requires NothingTwice(f, g) && GoesThrough(s, Some(Both(f, g)), call)
    ensures Removes(s, Some(Both(f, g)), call, SelectedIds(s, Some(f)) * SelectedIds(s, Some(g)))
    ensures SelectedIds(s, Some(ANY.(source := f.source))) == s.offers.Keys
  {
    var both := SelectedIds(s, Some(Both(f, g)));
    RemovesSelected(s, Some(Both(f, g)), call);
    assert forall id :: id in s.offers ==>
      (id in both <==> id in SelectedIds(s, Some(f)) && id in SelectedIds(s, Some(g)));
    assert both == SelectedIds(s, Some(f)) * SelectedIds(s, Some(g));
  }
}
