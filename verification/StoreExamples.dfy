/** Runs in which a batch operation leaves the indexes inexact, or a joined key is ambiguous: the
    conditions in StoreTheorems and StoreLookups are not empty. */
module StoreExamples {
  import opened Types
  import opened IndexLists
  import opened StoreSpec
  import opened StoreInvariants
  import opened StoreRuns
  import opened StoreTheorems
  import opened StoreLookups

  /** The store after one creation. */
  lemma OneOffer(a: Offer, now: Time) returns (s: State)
    requires Validate(a) == Ok
    ensures s == Create(EMPTY, Some(a), now).state
    ensures WellFormed(s) && Exact(s) && s.offers == map[a.id := StampNew(a, now)]
  {
    EmptyIsExact();
    CreateKeeps(EMPTY, Some(a), now);
    s := Create(EMPTY, Some(a), now).state;
  }

  /** Updating one offer twice in a batch leaves a stale index entry if the first update moves it to
      another token pair. */
  lemma RepeatedUpdateLeavesStray(a: Offer, b: Offer, c: Offer, now: Time)
    requires Validate(a) == Ok && Validate(b) == Ok && Validate(c) == Ok && a.id == b.id == c.id
    requires KeyOf(ByToken, a) != KeyOf(ByToken, b)
    ensures var s := Create(EMPTY, Some(a), now).state;
            var r := BulkUpdate(s, [Some(b), Some(c)], now);
            Exact(s) && r.outcome == Ok && !Exact(r.state)
  {
    var s := OneOffer(a, now);
    var batch := [Some(b), Some(c)];
    var os := Offers(batch);
    assert CheckAll(batch) == Ok;
    assert os[0].id == os[1].id && !SameKeys(os[0], s.offers[os[0].id]);
    BulkUpdateKeeps(s, batch, now);
  }

  /** Overwriting brings in an offer whose ID the filter retains: its old index entries stay. */
  lemma RetainedIdLeavesStray(a: Offer, b: Offer, filter: OverwriteFilter, now: Time)
    requires Validate(a) == Ok && Validate(b) == Ok && a.id == b.id
    requires !MatchesOverwriteFilter(StampNew(a, now), filter)
    ensures var s := Create(EMPTY, Some(a), now).state;
            var r := Overwrite(s, [Some(b)], Some(filter), [], now);
            Exact(s) && r.outcome == Ok && !Exact(r.state)
  {
    var s := OneOffer(a, now);
    var op := OpOverwrite([Some(b)], Some(filter), []);
    assert CheckAll([Some(b)]) == Ok && Offers([Some(b)]) == [b];
    assert SelectedIds(s, Some(filter)) == {};
    assert Possible(s, op);
    OverwriteKeeps(s, [Some(b)], Some(filter), [], now);
    assert !IndexSafe(s, op) by { assert Offers([Some(b)])[0].id in s.offers; }
  }

  /** With bars in the tokens, a lookup by token pair can return an offer of another pair. */
  lemma BarsCollide(a: Offer, b: Offer, x: string, y: string, z: string, now: Time)
    requires Validate(a) == Ok && Validate(b) == Ok && a.id != b.id
    requires a.terms.collateralToken == x + "|" + y && a.terms.borrowToken == z
    requires b.terms.collateralToken == x && b.terms.borrowToken == y + "|" + z
    ensures var s := Create(Create(EMPTY, Some(a), now).state, Some(b), now).state;
            StampNew(a, now) in Lookup(s, ByToken, TokenKey(x, y + "|" + z))
  {
    var s := OneOffer(a, now);
    CreateKeeps(s, Some(b), now);
    var t := Create(s, Some(b), now).state;
    assert x + "|" + y + "|" + z == x + "|" + (y + "|" + z);
    assert a.id in ScanIds(t, ByToken, TokenKey(x, y + "|" + z));
    LookupNeverMisses(t, ByToken, TokenKey(x, y + "|" + z), a.id);
  }
}
