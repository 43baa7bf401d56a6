/** A liquidity event and an interest-rate event handled by two goroutines: each handler reads the
    offer and writes all of it back in a second step, and the steps interleave in any way. */
module EventRaces {
  import opened Types
  import opened IndexLists
  import opened StoreRuns
  import opened StoreSpec
  import opened StoreInvariants
  import opened EtlEvents

  datatype Who = Liquidity | Rate

  /** Before the lookup, between the lookup and the write, and after. */
  datatype Phase = Asking | Holding(offer: Offer) | Finished(success: bool)

  datatype System = System(store: State, liquidity: Phase, rate: Phase) {
    function Of(who: Who): Phase {
      if who.Liquidity? then liquidity else rate
    }

    function With(who: Who, phase: Phase): System {
      if who.Liquidity? then this.(liquidity := phase) else this.(rate := phase)
    }
  }

  /** The two events, and the times at which their writes read the clock. */
  datatype Events = Events(liquidity: LiquidityEvent, rate: InterestRateEvent, t: Time, u: Time) {
    function IdOf(who: Who): string {
      if who.Liquidity? then liquidity.offerId else rate.offerId
    }

    function NowOf(who: Who): Time {
      if who.Liquidity? then t else u
    }

    /** What a handler makes of the offer that it read. */
    function Changed(who: Who, o: Offer): Offer {
      if who.Liquidity? then WithLiquidity(o, liquidity) else WithRate(o, rate)
    }

    /** Whether a handler gives up after the lookup. */
    predicate Unknown(who: Who) {
      who.Liquidity? && liquidity.kind.OtherLiquidity?
    }
  }

  predicate Enabled(sys: System, who: Who) {
    !sys.Of(who).Finished?
  }

  function Next(sys: System, who: Who, ev: Events): System
    requires Enabled(sys, who)
  {
    match sys.Of(who)
    case Asking =>
      (match GetByID(sys.store, ev.IdOf(who))
       case Failure(_) => sys.With(who, Finished(false))
       case Success(o) => sys.With(who, if ev.Unknown(who) then Finished(false) else Holding(o)))
    case Holding(o) =>
      var r := Store(sys.store, ev.Changed(who, o), ev.NowOf(who));
      sys.(store := r.state).With(who, Finished(r.success))
  }

  ghost predicate PossibleRun(sys: System, steps: seq<Who>, ev: Events)
    decreases |steps|
  {
    steps == [] || (Enabled(sys, steps[0]) && PossibleRun(Next(sys, steps[0], ev), steps[1..], ev))
  }

  ghost function Run(sys: System, steps: seq<Who>, ev: Events): System
    requires PossibleRun(sys, steps, ev)
    decreases |steps|
  {
    if steps == [] then sys else Run(Next(sys, steps[0], ev), steps[1..], ev)
  }

  predicate Over(sys: System) {
    sys.liquidity.Finished? && sys.rate.Finished?
  }

  // What the steps do, up to times of update and the order within index lists

  /** `t` holds the offers of `s` with the values `os`, filed as in `s`. */
  ghost predicate Reaches(s: State, t: State, os: map<string, Offer>) {
    && WellFormed(t) && SameFiling(s, t) && t.offers.Keys == s.offers.Keys == os.Keys
    && (forall x :: x in s.offers ==> SameButUpdated(t.offers[x], os[x]) && SameToIndexes(os[x], s.offers[x]))
  }

  /** A handler leaves these as they are. */
  predicate SameToIndexes(o: Offer, p: Offer) {
    && o.id == p.id && o.created == p.created && o.details == p.details
    && o.terms.(availableBorrowAmount := 0.0, interestRate := 0.0, interestModel := "")
       == p.terms.(availableBorrowAmount := 0.0, interestRate := 0.0, interestModel := "")
  }

  predicate Accepted(who: Who, ev: Events) {
    if who.Liquidity? then !ev.liquidity.kind.OtherLiquidity? && ev.liquidity.newTotalAmount >= 0.0
    else ev.rate.newRate >= 0.0
  }

  lemma StoreReaches(s: State, t: State, os: map<string, Offer>, who: Who, ev: Events, o: Offer)
    requires WellFormed(s) && Reaches(s, t, os) && o.id in s.offers && SameToIndexes(o, s.offers[o.id])
    requires Validate(o) == Ok && !ev.Unknown(who)
    ensures var r := Store(t, ev.Changed(who, o), ev.NowOf(who));
            && r.success == Accepted(who, ev)
            && Reaches(s, r.state, if Accepted(who, ev) then os[o.id := ev.Changed(who, o)] else os)
  {
    var v := ev.Changed(who, o);
    assert SameToIndexes(v, o) && SameToIndexes(t.offers[o.id], s.offers[o.id]);
    assert Validate(v) == Ok <==> Accepted(who, ev);
    if Accepted(who, ev) {
      var u := Upsert(t, v, ev.NowOf(who));
      RestoreKeepsFiling(t, v, ev.NowOf(who));
      FilingIsTransitive(s, t, u);
      UpsertValues(s, t, os, v, ev.NowOf(who));
    }
  }

  lemma UpsertValues(s: State, t: State, os: map<string, Offer>, v: Offer, now: Time)
    requires Reaches(s, t, os) && v.id in s.offers && SameToIndexes(v, s.offers[v.id])
    ensures var u := Upsert(t, v, now);
            u.offers.Keys == s.offers.Keys
            && forall x :: x in s.offers ==>
                 SameButUpdated(u.offers[x], os[v.id := v][x]) && SameToIndexes(os[v.id := v][x], s.offers[x])
  {
  }

  /** A handler that runs alone. */
  function Process(s: State, who: Who, ev: Events): EtlEvents.Result {
    if who.Liquidity? then ProcessLiquidityEvent(s, ev.liquidity, ev.t) else ProcessInterestRateEvent(s, ev.rate, ev.u)
  }

  predicate Succeeds(s: State, who: Who, ev: Events) {
    ev.IdOf(who) in s.offers && Accepted(who, ev)
  }

  function After(os: map<string, Offer>, who: Who, ev: Events): map<string, Offer>
    requires ev.IdOf(who) in os
  {
    os[ev.IdOf(who) := ev.Changed(who, os[ev.IdOf(who)])]
  }

  lemma ProcessReaches(s: State, t: State, os: map<string, Offer>, who: Who, ev: Events)
    requires WellFormed(s) && Reaches(s, t, os)
    ensures Reaches(s, Process(t, who, ev).state, if Succeeds(s, who, ev) then After(os, who, ev) else os)
  {
    var id := ev.IdOf(who);
    if id in s.offers && !ev.Unknown(who) {
      var o := t.offers[id];
      assert o.id == id && Validate(o) == Ok && SameButUpdated(o, os[id]);
      StoreReaches(s, t, os, who, ev, o);
      if Accepted(who, ev) {
        OneEntryAlike(s, Process(t, who, ev).state, os, id, ev.Changed(who, o), ev.Changed(who, os[id]));
      }
    }
  }

  lemma OneEntryAlike(s: State, t: State, os: map<string, Offer>, id: string, v: Offer, v': Offer)
    requires id in os && Reaches(s, t, os[id := v]) && SameButUpdated(v, v')
    ensures Reaches(s, t, os[id := v'])
  {
    assert SameButUpdated(t.offers[id], v') && SameToIndexes(v', s.offers[id]);
  }

  lemma SimilarIff(s: State, t: State, u: State, os: map<string, Offer>, os': map<string, Offer>)
    requires Reaches(s, t, os) && Reaches(s, u, os')
    ensures Similar(t, u) <==> forall x :: x in s.offers ==> SameButUpdated(os[x], os'[x])
  {
    forall kind, k
      ensures multiset(ListAt(t.indexes.At(kind), k)) == multiset(ListAt(u.indexes.At(kind), k))
      ensures k in t.indexes.At(kind) <==> k in u.indexes.At(kind)
    {
      SameFilingSimilarLists(s, t, u, kind, k);
    }
  }

  // Runs

  function Other(who: Who): Who {
    if who.Liquidity? then Rate else Liquidity
  }

  ghost function Begin(s: State): System {
    System(s, Asking, Asking)
  }

  /** A handler that has the store to itself from here on. */
  lemma AloneFromLookup(sys: System, who: Who, steps: seq<Who>, ev: Events)
    requires sys.Of(who).Asking? && sys.Of(Other(who)).Finished?
    requires PossibleRun(sys, steps, ev) && Over(Run(sys, steps, ev))
    ensures Run(sys, steps, ev).store == Process(sys.store, who, ev).state && !Loses(sys, steps, ev)
  {
    var next := Next(sys, steps[0], ev);
    if next.Of(who).Holding? {
      AloneFromWrite(next, who, steps[1..], ev);
    } else {
      assert steps[1..] == [];
    }
  }

  lemma AloneFromWrite(sys: System, who: Who, steps: seq<Who>, ev: Events)
    requires sys.Of(who).Holding? && sys.Of(Other(who)).Finished?
    requires PossibleRun(sys, steps, ev) && Over(Run(sys, steps, ev))
    ensures Run(sys, steps, ev).store == Store(sys.store, ev.Changed(who, sys.Of(who).offer), ev.NowOf(who)).state
    ensures !Loses(sys, steps, ev)
  {
    assert steps[0] == who;
    assert steps[1..] == [];
  }

  /** Both handlers hold the offer at once, both are about to write, and the first to do so changes it. */
  predicate Losing(sys: System, first: Who, ev: Events) {
    && sys.liquidity.Holding? && sys.rate.Holding? && ev.IdOf(Liquidity) == ev.IdOf(Rate)
    && Accepted(Liquidity, ev) && Accepted(Rate, ev)
    && !SameButUpdated(ev.Changed(first, sys.Of(first).offer), sys.Of(first).offer)
  }

  /** Whether this happens in a run. */
  ghost predicate Loses(sys: System, steps: seq<Who>, ev: Events)
    requires PossibleRun(sys, steps, ev)
    decreases |steps|
  {
    steps != [] && (Losing(sys, steps[0], ev) || Loses(Next(sys, steps[0], ev), steps[1..], ev))
  }

  // Values

  /** The values after a handler that has the store to itself. */
  function Then(s: State, os: map<string, Offer>, who: Who, ev: Events): map<string, Offer>
    requires os.Keys == s.offers.Keys
  {
    if Succeeds(s, who, ev) then After(os, who, ev) else os
  }

  /** The values after a handler that writes what it made of the offer before the run. */
  function ThenStale(s: State, os: map<string, Offer>, who: Who, ev: Events): map<string, Offer>
    requires os.Keys == s.offers.Keys && ev.IdOf(who) in os
  {
    if Accepted(who, ev) then os[ev.IdOf(who) := ev.Changed(who, s.offers[ev.IdOf(who)])] else os
  }

  ghost predicate Alike(os: map<string, Offer>, os': map<string, Offer>)
    requires os.Keys == os'.Keys
  {
    forall x :: x in os ==> SameButUpdated(os[x], os'[x])
  }

  lemma OrderIrrelevant(s: State, who: Who, ev: Events)
    ensures Then(s, Then(s, s.offers, who, ev), Other(who), ev)
         == Then(s, Then(s, s.offers, Liquidity, ev), Rate, ev)
  {
    var a, b := Then(s, Then(s, s.offers, Liquidity, ev), Rate, ev), Then(s, Then(s, s.offers, Rate, ev), Liquidity, ev);
    assert forall x :: x in s.offers ==> a[x] == b[x];
    assert a == b;
  }

  /** What is lost when the second write undoes the first. */
  lemma StaleWriteIff(s: State, first: Who, ev: Events)
    requires ev.IdOf(Liquidity) in s.offers && ev.IdOf(Rate) in s.offers && !ev.Unknown(Liquidity)
    ensures var o := s.offers[ev.IdOf(first)];
            Alike(ThenStale(s, ThenStale(s, s.offers, first, ev), Other(first), ev),
                  Then(s, Then(s, s.offers, Liquidity, ev), Rate, ev))
            <==> !(ev.IdOf(Liquidity) == ev.IdOf(Rate) && Accepted(Liquidity, ev) && Accepted(Rate, ev)
                   && !SameButUpdated(ev.Changed(first, o), o))
  {
    var a := ThenStale(s, ThenStale(s, s.offers, first, ev), Other(first), ev);
    var b := Then(s, Then(s, s.offers, Liquidity, ev), Rate, ev);
    var id := ev.IdOf(first);
    assert forall x :: x in s.offers && x != ev.IdOf(Liquidity) && x != ev.IdOf(Rate) ==> a[x] == b[x] == s.offers[x];
    assert SameButUpdated(a[id], b[id]) <==> Alike(a, b);
  }

  lemma SequentialReaches(s: State, who: Who, ev: Events)
    requires WellFormed(s)
    ensures Reaches(s, Process(Process(s, who, ev).state, Other(who), ev).state,
                    Then(s, Then(s, s.offers, Liquidity, ev), Rate, ev))
  {
    assert Reaches(s, s, s.offers);
    ProcessReaches(s, s, s.offers, who, ev);
    ProcessReaches(s, Process(s, who, ev).state, Then(s, s.offers, who, ev), Other(who), ev);
    OrderIrrelevant(s, who, ev);
  }

  // Which values a run leaves

  lemma SomeoneMoves(sys: System, steps: seq<Who>, ev: Events)
    requires PossibleRun(sys, steps, ev) && Over(Run(sys, steps, ev)) && !Over(sys)
    ensures steps != [] && !sys.Of(steps[0]).Finished?
  {
  }

  lemma RunReaches(s: State, steps: seq<Who>, ev: Events) returns (os: map<string, Offer>)
    requires WellFormed(s) && PossibleRun(Begin(s), steps, ev) && Over(Run(Begin(s), steps, ev))
    ensures Reaches(s, Run(Begin(s), steps, ev).store, os) && os.Keys == s.offers.Keys
    ensures Alike(os, Then(s, Then(s, s.offers, Liquidity, ev), Rate, ev)) <==> !Loses(Begin(s), steps, ev)
  {
    SomeoneMoves(Begin(s), steps, ev);
    var a, sys := steps[0], Next(Begin(s), steps[0], ev);
    if sys.Of(a).Finished? {
      os := LookupFailed(s, sys, a, steps[1..], ev);
    } else {
      SomeoneMoves(sys, steps[1..], ev);
      if steps[1] == a {
        os := FirstCompletes(s, sys, a, steps[1..], ev);
      } else {
        os := SecondLookup(s, sys, a, steps[1..], ev);
      }
    }
  }

  lemma LookupFailed(s: State, sys: System, a: Who, steps: seq<Who>, ev: Events) returns (os: map<string, Offer>)
    requires WellFormed(s) && sys == Next(Begin(s), a, ev) && sys.Of(a).Finished?
    requires PossibleRun(sys, steps, ev) && Over(Run(sys, steps, ev))
    ensures Reaches(s, Run(sys, steps, ev).store, os) && os.Keys == s.offers.Keys
    ensures Alike(os, Then(s, Then(s, s.offers, Liquidity, ev), Rate, ev)) && !Loses(sys, steps, ev)
  {
    assert Reaches(s, s, s.offers) && !Succeeds(s, a, ev);
    OrderIrrelevant(s, a, ev);
    AloneFromLookup(sys, Other(a), steps, ev);
    ProcessReaches(s, s, s.offers, Other(a), ev);
    os := Then(s, s.offers, Other(a), ev);
  }

  lemma FirstCompletes(s: State, sys: System, a: Who, steps: seq<Who>, ev: Events) returns (os: map<string, Offer>)
    requires WellFormed(s) && sys == Next(Begin(s), a, ev) && sys.Of(a).Holding?
    requires PossibleRun(sys, steps, ev) && Over(Run(sys, steps, ev)) && steps != [] && steps[0] == a
    ensures Reaches(s, Run(sys, steps, ev).store, os) && os.Keys == s.offers.Keys
    ensures Alike(os, Then(s, Then(s, s.offers, Liquidity, ev), Rate, ev)) && !Loses(sys, steps, ev)
  {
    var next := Next(sys, a, ev);
    assert Reaches(s, s, s.offers);
    OrderIrrelevant(s, a, ev);
    StoreReaches(s, s, s.offers, a, ev, sys.Of(a).offer);
    AloneFromLookup(next, Other(a), steps[1..], ev);
    ProcessReaches(s, next.store, Then(s, s.offers, a, ev), Other(a), ev);
    os := Then(s, Then(s, s.offers, a, ev), Other(a), ev);
  }

  lemma SecondLookup(s: State, sys: System, a: Who, steps: seq<Who>, ev: Events) returns (os: map<string, Offer>)
    requires WellFormed(s) && sys == Next(Begin(s), a, ev) && sys.Of(a).Holding?
    requires PossibleRun(sys, steps, ev) && Over(Run(sys, steps, ev)) && steps != [] && steps[0] == Other(a)
    ensures Reaches(s, Run(sys, steps, ev).store, os) && os.Keys == s.offers.Keys
    ensures Alike(os, Then(s, Then(s, s.offers, Liquidity, ev), Rate, ev)) <==> !Loses(sys, steps, ev)
  {
    var b, next := Other(a), Next(sys, steps[0], ev);
    assert Reaches(s, s, s.offers);
    if next.Of(b).Finished? {
      OrderIrrelevant(s, b, ev);
      AloneFromWrite(next, a, steps[1..], ev);
      StoreReaches(s, s, s.offers, a, ev, sys.Of(a).offer);
      os := Then(s, s.offers, a, ev);
    } else {
      os := BothHold(s, next, steps[1..], ev);
    }
  }

  lemma BothHold(s: State, sys: System, steps: seq<Who>, ev: Events) returns (os: map<string, Offer>)
    requires WellFormed(s) && sys.store == s && forall who: Who :: Holds(s, sys, who, ev)
    requires PossibleRun(sys, steps, ev) && Over(Run(sys, steps, ev))
    ensures Reaches(s, Run(sys, steps, ev).store, os) && os.Keys == s.offers.Keys
    ensures Alike(os, Then(s, Then(s, s.offers, Liquidity, ev), Rate, ev)) <==> !Loses(sys, steps, ev)
  {
    assert Holds(s, sys, Liquidity, ev);
    SomeoneMoves(sys, steps, ev);
    var d := steps[0];
    var next, e := Next(sys, d, ev), Other(d);
    assert Holds(s, sys, d, ev) && Holds(s, sys, e, ev) && Reaches(s, s, s.offers);
    StoreReaches(s, s, s.offers, d, ev, sys.Of(d).offer);
    AloneFromWrite(next, e, steps[1..], ev);
    var os1 := ThenStale(s, s.offers, d, ev);
    StoreReaches(s, next.store, os1, e, ev, sys.Of(e).offer);
    os := ThenStale(s, os1, e, ev);
    StaleWriteIff(s, d, ev);
  }

  predicate Holds(s: State, sys: System, who: Who, ev: Events) {
    ev.IdOf(who) in s.offers && sys.Of(who) == Holding(s.offers[ev.IdOf(who)]) && !ev.Unknown(who)
  }

  /** However the steps of the two handlers interleave, the run ends as if one had run after the other,
      in either order, up to times of update and the order within index lists, if and only if it is
      not so that both read the same offer before either wrote, both can write, and the one that
      writes first changes something. */
  lemma LostUpdateIff(s: State, steps: seq<Who>, ev: Events, who: Who)
    requires WellFormed(s) && PossibleRun(Begin(s), steps, ev) && Over(Run(Begin(s), steps, ev))
    ensures Similar(Run(Begin(s), steps, ev).store, Process(Process(s, who, ev).state, Other(who), ev).state)
            <==> !Loses(Begin(s), steps, ev)
  {
    var os := RunReaches(s, steps, ev);
    SequentialReaches(s, who, ev);
    SimilarIff(s, Run(Begin(s), steps, ev).store, Process(Process(s, who, ev).state, Other(who), ev).state,
               os, Then(s, Then(s, s.offers, Liquidity, ev), Rate, ev));
  }
}
