/** Upsert handlers running concurrently: each asks whether its offer is stored and writes in a
    second step, and the steps of different handlers interleave in any way. */
module UpsertRaces {
  import opened Types
  import opened StoreSpec
  import opened StoreInvariants
  import opened StoreTheorems
  import opened GrpcServers

  datatype Phase = Asking | SawMissing | SawPresent | Replied(reply: UpsertReply)

  datatype Handler = Handler(offer: Offer, phase: Phase)

  datatype System = System(store: State, handlers: seq<Handler>)

  /** Handler `who` takes its next step, reading the clock if it writes. */
  datatype Step = Step(who: nat, now: Time)

  predicate Enabled(sys: System, step: Step) {
    step.who < |sys.handlers| && !sys.handlers[step.who].phase.Replied?
  }

  /** The lookup, which decides between creating and updating. */
  function AfterAsking(s: State, o: Offer): Phase {
    match GetByID(s, o.id)
    case Success(_) => SawPresent
    case Failure(OfferNotFound) => SawMissing
    case Failure(e) => Replied(Refused(e))
  }

  function Next(sys: System, step: Step): System
    requires Enabled(sys, step)
  {
    var h := sys.handlers[step.who];
    if h.phase.Asking? then
      sys.(handlers := sys.handlers[step.who := h.(phase := AfterAsking(sys.store, h.offer))])
    else
      var r := if h.phase.SawMissing? then Create(sys.store, Some(h.offer), step.now)
               else Update(sys.store, Some(h.offer), step.now);
      var reply := match r.outcome
                   case Ok => Done(r.state.offers[h.offer.id], h.phase.SawMissing?)
                   case Err(e) => Refused(e);
      System(r.state, sys.handlers[step.who := h.(phase := Replied(reply))])
  }

  ghost predicate PossibleRun(sys: System, steps: seq<Step>)
    decreases |steps|
  {
    steps == [] || (Enabled(sys, steps[0]) && PossibleRun(Next(sys, steps[0]), steps[1..]))
  }

  ghost function Run(sys: System, steps: seq<Step>): System
    requires PossibleRun(sys, steps)
    decreases |steps|
  {
    if steps == [] then sys else Run(Next(sys, steps[0]), steps[1..])
  }

  predicate Created(h: Handler, id: string) {
    h.phase.Replied? && h.phase.reply.Done? && h.phase.reply.wasCreated && h.offer.id == id
  }

  /** The handlers that reported to have created `id`. */
  function Creators(sys: System, id: string): set<nat> {
    set i: nat | i < |sys.handlers| && Created(sys.handlers[i], id)
  }

  /** What a handler may have seen or reported, given what is stored and which IDs were stored
      before any handler started. */
  ghost predicate Consistent(h: Handler, s: State) {
    match h.phase
    case Asking => true
    case SawMissing => h.offer.id != ""
    case SawPresent => h.offer.id in s.offers
    case Replied(Done(o, _)) => h.offer.id in s.offers && o.id == h.offer.id && o.terms == h.offer.terms
        && o.details == h.offer.details
    case Replied(Refused(e)) =>
      (Validate(h.offer) == Ok ==> e == OfferAlreadyExists && h.offer.id in s.offers)
  }

  /** The stored offer came from a handler that reported success. */
  ghost predicate WrittenBySome(sys: System, id: string)
    requires id in sys.store.offers
  {
    exists i :: 0 <= i < |sys.handlers| && sys.handlers[i].phase.Replied? && sys.handlers[i].phase.reply.Done?
                && sys.handlers[i].phase.reply.offer == sys.store.offers[id]
  }

  ghost predicate Inv(sys: System, before: set<string>) {
    && WellFormed(sys.store) && before <= sys.store.offers.Keys
    && (forall i :: 0 <= i < |sys.handlers| ==> Consistent(sys.handlers[i], sys.store))
    && (forall id :: |Creators(sys, id)| == One(id in sys.store.offers && id !in before))
    && (forall id :: id in sys.store.offers && id !in before ==> WrittenBySome(sys, id))
  }

  lemma CreatorsAfter(sys: System, sys': System, who: nat, id: string)
    requires |sys'.handlers| == |sys.handlers| && who < |sys.handlers|
    requires sys'.handlers == sys.handlers[who := sys'.handlers[who]]
    requires !Created(sys.handlers[who], id)
    ensures |Creators(sys', id)| == |Creators(sys, id)| + One(Created(sys'.handlers[who], id))
  {
    if Created(sys'.handlers[who], id) {
      assert Creators(sys', id) == Creators(sys, id) + {who};
    } else {
      assert Creators(sys', id) == Creators(sys, id);
    }
  }

  lemma StepKeepsInv(sys: System, step: Step, before: set<string>)
    requires Inv(sys, before) && Enabled(sys, step)
    ensures Inv(Next(sys, step), before)
    ensures Exact(sys.store) ==> Exact(Next(sys, step).store)
  {
    var sys', h := Next(sys, step), sys.handlers[step.who];
    if !h.phase.Asking? {
      CreateKeeps(sys.store, Some(h.offer), step.now);
      UpdateKeeps(sys.store, Some(h.offer), step.now);
    }
    StepConsistent(sys, step);
    forall id
      ensures |Creators(sys', id)| == One(id in sys'.store.offers && id !in before)
    {
      CreatorsAfter(sys, sys', step.who, id);
      assert |Creators(sys, id)| == One(id in sys.store.offers && id !in before);
    }
    forall id | id in sys'.store.offers && id !in before ensures WrittenBySome(sys', id) {
      StepWritten(sys, step, id, before);
    }
  }

  lemma StepConsistent(sys: System, step: Step)
    requires Enabled(sys, step) && WellFormed(sys.store)
    requires forall i :: 0 <= i < |sys.handlers| ==> Consistent(sys.handlers[i], sys.store)
    ensures sys.store.offers.Keys <= Next(sys, step).store.offers.Keys
    ensures forall i :: 0 <= i < |sys.handlers| ==> Consistent(Next(sys, step).handlers[i], Next(sys, step).store)
  {
    var sys' := Next(sys, step);
    assert Consistent(sys.handlers[step.who], sys.store);
    forall i | 0 <= i < |sys.handlers| ensures Consistent(sys'.handlers[i], sys'.store) {
      assert Consistent(sys.handlers[i], sys.store);
    }
  }

  lemma StepWritten(sys: System, step: Step, id: string, before: set<string>)
    requires Enabled(sys, step) && id in Next(sys, step).store.offers
    requires id in sys.store.offers ==> WrittenBySome(sys, id)
    ensures WrittenBySome(Next(sys, step), id)
  {
    var sys', h := Next(sys, step), sys.handlers[step.who];
    if id in sys.store.offers && sys'.store.offers[id] == sys.store.offers[id] {
      var i :| 0 <= i < |sys.handlers| && sys.handlers[i].phase.Replied? && sys.handlers[i].phase.reply.Done?
                && sys.handlers[i].phase.reply.offer == sys.store.offers[id];
      assert sys'.handlers[i] == sys.handlers[i];
    } else {
      assert sys'.handlers[step.who].phase.reply.offer == sys'.store.offers[id];
    }
  }

  lemma {:induction false} RunKeepsInv(sys: System, steps: seq<Step>, before: set<string>)
    requires Inv(sys, before) && PossibleRun(sys, steps)
    ensures Inv(Run(sys, steps), before)
    ensures Exact(sys.store) ==> Exact(Run(sys, steps).store)
    ensures |Run(sys, steps).handlers| == |sys.handlers|
    ensures forall i :: 0 <= i < |sys.handlers| ==> Run(sys, steps).handlers[i].offer == sys.handlers[i].offer
    decreases |steps|
  {
    if steps != [] {
      StepKeepsInv(sys, steps[0], before);
      RunKeepsInv(Next(sys, steps[0]), steps[1..], before);
    }
  }

  function Start(s: State, offers: seq<Offer>): System {
    System(s, seq(|offers|, i requires 0 <= i < |offers| => Handler(offers[i], Asking)))
  }

  /** Under every interleaving: the indexes stay exact; at most one handler reports to have created
      an ID, and none if the ID was stored before; once every handler for an initially absent ID
      has replied, and one of their offers is valid, exactly one has, and every other one with a
      valid offer updated the offer or was told that it already exists. */
  lemma RaceHasOneWinner(s: State, offers: seq<Offer>, steps: seq<Step>, id: string)
    requires WellFormed(s) && Exact(s) && PossibleRun(Start(s, offers), steps)
    ensures var end := Run(Start(s, offers), steps);
            && |end.handlers| == |offers| && WellFormed(end.store) && Exact(end.store)
            && |Creators(end, id)| <= One(id !in s.offers)
            && ((forall i :: 0 <= i < |offers| && offers[i].id == id ==> end.handlers[i].phase.Replied?)
                && (exists i :: 0 <= i < |offers| && offers[i].id == id && Validate(offers[i]) == Ok)
                && id !in s.offers
                ==> |Creators(end, id)| == 1 && id in end.store.offers && WrittenBySome(end, id))
            && forall i :: 0 <= i < |offers| && offers[i].id == id && Validate(offers[i]) == Ok
                           && end.handlers[i].phase.Replied? ==>
                 end.handlers[i].phase.reply.Done? || end.handlers[i].phase.reply == Refused(OfferAlreadyExists)
  {
    var sys := Start(s, offers);
    forall x ensures |Creators(sys, x)| == 0 {
      assert Creators(sys, x) == {};
    }
    RunKeepsInv(sys, steps, s.offers.Keys);
    var end := Run(sys, steps);
    assert |Creators(end, id)| == One(id in end.store.offers && id !in s.offers);
    forall i | 0 <= i < |offers| ensures Consistent(end.handlers[i], end.store) {
      assert end.handlers[i].offer == offers[i];
    }
  }

  // Handlers that find the ID

  /** For an ID that is stored, no handler has seen it missing, and one that has replied to a valid offer
      has stored it, updating what was there. */
  ghost predicate OnlyUpdates(sys: System, id: string) {
    && id in sys.store.offers
    && forall i :: 0 <= i < |sys.handlers| && sys.handlers[i].offer.id == id ==>
         match sys.handlers[i].phase
         case SawMissing => false
         case Replied(reply) =>
           Validate(sys.handlers[i].offer) == Ok ==> reply.Done? && !reply.wasCreated && Wrote(reply.offer, sys.handlers[i].offer)
         case _ => true
  }

  /** The offer as the handler was given it, time of creation included, but for the time of update. */
  predicate Wrote(o: Offer, given: Offer) {
    o == given.(updated := o.updated)
  }

  lemma StepOnlyUpdates(sys: System, step: Step, id: string)
    requires Enabled(sys, step) && OnlyUpdates(sys, id) && WellFormed(sys.store)
    ensures OnlyUpdates(Next(sys, step), id)
  {
  }

  lemma {:induction false} RunOnlyUpdates(sys: System, steps: seq<Step>, before: set<string>, id: string)
    requires Inv(sys, before) && OnlyUpdates(sys, id) && PossibleRun(sys, steps)
    ensures OnlyUpdates(Run(sys, steps), id)
    decreases |steps|
  {
    if steps != [] {
      StepOnlyUpdates(sys, steps[0], id);
      StepKeepsInv(sys, steps[0], before);
      RunOnlyUpdates(Next(sys, steps[0]), steps[1..], before, id);
    }
  }

  /** Under every interleaving: if the ID was stored before any handler started, every handler that has
      replied to a valid offer for it has updated the offer to what it was given; none creates it, and
      none is refused. */
  lemma StoredIdIsUpdated(s: State, offers: seq<Offer>, steps: seq<Step>, id: string, i: nat)
    requires WellFormed(s) && PossibleRun(Start(s, offers), steps) && id in s.offers
    requires i < |offers| && offers[i].id == id && Validate(offers[i]) == Ok
    ensures var end := Run(Start(s, offers), steps);
            && i < |end.handlers|
            && (end.handlers[i].phase.Replied? ==>
                  && end.handlers[i].phase.reply.Done? && !end.handlers[i].phase.reply.wasCreated
                  && Wrote(end.handlers[i].phase.reply.offer, offers[i]))
  {
    var sys := Start(s, offers);
    forall x ensures |Creators(sys, x)| == 0 {
      assert Creators(sys, x) == {};
    }
    RunKeepsInv(sys, steps, s.offers.Keys);
    RunOnlyUpdates(sys, steps, s.offers.Keys, id);
    assert Run(sys, steps).handlers[i].offer == offers[i];
  }
}
