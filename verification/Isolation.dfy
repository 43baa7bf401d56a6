/** A client of the store that keeps every object it has made, passed in or been handed, and writes to
    them and to what they point to as it likes: the store is what its calls alone make of it. */
module Isolation {
  import opened Types
  import opened StoreSpec
  import opened StoreOverwrite
  import opened Listing
  import opened MemoryStores

  /** Which of the client's objects an assignment takes each pointer from. */
  datatype Sources = Sources(termDays: nat, lenderAddress: nat, lastBorrowed: nat, source: nat)

  /** What the client can do. `h` and the like number the objects that it holds; a number that is too
      large stands for a nil pointer. */
  datatype Action =
    | Make(v: Offer)
    | Assign(h: nat, id: string, terms: Terms, from: Sources, created: Time, updated: Time)
    | WriteTermDays(h: nat, days: Int32)
    | WriteLender(h: nat, text: string)
    | WriteLastBorrowed(h: nat, t: Time)
    | WriteSource(h: nat, text: string)
    | Get(id: string)
    | Find(kind: Kind, lender: string, collateral: string, borrow: string, offerType: string)
    | Browse(req: ListRequest, now: Time)
    | BrowseLender(lender: string, req: ListRequest, now: Time)
    | BrowsePair(collateral: string, borrow: string, req: ListRequest, now: Time)
    | BrowseType(offerType: string, req: ListRequest, now: Time)
    | CallCreate(h: nat, now: Time)
    | CallUpdate(h: nat, now: Time)
    | CallUpsert(h: nat, now: Time)
    | CallDelete(id: string, now: Time)
    | CallBulkCreate(hs: seq<nat>, now: Time)
    | CallBulkUpdate(hs: seq<nat>, now: Time)
    | CallBulkUpsert(hs: seq<nat>, now: Time)
    | CallBulkDelete(ids: seq<string>, now: Time)
    | CallOverwrite(hs: seq<nat>, filter: Option<OverwriteFilter>, now: Time)

  predicate IsCall(a: Action) {
    a.CallCreate? || a.CallUpdate? || a.CallUpsert? || a.CallDelete? || IsBatch(a)
  }

  predicate IsBatch(a: Action) {
    a.CallBulkCreate? || a.CallBulkUpdate? || a.CallBulkUpsert? || a.CallBulkDelete? || a.CallOverwrite?
  }

  /** The objects that a call passes in. */
  function HandlesOf(a: Action): seq<nat> {
    match a
    case CallCreate(h, _) => [h]
    case CallUpdate(h, _) => [h]
    case CallUpsert(h, _) => [h]
    case CallBulkCreate(hs, _) => hs
    case CallBulkUpdate(hs, _) => hs
    case CallBulkUpsert(hs, _) => hs
    case CallOverwrite(hs, _, _) => hs
    case _ => []
  }

  /** `call` is what an action asks of the store, on arguments with these values. */
  ghost predicate Made(a: Action, vs: seq<Option<Offer>>, call: Call) {
    match a
    case CallCreate(_, now) => |vs| == 1 && call == Call(OpCreate(vs[0]), now)
    case CallUpdate(_, now) => |vs| == 1 && call == Call(OpUpdate(vs[0]), now)
    case CallUpsert(_, now) => |vs| == 1 && call == Call(OpUpsert(vs[0]), now)
    case CallDelete(id, now) => call == Call(OpDelete(id), now)
    case CallBulkCreate(_, now) => call == Call(OpBulkCreate(vs), now)
    case CallBulkUpdate(_, now) => call == Call(OpBulkUpdate(vs), now)
    case CallBulkUpsert(_, now) => call == Call(OpBulkUpsert(vs), now)
    case CallBulkDelete(ids, now) => call == Call(OpBulkDelete(ids), now)
    case CallOverwrite(_, filter, now) => call.op.OpOverwrite? && call == Call(OpOverwrite(vs, filter, call.op.order), now)
    case _ => false
  }

  lemma {:induction false} RunOneMore(s: State, calls: seq<Call>, call: Call)
    requires PossibleRun(s, calls) && Possible(Run(s, calls), call.op)
    ensures PossibleRun(s, calls + [call])
    ensures Run(s, calls + [call]) == Apply(Run(s, calls), call.op, call.now).state
    decreases |calls|
  {
    var all := calls + [call];
    if calls == [] {
      assert all[1..] == [];
    } else {
      assert all[1..] == calls[1..] + [call];
      RunOneMore(Apply(s, calls[0].op, calls[0].now).state, calls[1..], call);
    }
  }

  /** The objects, and what they point to, are among `mine`. */
  ghost predicate Owns(held: seq<MarginOffer>, mine: set<object>)
    reads mine
  {
    forall o :: o in held ==> o in mine && PointInto(o.fields.pointers, mine)
  }

  class Client {
    const store: MemoryStore
    var held: seq<MarginOffer>

    /** What the client can reach and write to. */
    ghost var mine: set<object>

    /** The store at the start, and the calls since. */
    ghost const start: State
    ghost var log: seq<Call>

    ghost predicate Apart()
      reads this, mine, store, store.repr
    {
      && store.Valid() && this !in mine && this !in store.repr && store !in mine && mine !! store.repr
      && Owns(held, mine)
    }

    /** The client and the store share no object, and the store is what the calls have made of it. */
    ghost predicate Isolated()
      reads this, mine, store, store.repr
    {
      Apart() && PossibleRun(start, log) && store.State() == Run(start, log)
    }

    constructor (store: MemoryStore)
      requires store.Valid()
      ensures Isolated() && this.store == store && held == [] && mine == {} && log == [] && start == store.State()
    {
      this.store, held, mine, log, start := store, [], {}, [], store.State();
    }

    function Arg(h: nat): MarginOffer?
      reads this
    {
      if h < |held| then held[h] else null
    }

    function Args(hs: seq<nat>): seq<MarginOffer?>
      reads this
    {
      seq(|hs|, i requires 0 <= i < |hs| reads this => Arg(hs[i]))
    }

    // Objects of the client's own

    method TakeHold(o: MarginOffer)
      requires Isolated() && o !in store.repr && this !in o.Footprint() && store !in o.Footprint()
      requires o.Footprint() !! store.repr
      modifies this`held, this`mine
      ensures Isolated() && mine == old(mine) + o.Footprint() && held == old(held) + [o] && log == old(log)
    {
      held := held + [o];
      mine := mine + o.Footprint();
    }

    method MakeOne(v: Offer)
      requires Isolated()
      modifies this`held, this`mine
      ensures Isolated() && fresh(mine - old(mine)) && old(mine) <= mine && log == old(log)
    {
      var o := NewOffer(v);
      TakeHold(o);
    }

    /** Any assignment to a field of an object that the client holds: pointers are taken from others. */
    method AssignOne(h: nat, id: string, terms: Terms, from: Sources, created: Time, updated: Time)
      requires Isolated()
      modifies mine
      ensures Isolated()
    {
      if h < |held| {
        var pointers := Pointers(
          if from.termDays < |held| then held[from.termDays].fields.pointers.termDays else null,
          if from.lenderAddress < |held| then held[from.lenderAddress].fields.pointers.lenderAddress else null,
          if from.lastBorrowed < |held| then held[from.lastBorrowed].fields.pointers.lastBorrowed else null,
          if from.source < |held| then held[from.source].fields.pointers.source else null);
        held[h].fields := Fields(id, terms, pointers, created, updated);
      }
    }

    method WriteTermDaysOf(h: nat, days: Int32)
      requires Isolated()
      modifies mine
      ensures Isolated()
    {
      if h < |held| && held[h].fields.pointers.termDays != null {
        held[h].fields.pointers.termDays.value := days;
      }
    }

    method WriteLenderOf(h: nat, text: string)
      requires Isolated()
      modifies mine
      ensures Isolated()
    {
      if h < |held| && held[h].fields.pointers.lenderAddress != null {
        held[h].fields.pointers.lenderAddress.value := text;
      }
    }

    method WriteLastBorrowedOf(h: nat, t: Time)
      requires Isolated()
      modifies mine
      ensures Isolated()
    {
      if h < |held| && held[h].fields.pointers.lastBorrowed != null {
        held[h].fields.pointers.lastBorrowed.value := t;
      }
    }

    method WriteSourceOf(h: nat, text: string)
      requires Isolated()
      modifies mine
      ensures Isolated()
    {
      if h < |held| && held[h].fields.pointers.source != null {
        held[h].fields.pointers.source.value := text;
      }
    }

    // Objects that the store hands out

    /** Keeps the objects of a result. */
    method TakeAll(found: seq<MarginOffer>)
      requires Isolated() && FootprintsOf(found) !! store.repr + {this, store}
      modifies this`held, this`mine
      ensures Isolated() && mine == old(mine) + FootprintsOf(found) && log == old(log)
    {
      held := held + found;
      mine := mine + FootprintsOf(found);
      forall o | o in found ensures o.Footprint() <= mine {}
    }

    method GetOne(id: string)
      requires Isolated()
      modifies this`held, this`mine
      ensures Isolated() && fresh(mine - old(mine)) && old(mine) <= mine && log == old(log)
    {
      var r := store.GetByID(id);
      if r.Success? {
        TakeHold(r.value);
      }
    }

    method Browse(req: ListRequest, now: Time)
      requires Isolated()
      modifies this`held, this`mine
      ensures Isolated() && fresh(mine - old(mine)) && old(mine) <= mine && log == old(log)
    {
      var page, sorted := store.List(Some(req), now);
      if page.Some? {
        TakeAll(page.value);
      }
    }

    method BrowseLender(lender: string, req: ListRequest, now: Time)
      requires Isolated()
      modifies this`held, this`mine
      ensures Isolated() && fresh(mine - old(mine)) && old(mine) <= mine && log == old(log)
    {
      var page, sorted := store.ListByLender(lender, Some(req), now);
      if page.Success? && page.value.Some? {
        TakeAll(page.value.value);
      }
    }

    method BrowsePair(collateral: string, borrow: string, req: ListRequest, now: Time)
      requires Isolated()
      modifies this`held, this`mine
      ensures Isolated() && fresh(mine - old(mine)) && old(mine) <= mine && log == old(log)
    {
      var page, sorted := store.ListByToken(collateral, borrow, Some(req), now);
      if page.Success? && page.value.Some? {
        TakeAll(page.value.value);
      }
    }

    method BrowseType(offerType: string, req: ListRequest, now: Time)
      requires Isolated()
      modifies this`held, this`mine
      ensures Isolated() && fresh(mine - old(mine)) && old(mine) <= mine && log == old(log)
    {
      var page, sorted := store.ListByOfferType(offerType, Some(req), now);
      if page.Some? {
        TakeAll(page.value);
      }
    }

    method Find(kind: Kind, lender: string, collateral: string, borrow: string, offerType: string)
      requires Isolated()
      modifies this`held, this`mine
      ensures Isolated() && fresh(mine - old(mine)) && old(mine) <= mine && log == old(log)
    {
      var found;
      match kind {
        case ByLender => found := store.GetOffersByLenderFromIndex(lender);
        case ByToken => found := store.GetOffersByTokenFromIndex(collateral, borrow);
        case ByType => found := store.GetOffersByTypeFromIndex(offerType);
      }
      TakeAll(found);
    }

    // Calls

    /** Records a call that has just been made. */
    ghost method Log(call: Call)
      requires Apart() && PossibleRun(start, log) && Possible(Run(start, log), call.op)
      requires store.State() == Apply(Run(start, log), call.op, call.now).state
      modifies this`log
      ensures Isolated() && log == old(log) + [call]
    {
      RunOneMore(start, log, call);
      log := log + [call];
    }

    method Create(h: nat, now: Time)
      requires Isolated()
      modifies store, this`log, mine
      ensures Isolated() && log == old(log) + [Call(OpCreate(old(ValueOf(Arg(h)))), now)]
    {
      ghost var call := Call(OpCreate(ValueOf(Arg(h))), now);
      var outcome := store.Create(Arg(h), now);
      Log(call);
    }

    method Update(h: nat, now: Time)
      requires Isolated()
      modifies store, this`log, mine
      ensures Isolated() && log == old(log) + [Call(OpUpdate(old(ValueOf(Arg(h)))), now)]
    {
      ghost var call := Call(OpUpdate(ValueOf(Arg(h))), now);
      var outcome := store.Update(Arg(h), now);
      Log(call);
    }

    method CreateOrUpdate(h: nat, now: Time)
      requires Isolated()
      modifies store, this`log, mine
      ensures Isolated() && log == old(log) + [Call(OpUpsert(old(ValueOf(Arg(h)))), now)]
    {
      ghost var call := Call(OpUpsert(ValueOf(Arg(h))), now);
      var outcome := store.CreateOrUpdate(Arg(h), now);
      Log(call);
    }

    method BulkCreate(hs: seq<nat>, now: Time)
      requires Isolated()
      modifies store, this`log, mine
      ensures Isolated() && log == old(log) + [Call(OpBulkCreate(old(ValuesOf(Args(hs)))), now)]
    {
      ghost var call := Call(OpBulkCreate(ValuesOf(Args(hs))), now);
      var outcome := store.BulkCreate(Args(hs), now);
      Log(call);
    }

    method BulkUpdate(hs: seq<nat>, now: Time)
      requires Isolated()
      modifies store, this`log, mine
      ensures Isolated() && log == old(log) + [Call(OpBulkUpdate(old(ValuesOf(Args(hs)))), now)]
    {
      ghost var call := Call(OpBulkUpdate(ValuesOf(Args(hs))), now);
      var outcome := store.BulkUpdate(Args(hs), now);
      Log(call);
    }

    method BulkCreateOrUpdate(hs: seq<nat>, now: Time)
      requires Isolated()
      modifies store, this`log, mine
      ensures Isolated() && log == old(log) + [Call(OpBulkUpsert(old(ValuesOf(Args(hs)))), now)]
    {
      ghost var call := Call(OpBulkUpsert(ValuesOf(Args(hs))), now);
      var outcome := store.BulkCreateOrUpdate(Args(hs), now);
      Log(call);
    }

    method Delete(id: string, now: Time)
      requires Isolated()
      modifies store, this`log
      ensures Isolated() && log == old(log) + [Call(OpDelete(id), now)]
    {
      ghost var call := Call(OpDelete(id), now);
      var outcome := store.Delete(id, now);
      Log(call);
    }

    method BulkDelete(ids: seq<string>, now: Time)
      requires Isolated()
      modifies store, this`log
      ensures Isolated() && log == old(log) + [Call(OpBulkDelete(ids), now)]
    {
      ghost var call := Call(OpBulkDelete(ids), now);
      var outcome := store.BulkDelete(ids, now);
      Log(call);
    }

    method Overwrite(hs: seq<nat>, filter: Option<OverwriteFilter>, now: Time) returns (ghost order: seq<string>)
      requires Isolated()
      modifies store, this`log, mine
      ensures Isolated() && log == old(log) + [Call(OpOverwrite(old(ValuesOf(Args(hs))), filter, order), now)]
    {
      ghost var vs := ValuesOf(Args(hs));
      var outcome;
      outcome, order := store.BulkOverwriteByFilter(Args(hs), filter, now);
      if outcome != Ok {
        order := SomeOrder(SelectedIds(store.State(), filter));
      }
      Log(Call(OpOverwrite(vs, filter, order), now));
    }

    // Runs

    /** Whatever the client does, and in whatever order: the store is what the calls alone have made of
        it. `args` are the values that the arguments of each action have when it comes to it. */
    method Act(actions: seq<Action>) returns (ghost args: seq<seq<Option<Offer>>>)
      requires Isolated()
      modifies this, store, mine
      ensures Isolated() && fresh(mine - old(mine))
      ensures |old(log)| <= |log| && log[..|old(log)|] == old(log) && Trace(actions, args, log[|old(log)|..])
    {
      args := [];
      for i := 0 to |actions|
        invariant Isolated() && fresh(mine - old(mine))
        invariant |old(log)| <= |log| && log[..|old(log)|] == old(log) && Trace(actions[..i], args, log[|old(log)|..])
      {
        ghost var before, vs := log, ValuesOf(Args(HandlesOf(actions[i])));
        if IsCall(actions[i]) {
          ActCall(actions[i]);
        } else {
          ActOwn(actions[i]);
        }
        OneMoreAction(actions, args, i, |old(log)|, before, log, vs);
        args := args + [vs];
      }
      assert actions[..|actions|] == actions;
    }

    /** A call of the store; its arguments have the values that they have at that moment. */
    method ActCall(a: Action)
      requires Isolated() && IsCall(a)
      modifies this, store, mine
      ensures Isolated() && mine == old(mine)
      ensures |log| == |old(log)| + 1 && log[..|old(log)|] == old(log)
      ensures Made(a, old(ValuesOf(Args(HandlesOf(a)))), log[|old(log)|])
    {
      if IsBatch(a) {
        ActOnBatch(a);
      } else {
        ActOnOne(a);
      }
    }

    lemma OneArg(h: nat)
      ensures ValuesOf(Args([h])) == [ValueOf(Arg(h))]
    {
      assert Args([h]) == [Arg(h)];
    }

    method ActOnOne(a: Action)
      requires Isolated() && IsCall(a) && !IsBatch(a)
      modifies this, store, mine
      ensures Isolated() && mine == old(mine)
      ensures |log| == |old(log)| + 1 && log[..|old(log)|] == old(log)
      ensures Made(a, old(ValuesOf(Args(HandlesOf(a)))), log[|old(log)|])
    {
      match a
      case CallCreate(h, now) => OneArg(h); Create(h, now);
      case CallUpdate(h, now) => OneArg(h); Update(h, now);
      case CallUpsert(h, now) => OneArg(h); CreateOrUpdate(h, now);
      case CallDelete(id, now) => Delete(id, now);
    }

    method ActOnBatch(a: Action)
      requires Isolated() && IsBatch(a)
      modifies this, store, mine
      ensures Isolated() && mine == old(mine)
      ensures |log| == |old(log)| + 1 && log[..|old(log)|] == old(log)
      ensures Made(a, old(ValuesOf(Args(HandlesOf(a)))), log[|old(log)|])
    {
      match a
      case CallBulkCreate(hs, now) => BulkCreate(hs, now);
      case CallBulkUpdate(hs, now) => BulkUpdate(hs, now);
      case CallBulkUpsert(hs, now) => BulkCreateOrUpdate(hs, now);
      case CallBulkDelete(ids, now) => BulkDelete(ids, now);
      case CallOverwrite(hs, filter, now) => var order := Overwrite(hs, filter, now);
    }

    /** Anything else leaves the store as it is. */
    method ActOwn(a: Action)
      requires Isolated() && !IsCall(a)
      modifies this, mine
      ensures Isolated() && fresh(mine - old(mine)) && log == old(log)
    {
      match a
      case Make(v) => MakeOne(v);
      case Assign(h, id, terms, from, created, updated) => AssignOne(h, id, terms, from, created, updated);
      case WriteTermDays(h, days) => WriteTermDaysOf(h, days);
      case WriteLender(h, text) => WriteLenderOf(h, text);
      case WriteLastBorrowed(h, t) => WriteLastBorrowedOf(h, t);
      case WriteSource(h, text) => WriteSourceOf(h, text);
      case Get(id) => GetOne(id);
      case Find(kind, lender, collateral, borrow, offerType) => Find(kind, lender, collateral, borrow, offerType);
      case Browse(req, now) => Browse(req, now);
      case BrowseLender(lender, req, now) => BrowseLender(lender, req, now);
      case BrowsePair(collateral, borrow, req, now) => BrowsePair(collateral, borrow, req, now);
      case BrowseType(offerType, req, now) => BrowseType(offerType, req, now);
    }
  }

  /** `calls` are the calls among the actions, in order, on arguments with the values `args`. */
  ghost predicate Trace(actions: seq<Action>, args: seq<seq<Option<Offer>>>, calls: seq<Call>)
    decreases |actions|
  {
    |args| == |actions| &&
    if actions == [] then calls == []
    else
      var n := |actions| - 1;
      if IsCall(actions[n])
      then calls != [] && Made(actions[n], args[n], calls[|calls| - 1])
          && Trace(actions[..n], args[..n], calls[..|calls| - 1])
      else Trace(actions[..n], args[..n], calls)
  }

  lemma OneMoreAction(actions: seq<Action>, args: seq<seq<Option<Offer>>>, i: nat, n: nat, before: seq<Call>, log: seq<Call>,
                      vs: seq<Option<Offer>>)
    requires i < |actions| && n <= |before| && Trace(actions[..i], args, before[n..])
    requires if IsCall(actions[i])
             then |log| == |before| + 1 && log[..|before|] == before && Made(actions[i], vs, log[|before|])
             else log == before
    ensures |log| >= n && log[..n] == before[..n] && Trace(actions[..i + 1], args + [vs], log[n..])
  {
    var all, calls := actions[..i + 1], log[n..];
    assert all[..i] == actions[..i] && all[i] == actions[i] && (args + [vs])[..i] == args;
    if IsCall(actions[i]) {
      assert calls[..|calls| - 1] == before[n..] && calls[|calls| - 1] == log[|before|];
      assert log[..n] == log[..|before|][..n];
    }
  }

  ghost function FootprintsOf(os: seq<MarginOffer>): set<object>
    reads os
  {
    set o, c | o in os && c in o.Footprint() :: c
  }
}
