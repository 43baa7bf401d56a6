/** What a subscriber is sent, criterion by criterion: nothing that it did not ask for, everything that it
    did ask for, and how far behind it has to be for anything to be dropped. */
module Deliveries {
  import opened Types
  import opened Notifications

  /** Whether the subscriber set the flag of this kind of change. */
  predicate Flagged(f: Filters, kind: ChangeType) {
    match kind
    case Created => f.subscribeCreated
    case Updated => f.subscribeUpdated
    case Deleted => f.subscribeDeleted
    case Overwritten => f.subscribeOverwritten
    case Unknown => true
  }

  /** The criterion is absent or empty, which asks for nothing. */
  predicate Open(want: Option<string>) {
    want == None || want == Some("")
  }

  /** The number of times an event occurs. */
  function Count(es: seq<ChangeEvent>, e: ChangeEvent): nat {
    multiset(es)[e]
  }

  lemma {:induction false} SelectedCount(es: seq<ChangeEvent>, f: Filters, e: ChangeEvent)
    ensures Count(Selected(es, f), e) == if MatchesSubscription(e, f) then Count(es, e) else 0
  {
    if es != [] {
      var rest := es[..|es| - 1];
      assert es == rest + [es[|es| - 1]];
      SelectedCount(rest, f, e);
    }
  }

  lemma {:induction false} SubsequenceCount(a: seq<ChangeEvent>, b: seq<ChangeEvent>, e: ChangeEvent)
    requires Subsequence(a, b)
    ensures Count(a, e) <= Count(b, e)
    decreases |b|
  {
    if a != [] {
      var p, q := a[..|a| - 1], b[..|b| - 1];
      assert a == p + [a[|a| - 1]] && b == q + [b[|b| - 1]];
      if a[|a| - 1] == b[|b| - 1] && Subsequence(p, q) {
        SubsequenceCount(p, q, e);
      } else {
        SubsequenceCount(a, q, e);
      }
    }
  }

  /** How often a subscriber has been sent an event: at most as often as it was processed for it, not at
      all if it does not match, and exactly as often if it does and nothing was dropped. */
  lemma SentCount(steps: seq<Step>, id: string, e: ChangeEvent)
    requires PossibleRun(INIT, steps) && id in Run(INIT, steps).subs
    ensures var sub := Run(INIT, steps).subs[id];
            && sub.from <= sub.seen <= |Run(INIT, steps).accepted|
            && var sent, due := Count(Changes(Delivered(sub)), e), Count(Run(INIT, steps).accepted[sub.from..sub.seen], e);
               && sent <= (if MatchesSubscription(e, sub.filters) then due else 0)
               && (sub.dropped == 0 && MatchesSubscription(e, sub.filters) ==> sent == due)
  {
    DeliveryInOrder(steps, id);
    var s := Run(INIT, steps);
    var sub := s.subs[id];
    var es := s.accepted[sub.from..sub.seen];
    SelectedCount(es, sub.filters, e);
    SubsequenceCount(Changes(Delivered(sub)), Selected(es, sub.filters), e);
  }

  /** Under every interleaving a change that a subscriber was sent is of a kind whose own flag it set, and
      agrees with every criterion that it gave. */
  lemma NothingUnasked(steps: seq<Step>, id: string, e: ChangeEvent)
    requires PossibleRun(INIT, steps) && id in Run(INIT, steps).subs
    requires e in Changes(Delivered(Run(INIT, steps).subs[id]))
    ensures var f, terms := Run(INIT, steps).subs[id].filters, e.offer.terms;
            && Flagged(f, e.changeType)
            && (!Open(f.offerType) ==> f.offerType == Some(terms.offerType))
            && (!Open(f.collateralToken) ==> f.collateralToken == Some(terms.collateralToken))
            && (!Open(f.borrowToken) ==> f.borrowToken == Some(terms.borrowToken))
            && (!Open(f.liquiditySource) ==> f.liquiditySource == Some(terms.liquiditySource))
            && (!Open(f.lenderAddress) ==> f.lenderAddress == e.offer.details.lenderAddress)
  {
    SentCount(steps, id, e);
    assert Count(Changes(Delivered(Run(INIT, steps).subs[id])), e) > 0;
  }

  /** Under every interleaving a subscriber none of whose messages was dropped was sent every change that
      was processed for it, as often as it was processed, if the change is of a kind whose flag it set and
      has what each criterion names that it gave. */
  lemma NothingMissing(steps: seq<Step>, id: string, e: ChangeEvent)
    requires PossibleRun(INIT, steps) && id in Run(INIT, steps).subs && Run(INIT, steps).subs[id].dropped == 0
    requires var f, terms := Run(INIT, steps).subs[id].filters, e.offer.terms;
             && Flagged(f, e.changeType)
             && (Open(f.offerType) || f.offerType == Some(terms.offerType))
             && (Open(f.collateralToken) || f.collateralToken == Some(terms.collateralToken))
             && (Open(f.borrowToken) || f.borrowToken == Some(terms.borrowToken))
             && (Open(f.liquiditySource) || f.liquiditySource == Some(terms.liquiditySource))
             && (Open(f.lenderAddress) || f.lenderAddress == e.offer.details.lenderAddress)
    ensures var s := Run(INIT, steps);
            var sub := s.subs[id];
            && sub.from <= sub.seen <= |s.accepted|
            && Count(Changes(Delivered(sub)), e) == Count(s.accepted[sub.from..sub.seen], e)
  {
    SentCount(steps, id, e);
  }

  // Dropped messages

  ghost predicate DroppedWhenFull(s: Service) {
    forall id :: id in s.subs && s.subs[id].dropped > 0 ==> |Delivered(s.subs[id])| >= CHANNEL_CAPACITY
  }

  lemma {:induction false} RunDropsWhenFull(s: Service, steps: seq<Step>)
    requires DroppedWhenFull(s) && PossibleRun(s, steps)
    ensures DroppedWhenFull(Run(s, steps))
    decreases |steps|
  {
    if steps != [] {
      var t := Next(s, steps[0]);
      forall id | id in t.subs && t.subs[id].dropped > 0 ensures |Delivered(t.subs[id])| >= CHANNEL_CAPACITY {
        assert id in s.subs;
      }
      RunDropsWhenFull(t, steps[1..]);
    }
  }

  /** Under every interleaving nothing is dropped before a subscriber has been sent as many messages as its
      channel has room for, heartbeats included. */
  lemma NoEarlyDrop(steps: seq<Step>, id: string)
    requires PossibleRun(INIT, steps) && id in Run(INIT, steps).subs
    requires |Delivered(Run(INIT, steps).subs[id])| < CHANNEL_CAPACITY
    ensures Run(INIT, steps).subs[id].dropped == 0
  {
    RunDropsWhenFull(INIT, steps);
  }

  // From the notification to the subscriber

  /** The events of a run that the store notified, in order. */
  function Notified(steps: seq<Step>): seq<ChangeEvent> {
    if steps == [] then []
    else
      var last := steps[|steps| - 1];
      Notified(steps[..|steps| - 1]) + if last.Notify? then [last.event] else []
  }

  lemma {:induction false} SplitLast(s: Service, steps: seq<Step>)
    requires PossibleRun(s, steps) && steps != []
    ensures var first, last := steps[..|steps| - 1], steps[|steps| - 1];
            PossibleRun(s, first) && Enabled(Run(s, first), last) && Run(s, steps) == Next(Run(s, first), last)
    decreases |steps|
  {
    if |steps| > 1 {
      SplitLast(Next(s, steps[0]), steps[1..]);
      assert steps[1..][..|steps| - 2] == steps[..|steps| - 1][1..];
    } else {
      assert steps[1..] == [];
    }
  }

  lemma StepAccepts(s: Service, step: Step)
    requires Enabled(s, step)
    ensures Next(s, step).accepted == s.accepted
            || (step.Notify? && Next(s, step).accepted == s.accepted + [step.event])
    ensures step.Notify? && |s.accepted| < 1000 ==> Next(s, step).accepted == s.accepted + [step.event]
    ensures |s.accepted| <= |Next(s, step).accepted|
  {
  }

  ghost predicate Accepts(accepted: seq<ChangeEvent>, notified: seq<ChangeEvent>) {
    Subsequence(accepted, notified) && (|notified| <= 1000 ==> accepted == notified)
  }

  lemma MoreAccepts(accepted: seq<ChangeEvent>, notified: seq<ChangeEvent>, e: ChangeEvent)
    requires Accepts(accepted, notified)
    ensures Accepts(accepted + [e], notified + [e])
    ensures |notified| >= 1000 ==> Accepts(accepted, notified + [e])
  {
    SubsequenceGrows(accepted, notified, e);
  }

  /** Under every interleaving the accepted events are among the notified ones, in order; and all of them,
      as long as no more than a thousand have been notified, which is what the queue has room for. */
  lemma {:induction false} AcceptedInOrder(steps: seq<Step>)
    requires PossibleRun(INIT, steps)
    ensures Subsequence(Run(INIT, steps).accepted, Notified(steps))
    ensures |Notified(steps)| <= 1000 ==> Run(INIT, steps).accepted == Notified(steps)
    decreases |steps|
  {
    if steps != [] {
      var first, last := steps[..|steps| - 1], steps[|steps| - 1];
      SplitLast(INIT, steps);
      AcceptedInOrder(first);
      var s := Run(INIT, first);
      StepAccepts(s, last);
      if last.Notify? {
        SubsequenceShorter(s.accepted, Notified(first));
        MoreAccepts(s.accepted, Notified(first), last.event);
      } else {
        assert Notified(steps) == Notified(first);
      }
    }
  }
}
