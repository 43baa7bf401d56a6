/** The change-notification fan-out as a system of steps: events are queued, taken one by one and
    sent to a snapshot of the subscribers, while subscribers come, go and are cleaned up. */
module Notifications {
  import opened Types

  const EVENT_CAPACITY := 1000
  const CHANNEL_CAPACITY := 100
  const MAX_SUBSCRIPTIONS := 1000

  datatype ChangeType = Unknown | Created | Updated | Deleted | Overwritten

  datatype ChangeEvent = ChangeEvent(changeType: ChangeType, offer: Offer, timestamp: Time,
                                     source: string, operationId: string)

  datatype Filters = Filters(
    subscribeCreated: bool,
    subscribeUpdated: bool,
    subscribeDeleted: bool,
    subscribeOverwritten: bool,
    offerType: Option<string>,
    collateralToken: Option<string>,
    borrowToken: Option<string>,
    liquiditySource: Option<string>,
    lenderAddress: Option<string>)

  /** An absent or empty filter lets everything through. */
  predicate Passes(want: Option<string>, has: Option<string>) {
    want.None? || want.value == "" || has == want
  }

  predicate MatchesSubscription(e: ChangeEvent, f: Filters) {
    && (e.changeType.Created? ==> f.subscribeCreated)
    && (e.changeType.Updated? ==> f.subscribeUpdated)
    && (e.changeType.Deleted? ==> f.subscribeDeleted)
    && (e.changeType.Overwritten? ==> f.subscribeOverwritten)
    && Passes(f.offerType, Some(e.offer.terms.offerType))
    && Passes(f.collateralToken, Some(e.offer.terms.collateralToken))
    && Passes(f.borrowToken, Some(e.offer.terms.borrowToken))
    && Passes(f.liquiditySource, Some(e.offer.terms.liquiditySource))
    && Passes(f.lenderAddress, e.offer.details.lenderAddress)
  }

  datatype Message = Change(event: ChangeEvent) | Heartbeat(at: Time)

  /** What was last written to the time of last activity: the time of creation, the time of a write
      that followed the sending of a change, or the start of a round of heartbeats. */
  datatype Stamp = OnCreation(at: Time) | ForChange(at: Time) | ForHeartbeat(at: Time)

  /** A subscription, kept after its channel is closed. `queue`, `filters` and the time of the stamp
      are what the program holds; the rest records the run: what the client has received, how many
      change messages were dropped, which events were processed for it (from `from` up to `seen`),
      how often its channel was closed, and when it was last sent something. */
  datatype Subscription = Subscription(
    filters: Filters,
    queue: seq<Message>,
    stamp: Stamp,
    received: seq<Message>,
    dropped: nat,
    from: nat,
    seen: nat,
    closes: nat,
    lastSend: Time)

  /** `accepted` are the events that got into the event queue, the first `taken` of which have been
      taken out of it; the queue is the rest. `fan` and `beating` are the subscribers that a fan-out or
      a round of heartbeats under way has still to serve; `fanStamp` and `beatStamp` the one that it
      has sent to, but whose time of last activity it has still to write. */
  datatype Service = Service(
    accepted: seq<ChangeEvent>,
    taken: nat,
    fan: set<string>,
    fanStamp: Option<string>,
    beating: set<string>,
    beatStamp: Option<string>,
    beatAt: Time,
    registered: set<string>,
    subs: map<string, Subscription>,
    clock: Time,
    panicked: bool)

  const INIT := Service([], 0, {}, None, {}, None, ZERO_TIME, {}, map[], ZERO_TIME, false)

  datatype Step =
    | Notify(event: ChangeEvent)
    | Take
    | SendTo(id: string)
    | StampChange
    | Subscribe(id: string, filters: Filters)
    | Unsubscribe(id: string)
    | Beat
    | BeatTo(id: string)
    | StampHeartbeat
    | Cleanup
    | Receive(id: string)
    | Tick(now: Time)

  predicate Enabled(s: Service, step: Step) {
    !s.panicked &&
    match step
    case Notify(_) => true
    case Take => s.fan == {} && s.fanStamp == None && s.taken < |s.accepted|
    case SendTo(id) =>
      id in s.fan && s.fanStamp == None && id in s.subs && s.taken > 0 && s.taken <= |s.accepted|
    case StampChange => s.fanStamp.Some? && s.fanStamp.value in s.subs
    case Subscribe(id, _) => id !in s.subs && |s.registered| < MAX_SUBSCRIPTIONS
    case Unsubscribe(id) => id in s.registered && id in s.subs
    case Beat => s.beating == {} && s.beatStamp == None
    case BeatTo(id) => id in s.beating && s.beatStamp == None && id in s.subs
    case StampHeartbeat => s.beatStamp.Some? && s.beatStamp.value in s.subs
    case Cleanup => true
    case Receive(id) => id in s.subs && s.subs[id].queue != []
    case Tick(now) => s.clock <= now
  }

  predicate HasRoom(sub: Subscription) {
    |sub.queue| < CHANNEL_CAPACITY
  }

  predicate Stale(sub: Subscription, now: Time) {
    sub.stamp.at < now - HOUR
  }

  /** A subscriber's share of the fan-out of event number `n`. */
  function Served(sub: Subscription, e: ChangeEvent, n: nat, now: Time): Subscription {
    if !MatchesSubscription(e, sub.filters) then sub.(seen := n)
    else if HasRoom(sub) then sub.(seen := n, queue := sub.queue + [Change(e)], lastSend := now)
    else sub.(seen := n, dropped := sub.dropped + 1)
  }

  /** A heartbeat carries the time at which its round started. */
  function Beaten(sub: Subscription, beatAt: Time, now: Time): Subscription {
    if HasRoom(sub) then sub.(queue := sub.queue + [Heartbeat(beatAt)], lastSend := now) else sub
  }

  /** The client takes a message out of its channel. */
  function Received(sub: Subscription): Subscription
    requires sub.queue != []
  {
    sub.(received := sub.received + [sub.queue[0]], queue := sub.queue[1..])
  }

  function StaleIds(s: Service): set<string> {
    set id | id in s.registered && id in s.subs && Stale(s.subs[id], s.clock)
  }

  function Close(s: Service, ids: set<string>): Service {
    s.(registered := s.registered - ids,
       subs := map id | id in s.subs :: if id in ids then s.subs[id].(closes := s.subs[id].closes + 1) else s.subs[id])
  }

  function Next(s: Service, step: Step): Service
    requires Enabled(s, step)
  {
    match step
    case Notify(e) =>
      if |s.accepted| - s.taken < EVENT_CAPACITY then s.(accepted := s.accepted + [e]) else s
    case Take => s.(taken := s.taken + 1, fan := s.registered)
    case SendTo(id) =>
      var e := s.accepted[s.taken - 1];
      if s.subs[id].closes > 0 && MatchesSubscription(e, s.subs[id].filters) then s.(panicked := true)
      else
        s.(fan := s.fan - {id}, subs := s.subs[id := Served(s.subs[id], e, s.taken, s.clock)],
           fanStamp := if MatchesSubscription(e, s.subs[id].filters) && HasRoom(s.subs[id]) then Some(id) else None)
    case StampChange =>
      var id := s.fanStamp.value;
      s.(fanStamp := None, subs := s.subs[id := s.subs[id].(stamp := ForChange(s.clock))])
    case Subscribe(id, filters) =>
      var sub := Subscription(filters, [], OnCreation(s.clock), [], 0, s.taken, s.taken, 0, s.clock);
      s.(registered := s.registered + {id}, subs := s.subs[id := sub])
    case Unsubscribe(id) => Close(s, {id})
    case Beat => s.(beating := s.registered, beatAt := s.clock)
    case BeatTo(id) =>
      if s.subs[id].closes > 0 then s.(panicked := true)
      else
        s.(beating := s.beating - {id}, subs := s.subs[id := Beaten(s.subs[id], s.beatAt, s.clock)],
           beatStamp := if HasRoom(s.subs[id]) then Some(id) else None)
    case StampHeartbeat =>
      var id := s.beatStamp.value;
      s.(beatStamp := None, subs := s.subs[id := s.subs[id].(stamp := ForHeartbeat(s.beatAt))])
    case Cleanup => Close(s, StaleIds(s))
    case Receive(id) =>
      s.(subs := s.subs[id := Received(s.subs[id])])
    case Tick(now) => s.(clock := now)
  }

  ghost predicate PossibleRun(s: Service, steps: seq<Step>)
    decreases |steps|
  {
    steps == [] || (Enabled(s, steps[0]) && PossibleRun(Next(s, steps[0]), steps[1..]))
  }

  ghost function Run(s: Service, steps: seq<Step>): Service
    requires PossibleRun(s, steps)
    decreases |steps|
  {
    if steps == [] then s else Run(Next(s, steps[0]), steps[1..])
  }

  // Sequences of events

  function Changes(ms: seq<Message>): seq<ChangeEvent> {
    if ms == [] then []
    else
      var m := ms[|ms| - 1];
      Changes(ms[..|ms| - 1]) + if m.Change? then [m.event] else []
  }

  /** The events that a filter lets through. */
  function Selected(es: seq<ChangeEvent>, f: Filters): seq<ChangeEvent> {
    if es == [] then []
    else
      var e := es[|es| - 1];
      Selected(es[..|es| - 1], f) + if MatchesSubscription(e, f) then [e] else []
  }

  /** `a` is `b` with some elements left out. */
  ghost predicate Subsequence(a: seq<ChangeEvent>, b: seq<ChangeEvent>) {
    a == [] ||
    (b != [] &&
     ((a[|a| - 1] == b[|b| - 1] && Subsequence(a[..|a| - 1], b[..|b| - 1]))
      || Subsequence(a, b[..|b| - 1])))
  }

  lemma {:induction false} SubsequenceShorter(a: seq<ChangeEvent>, b: seq<ChangeEvent>)
    requires Subsequence(a, b)
    ensures |a| <= |b|
    ensures |a| == |b| ==> a == b
    decreases |b|
  {
    if a != [] {
      var p, q := a[..|a| - 1], b[..|b| - 1];
      assert a == p + [a[|a| - 1]] && b == q + [b[|b| - 1]];
      if a[|a| - 1] == b[|b| - 1] && Subsequence(p, q) {
        SubsequenceShorter(p, q);
      } else {
        SubsequenceShorter(a, q);
      }
    }
  }

  lemma SubsequenceGrows(a: seq<ChangeEvent>, b: seq<ChangeEvent>, e: ChangeEvent)
    requires Subsequence(a, b)
    ensures Subsequence(a, b + [e]) && Subsequence(a + [e], b + [e])
  {
    assert (b + [e])[..|b|] == b && (a + [e])[..|a|] == a;
  }

  lemma ChangesAppend(ms: seq<Message>, m: Message)
    ensures Changes(ms + [m]) == Changes(ms) + if m.Change? then [m.event] else []
  {
    assert (ms + [m])[..|ms|] == ms;
  }

  lemma SelectedAppend(es: seq<ChangeEvent>, e: ChangeEvent, f: Filters)
    ensures Selected(es + [e], f) == Selected(es, f) + if MatchesSubscription(e, f) then [e] else []
  {
    assert (es + [e])[..|es|] == es;
  }

  // Invariants

  /** Everything that went into the channel, in order. */
  function Delivered(sub: Subscription): seq<Message> {
    sub.received + sub.queue
  }

  /** The change messages are those selected by the filter among the events processed for the
      subscriber, in order, less the dropped ones. */
  ghost predicate InOrder(sub: Subscription, accepted: seq<ChangeEvent>) {
    && sub.from <= sub.seen <= |accepted|
    && var due := Selected(accepted[sub.from..sub.seen], sub.filters);
       && Subsequence(Changes(Delivered(sub)), due)
       && |Changes(Delivered(sub))| + sub.dropped == |due|
  }

  /** Which events have been processed for a subscriber. */
  ghost predicate UpToDate(s: Service, id: string)
    requires id in s.subs
  {
    && s.subs[id].seen <= s.taken
    && (id in s.fan ==> s.subs[id].seen == s.taken - 1)
    && (id in s.registered && id !in s.fan ==> s.subs[id].seen == s.taken)
  }

  /** A goroutine has sent something to the subscriber and has still to write the time. */
  predicate Pending(s: Service, id: string) {
    s.fanStamp == Some(id) || s.beatStamp == Some(id)
  }

  /** What the stamp says of when the subscriber was last sent something. */
  ghost predicate Clocked(s: Service, id: string)
    requires id in s.subs
  {
    var sub := s.subs[id];
    && sub.lastSend <= s.clock
    && (!sub.stamp.ForChange? ==> sub.stamp.at <= sub.lastSend)
    && (!sub.stamp.ForHeartbeat? && !Pending(s, id) ==> sub.lastSend <= sub.stamp.at)
    && (s.beatStamp == Some(id) ==> s.beatAt <= sub.lastSend)
  }

  /** The channel of a subscription, and its clocks. */
  ghost predicate Accounted(s: Service, id: string)
    requires id in s.subs
  {
    var sub := s.subs[id];
    && UpToDate(s, id)
    && |sub.queue| <= CHANNEL_CAPACITY
    && sub.closes == (if id in s.registered then 0 else 1)
    && Clocked(s, id)
  }

  ghost predicate SubInv(s: Service, id: string)
    requires id in s.subs
  {
    Accounted(s, id) && InOrder(s.subs[id], s.accepted)
  }

  ghost predicate Inv(s: Service) {
    && s.taken <= |s.accepted| && |s.accepted| - s.taken <= EVENT_CAPACITY
    && s.registered <= s.subs.Keys && s.fan <= s.subs.Keys && s.beating <= s.subs.Keys
    && |s.registered| <= MAX_SUBSCRIPTIONS
    && s.beatAt <= s.clock
    && (s.fanStamp.Some? ==> s.fanStamp.value in s.subs) && (s.beatStamp.Some? ==> s.beatStamp.value in s.subs)
    && forall id :: id in s.subs ==> SubInv(s, id)
  }

  lemma QueueAppend(sub: Subscription, m: Message)
    ensures Changes(sub.received + (sub.queue + [m]))
         == Changes(Delivered(sub)) + if m.Change? then [m.event] else []
  {
    assert sub.received + (sub.queue + [m]) == Delivered(sub) + [m];
    ChangesAppend(Delivered(sub), m);
  }

  lemma DueAppend(accepted: seq<ChangeEvent>, from: nat, n: nat, f: Filters)
    requires from < n <= |accepted|
    ensures Selected(accepted[from..n], f)
         == Selected(accepted[from..n - 1], f) + if MatchesSubscription(accepted[n - 1], f) then [accepted[n - 1]] else []
  {
    assert accepted[from..n] == accepted[from..n - 1] + [accepted[n - 1]];
    SelectedAppend(accepted[from..n - 1], accepted[n - 1], f);
  }

  lemma ServedInOrder(sub: Subscription, accepted: seq<ChangeEvent>, n: nat, now: Time)
    requires InOrder(sub, accepted) && sub.seen == n - 1 && 0 < n <= |accepted|
    ensures InOrder(Served(sub, accepted[n - 1], n, now), accepted)
  {
    var e := accepted[n - 1];
    var got, due := Changes(Delivered(sub)), Selected(accepted[sub.from..n - 1], sub.filters);
    var sub' := Served(sub, e, n, now);
    var got', due' := Changes(Delivered(sub')), Selected(accepted[sub.from..n], sub.filters);
    DueAppend(accepted, sub.from, n, sub.filters);
    if MatchesSubscription(e, sub.filters) {
      assert due' == due + [e];
      assert got' == (if HasRoom(sub) then got + [e] else got) by {
        QueueAppend(sub, Change(e));
      }
      SubsequenceGrows(got, due, e);
    } else {
      assert due' == due && got' == got;
    }
  }

  lemma BeatenInOrder(sub: Subscription, accepted: seq<ChangeEvent>, beatAt: Time, now: Time)
    requires InOrder(sub, accepted)
    ensures InOrder(Beaten(sub, beatAt, now), accepted)
  {
    QueueAppend(sub, Heartbeat(beatAt));
    assert Changes(Delivered(sub)) + [] == Changes(Delivered(sub));
  }

  lemma MoreAccepted(sub: Subscription, accepted: seq<ChangeEvent>, e: ChangeEvent)
    requires InOrder(sub, accepted)
    ensures InOrder(sub, accepted + [e])
  {
    assert (accepted + [e])[sub.from..sub.seen] == accepted[sub.from..sub.seen];
  }

  lemma SentToAccounted(s: Service, id: string)
    requires Enabled(s, SendTo(id)) && !Next(s, SendTo(id)).panicked && Accounted(s, id)
    ensures id in Next(s, SendTo(id)).subs && Accounted(Next(s, SendTo(id)), id)
    ensures Next(s, SendTo(id)).subs[id] == Served(s.subs[id], s.accepted[s.taken - 1], s.taken, s.clock)
    ensures Next(s, SendTo(id)).accepted == s.accepted
  {
  }

  lemma SentToKeepsInv(s: Service, id: string)
    requires Inv(s) && Enabled(s, SendTo(id)) && !Next(s, SendTo(id)).panicked
    ensures id in Next(s, SendTo(id)).subs && SubInv(Next(s, SendTo(id)), id)
  {
    assert SubInv(s, id);
    SentToAccounted(s, id);
    ServedInOrder(s.subs[id], s.accepted, s.taken, s.clock);
  }

  lemma OthersKeepInv(s: Service, id: string, x: string)
    requires Inv(s) && Enabled(s, SendTo(id)) && x != id && x in s.subs
    ensures x in Next(s, SendTo(id)).subs && SubInv(Next(s, SendTo(id)), x)
  {
    assert SubInv(s, x);
    var s' := Next(s, SendTo(id));
    assert s'.subs[x] == s.subs[x] && s'.accepted == s.accepted && s'.registered == s.registered;
    assert x in s'.fan <==> x in s.fan;
  }

  lemma SendKeepsInv(s: Service, id: string)
    requires Inv(s) && Enabled(s, SendTo(id))
    ensures Inv(Next(s, SendTo(id)))
  {
    var s' := Next(s, SendTo(id));
    forall x | x in s'.subs ensures SubInv(s', x) {
      if x != id {
        OthersKeepInv(s, id, x);
      } else if !s'.panicked {
        SentToKeepsInv(s, id);
      } else {
        assert SubInv(s, x);
      }
    }
  }

  lemma BeatToKeepsInv(s: Service, id: string)
    requires Inv(s) && Enabled(s, BeatTo(id))
    ensures Inv(Next(s, BeatTo(id)))
  {
    var s' := Next(s, BeatTo(id));
    assert SubInv(s, id);
    BeatenInOrder(s.subs[id], s.accepted, s.beatAt, s.clock);
    forall x | x in s'.subs ensures SubInv(s', x) {
      assert SubInv(s, x);
    }
  }

  lemma CloseKeepsInv(s: Service, ids: set<string>)
    requires Inv(s) && ids <= s.registered
    ensures Inv(Close(s, ids))
  {
    var s' := Close(s, ids);
    assert s'.subs.Keys == s.subs.Keys;
    assert |s.registered| == |s.registered - ids| + |ids|;
    forall x | x in s'.subs ensures SubInv(s', x) {
      assert SubInv(s, x);
    }
  }

  lemma NotifyKeepsInv(s: Service, e: ChangeEvent)
    requires Inv(s) && !s.panicked
    ensures Inv(Next(s, Notify(e)))
  {
    var s' := Next(s, Notify(e));
    forall x | x in s'.subs ensures SubInv(s', x) {
      assert SubInv(s, x);
      MoreAccepted(s.subs[x], s.accepted, e);
    }
  }

  lemma SubscribeKeepsInv(s: Service, id: string, filters: Filters)
    requires Inv(s) && Enabled(s, Subscribe(id, filters))
    ensures Inv(Next(s, Subscribe(id, filters)))
  {
    var s' := Next(s, Subscribe(id, filters));
    assert s.accepted[s.taken..s.taken] == [];
    forall x | x in s'.subs ensures SubInv(s', x) {
      if x != id { assert SubInv(s, x); }
    }
  }

  lemma ReceivedInOrder(sub: Subscription, accepted: seq<ChangeEvent>)
    requires sub.queue != [] && InOrder(sub, accepted)
    ensures InOrder(Received(sub), accepted)
  {
    assert Delivered(Received(sub)) == Delivered(sub);
  }

  lemma ReceiveKeepsInv(s: Service, id: string)
    requires Inv(s) && Enabled(s, Receive(id))
    ensures Inv(Next(s, Receive(id)))
  {
    var s' := Next(s, Receive(id));
    assert SubInv(s, id) && s'.subs[id] == Received(s.subs[id]);
    ReceivedInOrder(s.subs[id], s.accepted);
    forall x | x in s'.subs ensures SubInv(s', x) {
      assert SubInv(s, x);
    }
  }

  lemma StampKeepsInv(s: Service, step: Step)
    requires Inv(s) && Enabled(s, step) && (step.StampChange? || step.StampHeartbeat?)
    ensures Inv(Next(s, step))
  {
    var s' := Next(s, step);
    forall x | x in s'.subs ensures SubInv(s', x) {
      assert SubInv(s, x);
      assert Delivered(s'.subs[x]) == Delivered(s.subs[x]);
    }
  }

  lemma OtherStepsKeepInv(s: Service, step: Step)
    requires Inv(s) && Enabled(s, step) && (step.Take? || step.Beat? || step.Tick?)
    ensures Inv(Next(s, step))
  {
    var s' := Next(s, step);
    forall x | x in s'.subs ensures SubInv(s', x) {
      assert SubInv(s, x);
    }
  }

  lemma StepKeepsInv(s: Service, step: Step)
    requires Inv(s) && Enabled(s, step)
    ensures Inv(Next(s, step))
  {
    match step
    case Notify(e) => NotifyKeepsInv(s, e);
    case SendTo(id) => SendKeepsInv(s, id);
    case Subscribe(id, filters) => SubscribeKeepsInv(s, id, filters);
    case Receive(id) => ReceiveKeepsInv(s, id);
    case Unsubscribe(id) => CloseKeepsInv(s, {id});
    case BeatTo(id) => BeatToKeepsInv(s, id);
    case Cleanup => CloseKeepsInv(s, StaleIds(s));
    case StampChange => StampKeepsInv(s, step);
    case StampHeartbeat => StampKeepsInv(s, step);
    case _ => OtherStepsKeepInv(s, step);
  }

  lemma {:induction false} RunKeepsInv(s: Service, steps: seq<Step>)
    requires Inv(s) && PossibleRun(s, steps)
    ensures Inv(Run(s, steps))
    decreases |steps|
  {
    if steps != [] {
      StepKeepsInv(s, steps[0]);
      RunKeepsInv(Next(s, steps[0]), steps[1..]);
    }
  }

  // What every run guarantees

  /** Under every interleaving: the queues stay within their capacities, and the change messages a
      subscriber was sent are, in order, events among those accepted since it subscribed that match
      its filter; all of those processed for it, if none was dropped; and all of those processed
      so far, while it is registered and no fan-out has still to reach it. */
  lemma DeliveryInOrder(steps: seq<Step>, id: string)
    requires PossibleRun(INIT, steps) && id in Run(INIT, steps).subs
    ensures var s := Run(INIT, steps);
            var sub := s.subs[id];
            && s.taken <= |s.accepted| <= s.taken + EVENT_CAPACITY && |sub.queue| <= CHANNEL_CAPACITY
            && sub.from <= sub.seen <= s.taken
            && Subsequence(Changes(Delivered(sub)), Selected(s.accepted[sub.from..sub.seen], sub.filters))
            && (sub.dropped == 0 ==>
                  Changes(Delivered(sub)) == Selected(s.accepted[sub.from..sub.seen], sub.filters))
            && (id in s.registered && id !in s.fan ==> sub.seen == s.taken)
  {
    RunKeepsInv(INIT, steps);
    var s := Run(INIT, steps);
    assert SubInv(s, id);
    SubsequenceShorter(Changes(Delivered(s.subs[id])),
                       Selected(s.accepted[s.subs[id].from..s.subs[id].seen], s.subs[id].filters));
  }

  /** Under every interleaving: at most the maximum number of subscriptions are registered, a
      channel is open exactly while its subscription is registered, and no channel is closed twice. */
  lemma Lifecycle(steps: seq<Step>)
    requires PossibleRun(INIT, steps)
    ensures var s := Run(INIT, steps);
            && |s.registered| <= MAX_SUBSCRIPTIONS && s.registered <= s.subs.Keys
            && forall id :: id in s.subs ==> s.subs[id].closes <= 1 && (s.subs[id].closes == 0 <==> id in s.registered)
  {
    RunKeepsInv(INIT, steps);
    var s := Run(INIT, steps);
    forall id | id in s.subs
      ensures s.subs[id].closes <= 1 && (s.subs[id].closes == 0 <==> id in s.registered)
    {
      assert SubInv(s, id);
    }
  }

  /** When a cleanup removes a registered subscription. One that was sent something within the hour:
      if the time last written to it is the start of a round of heartbeats more than an hour ago, or
      if a write is still pending and the last one was more than an hour ago. One that was not:
      always, unless the time was written within the hour, after the sending of a change. */
  lemma CleanupRemovesIff(steps: seq<Step>, id: string)
    requires PossibleRun(INIT, steps) && !Run(INIT, steps).panicked && id in Run(INIT, steps).registered
    ensures id in Run(INIT, steps).subs
    ensures var s := Run(INIT, steps);
            var stamp, removed, cutoff := s.subs[id].stamp, id !in Next(s, Cleanup).registered, s.clock - HOUR;
            if s.subs[id].lastSend >= cutoff
            then removed <==> stamp.at < cutoff && (stamp.ForHeartbeat? || Pending(s, id))
            else removed <==> !(stamp.ForChange? && stamp.at >= cutoff)
  {
    RunKeepsInv(INIT, steps);
    assert SubInv(Run(INIT, steps), id);
  }

  // Sending on a closed channel

  /** The step closes no channel that a fan-out or a round of heartbeats has still to serve. */
  predicate Calm(s: Service, step: Step) {
    match step
    case Unsubscribe(id) => id !in s.fan && id !in s.beating
    case Cleanup => StaleIds(s) !! s.fan && StaleIds(s) !! s.beating
    case _ => true
  }

  ghost predicate CalmRun(s: Service, steps: seq<Step>)
    requires PossibleRun(s, steps)
    decreases |steps|
  {
    steps == [] || (Calm(s, steps[0]) && CalmRun(Next(s, steps[0]), steps[1..]))
  }

  /** In a reachable state a step panics exactly if it sends to a subscriber that has gone. */
  lemma PanicIff(s: Service, step: Step)
    requires Inv(s) && Enabled(s, step)
    ensures Next(s, step).panicked <==>
      match step
      case SendTo(id) =>
        id !in s.registered && MatchesSubscription(s.accepted[s.taken - 1], s.subs[id].filters)
      case BeatTo(id) => id !in s.registered
      case _ => false
  {
    if step.SendTo? || step.BeatTo? {
      assert SubInv(s, step.id);
    }
  }

  lemma CalmStep(s: Service, step: Step)
    requires Inv(s) && s.fan <= s.registered && s.beating <= s.registered && Enabled(s, step) && Calm(s, step)
    ensures var t := Next(s, step);
            !t.panicked && t.fan <= t.registered && t.beating <= t.registered
  {
    PanicIff(s, step);
  }

  lemma {:induction false} CalmRunsDoNotPanic(s: Service, steps: seq<Step>)
    requires Inv(s) && !s.panicked && s.fan <= s.registered && s.beating <= s.registered
    requires PossibleRun(s, steps) && CalmRun(s, steps)
    ensures !Run(s, steps).panicked
    decreases |steps|
  {
    if steps != [] {
      StepKeepsInv(s, steps[0]);
      CalmStep(s, steps[0]);
      CalmRunsDoNotPanic(Next(s, steps[0]), steps[1..]);
    }
  }

  /** The snapshot of subscribers is taken before they are sent to, so a subscriber that leaves in
      between, for an event that matches, ends the program. */
  lemma LeavingDuringFanOutPanics(id: string, filters: Filters, e: ChangeEvent)
    requires MatchesSubscription(e, filters)
    ensures var steps := [Subscribe(id, filters), Notify(e), Take, Unsubscribe(id), SendTo(id)];
            PossibleRun(INIT, steps) && Run(INIT, steps).panicked
  {
    var a := Next(INIT, Subscribe(id, filters));
    var b := Next(a, Notify(e));
    var c := Next(b, Take);
    var d := Next(c, Unsubscribe(id));
    var f := Next(d, SendTo(id));
    assert f.panicked;
    RunThrough([INIT, a, b, c, d, f], [Subscribe(id, filters), Notify(e), Take, Unsubscribe(id), SendTo(id)]);
  }

  // Examples

  function NewSubscription(filters: Filters): Subscription {
    Subscription(filters, [], OnCreation(ZERO_TIME), [], 0, 0, 0, 0, ZERO_TIME)
  }

  function OnlySubscriber(id: string, sub: Subscription): Service {
    INIT.(registered := {id}, subs := map[id := sub])
  }

  /** A single subscriber whom a fan-out and a round of heartbeats reach more than an hour after they
      began. */
  function Late(id: string, filters: Filters, e: ChangeEvent): Service {
    OnlySubscriber(id, NewSubscription(filters)).(accepted := [e], taken := 1, fan := {id}, beating := {id},
        clock := HOUR + 1)
  }

  const LATE := HOUR + 1

  lemma LateReached(id: string, filters: Filters, e: ChangeEvent)
    ensures var steps := [Subscribe(id, filters), Notify(e), Take, Beat, Tick(LATE)];
            PossibleRun(INIT, steps) && Run(INIT, steps) == Late(id, filters, e)
  {
    var a := OnlySubscriber(id, NewSubscription(filters));
    var b := a.(accepted := [e]);
    var c := b.(taken := 1, fan := {id});
    var d := c.(beating := {id});
    assert Next(INIT, Subscribe(id, filters)) == a;
    assert Next(a, Notify(e)) == b && Next(b, Take) == c;
    assert Next(c, Beat) == d && Next(d, Tick(LATE)) == Late(id, filters, e);
    RunThrough([INIT, a, b, c, d, Late(id, filters, e)], [Subscribe(id, filters), Notify(e), Take, Beat, Tick(LATE)]);
  }

  /** The subscriber of `Late` has gone at the very time at which it was sent something. */
  ghost predicate GoneThoughServed(s: Service, id: string) {
    id !in s.registered && id in s.subs && s.subs[id].lastSend == s.clock
  }

  /** A heartbeat is stamped with the start of its round, so one that is delivered late can leave a
      subscription looking idle: this one is removed at the very time it was last sent something. */
  lemma LateHeartbeatLooksIdle(id: string, filters: Filters, e: ChangeEvent)
    ensures var steps := [Subscribe(id, filters), Notify(e), Take, Beat, Tick(LATE)] + [BeatTo(id), StampHeartbeat, Cleanup];
            PossibleRun(INIT, steps) && GoneThoughServed(Run(INIT, steps), id) && !Pending(Run(INIT, steps), id)
  {
    LateReached(id, filters, e);
    var s := Late(id, filters, e);
    var sent := Beaten(NewSubscription(filters), ZERO_TIME, LATE);
    var a := s.(beating := s.beating - {id}, beatStamp := Some(id), subs := s.subs[id := sent]);
    var b := a.(beatStamp := None, subs := a.subs[id := sent.(stamp := ForHeartbeat(ZERO_TIME))]);
    assert Next(s, BeatTo(id)) == a && Next(a, StampHeartbeat) == b;
    assert id in StaleIds(b);
    RunThrough([s, a, b, Next(b, Cleanup)], [BeatTo(id), StampHeartbeat, Cleanup]);
    RunAppend(INIT, [Subscribe(id, filters), Notify(e), Take, Beat, Tick(LATE)], [BeatTo(id), StampHeartbeat, Cleanup]);
  }

  /** The time is written after the message is sent, so a cleanup in between removes a subscription
      that has just been sent a change. */
  lemma CleanupBeforeStamp(id: string, filters: Filters, e: ChangeEvent)
    requires MatchesSubscription(e, filters)
    ensures var steps := [Subscribe(id, filters), Notify(e), Take, Beat, Tick(LATE)] + [SendTo(id), Cleanup];
            PossibleRun(INIT, steps) && GoneThoughServed(Run(INIT, steps), id)
  {
    LateReached(id, filters, e);
    var s := Late(id, filters, e);
    var a := Next(s, SendTo(id));
    assert id in StaleIds(a);
    RunThrough([s, a, Next(a, Cleanup)], [SendTo(id), Cleanup]);
    RunAppend(INIT, [Subscribe(id, filters), Notify(e), Take, Beat, Tick(LATE)], [SendTo(id), Cleanup]);
  }

  /** The two goroutines write the time without regard to each other, so a late heartbeat can spoil the
      stamp of a change that was sent after it: this subscription is removed although nothing is
      pending and the last message in its channel is a change just sent. */
  lemma HeartbeatStampsOverChange(id: string, filters: Filters, e: ChangeEvent)
    requires MatchesSubscription(e, filters)
    ensures var steps := [Subscribe(id, filters), Notify(e), Take, Beat, Tick(LATE)]
                         + [BeatTo(id), SendTo(id), StampChange, StampHeartbeat, Cleanup];
            PossibleRun(INIT, steps) && GoneThoughServed(Run(INIT, steps), id) && !Pending(Run(INIT, steps), id)
            && Run(INIT, steps).subs[id].queue == [Heartbeat(ZERO_TIME), Change(e)]
  {
    LateReached(id, filters, e);
    var s := Late(id, filters, e);
    var beaten := Beaten(NewSubscription(filters), ZERO_TIME, LATE);
    var served := Served(beaten, e, 1, LATE);
    assert served.queue == [Heartbeat(ZERO_TIME), Change(e)];
    var a := s.(beating := s.beating - {id}, beatStamp := Some(id), subs := s.subs[id := beaten]);
    var b := a.(fan := a.fan - {id}, fanStamp := Some(id), subs := a.subs[id := served]);
    assert Next(s, BeatTo(id)) == a && Next(a, SendTo(id)) == b;
    var c, d := StampedOver(b, id);
    RunThrough([s, a, b, c, d, Next(d, Cleanup)], [BeatTo(id), SendTo(id), StampChange, StampHeartbeat, Cleanup]);
    RunAppend(INIT, [Subscribe(id, filters), Notify(e), Take, Beat, Tick(LATE)],
              [BeatTo(id), SendTo(id), StampChange, StampHeartbeat, Cleanup]);
  }

  /** Both goroutines have sent to the only subscriber and now write the time, the heartbeat's last. */
  lemma StampedOver(s: Service, id: string) returns (t: Service, u: Service)
    requires !s.panicked && s.fanStamp == s.beatStamp == Some(id) && s.registered == {id} && s.subs.Keys == {id}
    requires s.beatAt < s.clock - HOUR && s.subs[id].lastSend == s.clock
    ensures Enabled(s, StampChange) && t == Next(s, StampChange)
    ensures Enabled(t, StampHeartbeat) && u == Next(t, StampHeartbeat)
    ensures Enabled(u, Cleanup) && GoneThoughServed(Next(u, Cleanup), id) && !Pending(Next(u, Cleanup), id)
    ensures Next(u, Cleanup).subs[id].queue == s.subs[id].queue
  {
    t := Next(s, StampChange);
    u := Next(t, StampHeartbeat);
    assert id in StaleIds(u);
  }

  lemma {:induction false} RunAppend(s: Service, steps: seq<Step>, more: seq<Step>)
    requires PossibleRun(s, steps) && PossibleRun(Run(s, steps), more)
    ensures PossibleRun(s, steps + more) && Run(s, steps + more) == Run(Run(s, steps), more)
    decreases |steps|
  {
    if steps == [] {
      assert steps + more == more;
    } else {
      assert (steps + more)[1..] == steps[1..] + more;
      RunAppend(Next(s, steps[0]), steps[1..], more);
    }
  }

  lemma {:induction false} RunThrough(states: seq<Service>, steps: seq<Step>)
    requires |states| == |steps| + 1
    requires forall i :: 0 <= i < |steps| ==> Enabled(states[i], steps[i]) && Next(states[i], steps[i]) == states[i + 1]
    ensures PossibleRun(states[0], steps) && Run(states[0], steps) == states[|steps|]
    decreases |steps|
  {
    if steps != [] {
      var ss, ts := states[1..], steps[1..];
      forall i | 0 <= i < |ts| ensures Enabled(ss[i], ts[i]) && Next(ss[i], ts[i]) == ss[i + 1] {
        assert ts[i] == steps[i + 1] && ss[i] == states[i + 1];
      }
      RunThrough(ss, ts);
    }
  }
}
