/** The notification service as an object. Each method is a step, or a run of steps, of the system
    in Notifications; the methods that loop are shown as they run undisturbed. */
module NotificationServices {
  import opened Types
  import opened Notifications

  /** What the program holds of an open subscription. */
  datatype Entry = Entry(filters: Filters, queue: seq<Message>, lastActivity: Time)

  function EntryOf(sub: Subscription): Entry {
    Entry(sub.filters, sub.queue, sub.stamp.at)
  }

  /** The fields of the object hold the event queue and the open subscriptions of the system. */
  ghost predicate Mirrors(subscriptions: map<string, Entry>, eventChan: seq<ChangeEvent>, s: Service) {
    && !s.panicked && s.taken <= |s.accepted| && eventChan == s.accepted[s.taken..]
    && subscriptions.Keys == s.registered && s.registered <= s.subs.Keys
    && forall id :: id in subscriptions ==> subscriptions[id] == EntryOf(s.subs[id]) && s.subs[id].closes == 0
  }

  /** Whether the non-blocking send of an event goes through. */
  predicate Reached(entry: Entry, event: ChangeEvent) {
    MatchesSubscription(event, entry.filters) && |entry.queue| < CHANNEL_CAPACITY
  }

  /** One subscriber's share of a fan-out: the time is written if the send went through. */
  function Share(entry: Entry, event: ChangeEvent, id: string): seq<Step> {
    if Reached(entry, event) then [SendTo(id), StampChange] else [SendTo(id)]
  }

  function Sent(entry: Entry, event: ChangeEvent, now: Time): Entry {
    if Reached(entry, event)
    then entry.(queue := entry.queue + [Change(event)], lastActivity := now)
    else entry
  }

  ghost predicate Quiet(s: Service) {
    s.fanStamp == None && s.beating == {} && s.beatStamp == None
  }

  lemma MirrorsSend(m: map<string, Entry>, c: seq<ChangeEvent>, s: Service, id: string)
    requires Mirrors(m, c, s) && Quiet(s) && id in s.fan && id in m && s.taken > 0
    ensures var event := s.accepted[s.taken - 1];
            var steps := Share(m[id], event, id);
            && PossibleRun(s, steps) && Quiet(Run(s, steps)) && Run(s, steps).fan == s.fan - {id}
            && Run(s, steps).accepted == s.accepted && Run(s, steps).taken == s.taken && Run(s, steps).clock == s.clock
            && Mirrors(m[id := Sent(m[id], event, s.clock)], c, Run(s, steps))
  {
    var event := s.accepted[s.taken - 1];
    assert m[id] == EntryOf(s.subs[id]);
    var t := Next(s, SendTo(id));
    if Reached(m[id], event) {
      RunThrough([s, t, Next(t, StampChange)], [SendTo(id), StampChange]);
    } else {
      RunThrough([s, t], [SendTo(id)]);
    }
  }

  lemma MirrorsOpen(m: map<string, Entry>, c: seq<ChangeEvent>, s: Service, id: string, filters: Filters)
    requires Mirrors(m, c, s) && id !in s.subs && |m| < MAX_SUBSCRIPTIONS
    ensures Enabled(s, Subscribe(id, filters))
    ensures Mirrors(m[id := Entry(filters, [], s.clock)], c, Next(s, Subscribe(id, filters)))
  {
    assert |m| == |m.Keys|;
  }

  lemma MirrorsClose(m: map<string, Entry>, c: seq<ChangeEvent>, s: Service, ids: set<string>)
    requires Mirrors(m, c, s) && ids <= s.registered
    ensures Mirrors(m - ids, c, Close(s, ids))
  {
    var t := Close(s, ids);
    assert (m - ids).Keys == t.registered;
    forall id | id in m - ids ensures (m - ids)[id] == EntryOf(t.subs[id]) && t.subs[id].closes == 0 {
      assert m[id] == EntryOf(s.subs[id]);
    }
  }

  lemma MirrorsTake(m: map<string, Entry>, c: seq<ChangeEvent>, s: Service)
    requires Mirrors(m, c, s) && c != [] && s.fan == {} && s.fanStamp == None
    ensures Enabled(s, Take) && Mirrors(m, c[1..], Next(s, Take))
    ensures c[0] == s.accepted[s.taken]
  {
    assert c[1..] == s.accepted[s.taken + 1..];
  }

  class NotificationService {
    var subscriptions: map<string, Entry>
    var eventChan: seq<ChangeEvent>

    /** The system this object implements, with its history. */
    ghost var service: Service

    ghost predicate Valid()
      reads this
    {
      Mirrors(subscriptions, eventChan, service) && Quiet(service) && service.fan == {}
    }

    constructor ()
      ensures Valid() && service == INIT
    {
      subscriptions, eventChan, service := map[], [], INIT;
    }

    /** `id` is a fresh unique identifier. */
    method Subscribe(id: string, filters: Filters, now: Time) returns (ok: bool)
      requires Valid() && id !in service.subs && service.clock <= now
      modifies this
      ensures Valid()
      ensures ok <==> |old(service).registered| < MAX_SUBSCRIPTIONS
      ensures var s := Next(old(service), Tick(now));
              service == if ok then Next(s, Step.Subscribe(id, filters)) else s
    {
      service := Next(service, Tick(now));
      assert |subscriptions| == |subscriptions.Keys|;
      if |subscriptions| >= MAX_SUBSCRIPTIONS {
        return false;
      }
      MirrorsOpen(subscriptions, eventChan, service, id, filters);
      service := Next(service, Step.Subscribe(id, filters));
      subscriptions := subscriptions[id := Entry(filters, [], now)];
      return true;
    }

    method Unsubscribe(id: string) returns (ok: bool)
      requires Valid()
      modifies this
      ensures Valid()
      ensures ok <==> id in old(service).registered
      ensures ok ==> Enabled(old(service), Step.Unsubscribe(id)) && service == Next(old(service), Step.Unsubscribe(id))
      ensures !ok ==> service == old(service)
    {
      if id !in subscriptions {
        return false;
      }
      MirrorsClose(subscriptions, eventChan, service, {id});
      service := Next(service, Step.Unsubscribe(id));
      subscriptions := subscriptions - {id};
      return true;
    }

    /** Queues an event, or drops it when the queue is full. */
    method NotifyChange(event: ChangeEvent)
      requires Valid()
      modifies this
      ensures Valid() && service == Next(old(service), Notify(event))
    {
      service := Next(service, Notify(event));
      if |eventChan| < EVENT_CAPACITY {
        eventChan := eventChan + [event];
      }
    }

    /** Takes the next event and sends it to every subscriber there is. */
    method ProcessChangeEvent(now: Time) returns (ghost steps: seq<Step>)
      requires Valid() && eventChan != [] && service.clock <= now
      modifies this
      ensures Valid()
      ensures PossibleRun(Next(Next(old(service), Tick(now)), Take), steps)
      ensures service == Run(Next(Next(old(service), Tick(now)), Take), steps)
      ensures forall i :: 0 <= i < |steps| ==> steps[i].SendTo? || steps[i].StampChange?
    {
      MirrorsTake(subscriptions, eventChan, Next(service, Tick(now)));
      var event := eventChan[0];
      eventChan := eventChan[1..];
      service := Next(Next(service, Tick(now)), Take);
      steps := FanOut(event, now);
    }

    /** Sends an event to the subscribers of the snapshot, ranging over the map. */
    method FanOut(event: ChangeEvent, now: Time) returns (ghost steps: seq<Step>)
      requires Serving(event, now) && service.fan == subscriptions.Keys
      modifies this
      ensures Valid() && PossibleRun(old(service), steps) && service == Run(old(service), steps)
      ensures forall i :: 0 <= i < |steps| ==> steps[i].SendTo? || steps[i].StampChange?
    {
      steps := [];
      var todo := subscriptions.Keys;
      while todo != {}
        invariant Serving(event, now) && todo == service.fan && todo <= subscriptions.Keys
        invariant PossibleRun(old(service), steps) && service == Run(old(service), steps)
        invariant forall i :: 0 <= i < |steps| ==> steps[i].SendTo? || steps[i].StampChange?
      {
        var id :| id in todo;
        todo := todo - {id};
        ghost var share := ServeOne(id, event, now);
        RunAppend(old(service), steps, share);
        steps := steps + share;
      }
    }

    /** In the middle of the fan-out of `event`. */
    ghost predicate Serving(event: ChangeEvent, now: Time)
      reads this
    {
      && Mirrors(subscriptions, eventChan, service) && Quiet(service) && service.clock == now
      && service.taken > 0 && event == service.accepted[service.taken - 1]
    }

    /** The non-blocking send to one subscriber, and the time if it went through. */
    method ServeOne(id: string, event: ChangeEvent, now: Time) returns (ghost share: seq<Step>)
      requires Serving(event, now) && id in service.fan && id in subscriptions
      modifies this
      ensures share == Share(old(subscriptions)[id], event, id)
      ensures PossibleRun(old(service), share) && service == Run(old(service), share)
      ensures Serving(event, now) && service.fan == old(service).fan - {id}
      ensures subscriptions.Keys == old(subscriptions).Keys
    {
      MirrorsSend(subscriptions, eventChan, service, id);
      share := Share(subscriptions[id], event, id);
      service := Run(service, share);
      var entry := subscriptions[id];
      if MatchesSubscription(event, entry.filters) {
        if |entry.queue| < CHANNEL_CAPACITY {
          entry := entry.(queue := entry.queue + [Change(event)]);
          entry := entry.(lastActivity := now);
        }
      }
      subscriptions := subscriptions[id := entry];
    }

    /** Removes the subscriptions that look idle. */
    method CleanupInactiveSubscriptions(now: Time)
      requires Valid() && service.clock <= now
      modifies this
      ensures Valid() && service == Next(Next(old(service), Tick(now)), Cleanup)
    {
      ghost var s := Next(service, Tick(now));
      MirrorsClose(subscriptions, eventChan, s, StaleIds(s));
      StaleEntries(subscriptions, eventChan, s, now - HOUR);
      RemoveIdle(now - HOUR);
      service := Next(s, Cleanup);
    }

    /** Ranges over the map and deletes from it. */
    method RemoveIdle(cutoff: Time)
      modifies this`subscriptions
      ensures subscriptions == old(subscriptions) - IdleSince(old(subscriptions), cutoff)
    {
      var todo := subscriptions.Keys;
      ghost var all, gone := subscriptions, {};
      while todo != {}
        invariant todo <= subscriptions.Keys && subscriptions == all - gone
        invariant gone == IdleSince(all, cutoff) - todo
      {
        var id :| id in todo;
        todo := todo - {id};
        if subscriptions[id].lastActivity < cutoff {
          subscriptions := subscriptions - {id};
          gone := gone + {id};
        }
      }
      assert gone == IdleSince(all, cutoff);
    }
  }

  function IdleSince(m: map<string, Entry>, cutoff: Time): set<string> {
    set id | id in m && m[id].lastActivity < cutoff
  }

  lemma StaleEntries(m: map<string, Entry>, c: seq<ChangeEvent>, s: Service, cutoff: Time)
    requires Mirrors(m, c, s) && cutoff == s.clock - HOUR
    ensures StaleIds(s) == IdleSince(m, cutoff)
  {
  }
}
