/** The ETL processor as an object: its handlers write to the store, its queue and its retries
    follow the system in EtlRetry. */
module EtlProcessors {
  import opened Types
  import opened MemoryStores
  import Spec = StoreSpec
  import Events = EtlEvents
  import opened EtlRetry

  /** A margin-offer event; `key` is its identity. */
  class MarginOfferEvent {
    const key: EventId
    const kind: Events.OfferKind
    const offerId: string
    const transactionHash: string
    const lender: string
    const timestamp: Time
    const offerData: MarginOffer?
    var retryCount: Int32

    constructor (key: EventId, ev: Events.OfferEvent, offerData: MarginOffer?)
      ensures this.key == key && this.offerData == offerData && retryCount == 0
    {
      this.key, kind, offerId, transactionHash := key, ev.kind, ev.offerId, ev.transactionHash;
      lender, timestamp, this.offerData, retryCount := ev.lender, ev.timestamp, offerData, 0;
    }

    function Value(): Events.OfferEvent
      reads offerData, Seen(offerData)
    {
      Events.OfferEvent(kind, offerId, transactionHash, lender, timestamp, ValueOf(offerData))
    }
  }

  class Processor {
    const store: MemoryStore
    var marginOfferEvents: seq<MarginOfferEvent>
    /** The events that wait, each in a goroutine of its own, to be queued again. */
    var sleeping: set<MarginOfferEvent>
    var errorCount: int
    var lastEventTime: Option<Time>

    /** The system this object implements, and every event it has accepted. */
    ghost var pipeline: Pipeline
    ghost var known: set<MarginOfferEvent>

    ghost predicate Valid()
      reads this, known
    {
      Inv(pipeline) && Tracks()
    }

    /** The object's fields agree with the system. */
    ghost predicate Tracks()
      reads this, known
    {
      && errorCount == pipeline.errorCount
      && (forall e :: e in known ==> e.key in pipeline.retry && pipeline.retry[e.key] == e.retryCount)
      && (forall e, f :: e in known && f in known && e.key == f.key ==> e == f)
      && Keys(marginOfferEvents) == pipeline.queue
      && (forall e :: e in marginOfferEvents ==> e in known)
      && sleeping <= known && forall e :: e in known ==> (e in sleeping <==> e.key in pipeline.waiting)
    }

    constructor (store: MemoryStore)
      ensures this.store == store && Valid() && pipeline == IDLE && lastEventTime == None
    {
      lastEventTime := None;
      this.store, marginOfferEvents, sleeping, errorCount := store, [], {}, 0;
      pipeline, known := IDLE, {};
    }

    // Handlers

    method ProcessLiquidityEvent(ev: Events.LiquidityEvent, now: Time) returns (success: bool)
      requires store.Valid()
      modifies store
      ensures store.Valid() && store.Grew()
      ensures Events.Result(store.State(), success) == Events.ProcessLiquidityEvent(old(store.State()), ev, now)
    {
      var r := store.GetByID(ev.offerId);
      if r.Failure? {
        return false;
      }
      var offer := r.value;
      if ev.kind.OtherLiquidity? {
        return false;
      }
      offer.SetTerms(offer.fields.terms.(availableBorrowAmount := ev.newTotalAmount));
      var outcome := store.CreateOrUpdate(offer, now);
      return outcome == Ok;
    }

    method ProcessInterestRateEvent(ev: Events.InterestRateEvent, now: Time) returns (success: bool)
      requires store.Valid()
      modifies store
      ensures store.Valid() && store.Grew()
      ensures Events.Result(store.State(), success) == Events.ProcessInterestRateEvent(old(store.State()), ev, now)
    {
      var r := store.GetByID(ev.offerId);
      if r.Failure? {
        return false;
      }
      var offer := r.value;
      offer.SetTerms(offer.fields.terms.(interestRate := ev.newRate));
      offer.SetTerms(offer.fields.terms.(interestModel := ev.rateModel));
      var outcome := store.CreateOrUpdate(offer, now);
      return outcome == Ok;
    }

    method ProcessMarginOfferEvent(event: MarginOfferEvent, now: Time) returns (success: bool)
      requires store.Valid() && event.offerData !in store.repr
      modifies store, event.offerData
      ensures store.Valid() && store.Grew() && event.offerData !in store.repr
      ensures Events.Result(store.State(), success)
              == Events.ProcessMarginOfferEvent(old(store.State()), old(event.Value()), now)
    {
      if event.offerId == "" || event.transactionHash == "" || event.lender == "" {
        return false;
      }
      match event.kind
      case OfferCreated =>
        success := StoreOffer(event, now);
      case OfferUpdated =>
        success := StoreOffer(event, now);
      case OfferDeleted =>
        var outcome := store.Delete(event.offerId, now);
        success := outcome == Ok;
      case OtherOfferEvent =>
        success := false;
    }

    method StoreOffer(event: MarginOfferEvent, now: Time) returns (success: bool)
      requires store.Valid() && event.offerData !in store.repr
      modifies store, event.offerData
      ensures store.Valid() && store.Grew() && event.offerData !in store.repr
      ensures Events.Result(store.State(), success)
              == if event.offerData == null then Events.Result(old(store.State()), false)
                 else Events.Store(old(store.State()), Events.Completed(event.Value(), old(event.offerData.Value())), now)
    {
      var offer := event.offerData;
      if offer == null {
        return false;
      }
      if offer.fields.id == "" {
        offer.SetId(event.offerId);
      }
      if offer.fields.created == ZERO_TIME {
        offer.SetCreated(event.timestamp);
      }
      offer.UpdateTimestamp(event.timestamp);
      var outcome := store.CreateOrUpdate(offer, now);
      return outcome == Ok;
    }

    // The queue and the retries

    /** Queues a new event, or drops it when the queue is full. */
    method HandleMarginOfferEvent(event: MarginOfferEvent)
      requires Valid() && event.key !in pipeline.retry
      modifies this
      ensures Valid() && pipeline == Next(old(pipeline), Arrive(event.key, event.retryCount))
      ensures lastEventTime == if |old(marginOfferEvents)| < QUEUE_CAPACITY then Some(event.timestamp)
                               else old(lastEventTime)
    {
      ArriveKeepsInv(pipeline, event.key, event.retryCount);
      pipeline := Next(pipeline, Arrive(event.key, event.retryCount));
      if |marginOfferEvents| < QUEUE_CAPACITY {
        marginOfferEvents := marginOfferEvents + [event];
        known := known + {event};
        lastEventTime := Some(event.timestamp);
      }
    }

    /** Counts the error, and lets a retryable event wait to be queued again. */
    method HandleProcessingError(event: MarginOfferEvent)
      requires Tracks() && event in known && Known(pipeline, event.key)
      modifies this, event`retryCount
      ensures Tracks() && pipeline == Finished(old(pipeline), event.key, false)
      ensures event.retryCount == if IsRetryable(old(event.retryCount)) then old(event.retryCount) + 1
                                  else old(event.retryCount)
    {
      pipeline := Finished(pipeline, event.key, false);
      errorCount := errorCount + 1;
      if IsRetryable(event.retryCount) {
        event.retryCount := event.retryCount + 1;
        sleeping := sleeping + {event};
      }
    }

    /** The processor takes the event at the head of the queue. */
    method TakeEvent() returns (event: MarginOfferEvent)
      requires Valid() && marginOfferEvents != [] && pipeline.current.None?
      modifies this
      ensures Valid() && Enabled(old(pipeline), Take) && pipeline == Next(old(pipeline), Take)
      ensures event in known && pipeline.current == Some(event.key) && known == old(known)
    {
      event := marginOfferEvents[0];
      assert event in marginOfferEvents && pipeline.queue[0] == event.key;
      TakeKeepsInv(pipeline);
      pipeline := Next(pipeline, Take);
      marginOfferEvents := marginOfferEvents[1..];
    }

    /** What remains to be done once the event has been processed. */
    method Conclude(event: MarginOfferEvent, success: bool)
      requires Valid() && event in known && pipeline.current == Some(event.key)
      modifies this, event`retryCount
      ensures Valid() && Enabled(old(pipeline), Finish(success)) && pipeline == Next(old(pipeline), Finish(success))
    {
      CurrentKnown(pipeline);
      FinishKeepsInv(pipeline, success);
      if !success {
        HandleProcessingError(event);
      } else {
        pipeline := Finished(pipeline, event.key, true);
      }
    }

    /** A waiting event gets back into the queue when there is room. */
    method Requeue(event: MarginOfferEvent)
      requires Valid() && event in sleeping && |marginOfferEvents| < QUEUE_CAPACITY
      modifies this
      ensures Valid() && Enabled(old(pipeline), Step.Requeue(event.key))
      ensures pipeline == Next(old(pipeline), Step.Requeue(event.key))
    {
      RequeueKeepsInv(pipeline, event.key);
      pipeline := Next(pipeline, Step.Requeue(event.key));
      sleeping := sleeping - {event};
      marginOfferEvents := marginOfferEvents + [event];
    }
  }

  function Keys(events: seq<MarginOfferEvent>): seq<EventId> {
    seq(|events|, i requires 0 <= i < |events| => events[i].key)
  }
}
