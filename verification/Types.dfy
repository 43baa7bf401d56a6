/** The margin offer entity, its validation rules and the store's error values. */
module Types {
  datatype Option<+T> = None | Some(value: T)

  /** A point in time, in nanoseconds after Go's zero time. */
  type Time = int

  const ZERO_TIME: Time := 0
  const HOUR: Time := 3_600_000_000_000
  const DAY: Time := 24 * HOUR

  type Int32 = x: int | -0x8000_0000 <= x < 0x8000_0000

  datatype Error =
    | MissingId
    | MissingCollateralToken
    | MissingBorrowToken
    | InvalidBorrowAmount
    | InvalidMaxOpenLTV
    | InvalidLiquidationLTV
    | InvalidLTVRatio
    | InvalidInterestRate
    | MissingLiquiditySource
    | OfferNotFound
    | OfferAlreadyExists
    | InvalidEventData

  datatype Outcome = Ok | Err(error: Error)

  datatype Result<+T> = Success(value: T) | Failure(error: Error)

  /** The terms of an offer, which the store never writes. */
  datatype Terms = Terms(
    offerType: string,
    collateralToken: string,
    borrowToken: string,
    availableBorrowAmount: real,
    maxOpenLTV: real,
    liquidationLTV: real,
    interestRate: real,
    interestModel: string,
    liquiditySource: string)

  /** What an offer has or does not have. */
  datatype Details = Details(
    termDays: Option<Int32>,
    lenderAddress: Option<string>,
    lastBorrowed: Option<Time>,
    source: Option<string>)

  const NO_DETAILS := Details(None, None, None, None)

  /** A margin offer by value; the store stamps the two times. */
  datatype Offer = Offer(id: string, terms: Terms, details: Details, created: Time, updated: Time)

  function Validate(o: Offer): Outcome {
    if o.id == "" then Err(MissingId)
    else if o.terms.collateralToken == "" then Err(MissingCollateralToken)
    else if o.terms.borrowToken == "" then Err(MissingBorrowToken)
    else if o.terms.availableBorrowAmount < 0.0 then Err(InvalidBorrowAmount)
    else if o.terms.maxOpenLTV < 0.0 || o.terms.maxOpenLTV > 1.0 then Err(InvalidMaxOpenLTV)
    else if o.terms.liquidationLTV < 0.0 || o.terms.liquidationLTV > 1.0 then Err(InvalidLiquidationLTV)
    else if o.terms.liquidationLTV <= o.terms.maxOpenLTV then Err(InvalidLTVRatio)
    else if o.terms.interestRate < 0.0 then Err(InvalidInterestRate)
    else if o.terms.liquiditySource == "" then Err(MissingLiquiditySource)
    else Ok
  }

  predicate IsExpired(o: Offer, now: Time) {
    o.details.termDays.Some? && now > o.created + o.details.termDays.value * DAY
  }

  // Offers on the heap

  /** What a pointer to a simple value points to. */
  class Cell<T> {
    var value: T

    constructor (value: T)
      ensures this.value == value
    {
      this.value := value;
    }
  }

  function ValueAt<T>(c: Cell?<T>): Option<T>
    reads c
  {
    if c == null then None else Some(c.value)
  }

  /** The details of an offer as the program holds them: pointers that may be nil. */
  datatype Pointers = Pointers(
    termDays: Cell?<Int32>,
    lenderAddress: Cell?<string>,
    lastBorrowed: Cell?<Time>,
    source: Cell?<string>)

  function DetailsAt(p: Pointers): Details
    reads p.termDays, p.lenderAddress, p.lastBorrowed, p.source
  {
    Details(ValueAt(p.termDays), ValueAt(p.lenderAddress), ValueAt(p.lastBorrowed), ValueAt(p.source))
  }

  ghost function CellOf<T>(c: Cell?<T>): set<object> {
    if c == null then {} else {c}
  }

  ghost function CellsOf(p: Pointers): set<object> {
    CellOf(p.termDays) + CellOf(p.lenderAddress) + CellOf(p.lastBorrowed) + CellOf(p.source)
  }

  /** The cells behind the pointers are among these objects. */
  ghost predicate PointInto(p: Pointers, objects: set<object>) {
    && (p.termDays == null || p.termDays in objects) && (p.lenderAddress == null || p.lenderAddress in objects)
    && (p.lastBorrowed == null || p.lastBorrowed in objects) && (p.source == null || p.source in objects)
  }

  method CopyCell<T>(c: Cell?<T>) returns (copy: Cell?<T>)
    ensures fresh(CellOf(copy)) && ValueAt(copy) == ValueAt(c)
  {
    copy := null;
    if c != null {
      copy := new Cell(c.value);
    }
  }

  /** The struct behind a pointer to a margin offer. */
  datatype Fields = Fields(id: string, terms: Terms, pointers: Pointers, created: Time, updated: Time)

  /** The value that a struct stands for. */
  function ValueIn(f: Fields): Offer
    reads f.pointers.termDays, f.pointers.lenderAddress, f.pointers.lastBorrowed, f.pointers.source
  {
    Offer(f.id, f.terms, DetailsAt(f.pointers), f.created, f.updated)
  }

  /** What a pointer to a margin offer points to. The store keeps objects of its own and hands out
      copies. */
  class MarginOffer {
    var fields: Fields

    constructor (fields: Fields)
      ensures this.fields == fields
    {
      this.fields := fields;
    }

    /** The offer by value. */
    function Value(): Offer
      reads this, fields.pointers.termDays, fields.pointers.lenderAddress, fields.pointers.lastBorrowed,
          fields.pointers.source
    {
      ValueIn(fields)
    }

    /** The object and what it points to. */
    ghost function Footprint(): set<object>
      reads this
    {
      {this} + CellsOf(fields.pointers)
    }

    /** A deep copy. */
    method Clone() returns (clone: MarginOffer)
      ensures fresh(clone.Footprint()) && clone.Value() == Value()
    {
      var termDays := CopyCell(fields.pointers.termDays);
      var lenderAddress := CopyCell(fields.pointers.lenderAddress);
      var lastBorrowed := CopyCell(fields.pointers.lastBorrowed);
      var source := CopyCell(fields.pointers.source);
      clone := new MarginOffer(fields.(pointers := Pointers(termDays, lenderAddress, lastBorrowed, source)));
    }

    method UpdateTimestamp(now: Time)
      modifies this
      ensures fields == old(fields).(updated := now) && Value() == old(Value()).(updated := now)
    {
      fields := fields.(updated := now);
    }

    method SetId(id: string)
      modifies this
      ensures fields == old(fields).(id := id) && Value() == old(Value()).(id := id)
    {
      fields := fields.(id := id);
    }

    method SetTerms(terms: Terms)
      modifies this
      ensures fields == old(fields).(terms := terms) && Value() == old(Value()).(terms := terms)
    {
      fields := fields.(terms := terms);
    }

    method SetCreated(created: Time)
      modifies this
      ensures fields == old(fields).(created := created) && Value() == old(Value()).(created := created)
    {
      fields := fields.(created := created);
    }
  }

  method NewCell<T>(v: Option<T>) returns (c: Cell?<T>)
    ensures fresh(CellOf(c)) && ValueAt(c) == v
  {
    c := null;
    if v.Some? {
      c := new Cell(v.value);
    }
  }

  /** A new object with a given value, sharing nothing with any other. */
  method NewOffer(v: Offer) returns (offer: MarginOffer)
    ensures fresh(offer.Footprint()) && offer.Value() == v
  {
    var termDays := NewCell(v.details.termDays);
    var lenderAddress := NewCell(v.details.lenderAddress);
    var lastBorrowed := NewCell(v.details.lastBorrowed);
    var source := NewCell(v.details.source);
    offer := new MarginOffer(Fields(v.id, v.terms, Pointers(termDays, lenderAddress, lastBorrowed, source),
                                    v.created, v.updated));
  }

  /** The value behind a pointer that may be nil. */
  function ValueOf(o: MarginOffer?): Option<Offer>
    reads o, Seen(o)
  {
    if o == null then None else Some(o.Value())
  }

  ghost function Seen(o: MarginOffer?): set<object>
    reads o
  {
    if o == null then {} else CellsOf(o.fields.pointers)
  }

  ghost function AllSeen(os: seq<MarginOffer?>): set<object>
    reads os
  {
    set o, c | o in os && c in Seen(o) :: c
  }

  ghost function ValuesOf(os: seq<MarginOffer?>): (vs: seq<Option<Offer>>)
    reads os, AllSeen(os)
  {
    seq(|os|, i requires 0 <= i < |os| reads os, AllSeen(os) => ValueOf(os[i]))
  }

  ghost function FieldsOf(os: seq<MarginOffer>): seq<Offer>
    reads os, AllSeen(os)
  {
    seq(|os|, i requires 0 <= i < |os| reads os, AllSeen(os) => ValueOf(os[i]).value)
  }

  /** A queue before and after a step, and before and after the rest of a run: what goes in (`a`, then `b`)
      comes out (`t`, then `u`) in the same order. */
  lemma QueueSteps<T>(q: seq<T>, a: seq<T>, t: seq<T>, q': seq<T>, b: seq<T>, u: seq<T>, q'': seq<T>)
    requires q + a == t + q' && q' + b == u + q''
    ensures q + (a + b) == (t + u) + q''
  {
    assert q + (a + b) == (q + a) + b;
    assert (t + q') + b == t + (q' + b);
  }
}
