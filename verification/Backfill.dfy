/** The batch loop of a chain backfill: each batch replaces the whole store. */
module Backfills {
  import opened Types
  import opened IndexLists
  import opened StoreSpec
  import opened StoreInvariants
  import opened StoreRuns
  import opened StoreTheorems
  import opened StoreOverwrite
  import opened GrpcServers
  import Accounts
  import Listing

  // Replacing the whole store, in whatever order the map is ranged over

  /** The store after a whole-store overwrite with valid offers; any order gives the same. */
  ghost function Replaced(s: State, os: seq<Offer>, now: Time): State {
    if order :| Ranges(order, s.offers.Keys)
    then FillAll(DropAll(s, s.offers, order), os, now).(lastUpdate := now)
    else s
  }

  lemma ReplacedIsOverwrite(s: State, os: seq<Offer>, order: seq<string>, now: Time)
    requires Ranges(order, s.offers.Keys) && CheckAll(Somes(os)) == Ok
    ensures Overwrite(s, Somes(os), None, order, now).state == Replaced(s, os, now)
  {
    var order' :| Ranges(order', s.offers.Keys) && Replaced(s, os, now)
                  == FillAll(DropAll(s, s.offers, order'), os, now).(lastUpdate := now);
    DropOrderIrrelevant(s, s.offers, order, order', s.offers.Keys);
    assert Offers(Somes(os)) == os;
  }

  /** The store holds the last offer of each ID of `os`, with the time of creation that it was given, if
      any, and nothing else. */
  ghost predicate HoldsExactly(s: State, os: seq<Offer>, now: Time) {
    && (forall id :: id in s.offers <==> Mentions(os, id))
    && (forall i: nat :: LastOfItsId(os, i) ==>
          && Mentions(os, os[i].id)
          && s.offers[os[i].id] == os[i].(created := if os[i].created == ZERO_TIME then now else os[i].created,
                                          updated := now))
  }

  lemma ReplacedHoldsExactly(s: State, os: seq<Offer>, now: Time)
    ensures HoldsExactly(Replaced(s, os, now), os, now)
  {
    var any := SomeOrder(s.offers.Keys);
    var order :| Ranges(order, s.offers.Keys) && Replaced(s, os, now)
                 == FillAll(DropAll(s, s.offers, order), os, now).(lastUpdate := now);
    DropAllOffers(s, s.offers, order);
    FillAllOffers(DropAll(s, s.offers, order), os, now);
  }

  // Batches

  function EndOf(i: nat, size: nat, n: nat): nat {
    if i + size > n then n else i + size
  }

  /** The consecutive batches of a list: all of them full but perhaps the last. */
  function Slices(os: seq<Offer>, size: nat): seq<seq<Offer>>
    requires size >= 1
    decreases |os|
  {
    if os == [] then []
    else
      var end := EndOf(0, size, |os|);
      [os[..end]] + Slices(os[end..], size)
  }

  function Joined(parts: seq<seq<Offer>>): seq<Offer> {
    if parts == [] then [] else parts[0] + Joined(parts[1..])
  }

  /** Where batch `q` starts. */
  function StartOf(q: nat, size: nat): nat {
    if q == 0 then 0 else StartOf(q - 1, size) + size
  }

  lemma {:induction false} StartOfIsMultiple(q: nat, size: nat)
    ensures StartOf(q, size) == q * size
  {
    if q > 0 {
      StartOfIsMultiple(q - 1, size);
    }
  }

  /** The batches partition the list, in order. */
  lemma {:induction false} SlicesPartition(os: seq<Offer>, size: nat)
    requires size >= 1
    ensures var parts := Slices(os, size);
            && Joined(parts) == os
            && (forall q :: 0 <= q < |parts| ==> parts[q] != [] && |parts[q]| <= size)
            && (forall q :: 0 <= q < |parts| - 1 ==> |parts[q]| == size)
    decreases |os|
  {
    if os != [] {
      var end := EndOf(0, size, |os|);
      var parts, rest := Slices(os, size), Slices(os[end..], size);
      SlicesPartition(os[end..], size);
      assert parts == [os[..end]] + rest && parts[1..] == rest;
      assert os == os[..end] + os[end..];
      assert forall q :: 1 <= q < |parts| ==> parts[q] == rest[q - 1];
    }
  }

  /** Batch `q` is cut from where it starts. */
  lemma {:induction false} SliceStarts(os: seq<Offer>, size: nat, q: nat)
    requires size >= 1
    ensures q < |Slices(os, size)| <==> StartOf(q, size) < |os|
    ensures q == |Slices(os, size)| ==> StartOf(q, size) >= |os|
    ensures q < |Slices(os, size)| ==> Slices(os, size)[q] == os[StartOf(q, size)..EndOf(StartOf(q, size), size, |os|)]
    decreases q
  {
    if os != [] && q > 0 {
      var end := EndOf(0, size, |os|);
      var rest := os[end..];
      SliceStarts(rest, size, q - 1);
      assert Slices(os, size) == [os[..end]] + Slices(rest, size);
      if q < |Slices(os, size)| {
        assert end == size && Slices(os, size)[q] == Slices(rest, size)[q - 1];
        SliceOfRest(os, size, StartOf(q - 1, size));
      }
    }
  }

  lemma SliceOfRest(os: seq<Offer>, size: nat, i: nat)
    requires size + i <= |os|
    ensures os[size..][i..EndOf(i, size, |os| - size)] == os[i + size..EndOf(i + size, size, |os|)]
  {
  }

  ghost predicate Passes(batch: seq<Offer>) {
    CheckAll(Somes(batch)) == Ok
  }

  /** The number of offers in the first `n` batches, or in those of them that pass. */
  ghost function Records(parts: seq<seq<Offer>>, n: nat, all: bool): nat
    requires n <= |parts|
  {
    if n == 0 then 0
    else Records(parts, n - 1, all) + if all || Passes(parts[n - 1]) then |parts[n - 1]| else 0
  }

  /** The number of batches among the first `n` that count as written. */
  ghost function Written(parts: seq<seq<Offer>>, n: nat, all: bool): nat
    requires n <= |parts|
  {
    if n == 0 then 0 else Written(parts, n - 1, all) + if all || Passes(parts[n - 1]) then 1 else 0
  }

  // The loop

  /** Where a run of the loop has come to: the store, the counters, the number of batches dealt
      with, the last of them that was written, and whether the run was cancelled. */
  datatype Batching = Batching(state: State, processed: int, failed: int, currentBatch: int, progress: real,
                               done: nat, written: Option<nat>, cancelled: bool)

  /** The batch that starts at `i`. A rejected batch is counted and skipped, and cancellation is
      looked for only after a batch that went through. */
  ghost function OneBatch(b: Batching, os: seq<Offer>, i: nat, size: nat, dryRun: bool, cancel: bool, now: Time): Batching
    requires i < |os| && size >= 1
  {
    var end := EndOf(i, size, |os|);
    var batch := os[i..end];
    if !dryRun && !Passes(batch) then b.(failed := b.failed + |batch|, done := b.done + 1)
    else
      var processed := b.processed + |batch|;
      b.(state := if dryRun then b.state else Replaced(b.state, batch, now),
         processed := processed, currentBatch := b.currentBatch + 1, progress := processed as real / |os| as real,
         done := b.done + 1, written := if dryRun then b.written else Some(b.done), cancelled := cancel)
  }

  ghost function Batches(b: Batching, os: seq<Offer>, i: nat, size: nat, dryRun: bool, cancels: nat -> bool,
                         now: Time): Batching
    requires i <= |os| && size >= 1
    decreases |os| - i
  {
    if i == |os| || b.cancelled then b
    else Batches(OneBatch(b, os, i, size, dryRun, cancels(i), now), os, EndOf(i, size, |os|), size, dryRun, cancels, now)
  }

  ghost function Start(s: State): Batching {
    Batching(s, 0, 0, 0, 0.0, 0, None, false)
  }

  /** The loop has come to position `i`, the start of a batch or the end of the list. */
  ghost predicate AtBoundary(b: Batching, os: seq<Offer>, i: nat, size: nat)
    requires size >= 1
  {
    b.done <= |Slices(os, size)| && i == if b.done < |Slices(os, size)| then StartOf(b.done, size) else |os|
  }

  /** The store holds the last batch so far that passed, or what it held before if none did. */
  ghost predicate HoldsLast(b: Batching, s: State, parts: seq<seq<Offer>>, dryRun: bool, now: Time) {
    match b.written
    case None => b.state == s && (dryRun || forall q :: 0 <= q < b.done <= |parts| ==> !Passes(parts[q]))
    case Some(q) =>
      && !dryRun && q < b.done <= |parts| && Passes(parts[q]) && HoldsExactly(b.state, parts[q], now)
      && forall p :: q < p < b.done ==> !Passes(parts[p])
  }

  /** What holds whenever the loop has come to position `i`. */
  ghost predicate BatchInv(b: Batching, s: State, os: seq<Offer>, i: nat, size: nat, dryRun: bool, now: Time)
    requires size >= 1
  {
    var parts := Slices(os, size);
    && AtBoundary(b, os, i, size)
    && b.processed == Records(parts, b.done, dryRun) && b.processed + b.failed == i <= |os| && 0 <= b.failed
    && b.currentBatch == Written(parts, b.done, dryRun) && b.progress == Fraction(b.processed, |os|)
    && HoldsLast(b, s, parts, dryRun, now)
  }

  lemma OneBatchKeepsInv(b: Batching, s: State, os: seq<Offer>, i: nat, size: nat, dryRun: bool, cancel: bool, now: Time)
    requires size >= 1 && i < |os| && BatchInv(b, s, os, i, size, dryRun, now)
    ensures var b' := OneBatch(b, os, i, size, dryRun, cancel, now);
            BatchInv(b', s, os, EndOf(i, size, |os|), size, dryRun, now) && b.progress <= b'.progress
  {
    var b' := OneBatch(b, os, i, size, dryRun, cancel, now);
    NextBoundary(b, b', os, i, size);
    Counted(b, os, i, size, dryRun, cancel, now);
    StillHoldsLast(b, b', s, Slices(os, size), dryRun, now);
  }

  /** What one batch adds to the counters. */
  lemma Counted(b: Batching, os: seq<Offer>, i: nat, size: nat, dryRun: bool, cancel: bool, now: Time)
    requires size >= 1 && i < |os| && b.done < |Slices(os, size)|
    requires Slices(os, size)[b.done] == os[i..EndOf(i, size, |os|)]
    requires 0 <= b.processed && 0 <= b.failed && b.processed + b.failed == i
    requires b.processed == Records(Slices(os, size), b.done, dryRun) && b.progress == Fraction(b.processed, |os|)
    requires b.currentBatch == Written(Slices(os, size), b.done, dryRun)
    ensures var b' := OneBatch(b, os, i, size, dryRun, cancel, now);
            && b'.processed + b'.failed == EndOf(i, size, |os|) && 0 <= b'.failed
            && b'.processed == Records(Slices(os, size), b'.done, dryRun)
            && b'.currentBatch == Written(Slices(os, size), b'.done, dryRun)
            && b'.progress == Fraction(b'.processed, |os|) && b.progress <= b'.progress
  {
    var b' := OneBatch(b, os, i, size, dryRun, cancel, now);
    assert b'.done == b.done + 1;
    assert dryRun || Passes(os[i..EndOf(i, size, |os|)]) ==> b'.processed == b.processed + EndOf(i, size, |os|) - i;
    FractionGrows(b.processed, b'.processed, |os|);
  }

  lemma StillHoldsLast(b: Batching, b': Batching, s: State, parts: seq<seq<Offer>>, dryRun: bool, now: Time)
    requires HoldsLast(b, s, parts, dryRun, now) && b'.done == b.done + 1 <= |parts|
    requires if dryRun || !Passes(parts[b.done]) then b'.state == b.state && b'.written == b.written
             else b'.state == Replaced(b.state, parts[b.done], now) && b'.written == Some(b.done)
    ensures HoldsLast(b', s, parts, dryRun, now)
  {
    if !dryRun && Passes(parts[b.done]) {
      ReplacedHoldsExactly(b.state, parts[b.done], now);
    }
  }

  lemma NextBoundary(b: Batching, b': Batching, os: seq<Offer>, i: nat, size: nat)
    requires size >= 1 && i < |os| && AtBoundary(b, os, i, size) && b'.done == b.done + 1
    ensures b.done < |Slices(os, size)| && Slices(os, size)[b.done] == os[i..EndOf(i, size, |os|)]
    ensures AtBoundary(b', os, EndOf(i, size, |os|), size)
  {
    SliceStarts(os, size, b.done);
    SliceStarts(os, size, b'.done);
  }

  function Fraction(p: int, n: nat): real {
    if n == 0 then 0.0 else p as real / n as real
  }

  lemma FractionGrows(p: int, q: int, n: nat)
    requires 0 <= p <= q <= n
    ensures 0.0 <= Fraction(p, n) <= Fraction(q, n) <= 1.0
  {
    if n > 0 {
      QuotientsOrdered(0.0, p as real, n as real);
      QuotientsOrdered(p as real, q as real, n as real);
      QuotientsOrdered(q as real, n as real, n as real);
    }
  }

  lemma QuotientsOrdered(x: real, y: real, d: real)
    requires x <= y && d > 0.0
    ensures x / d <= y / d
  {
    assert y / d - x / d == (y - x) / d;
    assert (y - x) / d >= 0.0;
  }

  lemma {:induction false} BatchesKeepInv(b: Batching, s: State, os: seq<Offer>, i: nat, size: nat, dryRun: bool,
                                          cancels: nat -> bool, now: Time)
    requires size >= 1 && i <= |os| && BatchInv(b, s, os, i, size, dryRun, now)
    ensures var end := Batches(b, os, i, size, dryRun, cancels, now);
            && 0 <= end.processed + end.failed <= |os|
            && BatchInv(end, s, os, end.processed + end.failed, size, dryRun, now)
            && (!end.cancelled ==> end.processed + end.failed == |os|)
            && b.progress <= end.progress
    decreases |os| - i
  {
    if i < |os| && !b.cancelled {
      OneBatchKeepsInv(b, s, os, i, size, dryRun, cancels(i), now);
      BatchesKeepInv(OneBatch(b, os, i, size, dryRun, cancels(i), now), s, os, EndOf(i, size, |os|), size, dryRun,
                     cancels, now);
    }
  }

  /** For every list of offers and batch size: the run goes through the batches in order, all of them
      unless it is cancelled; each counts as processed if it passes its checks, or if the run is
      dry, and as failed otherwise; progress is a fraction; and afterwards the store holds exactly
      the last of the batches dealt with that passed, or what it held before if none did. */
  lemma BatchAccounting(s: State, os: seq<Offer>, size: nat, dryRun: bool, cancels: nat -> bool, now: Time)
    requires size >= 1
    ensures var end, parts := Batches(Start(s), os, 0, size, dryRun, cancels, now), Slices(os, size);
            && end.done <= |parts| && (!end.cancelled ==> end.done == |parts|)
            && end.processed == Records(parts, end.done, dryRun)
            && end.currentBatch == Written(parts, end.done, dryRun)
            && end.processed + end.failed == Records(parts, end.done, true)
            && (!end.cancelled ==> end.processed + end.failed == |os|)
            && 0.0 <= end.progress <= 1.0
            && (dryRun ==> end.state == s)
            && HoldsLast(end, s, parts, dryRun, now)
  {
    SliceStarts(os, size, 0);
    BatchesKeepInv(Start(s), s, os, 0, size, dryRun, cancels, now);
    var end := Batches(Start(s), os, 0, size, dryRun, cancels, now);
    FractionGrows(0, end.processed, |os|);
    RecordsReached(end, os, end.processed + end.failed, size);
  }

  /** The position of the loop is the number of offers in the batches it has dealt with. */
  lemma RecordsReached(b: Batching, os: seq<Offer>, i: nat, size: nat)
    requires size >= 1 && AtBoundary(b, os, i, size)
    ensures Records(Slices(os, size), b.done, true) == i
    ensures i == |os| ==> b.done == |Slices(os, size)|
  {
    SlicesPartition(os, size);
    SliceStarts(os, size, b.done);
    AllRecords(os, size, b.done);
  }

  lemma {:induction false} AllRecords(os: seq<Offer>, size: nat, n: nat)
    requires size >= 1 && n <= |Slices(os, size)|
    ensures Records(Slices(os, size), n, true) == if n < |Slices(os, size)| then StartOf(n, size) else |os|
    decreases n
  {
    SliceStarts(os, size, n);
    if n > 0 {
      SliceStarts(os, size, n - 1);
      AllRecords(os, size, n - 1);
    }
  }

  lemma {:induction false} NeverCancelled(b: Batching, os: seq<Offer>, i: nat, size: nat, dryRun: bool,
                                          cancels: nat -> bool, now: Time)
    requires size >= 1 && i <= |os| && !b.cancelled && forall k: nat :: !cancels(k)
    ensures !Batches(b, os, i, size, dryRun, cancels, now).cancelled
    decreases |os| - i
  {
    if i < |os| {
      NeverCancelled(OneBatch(b, os, i, size, dryRun, cancels(i), now), os, EndOf(i, size, |os|), size, dryRun, cancels, now);
    }
  }

  /** Batches of valid offers, not cancelled, leave exactly the last batch in the store: an offer
      whose ID does not occur there is lost. */
  lemma OnlyLastBatchRemains(s: State, os: seq<Offer>, size: nat, cancels: nat -> bool, now: Time, j: nat)
    requires size >= 1 && j < |os| && forall k: nat :: !cancels(k)
    requires forall o :: o in os ==> Validate(o) == Ok
    ensures var end, last := Batches(Start(s), os, 0, size, false, cancels, now), (|os| - 1) / size;
            && last == |Slices(os, size)| - 1 && 0 <= last * size < |os| <= last * size + size
            && end.written == Some(last) && HoldsExactly(end.state, os[last * size..], now)
            && (os[j].id in end.state.offers <==> Mentions(os[last * size..], os[j].id))
  {
    var last := LastSlice(os, size);
    NeverCancelled(Start(s), os, 0, size, false, cancels, now);
    BatchAccounting(s, os, size, false, cancels, now);
    ValidBatchPasses(os[last * size..]);
    LastWritten(Batches(Start(s), os, 0, size, false, cancels, now), s, Slices(os, size), now);
  }

  lemma LastWritten(b: Batching, s: State, parts: seq<seq<Offer>>, now: Time)
    requires HoldsLast(b, s, parts, false, now) && b.done == |parts| > 0 && Passes(parts[|parts| - 1])
    ensures b.written == Some(|parts| - 1) && HoldsExactly(b.state, parts[|parts| - 1], now)
  {
    assert b.written.Some?;
  }

  lemma ValidBatchPasses(batch: seq<Offer>)
    requires forall o :: o in batch ==> Validate(o) == Ok
    ensures Passes(batch)
  {
    forall o | o in Somes(batch) ensures Checked(o) == Ok {
      assert o.value in batch;
    }
  }

  lemma LastSlice(os: seq<Offer>, size: nat) returns (last: nat)
    requires size >= 1 && os != []
    ensures last == |Slices(os, size)| - 1 == (|os| - 1) / size
    ensures 0 <= last * size < |os| <= last * size + size
    ensures Slices(os, size)[last] == os[last * size..]
  {
    SliceStarts(os, size, 0);
    last := |Slices(os, size)| - 1;
    SliceStarts(os, size, last);
    SliceStarts(os, size, last + 1);
    StartOfIsMultiple(last, size);
    assert os[last * size..EndOf(last * size, size, |os|)] == os[last * size..];
    Listing.QuotientIs(|os| - 1, size, last);
  }

  // Offers made from pools

  /** The exposure is subtracted in unsigned 64-bit arithmetic. `text` writes a key out. */
  function ToMarginOffer(p: Accounts.Pool, text: Accounts.Key -> string, now: Time): Offer {
    var available := (p.maxBorrow - p.currentExposure) % 0x1_0000_0000_0000_0000;
    var terms := Terms("LV", text(p.collateralType), text(p.qtType), available as real / 1000000000.0, 80.0, 90.0,
                       p.interestRate as real / 100.0, "floating", "leverage");
    Offer(text(p.nodeWallet), terms, NO_DETAILS, now, now)
  }

  /** What a pool still lends is the difference that its account says, in whole tokens, if and only if its
      exposure is within its limit; beyond that the difference wraps around. */
  lemma AvailableIsDifferenceIff(p: Accounts.Pool, text: Accounts.Key -> string, now: Time)
    ensures var o := ToMarginOffer(p, text, now);
            && o.id == text(p.nodeWallet) && o.created == o.updated == now && o.details == NO_DETAILS
            && o.terms.collateralToken == text(p.collateralType) && o.terms.borrowToken == text(p.qtType)
            && 100.0 * o.terms.interestRate == p.interestRate as real && o.terms.offerType == "LV"
            && (1000000000.0 * o.terms.availableBorrowAmount == (p.maxBorrow - p.currentExposure) as real
                <==> p.currentExposure <= p.maxBorrow)
  {
    var d := p.maxBorrow - p.currentExposure;
    assert d < 0 ==> d % 0x1_0000_0000_0000_0000 == d + 0x1_0000_0000_0000_0000;
  }

  function ToMarginOffers(pools: seq<Accounts.Pool>, text: Accounts.Key -> string, now: Time): seq<Offer> {
    seq(|pools|, i requires 0 <= i < |pools| => ToMarginOffer(pools[i], text, now))
  }

  /** A list of offers none of which is valid. */
  ghost predicate AllInvalid(os: seq<Offer>) {
    forall i :: 0 <= i < |os| ==> Validate(os[i]) != Ok
  }

  lemma {:induction false} InvalidBatchesFail(b: Batching, os: seq<Offer>, i: nat, size: nat, cancels: nat -> bool, now: Time)
    requires size >= 1 && i <= |os| && AllInvalid(os) && !b.cancelled
    ensures var end := Batches(b, os, i, size, false, cancels, now);
            end == b.(failed := b.failed + |os| - i, done := end.done)
    decreases |os| - i
  {
    if i < |os| {
      var end := EndOf(i, size, |os|);
      var batch := Somes(os[i..end]);
      assert batch[0] == Some(os[i]) && batch[0] in batch;
      InvalidBatchesFail(OneBatch(b, os, i, size, false, cancels(i), now), os, end, size, cancels, now);
    }
  }

  /** The loan-to-value ratios that pools are given are percentages, which are no valid ratios, so a
      chain backfill that is not a dry run fails on every record and writes nothing. */
  lemma ChainBackfillWritesNothing(s: State, pools: seq<Accounts.Pool>, text: Accounts.Key -> string, size: nat,
                                   cancels: nat -> bool, now: Time)
    requires size >= 1
    ensures var end := Batches(Start(s), ToMarginOffers(pools, text, now), 0, size, false, cancels, now);
            end.state == s && end.processed == 0 && end.failed == |pools| && end.written.None? && !end.cancelled
  {
    InvalidBatchesFail(Start(s), ToMarginOffers(pools, text, now), 0, size, cancels, now);
  }
}
