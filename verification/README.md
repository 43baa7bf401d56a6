# Margin offer system: a verified model

This project models the margin offer system (a Go service) in Dafny and proves properties of the
model. The parts modelled are

- the in-memory offer store with its three secondary indexes, which the code maintains by hand
  beside the primary map (`Types`, `IndexLists`, `StoreSpec`, `StoreInvariants`, `StoreRuns`,
  `StoreTheorems`, `StoreBatches`, `StoreFields`, `StoreOverwrite`, `Selection`, `StoreLookups`,
  `StoreExamples`, `MemoryStore`), and its isolation from what its callers do (`Isolation`);
- listing, sorting and cursor paging, and the gRPC handlers with logic of their own
  (`Listing`, `ListingFilters`, `GrpcServer`, `UpsertRace`);
- the change-notification fan-out (`Notifications`, `Deliveries`, `NotificationService`);
- the ETL retry loop and the event handlers (`EtlRetry`, `EtlEvents`, `EventRace`, `EtlProcessor`);
- the backfill worker pool and batch loop (`WorkerPool`, `Backfill`, `Backfiller`);
- the binary account decoders (`Accounts`).

`dafny verify dfyconfig.toml` checks the whole project.

## How the model is built

`StoreSpec` says on values what each store operation does; `MemoryStore` is a class with the fields
of the Go struct whose methods, loops included, are proved to do exactly that. A `MarginOffer` is an
object on the heap that points to cells of its own for its optional fields, as the Go struct does;
`Value` reads it, cells included, and `Clone` copies it, cells included. The store keeps objects
that no caller can reach, and writes to a caller's object nothing but time stamps. Concurrency is
modelled by systems of steps (`Notifications`, `EtlRetry`, `WorkerPool`, `UpsertRace`, `EventRace`): a
theorem about every run covers every interleaving. The objects in `NotificationService`,
`EtlProcessor` and `Backfiller` are proved against those systems.

What a filter, an order or a time stamp means is said apart from the functions that compute it, on the
fields of the offers: `StoreFields` for the operations, `Selection` for the overwrite, `ListingFilters` for
the list and `Deliveries` for the notifications.

`Filed`, `Due` and `Excess` in `StoreInvariants` carry the index proofs: the surplus entries of a
list are what it holds less what it should hold. *Complete* means no list falls short, *exact* means
that no list has a surplus either and none is empty. A call is *index-safe* (`IndexSafe`) unless it is a
batch update that repeats an ID whose keys change in between, or an overwrite whose batch repeats an
ID or contains one that its filter retains.

## Where the code and what is said about it differ

- `NewMemoryStore` (store/memory_store.go:33-39) never makes the three index maps, so the first
  creation would write to a nil map. The model starts with empty maps, which is what is meant.
- docs/source_field_usage.md describes filtering by `Source`. Neither match function tests it, and
  neither does the model.
- `BulkUpdate` and `BulkOverwriteByFilter` can leave stale index entries. When exactly is proved
  (`BulkUpdateKeeps`, `OverwriteKeeps`), with runs that do (`StoreExamples`).
- `ListMarginOffers` adds offset and limit in 32 bits and counts unfiltered offers. When exactly
  paging is complete is proved, for any sort field and limit (`PagingCompleteIff`): it need not be
  in the default order, by time of creation, as a batch creation stamps all its offers alike.
- `BulkOverwriteMarginOffers` reports no deletions when there is no filter, although everything is
  deleted (`ReportBalancesIff`).
- The fan-out and the heartbeats send to a snapshot of the subscribers and can send on a channel that
  has been closed since (`PanicIff`, `LeavingDuringFanOutPanics`). The time of
  last activity is written after the send, without the lock, and a heartbeat writes the start of its
  round, so an active subscription can be removed as idle. When exactly is proved
  (`CleanupRemovesIff`), with runs that do (`LateHeartbeatLooksIdle`, `CleanupBeforeStamp`,
  `HeartbeatStampsOverChange`).
- A liquidity event and an interest-rate event read and write the whole offer, so one can undo the
  other. When exactly is proved (`LostUpdateIff`).
- Each batch of a backfill replaces the whole store, so only the last one remains
  (`OnlyLastBatchRemains`). Pools are given ratios in percent, which are not valid ratios, so a chain
  backfill writes nothing at all (`ChainBackfillWritesNothing`); and it asks the chain for accounts of
  105 bytes, which are too short to decode (`DecodePools`; backfillers/backfiller.go:372).

## Model

| member | source | states |
|---|---|---|
| `StoreTheorems.CallKeeps` | store/memory_store.go:50-262 | Whatever a caller passes to any of the ten mutating operations, afterwards every stored offer is valid, stored under its own ID and filed under each of its keys, and no index list is empty; and from exact indexes the call leaves exact indexes if and only if it is index-safe. |
| `StoreTheorems.RunsStayWellFormed` | store/memory_store_upsert.go:64-161 | Index completeness over every run, with nothing asked of the callers. |
| `StoreTheorems.SafeRunsStayExact` | store/memory_store.go:216-262 | Index exactness over every run of index-safe calls. |
| `StoreTheorems.ExactIndexReads` | store/memory_store.go:216-253 | What exactness means for a list: non-empty, free of repetitions, the IDs of exactly the stored offers with the key. |
| `StoreTheorems.BulkCreateKeeps` | store/memory_store_bulk.go:11-59 | A batch creation keeps completeness and exactness. |
| `StoreTheorems.BulkUpdateKeeps` | store/memory_store_bulk.go:62-110 | A batch update keeps completeness; it keeps exactness if and only if every offer that a later one of the batch replaces keeps the keys of the offer stored before. |
| `StoreTheorems.BulkDeleteKeeps` | store/memory_store_bulk.go:113-145 | A batch delete, with repeated IDs, keeps completeness and exactness. |
| `StoreTheorems.OverwriteKeeps` | store/memory_store_upsert.go:64-121 | A filtered overwrite keeps completeness; it keeps exactness if and only if the batch IDs are distinct and none belongs to an offer that the filter retains. |
| `StoreRuns.FillAllExactIff` | store/memory_store_upsert.go:91-103 | Inserting without de-indexing leaves exact indexes if and only if every inserted ID is new. |
| `StoreRuns.UpdateAllExactIff` | store/memory_store_bulk.go:80-106 | De-indexing what was looked up before the loop is right, and the same as upserting one by one, if and only if repeated IDs keep their keys. |
| `StoreRuns.AgreedUpdateIsUpsert` | store/memory_store_bulk.go:93-106 | Where repeated IDs keep their keys the batch update equals the upserts in order, index lists and all. |
| `StoreRuns.StrayEntryAppears` | store/memory_store_bulk.go:81-106 | Where they do not, an entry under the key in between stays behind for good. |
| `StoreInvariants.ExcessReplace` | store/memory_store.go:216-262 | How de-indexing one offer and indexing another changes the surplus entries of every list. |
| `IndexLists.OccPull` | store/memory_store.go:231-253 | Taking an ID out of a list removes one entry of it, leaves every other entry of every list, and leaves no empty list. |
| `IndexLists.RemoveFromSlice` | store/memory_store.go:255-262 | The slice without the first occurrence of the item. |
| `StoreBatches.BulkCreateIsCreateEach` | store/memory_store_bulk.go:11-59 | A batch creation succeeds exactly when creating the offers one by one does, and then does the same; otherwise nothing changes. |
| `StoreBatches.BulkUpsertIsUpsertEach` | store/memory_store_upsert.go:29-56 | A batch upsert is the upserts in order, repeated IDs included; a bad offer anywhere in the batch changes nothing. |
| `StoreBatches.BulkUpdateIsUpsertEachIff` | store/memory_store_bulk.go:62-110 | From any state an error changes nothing, and otherwise the batch stores what the upserts in order store; it equals them, index lists and all, if the IDs are distinct, and from exact indexes if and only if repeated IDs keep their keys. |
| `StoreBatches.BulkDeleteIsDeleteEach` | store/memory_store_bulk.go:113-145 | From any state a batch delete succeeds exactly when every ID is stored and removes exactly that set, an error changing nothing; it equals the single deletes if the IDs are distinct and, in a reachable state, if and only if no offer whose ID is repeated has surplus entries under its own keys. |
| `StoreFields.FirstFault` | types/margin_offer.go:45-74 | An offer is accepted if it has no fault, and otherwise refused with the first of its faults, in the order in which they are looked for. |
| `StoreFields.FirstRefused` | store/memory_store_upsert.go:34-42 | A batch is refused with the error of the first of its offers that has one. |
| `StoreFields.FirstUndeletable` | store/memory_store_bulk.go:113-130 | A batch delete is refused with the error of the first ID that cannot be deleted. |
| `StoreFields.RefusedIds` | store/memory_store_bulk.go:17-88 | A batch of valid offers is refused because of IDs only: a creation because one exists, an update because one does not. |
| `StoreFields.CreateStores` | store/memory_store.go:50-92 | When a creation is refused, with which error, and that otherwise it stores the offer with the time of the call as both times and changes no other offer. |
| `StoreFields.UpdateStores` | store/memory_store.go:112-154 | The same for an update, which keeps the time of creation that comes with the offer. |
| `StoreFields.UpsertStores` | store/memory_store_upsert.go:124-161 | The same for an upsert: the time of creation is that of the offer stored before, if there was one; otherwise the one given, if one was given; otherwise that of the call. |
| `StoreFields.DeleteRemoves` | store/memory_store.go:157-178 | The same for a delete, which removes one offer and leaves the others. |
| `StoreFields.CreationTimeLasts` | store/memory_store_upsert.go:124-161 | Over every run of creations, upserts and batch updates a stored offer keeps the time at which it was created. |
| `StoreFields.StoredIsFiledLast` | store/memory_store.go:216-262 | From exact indexes a stored offer goes to the end of the lists of its keys and the other entries of every list stay in order. |
| `StoreOverwrite.OverwriteContents` | store/memory_store_upsert.go:64-121 | After an overwrite the store is the offers the filter does not select, overlaid by the batch, the last offer with an ID winning, with the time of creation that it was given, if it was given one. |
| `StoreOverwrite.OverwriteCountIff` | store/memory_store_upsert.go:76-121 | The count is the old count less the selected offers plus the batch if and only if the call is index-safe, and smaller otherwise. |
| `StoreOverwrite.OverwriteDeterministic` | store/memory_store_upsert.go:164-183 | The order in which the map is ranged over makes no difference to the resulting store, index lists included. |
| `StoreOverwrite.DropOrderIrrelevant` | store/memory_store_upsert.go:82-86 | De-indexing and deleting in any order leaves the same map and the same lists. |
| `Selection.RemovesAll` | store/memory_store_upsert.go:164-172 | Without a filter, or without a criterion in it, an overwrite removes every stored offer; here and below: the set is also what the statistics and the preview say, and other offers stay as they were but for what the batch stores. |
| `Selection.RemovesPair` | store/memory_store_upsert.go:193-198 | With a token pair: exactly the offers with that collateral and that borrow token. |
| `Selection.RemovesType` | store/memory_store_upsert.go:188-190 | With a type: exactly the offers of that type, those that a scan by type finds. |
| `Selection.RemovesCollateral` | store/memory_store_upsert.go:193-195 | With a collateral token: exactly the offers with it. |
| `Selection.RemovesBorrow` | store/memory_store_upsert.go:196-198 | With a borrow token: exactly the offers with it. |
| `Selection.RemovesLender` | store/memory_store_upsert.go:201-205 | With a lender: exactly the offers that have it, those that a scan by lender finds. |
| `Selection.RemovesLiquiditySource` | store/memory_store_upsert.go:208-210 | With a liquidity source: exactly the offers with it. |
| `Selection.RemovesCreatedAfter` | store/memory_store_upsert.go:213-215 | With an earliest time of creation: exactly the offers created at it or later. |
| `Selection.RemovesCreatedBefore` | store/memory_store_upsert.go:216-218 | With a latest time of creation: exactly the offers created at it or earlier. |
| `Selection.RemovesUpdatedAfter` | store/memory_store_upsert.go:219-221 | With an earliest time of update: exactly the offers updated at it or later. |
| `Selection.RemovesUpdatedBefore` | store/memory_store_upsert.go:222-224 | With a latest time of update: exactly the offers updated at it or earlier. |
| `Selection.RemovesBoth` | store/memory_store_upsert.go:186-227 | With the criteria of two filters: exactly the offers that each of them alone removes; naming a source selects nothing. |
| `StoreExamples.RepeatedUpdateLeavesStray` | store/memory_store_bulk.go:81-106 | Two updates of one ID in a batch, the first to another token pair, leave inexact indexes. |
| `StoreExamples.RetainedIdLeavesStray` | store/memory_store_upsert.go:91-103 | An overwrite with an ID that the filter retains leaves inexact indexes. |
| `StoreExamples.BarsCollide` | store/memory_store.go:224 | With a bar inside the tokens a lookup by pair returns an offer of another pair. |
| `StoreLookups.LookupNeverMisses` | store/memory_store_queries.go:55-113 | In every reachable state an indexed lookup returns every stored offer with the key. |
| `StoreLookups.LookupIsScan` | store/memory_store_queries.go:55-113 | With exact indexes an indexed lookup returns the offers a scan selects, each once. |
| `StoreLookups.EnumerationsAgree` | store/memory_store_queries.go:10-113 | Two results that hold the same stored offers once each are equal as multisets. |
| `Listing.LenderLookupIsListing` | store/memory_store_queries.go:10-72 | From exact indexes, looking a lender up and listing by lender, with no other filter and a limit of at least the count, give the same offers. |
| `Listing.TypeLookupIsListing` | store/memory_store_queries.go:43-113 | The same for an offer type. |
| `Listing.TokenLookupIsListingIff` | store/memory_store_queries.go:26-93 | For a token pair the two agree if and only if no stored offer of another pair has the same joined key. |
| `StoreLookups.TokenKeyInjective` | store/memory_store.go:224 | The joined token key determines the pair when the collateral tokens have no bar in them. |
| `StoreLookups.PairLookupIsScanIff` | store/memory_store_queries.go:75-93 | A lookup by token pair equals a scan for the pair if and only if no stored offer of another pair has the same joined key. |
| `StoreLookups.BarFreeNeverCollides` | store/memory_store.go:224 | Collateral tokens without a bar never collide. |
| `StoreLookups.CountIsCardinality` | store/memory_store_bulk.go:156-166 | With exact indexes the count for a type is the number of stored offers of the type. |
| `StoreLookups.CountsAddUp` | store/memory_store_bulk.go:148-166 | The counts of the indexed types add up to the number of stored offers. |
| `StoreLookups.TotalPicks` | store/memory_store_bulk.go:169-181 | The total liquidity does not depend on which offer is added first, and so not on the order of the scan. |
| `StoreLookups.LiquidityOfStore` | store/memory_store_bulk.go:169-181 | An empty store has a total of zero; storing an offer that lends the token adds its available amount, and that of the offer it replaces no longer counts. |
| `StoreLookups.LiquidityOfDelete` | store/memory_store_bulk.go:169-181 | Deleting an offer that lends the token takes exactly its available amount out of the total. |
| `MemoryStores.MemoryStore.Create` | store/memory_store.go:50-92 | Creates as specified, stamps the caller's offer, stores an object of the store's own. |
| `MemoryStores.MemoryStore.GetByID` | store/memory_store.go:95-109 | Returns a new object with the stored value, or the error. |
| `MemoryStores.MemoryStore.Update` | store/memory_store.go:112-154 | Replaces the offer and its index entries; stamps only the time of update on the caller's offer. |
| `MemoryStores.MemoryStore.Delete` | store/memory_store.go:157-178 | Deletes the offer and its index entries. |
| `MemoryStores.MemoryStore.AddToIndexes` | store/memory_store.go:216-229 | Files the ID under each key of the offer. |
| `MemoryStores.MemoryStore.RemoveFromIndexes` | store/memory_store.go:231-253 | Removes one entry under each key, and keys left without entries. |
| `MemoryStores.MemoryStore.CreateOrUpdate` | store/memory_store_upsert.go:13-26 | Upserts as specified (field by field in `UpsertStores`), and leaves the same stamps on the caller's offer. |
| `MemoryStores.MemoryStore.CreateOrUpdateInternal` | store/memory_store_upsert.go:124-161 | The upsert of a valid offer, which keeps the creation time of what it replaces, or else the one that the offer came with. |
| `MemoryStores.MemoryStore.BulkCreate` | store/memory_store_bulk.go:11-59 | The whole new state and outcome, also when objects repeat in the batch; an error leaves the caller's offers alone, success only stamps them. |
| `MemoryStores.MemoryStore.BulkUpdate` | store/memory_store_bulk.go:62-110 | The same for the batch update. |
| `MemoryStores.MemoryStore.BulkCreateOrUpdate` | store/memory_store_upsert.go:29-56 | The same for the batch upsert. |
| `MemoryStores.MemoryStore.BulkDelete` | store/memory_store_bulk.go:113-145 | The whole new state and outcome of a batch delete. |
| `MemoryStores.MemoryStore.IdentifyOffersToDelete` | store/memory_store_upsert.go:164-183 | The selected objects, each once. |
| `MemoryStores.MemoryStore.BulkOverwriteByFilter` | store/memory_store_upsert.go:64-121 | The whole new state for the order the map was ranged over in; an error changes nothing. |
| `MemoryStores.MemoryStore.BulkOverwrite` | store/memory_store_upsert.go:59-61 | An overwrite that selects every stored offer. |
| `MemoryStores.MemoryStore.GetOverwriteStats` | store/memory_store_upsert.go:230-236 | The number of offers that an overwrite would remove. |
| `MemoryStores.MemoryStore.PreviewOverwrite` | store/memory_store_upsert.go:239-250 | The IDs of exactly the offers that an overwrite would remove, each once. |
| `MemoryStores.MemoryStore.Count` | store/memory_store_bulk.go:148-153 | The number of stored offers. |
| `MemoryStores.MemoryStore.CountByOfferType` | store/memory_store_bulk.go:156-166 | The length of the index list for the type. |
| `MemoryStores.MemoryStore.GetTotalLiquidity` | store/memory_store_bulk.go:169-181 | The total over the map, ranged over in any order. |
| `MemoryStores.MemoryStore.GetOffersByLenderFromIndex` | store/memory_store_queries.go:55-72 | New objects for the offers behind the index list. |
| `MemoryStores.MemoryStore.GetOffersByTokenFromIndex` | store/memory_store_queries.go:75-93 | New objects for the offers behind the index list of the joined key. |
| `MemoryStores.MemoryStore.GetOffersByTypeFromIndex` | store/memory_store_queries.go:96-113 | New objects for the offers behind the index list. |
| `MemoryStores.SortOffers` | store/memory_store_filters.go:94-136 | A permutation in which no key comes before a key it must not precede; equal keys in either order. |
| `MemoryStores.MemoryStore.List` | store/memory_store.go:181-213 | The page, as new objects, of a sorted list of exactly the matching offers, or the panic where the slice bounds are out of order. |
| `MemoryStores.MemoryStore.ListByLender` | store/memory_store_queries.go:10-23 | The list, of new objects, for the request with the lender filled in; an empty lender is an error. |
| `MemoryStores.MemoryStore.ListByToken` | store/memory_store_queries.go:26-40 | The list, of new objects, for the request with the pair filled in; an empty token is an error. |
| `MemoryStores.MemoryStore.ListByOfferType` | store/memory_store_queries.go:43-52 | The list, of new objects, for the request with the type filled in. |
| `ListingFilters.ListsByText` | store/memory_store_filters.go:13-40 | With one text asked for and nothing else, a listing has exactly the stored offers with that type, collateral token, borrow token, interest model, liquidity source or lender. |
| `ListingFilters.ListsByNumber` | store/memory_store_filters.go:43-62 | With one bound on the amount, the rate or the opening ratio: exactly the stored offers on the right side of it, the bound included. |
| `ListingFilters.ListsByTime` | store/memory_store_filters.go:65-76 | The same for a bound on the time of creation or of update. |
| `ListingFilters.ListsUnexpired` | store/memory_store_filters.go:79-81 | With nothing asked for a listing has every stored offer; without the expired ones, exactly those that have no term or whose days have not passed. |
| `ListingFilters.ListsActive` | store/memory_store_filters.go:83-88 | Asking for active offers leaves exactly those that have not expired and have an amount to lend. |
| `ListingFilters.ListsBoth` | store/memory_store_filters.go:11-91 | Two requests at once select exactly the offers that each of them selects. |
| `ListingFilters.StricterListsLess` | store/memory_store_filters.go:11-91 | Asking for more, raising a minimum or lowering a maximum never adds an offer. |
| `ListingFilters.SortedByNumber` | store/memory_store_filters.go:112-119 | In a listing sorted by rate, amount or either ratio the numbers never decrease if ascending order is asked for, and never increase otherwise. |
| `ListingFilters.SortedByTime` | store/memory_store_filters.go:95-111 | The same for the times, the time of creation being the default field and descending the default direction. |
| `ListingFilters.SortedByText` | store/memory_store_filters.go:120-125 | The same for the type and the tokens, as texts. |
| `ListingFilters.SortedById` | store/memory_store_filters.go:126-128 | Any other field sorts by ID, strictly. |
| `ListingFilters.TextLessIff` | store/memory_store_filters.go:120-128 | One text is less than another if it is a proper beginning of it or has the smaller character where they first differ. |
| `ListingFilters.CaseIsIgnored` | store/memory_store_filters.go:102-107 | Capital and small letters make no difference in the names of fields and directions. |
| `ListingFilters.PageReads` | store/memory_store.go:199-212 | A page is as many offers as asked for, from the offset on, as far as there are; when exactly cutting it panics. |
| `ListingFilters.DefaultPage` | store/memory_store.go:182-184 | A call without a request gets the first hundred of the offers that have not expired, the latest first. |
| `Types.MarginOffer.Clone` | types/margin_offer.go:96-115 | A new object with the same value that shares no cell with the original or with anything else. |
| `Isolation.Client.Act` | store/memory_store.go:50-213 | For every sequence of creations of offers, assignments and writes to any object or cell the client holds (its own, passed in or handed out), queries and calls: client and store share no object, and the store is what the calls alone make of it, on the values that their arguments had when they were made. |
| `Isolation.Client.ActCall` | store/memory_store.go:73 | A call takes the values that its arguments have at that moment and gives the client nothing of the store's. |
| `Isolation.Client.ActOwn` | types/margin_offer.go:96-115 | Whatever else the client does, the store stays as it is. |
| `Listing.CursorCoversIff` | store/grpc_server.go:132-172 | A walk along next_offset from 0 returns the whole list, although has_more uses the unfiltered count, if the count is within the range that 32-bit offsets in steps of the limit reach; beyond it the offset wraps around and the walk panics. |
| `Listing.PagingCompleteIff` | store/grpc_server.go:132-172 | For any sort field and limit: the walk, each page cut from a list sorted anew, is sure to return every matching offer exactly once and in order if and only if the count is within the range of the cursor and no two matching offers with the same key stand on different pages. |
| `Listing.PagingCovers` | store/grpc_server.go:132-172 | In particular it does when the sort keys of the matching offers differ. |
| `Listing.SameKeysEverywhere` | store/memory_store_filters.go:94-136 | Any two sorted arrangements of the same offers have the same key in every place. |
| `Listing.ListedUnique` | store/memory_store_filters.go:94-136 | With differing keys every call sorts the matching offers alike. |
| `Listing.IdKeysDiffer` | store/memory_store_filters.go:126-129 | Any unnamed sort field sorts by ID, and IDs differ. |
| `Listing.TiesLoseOffers` | store/memory_store_filters.go:94-136 | Two matching offers with equal keys on different pages can be ordered differently by different calls, and then the walk returns one of them twice and the other never. |
| `Listing.MayPrecedeTransitive` | store/memory_store_filters.go:104-135 | The order used for sorting is transitive in both directions. |
| `Listing.ClampLimit` | store/grpc_converters.go:204-210 | The limit of a request ends up between 1 and 1000; one in that range is kept. |
| `GrpcServers.GRPCServer.ListMarginOffers` | store/grpc_server.go:132-172 | The page with the clamped limit, the unfiltered total, and the cursor in 32-bit arithmetic. |
| `GrpcServers.GRPCServer.CreateOrUpdateMarginOffer` | store/grpc_server.go:215-256 | Undisturbed, it creates if and only if the ID is not stored and reports which it did. |
| `GrpcServers.GRPCServer.BulkOverwriteMarginOffers` | store/grpc_server.go:362-423 | The new state of the store, the counts and the IDs reported, and the refused requests. |
| `GrpcServers.ReportBalancesIff` | store/grpc_server.go:386-422 | The reported counts account for the change in the number of offers if and only if the overwrite is index-safe and had a filter or an empty store to work on. |
| `UpsertRaces.RaceHasOneWinner` | store/grpc_server.go:215-256 | Under every interleaving of the get and write steps of any number of handlers: the indexes stay exact, exactly one handler reports to have created an initially absent ID once all have replied, and every other valid one updated it or was told that it already exists. |
| `UpsertRaces.StoredIdIsUpdated` | store/grpc_server.go:215-256 | Under every interleaving, if the ID was stored before, every handler that has replied to a valid offer has updated it to what it was given; none creates and none is refused. |
| `UpsertRaces.StepKeepsInv` | store/memory_store.go:50-154 | What each step of each handler keeps. |
| `Notifications.DeliveryInOrder` | store/notification_service.go:159-203 | Under every interleaving the change messages sent to a subscriber are, in order, events accepted since it subscribed that match its filter, all of those processed for it if none was dropped, and the queues keep within their capacities. |
| `Deliveries.NothingUnasked` | store/notification_service.go:206-257 | Under every interleaving a change that a subscriber was sent is of a kind whose own flag it set and agrees with every criterion that it gave. |
| `Deliveries.NothingMissing` | store/notification_service.go:206-257 | Under every interleaving, if nothing was dropped, it was sent every change processed for it, as often as it was processed, that is of a kind whose flag it set and has what each criterion names. |
| `Deliveries.SentCount` | store/notification_service.go:191-202 | A change is sent at most as often as it was processed, not at all if it does not match, and exactly as often if it does and nothing was dropped. |
| `Deliveries.NoEarlyDrop` | store/notification_service.go:194-200 | Under every interleaving nothing is dropped before a subscriber was sent as many messages as its channel has room for. |
| `Deliveries.AcceptedInOrder` | store/notification_service.go:159-165 | Under every interleaving the accepted events are among the notified ones, in order, and all of them as long as no more than a thousand have been notified. |
| `Notifications.Lifecycle` | store/notification_service.go:111-156 | Under every interleaving at most the maximum is registered, a channel is open exactly while its subscription is registered, and none is closed twice. |
| `Notifications.CleanupRemovesIff` | store/notification_service.go:382-395 | In every reachable state: a subscription sent something within the hour is removed if and only if the time last written to it is over an hour old and comes from a round of heartbeats, or is still to be overwritten; one that was not is removed unless its time was written within the hour after a change. |
| `Notifications.CleanupBeforeStamp` | store/notification_service.go:193-201 | A cleanup between the sending of a change and the writing of the time removes the subscription. |
| `Notifications.HeartbeatStampsOverChange` | store/notification_service.go:336-364 | A late heartbeat can overwrite the time of a change sent after it, so that the subscription is removed with a change as its last message and nothing pending. |
| `Notifications.LateHeartbeatLooksIdle` | store/notification_service.go:336-364 | A heartbeat delivered late leaves a subscription looking idle, so that it is removed at the time it was last sent something. |
| `Notifications.PanicIff` | store/notification_service.go:180-203 | A step ends the program exactly if it sends, to a subscriber gone since the snapshot, a matching event or a heartbeat. |
| `Notifications.CalmRunsDoNotPanic` | store/notification_service.go:142-203 | No run does in which subscribers leave only when no fan-out or round of heartbeats has still to serve them. |
| `Notifications.LeavingDuringFanOutPanics` | store/notification_service.go:142-203 | A run in which a subscriber leaves during the fan-out of a matching event. |
| `Notifications.StepKeepsInv` | store/notification_service.go:97-402 | What every step of the service keeps. |
| `NotificationServices.NotificationService.Subscribe` | store/notification_service.go:111-139 | The subscribe step, refused at the maximum. |
| `NotificationServices.NotificationService.Unsubscribe` | store/notification_service.go:142-156 | The unsubscribe step, refused for an unknown subscription. |
| `NotificationServices.NotificationService.NotifyChange` | store/notification_service.go:159-165 | The notify step: queued, or dropped when the queue is full. |
| `NotificationServices.NotificationService.ProcessChangeEvent` | store/notification_service.go:180-203 | A take step and then, for each subscriber of the snapshot, a send step and the writing of the time if it went through. |
| `NotificationServices.NotificationService.CleanupInactiveSubscriptions` | store/notification_service.go:382-395 | The cleanup step, ranging over the map and deleting from it. |
| `EtlRetry.RetryConservation` | realtime-etl/event_processors.go:251-274 | Under every interleaving each accepted event is in exactly one place, is attempted at most four times less its initial retry count, exactly that often if given up, and the error counter is the sum of the failed attempts. |
| `EtlRetry.MeasureDecreases` | realtime-etl/event_processors.go:251-274 | Every step other than an arrival decreases a bounded measure. |
| `EtlRetry.DrainsInTime` | realtime-etl/event_processors.go:251-274 | Without new events there are at most as many steps as the measure says. |
| `EtlRetry.StopsWhenDone` | realtime-etl/event_processors.go:11-37 | The pipeline stops only when every accepted event has succeeded or been given up. |
| `EtlRetry.FirstInFirstOut` | realtime-etl/event_processors.go:11-37 | Under every interleaving events are processed in the order in which they were put into the queue, for the first time or again. |
| `EtlRetry.StepKeepsInv` | realtime-etl/event_processors.go:251-274 | What every step of the retry loop keeps. |
| `EtlEvents.EventsCommute` | realtime-etl/event_processors.go:144-223 | A liquidity event and an interest-rate event succeed or fail alike in either order, and the two orders leave stores that differ in times of update and the order within index lists only. |
| `EventRaces.LostUpdateIff` | realtime-etl/event_processors.go:144-223 | Under every interleaving of their lookups and writes the two handlers leave what either order of running them leaves if and only if it is not so that both looked the same offer up before either wrote, both can write, and the first to write changes something. |
| `EtlEvents.LiquidityRewrites` | realtime-etl/event_processors.go:144-186 | When a liquidity event succeeds, and that it then sets the available amount of one offer, and its time of update, and changes no other field, no other offer and no index entry. |
| `EtlEvents.RateRewrites` | realtime-etl/event_processors.go:189-223 | The same for an interest-rate event, which sets the rate and its model. |
| `EtlEvents.FailureChangesNothing` | realtime-etl/event_processors.go:98-141 | When a margin-offer event succeeds, and that a failed one leaves the store as it was. |
| `EtlEvents.DeletionEvent` | realtime-etl/event_processors.go:246-248 | A deletion event that succeeds removes the offer and one entry from the list of each of its keys, all entries if the indexes are exact, and leaves every other offer and entry. |
| `EtlEvents.StoringEvent` | realtime-etl/event_processors.go:226-244 | A creation or update event that succeeds stores the offer it carries, under the event's ID if it has none, field by field, with the first time of creation given by the stored offer, the offer, the event or the call; every other offer stays. |
| `EtlProcessors.Processor.ProcessLiquidityEvent` | realtime-etl/event_processors.go:144-186 | The new store and result of a liquidity event. |
| `EtlProcessors.Processor.ProcessInterestRateEvent` | realtime-etl/event_processors.go:189-223 | The new store and result of an interest-rate event. |
| `EtlProcessors.Processor.ProcessMarginOfferEvent` | realtime-etl/event_processors.go:98-141 | The new store and result of a margin-offer event. |
| `EtlProcessors.Processor.StoreOffer` | realtime-etl/event_processors.go:226-244 | Fills the gaps in the event's offer and upserts it. |
| `EtlProcessors.Processor.HandleMarginOfferEvent` | realtime-etl/processor.go:210-220 | The arrival step: queued, with its time as that of the last event, or dropped when the queue is full. |
| `EtlProcessors.Processor.HandleProcessingError` | realtime-etl/event_processors.go:251-274 | Counts the error and lets a retryable event wait, with its retry count increased. |
| `EtlProcessors.Processor.TakeEvent` | realtime-etl/event_processors.go:14-18 | The take step. |
| `EtlProcessors.Processor.Conclude` | realtime-etl/event_processors.go:26-28 | The finish step. |
| `EtlProcessors.Processor.Requeue` | realtime-etl/event_processors.go:266-272 | The requeue step. |
| `WorkerPools.PoolProtocol` | backfillers/workers.go:11-89 | Under every interleaving submitted jobs are queued, held, completed or failed, no more jobs are active than there are workers even with stale ones, each finished job is sent exactly one result, a success if and only if it counts as completed, and no send is skipped because a channel is full. |
| `WorkerPools.FirstInFirstOut` | backfillers/workers.go:11-25 | Under every interleaving jobs are taken up, by whichever worker, in the order in which they were submitted. |
| `WorkerPools.RegisteredUntilStale` | backfillers/workers.go:344-356 | Under every interleaving a registered job stays active, with its start, until it is deregistered or more than an hour old, and a cleanup drops it exactly if it is more than an hour old. |
| `WorkerPools.StepKeepsInv` | backfillers/backfiller.go:116-152 | What every step of the pool keeps. |
| `WorkerPools.ActiveBound` | backfillers/workers.go:344-356 | The active jobs are at most the workers. |
| `Backfills.SlicesPartition` | backfillers/workers.go:114-122 | The batches are consecutive and partition the list, all of them full but perhaps the last. |
| `Backfills.SliceStarts` | backfillers/workers.go:114-122 | Batch number q is the slice from where q full batches end. |
| `Backfills.BatchAccounting` | backfillers/workers.go:112-164 | The run deals with the batches in order, with all of them unless it is cancelled; the records of those that pass their checks count as processed and the others as failed, and the batch counter counts the former; progress is a fraction; and afterwards the store holds exactly the last batch dealt with that passed, or is unchanged if none did or the run is dry. |
| `Backfills.OneBatchKeepsInv` | backfillers/workers.go:116-138 | What one batch keeps; progress never decreases. |
| `Backfills.OnlyLastBatchRemains` | backfillers/workers.go:114-133 | With valid offers and no cancellation the store afterwards holds exactly the last batch, which starts at the last multiple of the batch size. |
| `Backfills.ReplacedIsOverwrite` | store/memory_store_upsert.go:59-121 | A whole-store overwrite leaves the same store in whatever order the map is ranged over. |
| `Backfills.ChainBackfillWritesNothing` | types/pool.go:381-398 | Offers made from pools are never valid, so a chain backfill fails on every record and writes nothing. |
| `Backfills.AvailableIsDifferenceIff` | types/pool.go:381-398 | An offer made from a pool has the pool's tokens and rate, and its available amount is the difference of limit and exposure if and only if the exposure is within the limit. |
| `Backfillers.Backfiller.ProcessChainBackfill` | backfillers/workers.go:92-164 | The store, the counters and the result after a chain backfill. |
| `Backfillers.Backfiller.RunBatches` | backfillers/workers.go:114-163 | The batch loop computes the run of batches. |
| `Backfillers.Backfiller.DoBatch` | backfillers/workers.go:117-157 | One pass of the loop computes one batch of the run. |
| `Backfillers.Backfiller.WriteBatch` | backfillers/workers.go:125-133 | A valid batch replaces the whole store, a batch with a bad offer changes nothing, and neither does a dry run. |
| `Backfillers.Backfiller.RunJob` | backfillers/workers.go:47-58 | What running a job makes of the store, and the error it ends with; only the chain can be run. |
| `Backfillers.JobOutcome` | backfillers/workers.go:47-164 | A job succeeds if it names the chain, says which part, gets an answer and is not cancelled; one that does not get so far leaves the store as it is. |
| `Backfillers.Backfiller.ValidateBackfillRequest` | backfillers/backfiller.go:336-347 | Which requests are refused, and that an accepted one has a positive batch size, its own if that was positive. |
| `Backfillers.Backfiller.Submit` | backfillers/backfiller.go:116-143 | The submit step for a valid request, or the reason why it is refused. |
| `Backfillers.Backfiller.TakeJob` | backfillers/workers.go:15-17 | The take step. |
| `Backfillers.Backfiller.PerformCleanup` | backfillers/workers.go:344-356 | The cleanup step, ranging over the active jobs and deleting from them. |
| `Backfillers.Backfiller.ProcessJob` | backfillers/workers.go:28-89 | The register, count, report and deregister steps; the store, the error and the counters are those of the run, and the job ends with full progress and the status that goes with the error. |
| `Accounts.DeserializePool` | types/pool.go:152-216 | Stepping through the data field by field decodes what the layout says. |
| `Accounts.PoolRoundTrip` | types/pool.go:152-216 | Decoding an encoded account, whatever follows it, gives the account back. |
| `Accounts.PoolCanonical` | types/pool.go:152-216 | What was accepted is the encoding of what was decoded, followed by the rest. |
| `Accounts.PoolAccepts` | types/pool.go:152-216 | Exactly the encoded accounts, followed by anything, are accepted. |
| `Accounts.DeserializeNodeWallet` | types/pool.go:219-276 | Stepping through the data field by field decodes what the layout says. |
| `Accounts.NodeWalletRoundTrip` | types/pool.go:219-276 | Decoding an encoded account, whatever follows it, gives the account back. |
| `Accounts.NodeWalletCanonical` | types/pool.go:219-276 | What was accepted is the encoding of what was decoded, followed by the rest. |
| `Accounts.NodeWalletAccepts` | types/pool.go:219-276 | Exactly the encoded accounts, followed by anything, are accepted. |
| `Accounts.DeserializePosition` | types/pool.go:279-378 | Stepping through the data field by field decodes what the layout says. |
| `Accounts.PositionRoundTrip` | types/pool.go:279-378 | Decoding an encoded account, whatever follows it, gives the account back. |
| `Accounts.PositionCanonical` | types/pool.go:279-378 | What was accepted is the encoding of what was decoded, followed by the rest. |
| `Accounts.PositionAccepts` | types/pool.go:279-378 | Exactly the encoded accounts, followed by anything, are accepted. |
| `Accounts.DecodersDisjoint` | types/pool.go:152-289 | No data is accepted by two decoders. |
| `Accounts.DecodePools` | backfillers/backfiller.go:381-399 | The pools among the accounts, in order; none if the accounts have the size that the backfiller asks for. |
| `Accounts.BytesEqual` | types/pool.go:401-411 | Equality of byte slices. |
| `Accounts.LittleOfToLittle` | types/pool.go:180-198 | Little-endian integers of any width survive writing and reading. |

## Left out

- `MarginOffer` groups the fields that the store never writes as `Terms` and `Pointers`. `List` sorts pairs of an object and its value, read once, where the code compares fields of the objects.
- Clock readings and fresh UUIDs are parameters; a call reads the clock once, where the code may read it several times within one call.
- Floating-point numbers are reals, without rounding, infinities or NaN; expiry counts days of 24 hours.
- `sort.Slice` is replaced by a verified sort on sequences, so that sorting in place is not captured; only the order of keys is promised, as the descending comparator of the code is not strict.
- `strings.ToLower` covers ASCII letters only.
- MemoryStores.MemoryStore.ListByLender: does not model that the filter is also written into the caller's request; nor do the two methods like it.
- `Create`, `Update` and the overwrite hand the caller's own offer object to the notification service; the two sides are modelled separately, events by value, so that a later write to that object is not seen in a message.
- Locks: each store operation is one atomic step; `Close`, `HealthCheck` and writes after `Close` are not modelled.
- `Notifications`: the heartbeat loop exists as steps (`Beat`, `BeatTo`) but not as a method; stopping the service, the stream loop of the handler and delivery to the client beyond the channel are not modelled. Subscriptions are values kept by ID after they are removed. Reading the clock for a time of last activity and writing it are one step.
- NotificationServices.NotificationService.ProcessChangeEvent: as a method it runs undisturbed; interleavings are in `Notifications`.
- EtlRetry.RetryConservation: while the processor runs; what is lost when it stops is not modelled, nor are liquidity and rate errors in the same counter. An event object is assumed to arrive once.
- EventRaces.LostUpdateIff: two handlers, one of each kind, and no other writer meanwhile.
- Accounts: the text of a decoding error, which names the field that does not fit, is not modelled; base-58 text is a parameter. The discriminators are those of the code, which calls them examples. `Delegate` has no decoder.
- Backfillers.Backfiller.ProcessJob: throughput, remaining time, end times, rate limiting and log output are not modelled; the fetched pools are an arbitrary list.
- Backfillers.Backfiller.Submit: a full queue counts as the caller giving up; the wait for the result is the collect step of `WorkerPools` only.
- WorkerPools.PoolProtocol: one start, five workers, distinct job identifiers; stopping, the scheduler, `BackfillLatest` and submitters that give up waiting are not modelled.
- gRPC transport, protobuf conversion, the gRPC client, metrics, logging, configuration, the Glacier and off-chain sources, chain access and the TypeScript service.
