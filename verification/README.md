# Stock reservation, live stock view and order saga: a Dafny model

The order service reserves stock at the inventory service over RPC and then
persists the order in a database of its own. This project models the three
protocols that make this work and proves what they promise.

- **Reservation engine.** `Inventory` is the reference meaning of
  `reserve_stock` and `release_stock`: two tables, an ordered loop with a partial
  unique index, rollback, replay. `InventoryStore` is the same code as a class
  that updates the tables in place. `Concurrent` interleaves any number of both
  operations one statement at a time, with row locks, and `ConcurrentInv`,
  `ConcurrentSteps`, `ConcurrentLaws`, `Atomicity`, `KeyLaws` and `Deadlock` prove
  what every interleaving keeps.
- **Live view.** `Watch` is one WatchStock stream as a state machine over its
  three threads, a lossy notification channel and arbitrary commits.
  `WatchLaws`, `WatchStream` and `WatchKinds` prove that the view catches up and
  what it may send; `StockListener` and `WatchSession` are the threads' own loops,
  each proved to be a run of that machine (`WatchRuns` puts runs together).
  `ListenerEvents` and `MarkerOrigins` say, without those loops, which events the
  listener yields and which markers are queued.
- **Saga.** `Saga` runs any number of single and bulk order requests with failing
  calls, client retries, failing commits, crashes and compensation. `SagaLaws`
  proves that nothing is oversold, `SagaLimits` shows what happens without each
  assumption, `SagaAnswers` says when each request ends with which answer,
  `BulkLaws` proves what bulk requests leave behind, and `OrderLaws`,
  `Batch` and `OrderService` treat one request alone, as a function and as the class
  that executes it.

`Totals`, `Holdings`, `BulkStream`, `StockLaws`, `InventoryLaws` and
`ReserveAnswers` hold sums over rows, what an order holds, the bulk stream, and the
laws and answers of the operations taken atomically.

## What the database is taken to do

The steps of `Concurrent` build in PostgreSQL's READ COMMITTED behaviour: a
statement's snapshot is taken when it begins; a row-lock waiter reads the latest
committed row and tests its filter again; locks are held to the end of the
transaction; a commit becomes visible at once; a unique violation rolls back the
whole transaction. Whoever writes a (key, product) reservation row holds that
product's lock, so the index test never waits. `order_by("product_id")` leaves
ties open; the model breaks them by row id. A reserve's event in the log carries the
position at which it made its replay check, a release's the one at which its select
began.

In `Watch`, every lock region, queue put or get, database read and emission is
one step; a commit notifies at least of every product it changed; notifications
sent while the session is not listening are lost, and when a connection dies any
suffix of the undelivered ones is lost too.

In `Saga` an RPC attempt is answered (and then took effect), or fails after
taking effect or without; ReserveStock and ReleaseStock are tried at most four
times, and only after an error. The inventory's operations are atomic there, which
`UndisturbedRun` justifies: a concurrent run in which no reserve or release is
overtaken by a reserve of its own key or order is a sequence of atomic operations. A
commit that raises wrote nothing. Ids the service generates itself, for bulk orders
and for requests without a key, are new. `Rules` names the four further
assumptions, each of which can be switched off: no request begins while one for the
same id is open, one key always comes with one payload, `refresh` does not raise
after a successful commit, and no client uses a bulk order's id as its key.
`NoOversellIff` and `ExactBackingIff` say which of them each promise needs.

## What turned out not to hold

- The docstring of `reserve_stock` says that repeated products work
  (`services.py:88-89`). With a key they never do: the second line meets the first
  one's row in the unique index (`KeyedRepeatAlwaysFails`; `ReserveDecision` says
  exactly when a reserve succeeds).
- `create_order` refreshes the order inside the same `try` as the commit
  (`orders/service.py:96-104`). If the refresh raises, the compensation releases the
  stock of an order that is already persisted: `FailedRefreshOversells` reaches
  that state with a single request.
- Two overlapping requests with one key, or one key with two payloads, oversell
  as well: `OverlapOversells`, `OtherPayloadOversells`. These three are all:
  overselling is impossible exactly when none of them can happen (`NoOversellIff`).
- The key may be any text (`orders/router.py:27-40`), so also the `order_ref` that a
  bulk reply reported. If that order's release failed, a retry under its id is saved
  on top of the leftover rows and holds more than its items (`SharedIdMixes`). On
  its own that cannot oversell, but exact backing needs that no key is a bulk order's id
  (`ExactBackingIff`).
- For one request alone, `CreateOrderKeepsBacking` gives the exact condition on what
  the inventory holds for the key when it arrives and on how its calls go.
- A keyed reserve can be answered from rows of another order that used the same
  key; a release of that order then takes the confirmed stock away
  (`ForeignReplayUnstable`). `ReplayStability` says exactly when a replay is stable.
- A release is not always the atomic release at its place in the finishing order:
  a reserve of the same order that commits between its select and its commit keeps
  its stock (`OvertakenRelease`). `ReleaseAtomicIff` says exactly when it is atomic.
- A duplicate that slips past the replay check is refused, not replayed
  (`ReserveAtomicIff`).
- If the commit of a bulk request raises, or its stream ends in an error, the
  reserved lines stay: `create_orders_bulk` compensates neither. `PlaceOrders` and
  `NoOversell` cover both; neither claims that every RESERVED row has an order.

## Model

| member | source | states |
|---|---|---|
| InventoryLaws.SortSpec | inventory-service/inventory_app/services.py:98-100 | the locking order holds the request's lines, by ascending product, each product's lines in request order |
| InventoryLaws.RunLinesOk | inventory-service/inventory_app/services.py:124-165 | while nothing failed, the transaction's writes are exactly the rows of the lines so far and each product is down by what they ask together |
| InventoryLaws.RunLinesFit | inventory-service/inventory_app/services.py:126-158 | lines that never failed are positive, known, fit the stock together and, under a key, name distinct products |
| InventoryLaws.RunLinesFits | inventory-service/inventory_app/services.py:126-158 | lines that do fit never fail and never meet the index, the transaction's own rows included |
| InventoryLaws.BodyEffect | inventory-service/inventory_app/services.py:124-184 | the transaction takes its lines whole or leaves both tables as they were |
| InventoryLaws.ReserveDecision | inventory-service/inventory_app/services.py:95-193 | with no active key, success if and only if the request is non-empty and fits per product (distinct products under a key); success takes exactly the request, failure nothing |
| InventoryLaws.KeyedRepeatAlwaysFails | inventory-service/inventory_app/services.py:88-89 | a keyed request that repeats a product is refused whatever the stock, against the docstring |
| InventoryLaws.ReserveOrderIndependent | inventory-service/inventory_app/services.py:95-193 | the order of the request's lines changes neither the decision nor the resulting stock and rows |
| ReserveAnswers.JudgedUnique | inventory-service/inventory_app/services.py:126-158 | quantity, existence and the stock left by the earlier taken lines fix the verdict of every line |
| ReserveAnswers.BodyAnswers | inventory-service/inventory_app/services.py:124-184 | one outcome per sorted line, naming its product: all `Duplicate` exactly if some line that is taken meets an active row of the key or an earlier taken line of its product, else each line `NonPositive`, `NotFound`, `Insufficient` or `Taken` by its quantity, its existence and the stock left by the earlier taken lines; success if and only if all are `Taken` |
| ReserveAnswers.ReserveAnswered | inventory-service/inventory_app/services.py:95-193 | the whole call: an empty request is refused without outcomes, an active key is answered by a success with one outcome per active row and changes nothing, anything else as its sorted lines are judged |
| StockLaws.HeldIdsSpec | inventory-service/inventory_app/services.py:215-219 | a release selects each row RESERVED for its order once, in product order, and nothing else |
| StockLaws.FlipTotal | inventory-service/inventory_app/services.py:224-225 | marking distinct rows RELEASED lowers what is RESERVED by exactly their quantities |
| StockLaws.ReleaseEffect | inventory-service/inventory_app/services.py:214-231 | a release gives each product back what the order held of it, counts the rows, and leaves the order holding nothing |
| StockLaws.ReleaseTwice | inventory-service/inventory_app/services.py:200-202 | a second release changes nothing and reports 0 |
| StockLaws.Conservation | inventory-service/inventory_app/services.py:125-225 | over any sequence of operations stock plus RESERVED quantity of each product is constant, so 0 <= stock <= initial |
| StockLaws.ReplayStability | inventory-service/inventory_app/services.py:104-119 | after a keyed success, repeating the key succeeds with the same multiset of outcomes and changes nothing, whatever happens under other keys and orders and even with another payload, if and only if the key had no active rows of another order |
| StockLaws.ForeignReplayUnstable | inventory-service/inventory_app/services.py:104-119 | such rows do occur: one order's reserve is answered from another's rows, and after a release of that order the same request succeeds by taking stock once more |
| StockLaws.RoundTrip | inventory-service/inventory_app/services.py:196-231 | reserve, anything elsewhere, release: each product gets back exactly what was taken, a second release is a no-op, the same request can be reserved again |
| Holdings.BodyHeldBy | inventory-service/inventory_app/services.py:158-164 | a reserve adds its lines to what its own order holds and to nothing else |
| Holdings.HoldsNothingBag | inventory-service/inventory_app/services.py:215-219 | an order holds no lines exactly when a release would select nothing |
| InventoryStore.Store.ReserveStock | inventory-service/inventory_app/services.py:67-193 | the in-place loop, with roll-back on a failed line or an index violation, does and answers what the atomic operation does |
| InventoryStore.Store.ReleaseStock | inventory-service/inventory_app/services.py:196-231 | the in-place loop does what the atomic release does; `released` says whether the order held anything |
| InventoryStore.Store.ReserveStockBulk | inventory-service/grpc_server/servicer.py:83-143 | tables and results are those of the line-by-line stream; total = reserved_count + failed_count, and reserved_count counts the reserved results |
| BulkStream.OneLineReserve | inventory-service/grpc_server/servicer.py:118-122 | a one-line keyless reserve succeeds exactly when the line is positive, known and fits, with exactly one result |
| BulkStream.TakeLineEffect | inventory-service/grpc_server/servicer.py:102-132 | a line echoes its order and product, is accepted exactly when well formed and available, and moves nothing otherwise |
| BulkStream.TakeLinesEffect | inventory-service/grpc_server/servicer.py:99-143 | stock falls, and each order's holding grows, by exactly the accepted lines; results keep stream order |
| BulkStream.GreedyStream | inventory-service/grpc_server/servicer.py:99-143 | line i is accepted if and only if it is well formed, positive, known and fits what the earlier accepted lines left |
| ReserveAnswers.StreamVerdict | inventory-service/grpc_server/servicer.py:99-143 | line i of the stream is answered `MissingRef` without an order id, and else by its quantity, its existence and the stock that the earlier accepted lines left |
| ConcurrentInv.FinishKeepsInv | inventory-service/inventory_app/services.py:125-169 | a commit leaves every other transaction exactly the partial result it would have running alone on the new tables |
| ConcurrentSteps.ReserveCommitSpares | inventory-service/inventory_app/services.py:134-169 | a reserve's commit leaves alone the stock, and the index answer, of every product another transaction has locked |
| ConcurrentSteps.ReleaseCommitSpares | inventory-service/inventory_app/services.py:214-225 | so does a release's commit, and the rows another transaction has locked |
| ConcurrentSteps.StillHeldSpec | inventory-service/inventory_app/services.py:215-219 | testing the filter again on locked rows keeps those still RESERVED, in order |
| ConcurrentSteps.RunKeepsInv | inventory-service/inventory_app/services.py:104-225 | every run keeps the invariant: each unfinished transaction's partial work is what it would have done alone on the tables as they are |
| ConcurrentLaws.Serializability | inventory-service/inventory_app/services.py:124-184 | any interleaving leaves the tables of running its finished transactions one at a time in finishing order; each event records its own transaction's request and answer, and each reserve's answer is the one its body gives alone there |
| ConcurrentLaws.ConcurrentConservation | inventory-service/inventory_app/services.py:125-225 | in every reachable state stock plus RESERVED is the initial amount and 0 <= stock <= initial |
| ConcurrentLaws.GaveBackIds | inventory-service/inventory_app/services.py:214-225 | a finished release returned distinct rows of its order that were RESERVED, and all it had selected that still were |
| ConcurrentLaws.ReturnedOnce | inventory-service/inventory_app/services.py:214-225 | a row returned by one release is returned by no later one |
| ConcurrentLaws.ConcurrentRelease | inventory-service/inventory_app/services.py:214-231 | over any overlapping releases of an order, each row goes back at most once and the released counts add up to the rows flipped |
| Atomicity.ReserveAtomicIff | inventory-service/inventory_app/services.py:104-184 | a reserve that ran its body is the whole operation at its place in the finishing order if and only if its key had no active rows there |
| Atomicity.ReleaseAtomicIff | inventory-service/inventory_app/services.py:214-231 | a release is the atomic release at its place if and only if its order holds no row inserted since its statement began |
| Atomicity.UndisturbedRelease | inventory-service/inventory_app/services.py:214-231 | a release that no successful reserve of its order overtakes is atomic |
| Atomicity.UndisturbedReserve | inventory-service/inventory_app/services.py:104-184 | a reserve is atomic, replay check included, if no other successful reserve of its key finishes between its check and its end |
| Atomicity.UndisturbedRun | inventory-service/inventory_app/services.py:67-231 | a run in which nothing is so overtaken is a sequence of atomic reserves and releases: same tables, same answers |
| Atomicity.OvertakenRelease | inventory-service/inventory_app/services.py:214-219 | a run in which a release overtaken by a reserve of its order returns nothing |
| KeyLaws.HeldBlocksAttempt | inventory-service/inventory_app/models.py:63-67 | while the key's rows are active, the index refuses another attempt |
| KeyLaws.AllOrNothing | inventory-service/inventory_app/services.py:214-225 | a release of the key's order returns everything the key holds, or nothing |
| KeyLaws.ExactlyOncePerKey | inventory-service/inventory_app/services.py:78-84 | with any interleaved attempts at one keyed order and any releases of it, committed attempts less effective releases is 0 or 1, the order holds one whole attempt or nothing, and stock is debited accordingly |
| Deadlock.HeldBeforeWished | inventory-service/inventory_app/services.py:98-100 | whatever a waiting transaction holds comes before what it waits for in one global order |
| Deadlock.ClimbsTo | inventory-service/inventory_app/services.py:98-100 | following waiters to holders ends at a holder that is not waiting |
| Deadlock.DeadlockFreedom | inventory-service/inventory_app/services.py:98-219 | after any run, while a reserve or release is unfinished, some transaction can step |
| WatchLaws.NextKeepsInv | inventory-service/grpc_server/servicer.py:213-301 | every step of any thread keeps each watched existing product current or owed another read |
| WatchLaws.WatchConverges | inventory-service/grpc_server/servicer.py:213-301 | in every reachable state each watched existing product shows the table's value or has an obligation pending, so a quiet stream shows the table |
| WatchLaws.DrainIsBounded | inventory-service/grpc_server/servicer.py:285-301 | left alone, the stream takes at most a computed number of steps of its own |
| WatchLaws.DrainsToTable | inventory-service/grpc_server/servicer.py:240-301 | from every invariant state it can come to rest within that bound, showing the table |
| WatchLaws.EveryDrainShowsTable | inventory-service/grpc_server/servicer.py:240-301 | however it drains it stays within the bound, is never stuck before it is quiet, and is then showing the table |
| WatchStream.MonotoneSampling | inventory-service/grpc_server/servicer.py:266-283 | the updates of a watch carry committed values from non-decreasing versions, and no CHANGED update repeats the value last sent for its product; `SnapshotBound` and `BatchKinds` say which updates are CHANGED |
| WatchStream.UnsubscribeBound | inventory-service/grpc_server/servicer.py:260-264 | while a product is out of the watch set, at most one more update of it is sent, and only from a batch that had already chosen it |
| WatchStream.AfterUnsubscribe | inventory-service/grpc_server/servicer.py:227-233 | after an unsubscribe that is not undone at most one more update of the product is sent |
| WatchStream.SubscriptionGetsSnapshot | inventory-service/grpc_server/servicer.py:219-222 | every subscription to an existing product that is not unsubscribed before the batch with its snapshot is read gets a SNAPSHOT, sent after it and read no earlier, or still has it coming |
| WatchStream.ReadGetsSnapshot | inventory-service/grpc_server/servicer.py:260-283 | each existing product of a snapshot batch that is watched when the batch is read is sent as a SNAPSHOT by the time the generator is idle again, whatever happens next, unsubscribes included |
| WatchKinds.SnapshotBound | inventory-service/grpc_server/servicer.py:216-295 | over every run, the SNAPSHOT updates of a product sent and still owed are no more than the subscribe commands that named it |
| WatchKinds.BatchKinds | inventory-service/grpc_server/servicer.py:282-301 | whatever happens meanwhile, up to the next marker only SNAPSHOTs are sent for a snapshot marker, only CHANGEDs for a resync or a change, and for a change only of its product |
| ListenerEvents.HeardAccounts | inventory-service/grpc_server/notifications.py:70-93 | one resync for each live turn reached, ahead of one change for each readable notification taken in it before `stop`, each from its own position, in order, and nothing else |
| ListenerEvents.AccountsUnique | inventory-service/grpc_server/notifications.py:70-93 | that fixes the events and where each comes from |
| StockListener.ListenStockChanges | inventory-service/grpc_server/notifications.py:60-93 | the reconnect loop yields one resync per live turn it reaches, then one change for each readable notification it takes in that turn, each from its own position in increasing order and none missing, nothing for a connection that fails, and nothing more once `stop` is set |
| StockListener.ListenerLeads | inventory-service/grpc_server/notifications.py:70-93 | whatever connections the listener goes through and whatever the reader does in between, the shared sets and the queue they leave are those of a run of the stream machine |
| MarkerOrigins.QueueAccounts | inventory-service/grpc_server/servicer.py:216-250 | the markers queued are one snapshot per subscribe, one resync per resync and one changed marker of its own per change whose product the commands so far keep watched, in order and no others |
| MarkerOrigins.ServedSets | inventory-service/grpc_server/servicer.py:219-229 | a product is in the watch set, or in the newly added set, exactly if it was there and never dropped or was subscribed and not dropped since |
| WatchSession.FetchRowsLists | inventory-service/inventory_app/services.py:286-291 | a read lists each existing asked-for product once, with its current quantity, and nothing else |
| WatchSession.FetchRowsInOrder | inventory-service/inventory_app/services.py:286-291 | the rows follow the order of the catalogue |
| WatchSession.EmitAllCarries | inventory-service/grpc_server/servicer.py:266-283 | the loop sends one update for each row that is new to the client, or for each row of a snapshot, in row order, of the kind of its batch, and then knows every row of the batch |
| WatchSession.EmitsInTurn | inventory-service/grpc_server/servicer.py:273-283 | the emission loop over a batch is that many emission steps of the machine |
| WatchSession.TurnLeads | inventory-service/grpc_server/servicer.py:285-301 | one undisturbed turn of the generator is a run of the machine's own steps |
| WatchSession.Session.DrainCommand | inventory-service/grpc_server/servicer.py:216-233 | a command changes the watch set, the newly added set and the queue as the machine's step does |
| WatchSession.Session.DrainNotifications | inventory-service/grpc_server/servicer.py:240-250 | the listener hears what is due on its connections; each resync, each change of a product watched when it is tested and each subscribe of the reader leaves its own marker, in order, nothing else is queued, and both sets hold what the commands kept there; all of it is a run of the machine |
| WatchSession.Session.SendUpdates | inventory-service/grpc_server/servicer.py:266-283 | `last_seen` and the updates sent are those of emitting the batch row by row, which `EmitAllCarries` and `BatchKinds` describe |
| WatchSession.Session.Turn | inventory-service/grpc_server/servicer.py:285-301 | a turn takes one marker off the queue, clears the newly added set if it is a snapshot, reads the watched products it calls for and sends them as the emission loop does, which is a run of the machine's own steps; nothing happens on an empty queue |
| Batch.LinesAt | order-service/app/modules/orders/service.py:153-157 | each order's lines stand together in the stream, and no other line carries its id |
| Batch.FlattenRegroup | order-service/app/modules/orders/service.py:169-174 | for distinct ids, regrouping gives each order exactly its own lines' outcomes, in line order, none missing |
| Batch.AcceptedOfOrder | order-service/app/modules/orders/service.py:179-191 | an order all of whose outcomes are reserved was accepted for exactly its items; one with none, for nothing |
| Batch.PersistedSpec | order-service/app/modules/orders/service.py:181-184 | the persisted orders are those with outcomes, all reserved, still with distinct ids |
| Batch.StrandedSpec | order-service/app/modules/orders/service.py:185-189 | the stranded ids are those of orders with some but not all lines reserved |
| SagaLaws.ReserveHoldings | order-service/app/modules/orders/service.py:71-74 | a keyed reserve replays what is held under the key, or adds its items there if it succeeds, and touches nothing held without a key or by another order |
| SagaLaws.ReleaseHoldings | order-service/app/modules/orders/service.py:114-125 | a release empties its order's holding, keyed and not, and no other |
| SagaLaws.StepKeeps | order-service/app/modules/orders/service.py:54-112 | a step that stays within its own request's ids keeps everybody's invariant |
| SagaLaws.NextKeeps | order-service/app/modules/orders/service.py:54-201 | under the three assumptions of `Safe`, every step of every request, failing ones included, keeps the invariant that persisted orders are covered and a key holds nothing or its whole payload under it |
| SagaLaws.SoldIsHeld | order-service/app/modules/orders/service.py:96-99 | what backed orders sold of a product is what their rows hold of it |
| SagaLaws.SoldIsCovered | order-service/app/modules/orders/service.py:96-99 | covered orders have sold no more of a product than their rows hold |
| SagaLaws.NoOversell | order-service/app/modules/orders/service.py:35-212 | over every run under the three assumptions of `Safe`, each persisted order's items are covered by its RESERVED rows, so sold plus available never exceeds the initial stock; the rows are exactly the items if and only if they are not a mix of keyed and unkeyed ones |
| SagaLaws.ExactBacking | order-service/app/modules/orders/service.py:35-212 | if besides no key is a bulk order's id, each persisted order's RESERVED rows match its items exactly |
| SagaAnswers.StepAnswers | order-service/app/modules/orders/service.py:54-112 | a step ends an open request with an answer if and only if it is the step for it: a conflict is an answered reserve whose items are none, or do not fit while its key has no active rows; an RPC error an unanswered last attempt |
| SagaAnswers.StepEffect | order-service/app/modules/orders/service.py:71-125 | a step adds the items to what the key holds exactly if a granted reserve that was no replay took effect, empties it if a release did, touches no other holding, loses no unit, and saves the order exactly if its commit went well |
| SagaAnswers.RunAnswers | order-service/app/modules/orders/service.py:54-112 | over every run, whatever is assumed, a request has ended with an answer if and only if at some moment it took the step for that answer; a created order is saved, an existing one is there, and who was created or failed had been granted its items, the failed one before its commit or refresh went wrong |
| SagaAnswers.AttemptsBounded | order-service/app/grpc_client/client.py:22-50 | over every run, a request calls ReserveStock and ReleaseStock at most four times each |
| SagaAnswers.BulkRunAnswers | order-service/app/modules/orders/service.py:142-201 | over every run, a bulk request ends without an answer if and only if its stream broke, its commit failed or it crashed, and with one exactly when its releases are through, after its commit; by its commit each line has been sent once |
| SagaLimits.OverlapOversells | order-service/app/modules/orders/service.py:57-104 | two overlapping requests with one key reach a persisted order without stock |
| SagaLimits.OtherPayloadOversells | inventory-service/inventory_app/services.py:104-119 | a key reused with another payload reaches one too, since the replay ignores the payload |
| SagaLimits.FailedRefreshOversells | order-service/app/modules/orders/service.py:96-104 | so does one request whose refresh raises after its commit |
| SagaLimits.SharedIdMixes | order-service/app/modules/orders/service.py:185-201 | a partial bulk order whose release failed, retried under its own id, is saved holding more than its items |
| SagaLimits.NoOversellIff | order-service/app/modules/orders/service.py:35-212 | overselling is impossible, and persisted orders stay covered, over all runs if and only if requests for one id do not overlap, a key keeps its payload and a refresh does not raise after its commit |
| SagaLimits.ExactBackingIff | order-service/app/modules/orders/service.py:35-212 | persisted orders hold exactly their items over all runs if and only if all four assumptions hold |
| OrderLaws.CreateOrderKeepsBacking | order-service/app/modules/orders/service.py:54-112 | one request, whatever its key holds, keeps every persisted order backed if and only if, when it commits, its key arrived holding nothing or exactly its items to replay, and no compensation of a failed refresh got through |
| OrderLaws.CreateOrderAnswers | order-service/app/modules/orders/service.py:54-112 | each answer if and only if: an order of the key exists; the reserve got no answer; it was answered and refused; it was granted and commit and refresh went well; or one of them did not; with the exact orders and holdings left, and no unit lost |
| OrderLaws.CreateOrderReports | order-service/app/modules/orders/service.py:57-112 | an existing order or a conflict leaves everything as it was; success means persisted, and backed exactly if the key arrived clean; a compensated failure leaves nothing reserved for the key; an RPC error leaves no order and at most the request's own items |
| OrderLaws.UndoHeldBy | order-service/app/modules/orders/service.py:198-201 | the compensation loop empties exactly the orders whose release got through |
| OrderLaws.BatchHoldings | order-service/app/modules/orders/service.py:179-201 | each persisted order of a batch run alone ends with all its lines RESERVED, every other with none, except partial orders whose release failed |
| BulkLaws.BulkAllOrNothing | order-service/app/modules/orders/service.py:142-201 | over every run under the three assumptions of `Safe`, ever after a bulk request has committed and tried its releases, each of its orders whose release was not lost holds without a key all its lines and is persisted, or nothing; unless its id was used as a key, that is all it holds |
| OrderLaws.BatchNetEffect | order-service/app/modules/orders/service.py:142-201 | when the releases succeed, stock of each product falls by exactly the lines of the persisted orders |
| OrderService.ReportsFaithful | order-service/app/modules/orders/service.py:176-194 | each report holds its own lines' outcomes and its status says whether the order was saved, partial or failed |
| OrderService.Service.TryRelease | order-service/app/modules/orders/service.py:114-125 | a best-effort release takes effect or not, and never raises |
| OrderService.Service.PlaceOrder | order-service/app/modules/orders/service.py:35-112 | the in-place flow ends in the state and answer of the request as a function of how its calls go, which `CreateOrderAnswers` describes |
| OrderService.Service.PlaceOrders | order-service/app/modules/orders/service.py:127-212 | the bulk flow: nothing saved when the stream or the commit fails, and then nothing compensated; otherwise the persisted orders are saved and the stranded released |
| OrderService.Service.Classify | order-service/app/modules/orders/service.py:176-194 | the classification loop saves the fully reserved orders, strands the partial ones and reports every one |
| OrderService.Service.Regroup | order-service/app/modules/orders/service.py:169-174 | the filing loop gives every order its outcomes in stream order |

## Left out

- ConcurrentLaws.Serializability: for a release it claims the rows selected when its statement began and still RESERVED at its place, because the atomic release is false there in general; `ReleaseAtomicIff` gives the exact condition.
- StockLaws.ReplayStability: replayed outcomes are compared as a multiset; the model replays newest row first, but rows of one transaction can carry equal timestamps.
- WatchLaws.WatchConverges: says nothing once the stream is stopped or its client is gone; `stop`, cancellation and thread joins end the run.
- OrderService.Service.PlaceOrders: how much of a broken stream reached the inventory, and which releases fail, are parameters; retries inside one release are folded into whether it took effect.
- SagaLaws.NoOversell: an RPC that errors took effect before the error or never, so a straggling attempt that lands after the client gave up is not modelled.
- Reason texts, timestamps, names, SKUs and HTTP or gRPC status codes: only which outcome it was is kept; reads list products in catalogue order where the source sorts by SKU.
- Integer widths: quantities are unbounded, while the columns are positive 32-bit integers.
- Payload parsing: a notification payload is a product id or unparseable; the JSON itself is not modelled.
- StockListener.ListenStockChanges: the loop runs until `stop` is set or a given list of connection attempts is used up, since every run of it up to some moment is such a list.
- Real time: ticks, timeouts and back-off are steps that may happen at any moment.
- In the classes one thread runs at a time, except that `DrainNotifications` lets the reader in between events; all other interleavings are covered by the state machines, which the classes refine.
- Postgres itself, Django and SQLAlchemy sessions, connection pools, and a lock wait that is cut short by a deadlock or statement timeout (a crashed transaction covers its effect).
- Product creation, deletion and restocking: the catalogue is fixed; the live view allows any committed change of quantities.
- The low-stock stream, the WebSocket bridge, order look-up, health checks, authentication, load balancing and deployment: forwarding with nothing to keep.
