# A verified model of the shopping platform server

The repository is a small client/server shop: merchants offer commodities, consumers fill
carts, check out, pay now or later, and unpaid orders expire. The server keeps its data in
SQLite and in two write-through object caches, serves requests on a thread pool under a
reader/writer lock, and talks length-prefixed messages.

The model has four layers.

* **What the code does, step by step.** `Sqlite`, `Accounts`, `Catalog`, `OrderDesk` and
  `Handlers` are classes over the tables, the cached `User` and `Commodity` objects and the two
  commodity indexes. Their methods follow the code: they run transactions, loop over rows in
  whatever order the query yields them, set fields of shared objects, roll back. Each is proved
  to turn `Abs()` (tables, cached stock and prices, cached balances) into what a function or
  relation of `Shop` says. `RowByRow` holds one lemma per loop iteration.
* **What the code means, all at once.** `Tables`, `Shop` and `Requests` describe the same
  operations over whole maps, with no row order: `Step(s, q, r, s')` says that serving request
  `q` in `s` may answer `r` and leave `s'`. It leaves open whether an SQL statement fails whose
  result the code looks at, and in which order a sweep meets the orders. `Answers` is the same
  with the cause: a request is refused for such a failure only if one happened, which the
  connection counts.
* **What a reader of the tables sees.** `Effects` says what each operation does a second time,
  by the fields of rows and cached objects alone: which price a line gets, who pays how much to
  whom, which orders expire, which goods a discount concerns. `Codes` does the same for every
  code on the wire. The two descriptions are proved to agree.
* **What follows.** `Invariants`, `Payments`, `Ledger`, `Cancelling`, `Steps`, `Runs`,
  `Equivalences` and `Likeness` prove the accounting, the cache drift, the order life cycle and
  the equivalences, over every run; `Witnesses` holds concrete runs. `Concurrency` adds workers,
  the lock, racing cache fills and the shared row-id counter; `Routing` and `Dispatch` cover the
  way from a socket to a handler; `Protocol` the bytes.

Money is `real`, counts are `int`; both are exact. A start state has empty caches and any tables
that satisfy their constraints, with balances, prices and stock that are not negative: the tables
as an earlier process left them. The accounts and the orders are followed from every such start.
What the cached stock is worth is followed from a start at which no order is PENDING (`NoneOpen`),
and `Witnesses.RestartOversells` shows why.

## What the code does differently from what one expects

* `README.md` of the platform promises atomic transactions. A checkout refused at payment
  does roll the tables back, but not the cached stock it had lowered (`src/OrderManager.cpp:231-260`).
  So cached stock is not always the stored stock. `Witnesses.RefusalDrifts` is a run in which that
  happens, `Steps.RefusedAtPayment` and `Steps.RefusalShows` say before the call when it does,
  `Runs.CacheDrift` gives the exact difference; nothing is oversold because of it.
* `cancelOrderInternal` adds a line's quantity twice to the cached stock of a commodity that
  was not cached (`src/OrderManager.cpp:469-477`). `Cancelling.CancelNeedsCache` states that cache
  and table stay in step exactly when it was cached. While the server runs, everything on a
  PENDING order is cached; but after a restart with an open order it is not, and then the next
  checkout can sell goods that are not there: `Witnesses.RestartOversells` is such a run,
  `Equivalences.OversellsExactly` says when it happens, `Runs.StockAddsUp` by how much.
* The stock UPDATE is guarded, but a guard that matches no row is not reported
  (`src/OrderManager.cpp:182`). `Invariants.LoweredFits` shows that it always matches after the
  stock check when cached stock does not exceed stored stock, `Cancelling.TakeAndReturn` what
  happens otherwise.
* `addCommodity` checks neither price nor stock; the client does (`src/Client.cpp:229`,
  `src/Client.cpp:241`), so runs assume both are not negative (`Requests.Admissible`). With
  negative prices the two ways of paying differ: `Witnesses.NegativePriceSeparates` is an input,
  `Payments.SplitsAgree` and `Equivalences.PayNowMeetsLater` say exactly when they agree, and
  `Payments.PaymentKeepsMoney` exactly when a payment keeps the sum of all balances.
* `isReadOnly` is safe but the codes 6 and 7 of a consumer operation never reach the cart or
  order operation they are meant for, because all three switches read the same field
  (`Routing.RoutesApart`).

## Model

| member | source | states |
|---|---|---|
| Runs.BalancesAddUp | src/OrderManager.cpp:250-282 | over every run from any start, whoever was registered still is, and the balance is what the user had, plus recharges, plus their sales on PAID orders, minus the totals of their own PAID orders; never negative |
| Runs.NewBalancesAddUp | src/User.cpp:109-164 | the same for a user who registers during the run, from zero |
| Runs.MoneyIsConserved | src/OrderManager.cpp:388-438 | the sum of all balances changes only by recharges, over every run from any start |
| Runs.ClosedOnce | src/OrderManager.cpp:364-371 | in a whole run an order is paid for at most once, its goods are put back at most once, and never both, told by the answers and the sweeps |
| Runs.ClosedBy | src/OrderManager.cpp:522-555 | an order that became PAID or CANCELLED became so by an event that told so: a sweep that found it PENDING and older than the cut-off, or a request of its owner |
| Runs.FreshSurvives | src/OrderManager.cpp:490-520 | an order placed at `now` comes unchanged through every later sweep whose cut-off is not after `now` |
| Runs.OrdersStay | src/OrderManager.cpp:545-554 | owner, date and lines of an order never change, ids are never reused, PAID and CANCELLED are final |
| Runs.TotalIsFixed | src/OrderManager.cpp:187-204 | what the cart held at checkout, each good at base price times discount of that moment, is what the order holds ever after, and so is its total |
| Runs.RowsStay | src/Database.cpp:22-38 | users and commodities stay, under the same ids and names |
| Runs.StockAddsUp | src/OrderManager.cpp:180-219 | from any start: stored stock plus what PENDING and PAID orders hold equals what was supplied plus what was sold although the guard failed |
| Runs.StockIsConserved | src/OrderManager.cpp:180-219 | from a start with no PENDING order: stored stock plus what PENDING and PAID orders hold equals what was supplied; never negative, nothing oversold |
| Runs.CacheDrift | src/OrderManager.cpp:231-260 | from a start with no PENDING order: cached stock is stored stock minus exactly the quantities of immediate checkouts that could not pay since stock was last set; cached prices are exact |
| Runs.RunInv | src/OrderManager.cpp:142-293 | the invariant holds in every state of every run that starts with no PENDING order |
| Steps.StepInv | src/Server.cpp:347-688 | every request keeps the invariant: cached balances, prices and discounts are the stored ones, cached stock never exceeds stored stock, everything on a PENDING order is cached |
| Steps.StepBooks | src/Server.cpp:347-688 | from any start, every request changes a user's worth only by their recharge, and a commodity's supply only by what the merchant adds and by what a checkout sells although the guarded UPDATE does not match |
| Steps.StepGap | src/OrderManager.cpp:231-260 | every request widens the gap between stored and cached stock only by an immediate checkout that gets to its payment and cannot pay, and setting the stock closes it |
| Steps.StepTurns | src/OrderManager.cpp:344-555 | an order turns PAID exactly when an answer says so, and CANCELLED exactly when an answer says so or a sweep meets it PENDING and created before the cut-off, both only from PENDING or at once |
| Steps.CancelsOwn | src/OrderManager.cpp:522-555 | a cancellation is accepted if and only if a consumer asks for an order that is their own and PENDING; otherwise no row and no cached commodity changes |
| Steps.CloserOwns | src/OrderManager.cpp:344-371 | a user's request pays for or cancels no order but the user's own |
| Effects.CheckoutEffect | src/OrderManager.cpp:132-293 | an order holds exactly the cart's goods with their quantities at base price times discount; an immediate payment takes the sum of price times discount times quantity from the buyer and gives each merchant their part; every refusal has its cause and changes no row |
| Effects.PayEffect | src/OrderManager.cpp:344-442 | payOrder charges the owner of a PENDING order the sum of unit price times quantity, if it is positive and covered, gives each merchant their part and marks that order PAID; no other row changes, and each refusal has its cause |
| Effects.CancelEffect | src/OrderManager.cpp:444-488 | cancelling returns each line's quantity once to row and cached object, marks that order CANCELLED and changes nothing else |
| Effects.ExpireEffect | src/OrderManager.cpp:490-520 | from any start, exactly the PENDING orders created before the cut-off become CANCELLED, their summed goods return to the rows, and the answer is how many they are |
| Effects.ExpireCacheEffect | src/OrderManager.cpp:462-480 | the same sums return to the cached stock when the goods of open orders are cached |
| Effects.ModifyEffect | src/Server.cpp:394-449 | price, stock or discount changes in the one row of that name that the asking merchant owns and in its object; it is refused exactly for another's goods, an inadmissible value or a failed statement |
| Effects.DiscountEffect | src/Commodity.cpp:262-289 | a bulk discount reaches row and object of each good of that merchant and that type and of no other, and the answer is how many they are |
| Effects.NewGoodEffect | src/Commodity.cpp:82-130 | a good of one of the four types under a free name is added under the next id, undiscounted, as the asking merchant's |
| Effects.AddItemEffect | src/OrderManager.cpp:38-91 | adding raises the one cart line of the asker and that good, if the stock a look-up sees covers old and new quantity together |
| Effects.RemoveItemEffect | src/OrderManager.cpp:93-106 | removing takes that line from the asker's cart and changes nothing else |
| Effects.SetQuantityEffect | src/OrderManager.cpp:108-130 | setting a quantity changes that line, if it is there and the stock covers it |
| Effects.AccountEffect | src/User.cpp:36-45 | a recharge adds a positive amount to the asker's balance; a password change writes the asker's row; neither touches anything else |
| Effects.RegisterEffect | src/User.cpp:109-164 | a free name gets the next id, balance zero, its type and its password; a taken one changes nothing |
| Effects.UserEffect | src/Server.cpp:347-688 | every operation of a user, from any start, has its effect above, and none for an unknown user or one of the other type |
| Codes.MessageDoes | include/Protocol.h:18-59 | each action and operation code does what the protocol's enumerations call it, with the fields of that message, and every other code changes no row |
| Steps.RefusedAtPayment | src/OrderManager.cpp:239-260 | a checkout fails at its payment if and only if the cart is not empty and well stocked, immediate payment is asked for and the buyer cannot pay; it places an order if and only if stocked and able |
| Steps.RefusalShows | src/OrderManager.cpp:231-260 | after a refused checkout every look-up sees the same stock if and only if the cart was empty or badly stocked |
| Payments.SplitsAgree | src/OrderManager.cpp:262-272 | crediting line by line and crediting one sum per merchant agree if and only if the merchant's line amounts have one sign |
| Payments.ChargeBalance | src/OrderManager.cpp:250-282 | a payment moves every balance by what the user pays and what the user sells, and leaves none negative |
| Payments.SalesAddUp | src/OrderManager.cpp:388-400 | adding up per merchant and adding up per line give the same total |
| Payments.PaymentKeepsMoney | src/OrderManager.cpp:388-438 | a payment keeps the sum of all balances if and only if no credit is refused for being negative: no line amount when crediting line by line, no merchant's sum when crediting sums |
| Equivalences.PayNowIffLater | src/OrderManager.cpp:239-283 | checkout with immediate payment succeeds if and only if checkout followed by payOrder does |
| Equivalences.PayNowMeetsLater | src/OrderManager.cpp:344-442 | both then end in the same tables and caches if and only if nobody concerned has line amounts of both signs |
| Equivalences.PayNowIsPayLater | src/OrderManager.cpp:388-441 | in every reachable state paying now and paying later come to the same |
| Equivalences.RefusedCheckout | src/OrderManager.cpp:231-260 | a refused checkout leaves all tables and balances; look-ups see less stock, by exactly the cart's quantities, only if the cart was well stocked, immediate payment was asked for and the buyer cannot pay |
| Equivalences.OversellsExactly | src/OrderManager.cpp:182 | a checkout sells what is not there exactly where stored stock is below the quantity ordered, and only where cached stock is above stored stock |
| Equivalences.BatchIsOneByOne | src/Commodity.cpp:262-289 | the bulk discount answers the number of goods of that merchant and type and equals updating these one by one in any order, cached before or loaded later |
| Witnesses.HalfPriceSells | src/OrderManager.cpp:12-36 | two pens at 10.0 with discount 0.5 and 10.0 in funds: the order's line reads 5.0 and the buyer is left with nothing |
| Witnesses.RefusalDrifts | src/OrderManager.cpp:231-260 | a run in which a refused checkout leaves cached stock two below stored stock |
| Witnesses.RestartOversells | src/OrderManager.cpp:469-477 | a run from a restart with an open order: cancelling it leaves cached stock above stored stock, and the next checkout sells five of three |
| Witnesses.NegativePriceSeparates | src/User.cpp:36-45 | requests the server accepts after which paying at once and paying later both succeed and end in different shops |
| Cancelling.CheckoutThenCancel | src/OrderManager.cpp:522-555 | checkout then cancel restores the cached stock always, and the stored stock if and only if the guarded UPDATE matched every line; balances are untouched |
| Cancelling.CancelUndoesCheckout | src/OrderManager.cpp:187-237 | in every reachable state only the emptied cart and the CANCELLED order remain |
| Cancelling.CancelNeedsCache | src/OrderManager.cpp:469-477 | cancelling keeps cache and table in step if and only if the commodity was cached |
| Cancelling.TakeAndReturn | src/OrderManager.cpp:182 | taking stock with the guard and putting it back restores the rows if and only if the guard matched |
| Cancelling.AnyOrderSweeps | src/OrderManager.cpp:512-516 | cancelling PENDING orders one after the other, in any order, is cancelling them all at once |
| Cancelling.SweepExact | src/OrderManager.cpp:490-520 | the sweep cancels the PENDING orders created before the cut-off and no other, reports how many they are, leaves none of them PENDING, returns their summed goods to table and cache, touches nothing else |
| Invariants.LoweredFits | src/OrderManager.cpp:142-151 | after the stock check the guard matches every line, and cached stock stays between zero and stored stock |
| Likeness.StepAlike | src/Commodity.cpp:195-215 | the same request from two states that differ only in what is cached answers the same and ends in states that differ only in that |
| Likeness.LookedAlike | src/User.cpp:67-107 | looking things up changes nothing that any later look-up sees |
| Concurrency.ExecutionIsRun | src/Server.cpp:163-196 | every interleaving takes tables and caches through a run of the shop in which look-ups are events and the writing requests have the order and replies of their turns |
| Concurrency.Serialisable | src/Server.cpp:163-196 | for every interleaving from a start with no PENDING order, the tables, the replies and what every look-up sees are those of the writing requests alone, run one by one in lock order |
| Concurrency.AccountsHold | src/Server.cpp:163-196 | the accounts add up however requests interleave, from any start |
| Concurrency.ReadersSeeTheRun | src/Commodity.cpp:195-215 | every object a look-up has returned shows the stock, prices or balance of the sequential run at that point, and the tables read are those of that run |
| Concurrency.ReaderSeesOneMoment | src/Server.cpp:176-185 | while a reader holds the lock nothing it can see changes: no table, no object, no logged request |
| Concurrency.WritersRunAlone | src/Server.cpp:23-48 | two tasks that run at the same time are both readers that cannot write |
| Concurrency.AlwaysSane | src/Server.cpp:121-137 | in every execution: one writer or many readers, coherent caches, exact cached balances, unsettled look-ups still equal their rows, row ids read back are one's own |
| Concurrency.EffectKeeps | src/Commodity.cpp:119-129 | a writing request keeps the caches coherent and every entry in place, by UNIQUE names, coherent caches and the id of its own row |
| Concurrency.NothingIsReplaced | src/Commodity.cpp:7-22 | cache entries and returned objects outlive every later step, `addCommodity` and `registerUser` included, which assign the indexes without looking |
| Concurrency.OneObjectPerKey | src/Commodity.cpp:195-215 | all look-ups for the same name, id or user return the same object, by name and by id alike, however their steps interleave |
| Concurrency.NewEntriesEqualRows | src/User.cpp:67-107 | an entry a reader adds equals its table row at that moment |
| Concurrency.RowIdIsOwn | src/OrderManager.cpp:178 | the order id answered, and the id under which a new commodity or user is cached, is that of the row this request inserted, although all workers share one last row id and order lines move it |
| Routing.RoutesApart | src/Server.cpp:23-48 | what is served under the shared lock never reaches a writing operation; the codes under the shared lock and the writing codes are listed exactly |
| Dispatch.OnePlaceEach | src/Server.cpp:144-213 | an open connection is armed, in the batch, queued or with one worker, and in exactly one of these; a closed one in none |
| Dispatch.AnswersInOrder | src/Server.cpp:79-95 | answers on a connection follow the order of its requests, with at most one request received and unanswered |
| Protocol.PrefixRoundTrip | include/Protocol.h:92-106 | the length prefix encodes and decodes to itself, both ways |
| Protocol.FrameRoundTrip | include/Protocol.h:92-113 | a body comes back unchanged with the rest of the stream untouched if and only if it has 1 to 2^20 bytes |
| Protocol.FramesRoundTrip | include/Protocol.h:92-113 | any sequence of such bodies decodes to itself with nothing left over |
| Protocol.FramesUnambiguous | include/Protocol.h:92-113 | different message sequences never look the same on the wire |
| Protocol.Stream.SendAll | include/Protocol.h:63-74 | all bytes go out in order under any chunking; it fails only if a `send` failed, and then a proper prefix is out |
| Protocol.Stream.RecvAll | include/Protocol.h:77-89 | the buffer holds exactly the next bytes under any chunking, and no byte more is taken; it fails only if a `recv` failed or too few bytes are there |
| Protocol.Stream.SendMessage | include/Protocol.h:92-98 | what goes out is the frame of the body; it fails only if a `send` failed, with a proper prefix of the frame out |
| Protocol.Stream.ReceiveMessage | include/Protocol.h:101-113 | what comes back is what the stream parses to, and exactly its frame is gone; nothing comes back only if a `recv` failed or the stream does not parse |
| Protocol.Stream.Transmit | include/Protocol.h:63-113 | messages sent and then received arrive unchanged and in order and the stream is empty again, if and only if no call failed |
| Handlers.Server.HandleMerchantOperation | src/Server.cpp:347-472 | takes the step `Requests.AnswersUser` gives a merchant's request: balance, password, goods |
| Handlers.Server.HandleConsumerOperation | src/Server.cpp:474-513 | takes the step of a consumer's recharge or password change; the codes 6 and 7 of the same switch look the user up a second time and answer an error |
| Handlers.Server.HandleCartOperation | src/Server.cpp:515-612 | takes the step of a cart request |
| Handlers.Server.HandleOrderOperation | src/Server.cpp:614-688 | takes the step of an order request |
| Handlers.Server.HandleRegister | src/Server.cpp:273-288 | takes the step of a registration; a refusal, for its type, its password or its name, changes nothing |
| Handlers.Server.CheckExpiry | src/Server.cpp:121-137 | one round of the expiry loop cancels, restocks and counts the PENDING orders that are more than 30 minutes old, and no other |
| Handlers.Server.Modify | src/Server.cpp:394-449 | a merchant changes price, stock or discount of their own commodity only |
| Handlers.Server.ViewCart | src/Server.cpp:531-546 | the cart view lists each cart line at base price times discount; its total is what a checkout charges |
| Handlers.Server.ViewOrders | src/Server.cpp:630-655 | the order view reports exactly the user's orders, newest first, as they stand, each with the sum of unit price times quantity |
| Handlers.Server.Serve | src/Server.cpp:163-196 | a message takes the step of the request it is routed to, does to rows and cached objects what its code says (`Codes.Does`), caches stay coherent, and every object cached before is still cached under its keys |
| Handlers.Server.ServeReadOnly | src/Server.cpp:178-190 | a request that is not a writing one changes no table and loads only what it lists and who asks |
| Handlers.Server.HandlePasswordChange | src/Server.cpp:316-329 | a password of admissible length reaches the object and the row, another neither |
| OrderDesk.TotalOf | include/Order.h:37-43 | the accumulating loop yields the sum over the order's lines |
| OrderDesk.OrderManager.GetCartItems | src/OrderManager.cpp:12-36 | lists the cart joined with the commodities, each line once, with its quantity and base price times discount |
| OrderDesk.OrderManager.AddToCart | src/OrderManager.cpp:38-91 | adds to the cart if cached stock covers old and new quantity together; it fails otherwise or if the INSERT fails, with the commodity cached |
| OrderDesk.OrderManager.RemoveFromCart | src/OrderManager.cpp:93-106 | removes one line of the cart, unless the DELETE fails |
| OrderDesk.OrderManager.UpdateCartQuantity | src/OrderManager.cpp:108-130 | sets the quantity of a line that is in the cart if cached stock covers it, unless the UPDATE fails |
| OrderDesk.OrderManager.ValidateStock | src/OrderManager.cpp:142-151 | passes if and only if every line is covered by what a look-up sees |
| OrderDesk.OrderManager.WriteItems | src/OrderManager.cpp:180-221 | line by line insert and guarded UPDATE amount to all lines written and all stock taken |
| OrderDesk.OrderManager.LowerCache | src/OrderManager.cpp:231-237 | the loop over the cart lowers each cached commodity by its line's quantity, and nothing else |
| OrderDesk.OrderManager.BeginOrder | src/OrderManager.cpp:153-237 | either the whole order is written and the cached stock lowered, or tables and caches are as before |
| OrderDesk.OrderManager.CreditPerLine | src/OrderManager.cpp:262-272 | crediting merchants line by line writes to each seller the sum of their accepted amounts |
| OrderDesk.OrderManager.Checkout | src/OrderManager.cpp:132-293 | every exit of checkout takes the tables and caches to what `Shop.Checkout` says; an SQL failure is answered only if one happened |
| OrderDesk.OrderManager.GetOrders | src/OrderManager.cpp:297-342 | exactly the user's orders, newest first, each with its lines |
| OrderDesk.OrderManager.SumByMerchant | src/OrderManager.cpp:388-400 | one pass gives the order's total and, for each seller, the sum of their lines |
| OrderDesk.OrderManager.CreditGroups | src/OrderManager.cpp:419-428 | crediting the sums in any order of the hash map writes each seller their sum |
| OrderDesk.OrderManager.PayOrder | src/OrderManager.cpp:344-442 | every exit of payOrder takes the tables and caches to what `Shop.PayOrder` says |
| OrderDesk.OrderManager.ReturnLines | src/OrderManager.cpp:462-480 | line by line restocking, with loads on a miss, amounts to the whole order put back |
| OrderDesk.OrderManager.CancelOrderInternal | src/OrderManager.cpp:444-488 | restock and mark CANCELLED |
| OrderDesk.OrderManager.CancelOrder | src/OrderManager.cpp:522-555 | an order is cancelled if and only if it is the caller's and PENDING |
| OrderDesk.OrderManager.CancelExpiredOrders | src/OrderManager.cpp:490-520 | the sweep cancels the orders it found, one by one, and answers how many PENDING orders were older than the timeout |
| Accounts.User.AddBalance | src/User.cpp:36-45 | accepts exactly the positive amounts |
| Accounts.User.SubtractBalance | src/User.cpp:47-61 | accepts exactly positive amounts that are covered |
| Accounts.UserManager.GetOrLoad | src/User.cpp:67-107 | the cached object of that name, loaded from its row on a miss; entries only grow |
| Accounts.UserManager.ScanForId | src/User.cpp:181-189 | finds a cached user by id, or shows there is none, in whatever order the cache yields them |
| Accounts.UserManager.GetUserById | src/User.cpp:179-204 | the user with that id, from cache or table; a row with an empty name counts only if cached |
| Accounts.UserManager.RegisterUser | src/User.cpp:109-164 | a known type, a password of admissible length and a free name get a row with a new id and a cached object; otherwise, or if the INSERT fails, nothing changes |
| Catalog.CommodityManager.CacheCommodity | src/Commodity.cpp:7-22 | inserts under name and id unless the name is taken; both indexes stay coherent |
| Catalog.CommodityManager.GetCommodityByName | src/Commodity.cpp:195-204 | cache first; the answer is cached and nothing already cached changes |
| Catalog.CommodityManager.GetCommodityById | src/Commodity.cpp:206-215 | the same by id |
| Catalog.CommodityManager.LoadAll | src/Commodity.cpp:132-193 | a search returns one cached object per matching row and fills only the misses |
| Catalog.CommodityManager.AddCommodity | src/Commodity.cpp:82-130 | a known type and a free name get a row, an object and both index entries, and nothing is replaced; otherwise, or if the INSERT fails, nothing changes |
| Catalog.CommodityManager.UpdatePrice | src/Commodity.cpp:217-230 | a price that is not negative reaches row and object unless the UPDATE fails; then, and for another price, neither changes |
| Catalog.CommodityManager.UpdateStock | src/Commodity.cpp:232-245 | a stock that is not negative reaches row and object unless the UPDATE fails; then, and for another stock, neither changes |
| Catalog.CommodityManager.UpdateDiscount | src/Commodity.cpp:247-260 | a discount between 0 and 1 reaches row and object unless the UPDATE fails; then, and for another discount, neither changes |
| Catalog.CommodityManager.BatchUpdateDiscount | src/Commodity.cpp:262-289 | each row and cached object of that merchant and that type gets the discount and keeps its other fields, every other one is as before, and the answer is how many rows these are; -1 and no change for an inadmissible discount or a failed UPDATE |
| Catalog.CommodityManager.DiscountCached | src/Commodity.cpp:279-287 | the loop over the name index changes the matching objects and no others, in whatever order it meets them |
| Sqlite.Connection.TakeStock | src/OrderManager.cpp:206-217 | a row is lowered only if it covers the quantity, and success does not tell |
| Sqlite.Connection.InsertItem | src/Database.cpp:51-57 | a second line for the same order and commodity is refused |

## Left out

- OrderDesk.OrderManager.Checkout: a COMMIT that fails, which leaves the transaction open and
  lets every later BEGIN fail.
- Failure of SELECTs and of the statements whose result the code does not look at: the DELETE of
  the cart and the payment UPDATEs in `checkout`, all of `payOrder` and of cancelling, and the
  UPDATEs after a recharge or a password change. A failed prepare counts as a failed statement.
- Handlers.Server.HandleLogin: looks the user up; whether the password matches is not answered,
  because it is compared with the copy in the cached object, which is kept but not related to
  its row. What the hash computes is left open: a password stands beside its encrypted form.
- Commodity descriptions, error messages, console output, and the JSON text of requests and
  replies; a request is a record with the fields the handlers read. A missing field, which
  throws and closes the connection, is not modelled.
- Rounding of `double` and overflow of 32-bit stock: money is exact and counts are unbounded.
- Date text: times are integers, counted in seconds, and compared as the query compares them.
- LIKE matching: which rows a search finds is a parameter.
- Sockets, epoll and SQLite themselves; they appear as steps that may move any number of bytes,
  report any set of ready armed connections, and yield rows in any order.
- Shutdown and wake-ups of sleeping workers, and any claim that a task is eventually served.
- The steps inside a writing request, which holds the lock alone, are one step in `Concurrency`,
  but for the row ids it is given and reads back; that its effect is that of `Requests.Step` is
  proved of the code as `Handlers.Server.Serve` and `Handlers.Server.CheckExpiry`.
- The terminal client.
- Routing.RoutesApart: the operation code is always present; its absence is a parse failure.
