# Verification model of the commerce API

A Dafny model of the parts of a multi-tenant shop API whose correctness does not
show in any single function: an order and payment protocol whose steps race each
other, a CSV import that survives crashes, rate limits that survive outages,
refresh-token rotation, and the smaller algorithms around them. One shop is
modelled at a time. Each database transaction is one atomic step; crashes,
network calls and other requests happen between steps.

`dafny verify dfyconfig.toml` checks everything.

## What is modelled

**Orders and payments** (`OrderModel`, `OrderLaws`, `OrderOutcomes`, `ShopModel`,
`ShopLaws`, `ShopSteps`, `ShopTheorems`, `CheckoutTheorems`, `ResendTheorems`,
`PaymentTheorems`, `LifeTheorems`, `ShopAnswers`, `ShopInstances`, `ShopStore`,
`OrderIds`). An order carries its lines, its Midtrans attempts, its audit rows
and the emails queued for it; a shop carries carts, orders, the unique indexes,
and the calls to Midtrans that are under way.
`ShopModel.Next` is one step of the
whole protocol: cart edits and sweeps, checkouts, manual orders, the call to
Midtrans and the later storing of its link, pay-again (also when its transaction
is lost after the call), notifications with any status at any time, admin moves,
edits, refunds and changes of settings. The theorems hold after every run of such
steps, in any order and any number. `ShopStore.Store` writes the same tables
statement by statement, and each of its methods is shown to be the step it
implements. Midtrans is an environment that may answer anything or nothing; an
email queue may refuse any message.

**CSV import** (`ImportPlan`, `Catalog`, `Slugs`, `ImportRows`, `ImportLaws`,
`ImportRuns`, `ImportTheorems`, `ImportOverlaps`, `ImportAnswers`, `Importer`).
Rows are regrouped in an array in place and cut into batches; each row runs under a savepoint; each batch commits
with its checkpoint; the message is delivered at least once. Time-ordered UUIDs
are numbers drawn from a counter. A failed row uses its numbers up within the
batch, which is what makes a remembered product dangle, as it does in the code; a
rolled back batch gives its numbers back, so equality of catalogs is equality up
to the choice of UUIDs.

**Rate limits** (`RateLimit`, `RateLaws`, `RateChecks`). The Redis script on a
sorted set with expiry, the per-process window used when Redis does not answer,
and one request against several rules. A call to Redis may also be executed and
its answer lost.

**Refresh tokens** (`Sessions`, `SessionTheorems`, `SessionStore`). Lookup, revocation and issue are
three steps of any number of interleaving requests, after section 4.14.2 of
RFC 9700.

**Variant matrix** (`Matrix`, `MatrixLaws`, `MatrixTheorems`, `MatrixAnswers`,
`MatrixEditor`), on the tables of `Catalog`. **Key cache** (`KeyCache`). **Order list** (`Paging`).
**Amounts** (`Rupiah`, `Decimal`), on 64-bit integers that wrap.

Where the source changes state or loops, the model has a class or a method with
the same loop, proved equal to a function on values; the theorems are about the
functions. The modules named `Answers`, with `PaymentTheorems`, `LifeTheorems` and
`SessionTheorems`, say what each operation decides in the words, columns and amounts
that go in and come out of it.

## Where the code does less than its comments say

Each of these is given with the exact condition under which the promise is kept,
and with an input or a run on which it is not.

- Money that settles after an unpaid order was cancelled is recorded as owed, yet
  no refund can be recorded for it: `OrderOutcomes.LateMoney`. Such a shopper may not
  be shown "paid": `OrderOutcomes.PayerIsShownPaid`. Both happen in the run of
  `ShopInstances.LateMoneyIsStranded`.
- Money that settles on an order already paid leaves nothing in the audit log, then
  or later: `ShopTheorems.UnrecordedForGood`, in the run of
  `ShopInstances.TheSecondPaymentIsSilent`.
- A pay-again whose transaction is lost after the call sends its id again when the
  order next needs a link: `ResendTheorems.LostCommitSendsTwice`, in the run of
  `ShopInstances.AnIdGoesOutTwice`.
- A bad row of an import does not always fail alone: a complete row whose amounts
  break a check takes its title down for the rest of the batch:
  `ImportLaws.FailsAloneExactlyWhen`, in the file of `ImportLaws.BadRowTakesItsTitle`.
- Two workers with one job may apply a batch twice or out of order. They do not
  exactly when each commit continues the ones before it, which nothing checks:
  `ImportOverlaps.InOrderExactlyWhen`, and the run of `ImportTheorems.OverlapRepeatsABatch`.
- A job given up stays running for ever exactly when its failure was not written but
  its message was acknowledged: `ImportTheorems.GivenUpExactly`, in the run of
  `ImportTheorems.AJobGetsStuck`.
- A job done or failed is not started again, but its row may still be written by a
  worker that had it. That cannot happen exactly when no worker is left with a batch
  to commit: `ImportOverlaps.ClosedExactlyWhen`, in the runs of
  `ImportOverlaps.AFailedJobGoesOn` and `ImportOverlaps.ADoneJobIsRewritten`.
- Waiting the reported reset is not always enough with several rules:
  `RateChecks.RetryWorksExactlyWhen`, in the case of `RateChecks.ReportedResetMayBeShort`.
- After every token of a user is revoked a refresh under way still stores a new
  one: `Sessions.StaysOutExactlyWhen`, in the run of `Sessions.DisabledAndBack`.
- A revoked key, or a slug given up, works on for the TTL and for as long as a row read
  before took to be cached: `KeyCache.RevokedKeyStops`. That long is reached, although
  a request in between is told the truth, in the trace of `KeyCache.RevokedKeyLingers`.
- A grid whose keys do not tell options apart is not the grid that ends up live:
  `MatrixTheorems.GridIsLiveExactlyWhen`, for the grid of
  `MatrixTheorems.AnEmptyValueIsNotTheGrid`. For the same reason saving a grid again
  may archive one more variant: `MatrixTheorems.SavingAgainWritesNothing`, for the
  grid of `MatrixTheorems.ArchivedOneAtATime`.
- A column cleared and sent its value at once counts as a change:
  `MatrixLaws.ChangesExactly`, for the update of `MatrixLaws.ClearedAndSent`. A request
  cannot ask for that, so for requests the promise is kept: `MatrixLaws.RequestedExactly`.
- An amount with sen, or a negative one, does not read back: `Rupiah.PrintedReadsBack`,
  for the amounts of `Rupiah.SenAndSignAreLost`.
  A product beyond 64 bits wraps silently: `Rupiah.ReadExactly`, for the number of
  `Rupiah.TooManyWrap`.

## Model

| member | source | states |
|---|---|---|
| OrderIds.OrderNumberInjective | internal/orders/create.go:126-136 | a number tells both its prefix and its sequence number, so shops that change prefix never repeat one |
| OrderIds.ProviderIdInjective | internal/orders/payments.go:54-58 | no attempt of one order has the Midtrans id of another order's, or of another attempt |
| OrderIds.NumbersRead | internal/orders/payments.go:54-58 | a number reads prefix, dash and six or more digits of the sequence value; a later attempt adds a dash and its number |
| OrderLaws.TrailClimbs | internal/orders/transition.go:18-25 | along any audited chain of allowed moves no status is entered twice |
| OrderLaws.NewOrderGood | internal/orders/create.go:120-153 | a new order's totals are the sums of its lines plus shipping less discounts, and it keeps every law of an order |
| OrderLaws.TransitionKeeps | internal/orders/transition.go:71-121 | a move keeps totals, numbering, frozen amounts, the audit chain, timestamps, tracking and mails, and never undoes what was paid |
| OrderLaws.EditKeeps | internal/orders/update.go:26-68 | an edit of a pending order keeps every law of an order, the total among them |
| OrderLaws.RefundKeeps | internal/orders/refund.go:18-45 | a recorded refund keeps every law of an order |
| OrderLaws.SetLinkKeeps | db/queries/payments.sql:9-12 | storing a link, on whatever attempt, keeps every law of an order |
| OrderLaws.PayAgainKeeps | internal/orders/payments.go:129-182 | a new attempt leaves the old ones failed, takes the next number and the order's total, and keeps every law |
| OrderLaws.PayAgainNeverCollides | internal/orders/payments.go:149-169 | the attempt number chosen is never taken and never beside a pending row |
| OrderLaws.ApplyKeeps | internal/orders/notify.go:99-159 | whatever Midtrans reports of whatever attempt, the order keeps its laws and what was paid stays paid |
| OrderLaws.PaidIsVisited | internal/orders/transition.go:18-25 | an order past pending that is not cancelled was paid |
| OrderOutcomes.ReportTwice | internal/orders/notify.go:119-139 | the same report applied again, at any later time, changes nothing |
| OrderOutcomes.OneLiveLink | internal/orders/payments.go:63-69 | of an order's links at most one can be paid, the newest attempt's |
| OrderOutcomes.ShownPaidStays | internal/orders/history.go:77-89 | a later state of an order shown paid is shown paid |
| OrderOutcomes.PayerIsShownPaid | internal/orders/history.go:73-89 | exactly when the shopper whose payment settles is then shown paid |
| OrderOutcomes.LateMoney | internal/orders/notify.go:142-155 | money settled on a cancelled order is refundable exactly when the order had been paid; else it is on record as owed |
| OrderOutcomes.DebtRecordedOnce | internal/orders/notify.go:138-155 | the debt is recorded once, when the attempt is first paid on a cancelled order |
| ShopSteps.CheckoutNeverCollides | internal/orders/checkout.go:131-147 | a checkout's number, cart and Midtrans id are never taken; only an order id drawn twice is refused |
| ShopSteps.NextKeeps | internal/orders/checkout.go:48-179 | every step of the protocol keeps the shop's invariant and only evolves its orders |
| ShopTheorems.PaidAttemptFreezesOrder | internal/orders/notify.go:119-151 | in every reachable shop a paid attempt means the order is not pending and costs what was paid, and so it stays after any further run |
| ShopTheorems.AttemptsNumberedAndAlone | internal/orders/payments.go:149-173 | attempts are numbered 1..k, only the newest can be pending, at most one link is live |
| ShopTheorems.ProviderIdsUnique | db/migrations/000023_payments.up.sql:24-30 | no two attempts of a shop share a Midtrans id |
| ShopTheorems.RequestsAccountedFor | internal/orders/payments.go:78-119 | requests sent are the rows less those not asked for yet plus the lost ones; without lost ones no id is sent twice |
| ShopTheorems.SentAtMostOnce | internal/orders/payments.go:126-128 | over runs whose pay-agains commit, each attempt id is sent to Midtrans at most once |
| ResendTheorems.OpensExactlyWhen | internal/orders/payments.go:137-177 | pay-again opens a new attempt exactly for a pending whole-rupiah Midtrans order of a shop that takes Midtrans and with no link that can be paid |
| ResendTheorems.LostCommitSendsTwice | internal/orders/payments.go:126-177 | over any run some id is sent twice exactly when an order that needed a link at a lost pay-again needs one at a later pay-again, whatever came between |
| ShopInstances.AnIdGoesOutTwice | internal/orders/payments.go:166-177 | a shop opened, one order, one pay-again lost and one not: the same id went out twice |
| ShopInstances.LateMoneyIsStranded | internal/orders/notify.go:138-155 | a shop opened, a link expired, another opened, the order cancelled and the first link paid: no refund can be recorded and the shopper is shown pending |
| ShopInstances.TheSecondPaymentIsSilent | internal/orders/notify.go:138-155 | a shop opened, a link expired, another opened, and both paid: the audit log ends as the first payment left it |
| ShopTheorems.NotificationTwice | internal/orders/notify.go:40-95 | a notification delivered again right away leaves the whole shop as it was |
| ShopTheorems.NotificationLater | internal/orders/notify.go:99-159 | delivered again after any further run it changes the last reported status of its own attempt and nothing else, unless that attempt is unpaid and the report pays what the order now costs |
| ShopTheorems.NotificationFindsItsAttempt | internal/orders/notify.go:100-114 | the id of an attempt leads to that attempt |
| ShopTheorems.UnrecordedForGood | internal/orders/notify.go:138-155 | money that arrives leaves no audit row exactly when its order is past pending and not cancelled, and after any further run is on record as owed exactly when the order was cancelled |
| ShopTheorems.RefundedOnce | internal/orders/refund.go:25-30 | a refund goes through exactly when the audit log shows the order paid, cancelled and without one; after any further run a second is refused |
| PaymentTheorems.NotifiedExactly | internal/orders/notify.go:116-156 | by the report's own words: settlement, or a capture that was accepted, of the attempt's amount and the order's total pays; another sum flags; expire, cancel and deny fail what is waiting; the order moves and mails exactly when it is pending and this pays it; nothing else is touched |
| PaymentTheorems.StatusExactlyWhen | internal/orders/notify.go:116-140 | over any run an attempt is paid exactly when a notification under its id confirmed its amount while the order cost that, flagged when only other sums were confirmed, failed when none was and while waiting it was ended or replaced |
| PaymentTheorems.PayAgainDecides | internal/orders/payments.go:129-182 | each refusal and when it is given; the newest link while it can be paid; else what waited fails beside one new attempt for today's total, open a day, and Midtrans is asked for a hundredth of it |
| PaymentTheorems.EveryRequestIsPriced | internal/orders/payments.go:107-113 | over any run each request asks for a hundredth of what its attempt or order cost when it went out, and unless its pay-again was lost its row is there for a hundred times the rupiah asked |
| PaymentTheorems.PaidIsWhatWasAsked | internal/orders/payments.go:107-113 | while no pay-again is lost, an order whose attempt is paid costs a hundred times what Midtrans was asked under that id |
| PaymentTheorems.LinkIsItsOwn | internal/orders/payments.go:83-90 | over any run the link an attempt carries is one Midtrans gave for that attempt |
| LifeTheorems.MovesExactly | internal/orders/transition.go:71-121 | an order's moves are a path from pending through paid, processing and shipped to completed, or cancelled before shipping; the next goes through exactly when it lengthens the path and a shipment has tracking and a courier, and writes exactly its stamps, one audit row and its mail |
| LifeTheorems.PaidExactlyWhen | internal/orders/notify.go:142-151 | over any run an order has been paid exactly when, while pending, an admin said so or a notification confirmed one of its attempts in full |
| LifeTheorems.EditsExactly | internal/orders/update.go:26-68 | an edit goes through exactly on a pending order at its version; shipping becomes what was sent and the total moves by the difference |
| LifeTheorems.OnlyEditsReprice | internal/orders/update.go:26-68 | no other step changes what an order costs, and none its lines |
| LifeTheorems.ShownExactly | internal/orders/history.go:73-89 | paid once the order was or its newest attempt is, failed while that attempt is, else pending |
| ShopTheorems.ShownPaidForGood | internal/orders/history.go:77-89 | a shopper once shown paid is shown it after any further run |
| ShopTheorems.AuditTellsAll | internal/orders/transition.go:46-121 | replaying the audit rows gives the status; each timestamp is set exactly when its status was visited; each email kind is queued at most once |
| ShopTheorems.NumbersUnique | internal/orders/create.go:126-136 | order numbers are unique although the prefix changes |
| ShopTheorems.IndexesNeverRefuse | db/migrations/000018_orders.up.sql:77-83 | no unique index is ever what refuses a step, save an id drawn twice |
| CheckoutTheorems.CheckoutAnswers | internal/orders/checkout.go:54-157 | a checkout that creates leaves the cart with its order; one that does not create returns the order the cart already had |
| CheckoutTheorems.OneCartOneOrder | internal/orders/checkout.go:41-47 | of any two successful checkouts of a cart, in any run, both return one order and at most one reports it created |
| CheckoutTheorems.SomeSuccessCreated | internal/orders/checkout.go:148-156 | a cart that has an order got it from a checkout that reported it created |
| CheckoutTheorems.ExactlyOneCreates | internal/orders/checkout.go:41-47 | in any run from the opening in which a checkout of a cart succeeds, exactly one reports it created, and all return its order |
| CheckoutTheorems.ReplaysAlwaysSucceed | internal/orders/checkout.go:64-79 | any later checkout returns the order, expired cart or not, and no edit of the cart goes through |
| CheckoutTheorems.ReplayOffersTheLiveLink | internal/orders/checkout.go:169-177 | a replay offers a link exactly when one can be paid, and it is that one |
| CheckoutTheorems.LinesAreTheCartForGood | internal/orders/checkout.go:84-104 | after any further run the order's lines are the cart's items, and no other order comes of the cart |
| CheckoutTheorems.WinnerPricesTheCart | internal/orders/checkout.go:95-147 | the order that is created has today's prices, the quoted shipping and an attempt for its total exactly when paid through Midtrans |
| CheckoutTheorems.UnavailableNamesItems | internal/orders/checkout.go:95-109 | the refusal names exactly the items that cannot be bought |
| ShopAnswers.CheckoutDecides | internal/orders/checkout.go:54-179 | every answer of a checkout with exactly when it is given, the shop's two payment switches among them, and the order, attempt, cart and mail written when nothing is refused |
| ShopAnswers.ManualDecides | internal/orders/create.go:41-92 | every refusal of a manual order, naming the first bad line, and the order written otherwise: prices of that moment, discounts taken off, by bank transfer |
| ShopAnswers.CartEditDecides | internal/carts/carts.go:94-131 | every refusal of a cart edit; else the cart holds the quantity sent of that variant and as many as before of every other, for thirty days more |
| ShopAnswers.CartsComeAndGo | db/queries/carts.sql:60-63 | a sweep takes exactly the expired carts that made no order |
| ShopStore.Store.SetItem | internal/carts/carts.go:94-131 | quantity 0 removes the item, any other needs a visible variant, and only an open cart is written and kept alive: new tables and answer are the cart step's |
| ShopStore.Store.Checkout | internal/orders/checkout.go:48-179 | replay branch, line loop, order, attempt and cart written in turn leave the tables and give the answer of the checkout step, refusals with nothing written |
| ShopStore.Store.CreateManual | internal/orders/create.go:41-92 | the first bad line or a courier not on offer refuses everything; else the tables, shipping and courier included, are the manual order step's |
| ShopStore.Store.AskMidtrans | internal/orders/payments.go:78-82 | the request goes out once for the committed row and its answer is kept for storing, nothing else changes |
| ShopStore.Store.StoreLink | internal/orders/payments.go:83-89 | the link lands on the row it was asked for, whatever happened to the order since |
| ShopStore.Store.PayAgain | internal/orders/payments.go:129-182 | the live link or a new attempt beside the failed stale one, its row kept though Midtrans fails: the pay-again step |
| ShopStore.Store.Notify | internal/orders/notify.go:99-159 | attempt written first and order second leave the tables of the notification step |
| ShopStore.Store.MoveOrder | internal/orders/transition.go:50-121 | refusals write nothing, a repeated move nothing, an allowed one stamps the row and adds one audit row: the transition step |
| ShopStore.Store.UpdatePending | internal/orders/update.go:26-68 | an edit is refused with nothing written once the order has moved on or its version has, and else recomputes the total: the edit step |
| ShopStore.Store.Refund | internal/orders/refund.go:18-45 | a second refund and one for an order not both paid and cancelled are refused, any other stamps the row: the refund step |
| Decimal.ValueOfItoa | internal/orders/payments.go:57 | the digits of a number say which number they are |
| Decimal.ValueOfPadded6 | internal/orders/create.go:136 | padding to six digits loses nothing |
| Rupiah.Rupiah | internal/orders/mail.go:119-140 | the printing loop, on a 64-bit amount, writes the text the theorems are about |
| Rupiah.KeepGrouped | internal/orders/mail.go:126-131 | what the parser removes of grouped digits is exactly the separators the loop put in |
| Rupiah.PrintedReadsBack | internal/catalog/csv.go:90-97 | a printed amount reads back as itself exactly when it is not negative and has no sen, over all 64-bit amounts |
| Rupiah.TextShows | internal/orders/mail.go:119-140 | sign, mark, rupiah in threes from the right and two digits of sen after a comma, if any |
| Slugs.CandidateInjective | internal/catalog/products.go:256-260 | two numbers never give one candidate slug |
| Slugs.CandidatesRead | internal/catalog/products.go:248-260 | the first candidate is the base, the n-th the base, a dash and n |
| Slugs.FindSlug | internal/catalog/products.go:248-266 | the loop ends for any set of taken slugs, with the first candidate not taken |
| ImportPlan.ImportBatches | internal/catalog/import.go:169-200 | the rows are rearranged in place to the grouped order and the spans are its batches |
| ImportPlan.GroupingIsGrouped | internal/catalog/import.go:166-187 | the result is the one arrangement with each product's rows together and in order, products by first appearance |
| ImportPlan.GroupedIsPermutation | internal/catalog/import.go:180-187 | no row is lost, made up or repeated |
| ImportPlan.AlreadyGrouped | internal/catalog/import.go:180-187 | rows already grouped stay as they are |
| ImportPlan.BatchesCoverWholeProducts | internal/catalog/import.go:189-199 | the spans tile the file, hold whole products, are at most 500 rows or one product, and could not have taken the next product in |
| ImportPlan.ProductInOneBatch | internal/catalog/import.go:166-168 | two rows of one product never fall into different batches |
| ImportPlan.SameProductExactlyWhen | internal/catalog/import.go:202-209 | rows are of one product exactly when their trimmed titles are equal but for case; rows without a title are each of their own |
| Catalog.RefusedIffBroken | db/migrations/000012_variants.up.sql:12-53 | a write of a variant is refused exactly when the tables after it would break a constraint |
| ImportAnswers.ConstraintsAre | db/migrations/000012_variants.up.sql:12-53 | the constraints, column by column: amounts not negative, a sale below the regular price, a window that ends after it starts, SKUs and live cells once |
| ImportLaws.RowsKeep | internal/catalog/import.go:272-334 | whatever the rows are, no constraint of the catalog is ever broken |
| ImportLaws.EveryRowCounted | internal/catalog/import.go:236-257 | each row is counted once as created, updated or failed, and each error carries the line of a row |
| ImportLaws.BatchMakesProducts | internal/catalog/import.go:308-329 | a batch makes products only under its rows' titles, at most one per title, and leaves older ones alone |
| ImportLaws.LostExactlyWhen | internal/catalog/import.go:242-248 | the first row of a title loses the title exactly when it is complete and its amounts break a check |
| ImportLaws.LostTitleMakesNothing | internal/catalog/import.go:308-329 | a batch that has lost a title ends without a product of it |
| ImportLaws.FailsAloneExactlyWhen | internal/catalog/import.go:238-250 | a failed first row leaves every later row's outcome as it would have been exactly when it did not lose its title |
| ImportLaws.BadRowTakesItsTitle | internal/catalog/import.go:238-250 | a row that makes a product alone in its batch makes none after a row of its title with a sale price too high |
| ImportAnswers.ReadsExactly | internal/catalog/import.go:336-364 | a row reads exactly when each amount in it does, is refused for the first that does not, and its cells become the columns of their names |
| ImportAnswers.KnownSkuDecides | internal/catalog/import.go:277-297 | with conflicts as errors a SKU that is held fails the row; else an archived holder does, and a live one is updated with the row's cells exactly when the tables stay lawful |
| ImportAnswers.NewSkuDecides | internal/catalog/import.go:300-334 | without a title or with an empty option the row fails; else it becomes a variant of its title's product with just its cells, exactly when the tables stay lawful |
| ImportAnswers.RefusingImportTouchesNothing | internal/catalog/import.go:284-287 | over any run, overlapping or not, an import with conflicts as errors leaves every variant there was as it was |
| ImportAnswers.GramsRead | internal/catalog/csv.go:99-105 | a weight reads as itself, with its unit or without, as far as 32 bits go |
| ImportTheorems.RunKeeps | internal/jobs/jobs.go:131-197 | after any run without overlapping deliveries each batch was applied at most once, in order, and the job row says where to resume |
| ImportTheorems.ResumeEqualsUninterrupted | internal/catalog/import.go:136-160 | however often workers die, the catalog is an uninterrupted run's as far as it has come, and a done job has all of it with the same tally and error report |
| ImportTheorems.DoneAppliedEachBatchOnce | internal/db/sqlcgen/jobs.sql.go:14-36 | with other writers in between, a done job has applied each batch exactly once, in order, on the tables of that moment |
| ImportTheorems.CheckpointAddsUp | internal/catalog/import.go:258-265 | at every checkpoint created, updated and failed rows add up to those processed |
| ImportTheorems.ClosedForGood | internal/db/sqlcgen/jobs.sql.go:156-162 | a job done or failed never changes again however often it is delivered |
| ImportTheorems.OverlapRepeatsABatch | internal/db/sqlcgen/jobs.sql.go:156-160 | on any file with rows two overlapping deliveries apply the first batch twice |
| ImportOverlaps.InOrderExactlyWhen | internal/db/sqlcgen/jobs.sql.go:14-17 | over any run, overlapping or not, each batch is applied at most once and in order exactly when every commit continues the commits before it |
| ImportOverlaps.InOrderIsEnough | internal/catalog/import.go:136-160 | and then, whatever overlaps, the catalog is an uninterrupted run's so far and a done job has all of it with the same tally and report |
| ImportOverlaps.NoOverlapContinues | internal/jobs/jobs.go:131-197 | deliveries that do not overlap are in order |
| ImportOverlaps.OverlapWithoutHarm | internal/jobs/jobs.go:131-197 | and they are not the only ones |
| ImportOverlaps.ClosedExactlyWhen | internal/db/sqlcgen/jobs.sql.go:14-17 | a job done or failed stays so over any run; no batch is applied for it any more, and, done or failed before the end, its row stays as it is, exactly when no worker is left that could commit one |
| ImportOverlaps.AFailedJobGoesOn | internal/db/sqlcgen/jobs.sql.go:14-17 | on any file with rows a worker applies a batch of a job that another has failed |
| ImportOverlaps.ADoneJobIsRewritten | internal/db/sqlcgen/jobs.sql.go:14-17 | on any file of one batch a worker puts its checkpoint where a done job's result was |
| ImportTheorems.GivenUpExactly | internal/jobs/jobs.go:143-225 | a job given up is running in every later world exactly when its failure was not written and its message acknowledged; with neither, a good delivery completes it; with the failure written it is failed for good |
| ImportTheorems.AJobGetsStuck | internal/jobs/jobs.go:172-181 | on any file the first delivery can leave its job so |
| ImportTheorems.OneGoodDeliveryCompletes | internal/jobs/jobs.go:133-197 | whatever happened before, one undisturbed delivery completes an open job |
| ImportTheorems.OneProductPerTitle | internal/catalog/import.go:166-168 | an import of any length makes at most one product per title |
| Importer.Worker.ImportRow | internal/catalog/import.go:272-334 | the branches of a row, in the order the code takes them, are the row's function |
| Importer.Worker.ImportBatch | internal/catalog/import.go:233-268 | savepoint loop and checkpoint are the batch's function, and the job row gets its count, failures and tally |
| Importer.Worker.Handle | internal/catalog/import.go:116-151 | the handler's loop over regrouped rows is the resumed import |
| Importer.ResumedIsUninterrupted | internal/catalog/import.go:136-150 | from any checkpoint the loop ends where a run from the start ends |
| RateLimit.Redis.Script | internal/queue/redis.go:45-60 | hits out of the window go, the hit is added only below the limit, the key lives a window on, and the reply dates the oldest hit |
| RateLimit.Limiter.Hit | internal/ratelimit/ratelimit.go:100-114 | a new window opens when the old one is over, and only hits below the limit are counted |
| RateLimit.Limiter.Check | internal/ratelimit/ratelimit.go:54-69 | every rule counts the hit whatever the others answer, from Redis or from the fallback when it does not answer, and the result is the fold of their answers |
| RateLaws.AtMostLimitInAWindow | internal/queue/redis.go:41-60 | over every trace Redis lets at most the limit through in any window less twice the clock skew, in any whole window when clocks agree |
| RateLaws.FallbackBelowTwice | internal/ratelimit/ratelimit.go:86-114 | one replica's fallback lets at most twice the limit less one through in any window's length |
| RateLaws.FallbackResetIsExact | internal/ratelimit/ratelimit.go:103-110 | refused by the fallback, a caller gets in exactly when the reset it was told has passed |
| RateLaws.FallbackReachesTheBound | internal/ratelimit/ratelimit.go:100-114 | and some trace reaches that |
| RateLaws.OutagesLoosenThisMuch | internal/ratelimit/ratelimit.go:1-5 | with r replicas and any outages at most limit + r (2 limit - 1) hits get through in any window's length |
| RateLaws.OutagesReachTheBound | internal/ratelimit/ratelimit.go:86-114 | and for any positive limit and number of replicas some trace lets exactly that many through |
| RateLaws.ExpiryChangesNothing | internal/queue/redis.go:57 | that a key expires never changes an answer or what is counted |
| RateLaws.KeptAfter | internal/queue/redis.go:41-60 | calls at non-decreasing times leave a log in order and within the limit |
| RateLaws.NextAllowedExactlyWhen | internal/queue/redis.go:61-72 | after a call the next is let through exactly when there was room left or the reported reset has passed |
| RateLaws.HammeringChangesNothing | internal/queue/redis.go:41-44 | refused tries in between do not push the reset away |
| RateChecks.AllowedByAll | internal/ratelimit/ratelimit.go:48-69 | a request is let through exactly when every rule lets it through |
| RateChecks.ReportsLastRefusal | internal/ratelimit/ratelimit.go:62-65 | a refusal reports the last rule that refused, with none remaining |
| RateChecks.ReportsTightest | internal/ratelimit/ratelimit.go:62-65 | an accepted request reports the first of the rules with the fewest remaining |
| RateChecks.RetryWorksExactlyWhen | internal/ratelimit/ratelimit.go:71-84 | trying again later works exactly when every rule had room left or has passed its own reset |
| RateChecks.EachKeyIsLimited | internal/ratelimit/ratelimit.go:48-114 | with any keys, rules, replicas and outages together, each key is let through at most limit + n (2 limit - 1) times in a window's length, and at most limit times when Redis answers every call on it |
| RateChecks.ReportedResetMayBeShort | internal/ratelimit/ratelimit.go:62-65 | two rules and a caller refused again after the reset it was told |
| Sessions.RunKeeps | internal/auth/service.go:119-251 | under any interleaving tokens form chains of single successors and every replaced token is revoked |
| Sessions.OneSuccessor | internal/auth/service.go:173-186 | no token is replaced twice, not even by a refresh under way |
| Sessions.OneLivePerChain | internal/auth/service.go:173-201 | each login has at most one token that works, counting the one about to be stored |
| Sessions.RotatesExactlyWhen | internal/auth/service.go:166-186 | a refresh gets a session exactly when its token was live at lookup, is unexpired and still unrevoked; of two at once the second gets none and revokes nothing |
| Sessions.ReplayExactly | internal/auth/service.go:130-164 | presenting a revoked token, whatever happens before the transaction, ends every session of its user when its replacement is stored by then, and changes nothing when not |
| Sessions.SignedOutReplayIsHarmless | internal/auth/service.go:131-137 | however long after, replaying a signed-out token ends no session |
| Sessions.StaysOutExactlyWhen | internal/db/sqlcgen/auth.sql.go:100-120 | with all tokens revoked a user who does not sign in again stays out exactly when no session of theirs was about to be issued |
| Sessions.DisabledAndBack | internal/auth/service.go:173-201 | a user disabled between a refresh's transaction and its issue has no token that works, and then has one |
| SessionTheorems.ResetExactly | internal/auth/service.go:337-379 | a reset ends every session of its user and no other's, and is about to begin one that replaces none |
| SessionTheorems.AfterReset | internal/auth/service.go:366-379 | after a reset and any further events no token stored before it works for its user, and one that does goes back to the reset's login, a later one or one already under way, or through a refresh already under way |
| SessionTheorems.DisableExactly | db/queries/auth.sql:38-49 | disabling ends the user's sessions and no other's, and begins none |
| SessionTheorems.SignOutExactly | internal/auth/service.go:203-215 | signing out ends the session of the token presented and no other |
| SessionTheorems.SessionBegins | internal/auth/service.go:219-251 | a session begins with a new token of its user, good for thirty days, that names the one it replaces |
| SessionStore.Service.RevokeAllUserTokens | db/queries/auth.sql:38-49 | the rows of the user are revoked and no other's |
| SessionStore.Service.Present | internal/auth/service.go:120-126 | a lookup remembers what the row said at that moment and changes no row |
| SessionStore.Service.Rotate | internal/auth/service.go:130-201 | a replayed token with a successor revokes all its user's, an expired or just revoked one nothing, else the token is revoked before a session is under way |
| SessionStore.Service.StoreSession | internal/auth/service.go:219-251 | one new row, naming the token it replaces, and the request is over |
| SessionStore.Service.Logout | internal/auth/service.go:203-215 | the presented token alone is revoked |
| SessionStore.Service.ResetPassword | internal/auth/service.go:337-379 | everything is revoked before the new session is issued |
| MatrixLaws.ChangesExactly | internal/catalog/matrix.go:223-245 | changes says no exactly when the update would write back what is there, but for columns cleared and sent at once |
| MatrixLaws.RequestedExactly | internal/http/variants.go:32-59 | a row of a request never does that: each column becomes what the request says, and changes says no exactly when that is what was there |
| MatrixLaws.RowTouches | internal/catalog/matrix.go:126-178 | a row that does not fail settles one variant, live under its key with its fields, and touches no other |
| MatrixLaws.RowsProgress | internal/catalog/matrix.go:83-103 | after the rows each variant no row is about is as it was and nothing else has come to life |
| MatrixAnswers.SaveDecides | internal/catalog/matrix.go:45-66 | every refusal of a request and when it is given, a version gone by among them; else each row has a result and the product the names sent, one version on |
| MatrixAnswers.RowDecides | internal/catalog/matrix.go:126-178 | the newest live variant of the key is left alone or updated, with none the oldest archived one restored, with neither one made; it fails exactly when the SKU is blank or the tables would not be lawful |
| MatrixTheorems.FailedRowLeavesNothing | internal/catalog/matrix.go:128-137 | a failed row leaves every variant untouched |
| MatrixTheorems.GridIsLiveExactlyWhen | internal/catalog/matrix.go:105-116 | with archive_missing and no failure the live variants are the grid, each once, exactly when keys tell the options apart |
| MatrixTheorems.AnEmptyValueIsNotTheGrid | internal/catalog/matrix.go:219-220 | a variant without options passes for the one of an empty size, and the save reports it unchanged |
| MatrixTheorems.TypedKeysTellApart | internal/catalog/matrix.go:219-220 | they do when values are not empty and hold no separator |
| MatrixTheorems.KeyTellsAll | internal/catalog/matrix.go:219-220 | the key of such values determines them |
| MatrixTheorems.SavingAgainReportsUnchanged | internal/catalog/matrix.go:164-169 | the same grid saved again is never refused and reports a row unchanged exactly when it does not clear and send one column, whatever keys are shared |
| MatrixTheorems.SavingAgainWritesNothing | internal/catalog/matrix.go:105-116 | and then no row writes a variant, and none is archived exactly when no two live variants shared a key the grid leaves out |
| MatrixTheorems.ArchivedOneAtATime | internal/catalog/matrix.go:105-116 | an empty grid archives the newer of two such variants and, saved again, the other |
| MatrixEditor.CheckRequest | internal/catalog/matrix.go:182-209 | the loops over names and rows decide what the grid's check says |
| MatrixEditor.ReadVariants | internal/catalog/matrix.go:68-75 | the two maps hold the newest live and the oldest archived variant of each key |
| MatrixEditor.Editor.SaveRow | internal/catalog/matrix.go:126-178 | live, archived or new, the row leaves the tables its function says, and those of its savepoint when anything is refused |
| MatrixEditor.Editor.ArchiveUnsent | internal/catalog/matrix.go:105-116 | the loop over live keys archives exactly what was not sent |
| MatrixEditor.Editor.SaveMatrix | internal/catalog/matrix.go:45-123 | the whole request is the save's function, refused before a write or with a result per row |
| KeyCache.EntriesApart | internal/storefront/keys.go:149-153 | no slug's entry is a key's and no two questions share an entry |
| KeyCache.AnswersWereSo | internal/storefront/keys.go:185-211 | whatever a request is told, the database held it for that very question within the last TTL plus the longest read-to-insert delay, however requests overwrite each other |
| KeyCache.RevokedKeyStops | internal/storefront/keys.go:91-99 | a key that stopped being live is not accepted once that time is over |
| KeyCache.RevokedKeyLingers | internal/storefront/keys.go:185-204 | for any key, TTL and delay it is accepted one moment before that, though a request in between was told it is revoked |
| KeyCache.Keys.Resolve | internal/storefront/keys.go:188-203 | one request alone takes the model's steps |
| Paging.List | internal/orders/order_list.go:116-187 | the loop that trims the extra row and sets the next cursor gives the page the theorems are about |
| Paging.PageLimit | internal/httpkit/httpkit.go:216-230 | the page size is between 1 and 200 and is the one asked for when that is |
| Paging.AllListsEachOnce | internal/orders/order_list.go:127-135 | the list holds every matching order once, in the order asked for |
| Paging.PageShows | internal/orders/order_list.go:51-187 | the rows of any page are ones the filter asks for, part by part, latest or earliest first with ids between equal times, and the total counts all such orders |
| Paging.ChosenPast | internal/orders/order_list.go:127-135 | the keyset predicate takes exactly the rest of the list |
| Paging.CursorsAgreeWithNumbers | internal/orders/order_list.go:137-140 | following cursors gives the pages that numbers give, for both sorts and any limit, and ends with them |
| Paging.WalkShowsEveryOrderOnce | internal/orders/order_list.go:180-187 | a walk to the last page shows every matching order exactly once, in order |
| Paging.WalkEnds | internal/orders/order_list.go:180-187 | and there is always a last page |

## Left out

- HTTP handlers, JSON, authentication of requests, CORS and problem responses: plumbing around the services.
- The Midtrans, courier, email, storage and Google clients: an environment that may answer anything.
- Cryptography (token hashes, signatures, password hashes): a token is its id, a hash is a hexadecimal string.
- Row-level security, other tenants, category paths and the dashboards: one shop is one isolated state.
- What slugify makes of a title: a parameter of an import.
- Customers, addresses, notes and reasons on an order, cart ownership, and item images: columns nothing modelled depends on.
- Overflow of 64-bit sums in order totals: amounts there are unbounded integers; wrap-around is modelled only where amounts are printed and read.
- Letters and spaces outside ASCII in titles, option names and SKUs.
- Reading the CSV itself, its option columns' order, the mapping's validation and the raw cells written to the error report.
- The whole seconds in rate-limit headers: the reset, rounded up.
- MaxDeliveries: giving up may happen at any delivery.
- Import by admin bulk upsert, and products' own edits: single-row writes.
- The per-status counts in a matrix result: they are counts of the results.
- Free-text search in the order list, and the line counts joined to its rows.
- ShopTheorems.SentAtMostOnce: needs pay-again transactions to commit once Midtrans was called; what happens otherwise is ResendTheorems.LostCommitSendsTwice, over any run.
- ImportTheorems.RunKeeps: needs deliveries of one job not to overlap; deliveries that do are in ImportOverlaps.InOrderExactlyWhen and ImportOverlaps.InOrderIsEnough.
- ImportTheorems.ClosedForGood: needs deliveries of one job not to overlap; what workers left over can do is in ImportOverlaps.ClosedExactlyWhen.
- ImportOverlaps.ClosedExactlyWhen: of a job failed after its last checkpoint it says exactly when a batch is applied, not when the row differs, as the checkpoint written then may be the one it holds.
- ImportTheorems.ResumeEqualsUninterrupted: compares catalogs up to the choice of UUIDs, as ids are drawn from a counter that a rolled back batch gives back.
- ImportLaws.FailsAloneExactlyWhen: is about the first row of a title in its batch; a later row finds its product remembered and cannot lose it.
- RateLaws.OutagesLoosenThisMuch: takes one clock for all replicas.
- MatrixTheorems.SavingAgainWritesNothing: needs rows that do not clear and send one column, as rows of a request are.
- KeyCache.Keys.Resolve: one request with nobody in between; interleavings are in KeyCache.AnswersWereSo.
