# ProcurementCore: supplier submission, receipts and lifecycle

A Dafny model of the transactional core of ProcurementCore: how a requisition becomes an approved purchase order, how a
paid order is sent to Amazon Business or Adam Hall at most once, how Amazon confirmations and goods receipts are booked,
and how triggers and handlers together keep catalog, requisitions and orders consistent.

## How the model is built

- `Schema.dfy` holds the rows and the database as one value `Db`. Everything keyed by one purchase order (order row,
  lines in id order, the unique claim, the unique reconciliation, confirmation rows) is one `OrderFile`. Quantities
  are `real`, money is integer cents, time is an integer microsecond clock, a context fingerprint is the reviewed rows
  themselves.
- `Triggers.dfy` states every database trigger as a guard on a row write that also assigns the version.
- `Submission.dfy`, `Confirmations.dfy`, `GoodsReceipts.dfy`, `Offers.dfy`, `Conversion.dfy`, `Workflow.dfy` state
  each transaction as a function from a database to the committed database or a refusal. A refused transaction commits
  nothing.
- `World.dfy` is the whole system: database, processes between their transactions, external sends, and the history of
  approvals, conversions and warehouse moves. Requests, later phases, crashes, messages, receipts, human decisions and
  the warehouse's own work on the shared stock and device tables are 31 kinds of action; a list of actions is a run,
  so a statement about every list is a statement about every interleaving.
- `Invariants.dfy`, `FileSteps.dfy`, `Preservation.dfy`, `Protocol.dfy` prove one inductive invariant of all runs.
  `Evolution.dfy` proves what a run can do to a stored row. `Safety.dfy`, `Origins.dfy`, `Keys.dfy`, `Messages.dfy`,
  `Recovery.dfy`, `Stranding.dfy`, `Closing.dfy`, `Resending.dfy`, `Sessions.dfy`, `Versions.dfy`, `Reviews.dfy`,
  `Stock.dfy`, `Serials.dfy` and `Preview.dfy` hold the results a reader wants. `Witnesses.dfy` runs the system from
  the empty house into every exception the results name.
- `Manual.dfy`, `Lifecycle.dfy`, `OfferTerms.dfy`, `Readiness.dfy`, `Merging.dfy` and `Booking.dfy` say, operation by
  operation, when it commits and what it leaves, on the fields of the rows and without the transaction functions' own
  tests: equivalences, most of them over the reachable states, where the invariant takes superfluous tests off the
  list.
- `Storage.dfy` is the database as an object: table fields, and row writes that run their triggers statement by
  statement. `AmazonHandler.dfy`, `AdamHallHandler.dfy`, `ConfirmationHandler.dfy`, `ReceiptHandler.dfy` and
  `WorkflowHandler.dfy` are the handlers on that object with the loops of the Go code. Each is proved to leave exactly
  the state its transaction function names, and to roll back to the old state otherwise; so every result about runs is
  about these methods.
- `Cart.dfy`, `Drafts.dfy`, `OrderDrafts.dfy`, `Money.dfy`, `Idempotency.dfy`, `Text.dfy` are the free-standing
  algorithms.

## What came out of it

- **At most one send.** `Safety.AtMostOneSend` and `Safety.SendNeedsCommittedClaim` hold for every run over both
  providers; `Witnesses.SomeRunSends` is a run that does send.
- **What Amazon gets was approved**: it is the order's own requisition, from the same PunchOut session, as a user
  other than its requester approved it, and the stored lines stay equal to it for ever
  (`Safety.AmazonGetsTheApprovedCart`). What Adam Hall gets is, article by article, the sum of the stored lines
  (`Origins.AdamHallGetsTheSums`).
- **A crashed submission can be finished exactly when its request had an idempotency key.** A keyed request is
  recoverable by its own replay. A native Amazon request keeps no record: if its process dies after an accepted
  outcome was saved and before finalization, the order stays `submitting`, because reconciliation asks for a pending
  or unknown outcome and no manual transition leaves `submitting`; only a confirmation from Amazon moves it
  (`Stranding.RecoverableIffRecorded`, `Origins.RecoverableIffKeyed`; such an order: `Witnesses.SomeOrderIsStranded`).
  Every other unfinished submission can be closed by a human (`Closing.ClosableIffNotAccepted`,
  `Closing.FinishableIff`).
- **"Can never be sent again" depends on the process, not on the record.** The reconciliation's own message says so of
  every reconciled order; it is true exactly when the process that claimed the order is no longer between claim and
  send (`Resending.SentAgainIff`; an order confirmed as never sent and sent afterwards:
  `Witnesses.SomeReconciledOrderIsSent`). The minimum claim age of 15 minutes makes that unlikely, the tables do not
  exclude it.
- **The receipt preview keeps its word except in one case.** A mapped warehouse product whose tracking mode is the
  empty string is previewed as ready and refused on booking; in every other case a ready receipt is booked with
  exactly the announced effects (`Preview.PreviewIsSound`; a refused one: `Witnesses.SomeReadyReceiptIsRefused`).
- **No trigger alone keeps the catalog references.** The triggers let a closed order be reopened after one of its
  products was archived; that is the only gap of an order update, and no handler asks for it
  (`Safety.ReopeningIsTheGap`).
- **A delayed older confirmation can undo a newer cancellation.** The notice date protects newer rows from a message
  with line items only; a message that accepts or rejects the whole order replaces them whatever its date. It leaves
  newer rows alone exactly when it has line items or there are none (`Confirmations.DelayedKeepsNewerRows`); a run in
  which an older acceptance undoes the cancellation of four pieces is `Witnesses.SomeCancellationIsUndone`.
- **A status `cancelled` need not mean rejected lines.** An order cancelled earlier stays `cancelled` under a
  confirmation that does not reject it exactly when it is not archived and the totals decide nothing
  (`Messages.CancelledExactly`; half of a cancelled order accepted: `Witnesses.SomeCancelledOrderIsAccepted`).
  Otherwise the totals decide, up to the tolerance per line (`Confirmations.CancelledMeansEveryLine`), and exactly
  when the tolerance is zero (`Confirmations.ExactStatus`).
- **One PunchOut session, one requisition, one order, one send** (`Sessions.OneSendPerSession`); its cart is never
  rewritten, and no manual change sends it (`Sessions.CartNeverRewritten`, `Sessions.SentOnlyByClaim`).
- **What was reviewed is what was done.** A keyed claim stands at the amount and the rows of the preview it names
  (`Reviews.ClaimedAsReviewed`), an Adam Hall order for ever at the prices of the reviewed cart
  (`Reviews.AdamHallKeepsReviewedPrices`), and an update that names an earlier version commits only if nothing was
  touched since (`Versions.UpdateSawTheOrder`).
- **A listed status change can never happen.** The table of manual changes leads from `submission_unknown` back to
  `draft`; every such order has a claim, and the trigger on claimed orders refuses the draft
  (`Manual.ResetNeverPasses`).
- **Much of what the submission preview asks is always so.** In every reachable state a PunchOut draft has nothing
  received, confirmed or claimed and names only what is in use; what decides is on the short lists of
  `Readiness.AmazonClaimsIff` and `Readiness.AdamHallClaimsIff`.
- **Status changes climb** for orders without a PunchOut session, at most six in any run (`Safety.AtMostSixChanges`).
  A status changes without its rank rising exactly when a confirmation is applied to a confirmed or partially
  confirmed order and its totals derive another of `sent`, `confirmed` and `partially_confirmed`
  (`Messages.FallsExactly`; from `confirmed` back to `sent`: `Witnesses.SomeStatusFalls`).

## Checking

`dafny verify dfyconfig.toml` checks the whole project with Dafny 4.11.

## Model

| member | source | states |
|---|---|---|
| Safety.AtMostOneSend | internal/api/amazon_submission_mcp.go:205-295 | two sends of one order in any run are the same send, and it carries provider, payload id and payload of the order's committed claim |
| Safety.SendNeedsCommittedClaim | internal/api/amazon_submission_mcp.go:291-295 | whatever action makes the sends grow is the external call of a process whose pending claim was committed before, sends exactly that claim, once, and changes no table |
| Safety.AmazonGetsTheApprovedCart | internal/api/amazon_submission_mcp.go:135-173 | every payload sent to Amazon equals line for line the stored order and the order's own requisition, from the same PunchOut session, as a user other than its requester approved it, at the time and after any further run |
| Origins.AdamHallGetsTheSums | internal/api/adam_hall_checkout_mcp.go:132-181 | in every run each Adam Hall send holds, per article number in the catalog the claiming request read, the sum of the order's stored line quantities, and no other article |
| Origins.AdamHallAsksForSums | internal/api/adam_hall_checkout_workflow.go:140-170 | so does the claim of every Adam Hall order in every later state, sent or not |
| Origins.ClaimHasOrigin | internal/api/amazon_submission_mcp.go:199-285 | every claim of every run was committed by a submission request of that run for that order |
| Origins.OriginUnique | internal/database/order_submission_schema.go:7-20 | by one request only |
| Origins.RecordedIffKeyed | internal/api/handler.go:2192-2232 | in every run an order has a submission record if and only if the request that claimed it had an idempotency key |
| Origins.RecoverableIffKeyed | internal/api/amazon_submission_mcp.go:216-236 | an accepted order left `submitting` with no process can be finished without a new Amazon message if and only if the one request that claimed it had an idempotency key |
| Safety.ClaimsAreForever | internal/database/order_submission_schema.go:22-48 | through any run a claim keeps provider, user, payload and moment, once answered it stays as it is, lines and amount stay, and the order never is a draft again |
| Reviews.ClaimNamesItsRequest | internal/api/amazon_submission_mcp.go:264-285 | in every run a claim names the provider, the user, the payload id and the moment of the request that committed it |
| Sessions.OneSendPerSession | internal/models/models.go:124-163 | in every run one PunchOut session leads to at most one external send, of whatever request, key or user |
| Sessions.RunCarts | internal/models/models.go:124-163 | and to one requisition and one order, which was made of that requisition |
| Sessions.SentOnlyByClaim | internal/api/handler.go:2056-2061 | in every run a PunchOut order without a claim is a draft or cancelled |
| Sessions.CartNeverRewritten | internal/api/order_draft.go:45-51 | what came out of a PunchOut session is never rewritten, in the requisition or in the order |
| Versions.NamedVersionIsStored | internal/api/handler.go:2164-2175 | in every state and for every action that changes anything, a version it names is the stored one and one it must name is named, unless it repeats a recorded request |
| Versions.UpdateSawTheOrder | internal/api/handler.go:2164-2175 | an action that names a version read earlier changes anything, after whatever run, only if row, lines and confirmations of the order are what was read |
| Versions.UpdateSawTheRequisition | internal/api/handler.go:2164-2175 | the same for a requisition with its lines |
| Readiness.AmazonClaimsIff | internal/api/amazon_submission_mcp.go:64-285 | in every reachable state an Amazon request claims its order if and only if the order is an unarchived PunchOut draft without a supplier number that still is the cart a second person approved, in euro, within the limits and at its own total, with a fresh payload id, and for a keyed request with version, context and sentence as reviewed |
| Readiness.AdamHallClaimsIff | internal/api/adam_hall_checkout_mcp.go:55-281 | the same for Adam Hall: a draft without PunchOut, every line orderable at offers that meet their terms, at most 999 pieces per article, and a reviewed cart of these rows, not older than 15 minutes, with every price |
| Readiness.ReconcilesIff | internal/api/submission_reconciliation_mcp.go:154-249 | in every reachable state a first reconciliation commits if and only if the submission is unfinished and not accepted, at least 15 minutes old, verified with evidence, with a number no other order of the supplier has or with none, and version, context and sentence as reviewed |
| Readiness.ConfirmsIff | internal/api/amazon_confirmation.go:131-288 | in every reachable state a confirmation is taken if and only if it is addressed to the order and is known for it, or names existing lines, stays within every quantity and does not revive a cancelled order |
| Readiness.SkuMeans | internal/api/adam_hall_checkout_mcp.go:149-170 | the article number is the applying offer's own, or the product's when that is blank, without blanks around it and in capitals |
| Reviews.SameContext | internal/api/amazon_submission_mcp.go:88-134 | two contexts of an order are equal if and only if order, supplier, products and requisition are the same rows and, unless it is a PunchOut order, so are the offers that concern it |
| Reviews.ClaimedAsReviewed | internal/api/amazon_submission_mcp.go:240-255 | a keyed claim needs the copied sentence for the amount the claimed order has, and everything the named preview showed is as it was |
| Reviews.AdamHallKeepsReviewedPrices | internal/api/adam_hall_checkout_mcp.go:235-248 | in every state of every run an Adam Hall order stands, article by article, at the prices, the currency and the total of the checkout its claiming request named, which was not older than 15 minutes |
| Reviews.AmazonAmountIsTheOrders | internal/api/amazon_submission_mcp.go:161-185 | in every state of every run an Amazon order has at most 50 lines of 1 to 999 pieces, in euro, and its total is that of its lines |
| Reviews.LineCentsTruncate | internal/service/pricing.go:44-50 | a line amount is the exact product without its fraction of a cent |
| Reviews.TotalSplits | internal/service/pricing.go:44-50 | a total is the sum of its lines' amounts, however the lines are divided |
| Reviews.ReconciledAsReviewed | internal/api/submission_reconciliation_mcp.go:154-249 | a first reconciliation commits only for the rows and the proposal, evidence and number included, that a preview showed, with the sentence copied for them |
| Safety.OrderVersionIsFresh | internal/database/workflow_lifecycle_schema.go:57-94 | a version read earlier is accepted after any run if and only if order row, lines and confirmations are untouched since |
| Safety.RequisitionVersionIsFresh | internal/api/handler.go:2164-2175 | the same for a requisition and its lines |
| Safety.StatusClimbs | internal/api/handler.go:1943-1959 | every status change of an order without a PunchOut session raises its rank |
| Safety.AtMostSixChanges | internal/api/handler.go:1943-1959 | so any run changes its status at most six times, fewer from a later status |
| Messages.FallsExactly | internal/api/amazon_confirmation.go:254-263 | in every run and for every order, a status changes without its rank rising if and only if an applied confirmation of that confirmed or partially confirmed order derives another of sent, confirmed and partially confirmed |
| Witnesses.SomeStatusFalls | internal/api/amazon_confirmation.go:254-263 | a reachable confirmed order that a smaller confirmation turns back into a sent one |
| Safety.LifecycleIntegrity | internal/database/workflow_references_schema.go:7-62 | in every reachable state active products have active categories, open orders active suppliers and products and an unarchived requisition, live requisitions active products |
| Safety.ReopeningIsTheGap | internal/database/workflow_references_schema.go:23-39 | an order update the triggers accept breaks the references if and only if it reopens a closed order with an archived product, and no handler transition does that |
| Safety.ReopeningPassesTriggers | internal/database/workflow_references_schema.go:23-39 | such an update exists and passes every trigger |
| Safety.ReceivedMeans | internal/api/handler.go:2472-2488 | in every reachable state a line's received quantity is the sum of its receipts, `received` and `partially_received` say whether a line is short, confirmed lines stay within the accepted sum, and confirmations stay within the ordered quantity |
| Manual.SetStatusIff | internal/api/handler.go:2020-2094 | in every reachable state a manual change commits if and only if it keeps the status or is one of eight steps, of an unarchived order, does not send a PunchOut order and, guided, leaves uncertain orders alone; it leaves all but status, number, notes and date as they were |
| Manual.ResetNeverPasses | internal/api/handler.go:1954-1955 | the listed step from `submission_unknown` back to `draft` is refused in every reachable state |
| Manual.ApproveOrderIff | internal/api/approval_mcp.go:190-330 | in every reachable state a guided change commits if and only if it is one of seven steps, with a reason if it cancels and fit lines if it does not, and never sends a PunchOut order |
| Manual.CreateOrderIff | internal/api/handler.go:1961-2018 | an order is created if and only if its lines are fit and what it names can be used; what it then holds, field by field |
| Manual.EditDraftIff | internal/api/order_draft.go:30-96 | in every reachable state an edit commits if and only if the order is an unarchived draft without PunchOut and the lines are fit and usable; identity and status stay, header, lines and total are what was asked for |
| Manual.CreateRequisitionIff | internal/api/handler.go:1494-1540 | a requisition is created if and only if its lines are fit and usable and its session is new |
| Manual.EditRequisitionIff | internal/api/handler.go:1572-1614 | only drafts and returned ones of no session are edited, and they are drafts again |
| Manual.SubmitRequisitionIff | internal/api/handler.go:1616-1675 | only drafts with fit and usable lines are submitted, and an earlier decision is forgotten |
| Manual.DecideRequisitionIff | internal/api/approval_mcp.go:190-330 | a submitted requisition is decided, guided by somebody else than its requester, with a note when returned and usable lines when approved |
| Sessions.DecisionMeans | internal/api/handler.go:1677-1732 | who decided and how, and that only a returned requisition can be edited again |
| Sessions.RejectedIsFinal | internal/api/handler.go:1677-1732 | through any run a rejected requisition stays rejected with its lines |
| Lifecycle.ArchivedOrderWaits | internal/database/workflow_lifecycle_schema.go:27-58 | from every reachable state an archived order waits row for row, through any run, until it is restored; only the answer to a call under way may be noted |
| Lifecycle.ArchiveOrderIff | internal/api/workflow_lifecycle_mcp.go:200-310 | in every reachable state an order is archived if and only if it is a draft, received or cancelled and nothing waits to be put away, restored if and only if everything it names can be used, and comes back as it went |
| Lifecycle.OrderWriteIff | internal/database/workflow_lifecycle_schema.go:27-58 | an order row passes all three triggers if and only if it keeps what its claim fixes and either only goes into or comes out of the archive, as it may, or names what is in use or closes the order |
| Lifecycle.RequisitionWriteIff | internal/database/workflow_lifecycle_schema.go:27-58 | the same for a requisition row, whose requester never changes |
| Lifecycle.ClaimWriteIff | internal/database/order_submission_schema.go:7-28 | one claim per order and payload id, whose identity stays and whose outcome is written while it is pending |
| Lifecycle.ReconciliationWriteIff | internal/database/submission_reconciliation_schema.go:4-22 | one reconciliation per order, with evidence, and with a number exactly if the order was found |
| Lifecycle.CloseTaskIff | internal/database/workflow_lifecycle_schema.go:17-26 | closing a putaway task closes it alone, and the order is put away once its last waiting task is closed |
| Lifecycle.LinesWriteIff | internal/database/workflow_references_schema.go:40-62 | the lines of an order are replaced if and only if it is not archived and names what is in use or is closed, a claimed order keeps its goods, changed lines name active products or keep theirs, and no deleted line has a receipt |
| Lifecycle.ArchivedRequisitionWaits | internal/database/workflow_lifecycle_schema.go:27-58 | an archived requisition, too, waits unchanged through any run |
| Lifecycle.ArchiveRequisitionIff | internal/api/workflow_lifecycle_mcp.go:270-310 | a requisition is archived if and only if no decision is pending and no open order is made of it, restored if and only if its lines are usable, and comes back as it went |
| Lifecycle.SupplierWriteIff | internal/database/master_lifecycle_schema.go:7-27 | a supplier row is written if and only if it stays active, is archived unchanged without an open order, or is restored unchanged |
| Lifecycle.ProductWriteIff | internal/database/master_lifecycle_schema.go:7-36 | the same for a product, which open orders and live requisitions hold, and whose category must be active |
| Lifecycle.CategoryWriteIff | internal/database/master_lifecycle_schema.go:7-27 | the same for a category, which active products hold |
| Lifecycle.OfferWriteIff | internal/database/master_lifecycle_schema.go:7-27 | the same for an offer, which comes back only to an active product and supplier |
| Safety.ConvertedOnce | internal/api/requisition_order_mcp.go:235-262 | no run converts a requisition twice and `ordered` is never left |
| Safety.ConversionCreates | internal/api/requisition_order_mcp.go:107-232 | the created order has one line per requisition line with the promised price, the same session, and the total of its lines |
| OfferTerms.ConversionCommitsIff | internal/api/requisition_order_mcp.go:107-224 | a conversion commits if and only if the requisition can be converted at all and every cheapest active offer of its lines has not ended at that moment, has a minimum within the quantity, comes out in packs and is in euro |
| OfferTerms.ConversionLeaves | internal/api/requisition_order_mcp.go:175-244 | what it leaves: the ordered requisition and a draft in euro, line by line the requested goods at the offer's price or the estimate |
| OfferTerms.AdamHallLineIff | internal/api/adam_hall_checkout_mcp.go:132-181 | a line is fit for Adam Hall if and only if it is orderable and every cheapest active offer of its product meets the same terms |
| OfferTerms.SubmittedTerms | internal/api/adam_hall_checkout_mcp.go:149-173 | so what an Adam Hall request claims is bought at offers that met their terms |
| Resending.SentAgainIff | internal/api/submission_reconciliation_mcp.go:140 | a claimed order can still be sent in some continuation if and only if the process that claimed it is still between claim and send |
| Witnesses.SomeReconciledOrderIsSent | internal/api/submission_reconciliation_mcp.go:109-140 | a reachable order reconciled as never sent that can still be sent |
| Witnesses.SomeRunSends | internal/api/amazon_submission_mcp.go:199-341 | a run that claims an approved cart, sends it once and ends with the order `sent` |
| Witnesses.SomeOrderIsStranded | internal/api/amazon_submission_mcp.go:305-341 | a reachable accepted order in `submitting` without process and record |
| Resending.NeverSentAgain | internal/api/amazon_submission_mcp.go:293-295 | once that process sent or died, no run of retries, other keys, native requests, crashes or reconciliations sends the order again |
| Resending.ReconciledMeans | internal/api/submission_reconciliation_mcp.go:109-125 | a reconciliation turns an unresolved order into `sent` with the found number and the date, or into `cancelled`, once, and leaves claim and lines alone |
| Recovery.FinalizeMeans | internal/api/amazon_submission_mcp.go:376-404 | a finalized order is `sent` exactly when acknowledged and `submission_unknown` exactly when uncertain, carries the acknowledged Adam Hall number, is dated unless it was, and keeps what was ordered |
| Keys.LateAnswersOverwriteNothing | internal/api/amazon_submission_mcp.go:384-404 | once a claimed order left `submitting`, no later finalizer or replay after any run changes any order: what a confirmation or a human set stays |
| Recovery.FinalizeIdempotent | internal/api/amazon_submission_mcp.go:361-431 | finalizing again with the same key changes nothing at all |
| Recovery.AnyFinalizersEqualOne | internal/api/amazon_submission_mcp.go:361-431 | any number of finalizers with any keys leave all orders as one of them does, up to the recorded date and version |
| Recovery.ReplayRecovers | internal/api/amazon_submission_mcp.go:222-236 | after a crash behind the saved outcome the replay of the same request, of either provider, leaves the state of the crash-free run up to the recorded date, and sends nothing |
| Stranding.RecoverableIffRecorded | internal/api/amazon_submission_mcp.go:216-236 | an accepted order left `submitting` with no process can be finished without a new Amazon message if and only if a request record exists |
| Stranding.StrandedForever | internal/api/submission_reconciliation_mcp.go:154-249 | without a record and without a confirmation no run moves such an order |
| Stranding.RecordedFinishes | internal/api/adam_hall_checkout_workflow.go:84-110 | with a record one repeated request finishes it |
| Closing.ClosableIffNotAccepted | internal/api/submission_reconciliation_mcp.go:154-249 | in every reachable state an unfinished submission can be closed by a human as never sent if and only if the supplier did not accept it |
| Closing.FinishableIff | internal/api/submission_reconciliation_mcp.go:154-249 | an order left `submitting` with no process can be finished without a new Amazon message if and only if it was not accepted or its request was recorded |
| Closing.RunSettled | internal/api/submission_reconciliation_mcp.go:186-212 | in every run reconciliations and confirmations belong only to orders whose supplier side is known |
| Stranding.RunRequests | internal/api/handler.go:2201-2243 | in every run a submission record holds the request it answers and is finished only once its order left `submitting`, and what it answers is true: number, amount, outcome and status of the order, or the reconciliation as it was decided |
| Stranding.RepeatIsAnswered | internal/api/amazon_submission_mcp.go:216-236 | in every reachable state a request repeated under its key is answered, from its record or by finishing what the supplier answered meanwhile, and never claims |
| Stock.WarehouseMatchesReceipts | internal/api/handler.go:2426-2475 | in every reachable state, whatever the warehouse itself did to the shared tables in between, stock per location and devices per product are what the warehouse moved plus what the receipts booked, and every booked receipt has its own putaway task |
| Stock.MoveBalances | internal/api/handler.go:2426-2458 | work of the warehouse on stock and devices keeps that balance |
| Stock.ReceiveBalances | internal/api/handler.go:2358-2498 | so does one receipt |
| Stock.StockedAdds | internal/api/handler.go:2426-2469 | a booking adds to stock and devices what its receipt row says, and nothing elsewhere |
| Booking.ReceivesIff | internal/api/handler.go:2280-2498 | in every reachable state a receipt request, native or guided, is booked if and only if its quantity is positive and at most 1000000000, the order awaits goods, the version is right, line and confirmed quantity allow it, and warehouse product, zone, pieces and serial numbers fit |
| Booking.ReceiptLeaves | internal/api/handler.go:2426-2488 | what it leaves: the line's quantity, the status by what is missing, one receipt row by this user, and for a linked product one putaway task and the stock of one place or the devices |
| Booking.ReadyIff | internal/api/goods_receipt_mcp.go:183-345 | in every reachable state a receipt is ready in the preview, with a tracking mode, if and only if it is booked and within the preview's own limits |
| Serials.BookedSerialsAreNew | internal/api/handler.go:2441-2463 | a receipt booked on an individually tracked line, native or guided, is of whole pieces, gives no serial number the house has or twice, and leaves one device each |
| Serials.UsedSerialIsRefused | internal/api/handler.go:2527-2538 | a receipt that gives a serial number the house has, in whatever case, changes nothing |
| Serials.SerialsStayUnique | internal/api/handler.go:2441-2463 | unless the warehouse brings one in twice, no run leaves two devices with one serial number |
| Preview.PreviewIsSound | internal/api/goods_receipt_mcp.go:183-345 | in every reachable state a ready receipt is booked, with exactly the previewed effects, if and only if the mapped product has a tracking mode; otherwise it is refused as an invalid tracking mode |
| Witnesses.SomeReadyReceiptIsRefused | internal/api/goods_receipt_mcp.go:183-345 | a reachable receipt that is previewed as ready and refused as an invalid tracking mode |
| Preview.DevicesAccepted | internal/api/goods_receipt_mcp.go:278-302 | distinct unused serial numbers yield one device each, in order |
| Preview.RaisingAllowed | internal/database/workflow_references_schema.go:40-62 | raising a received quantity passes every line trigger, also on a claimed order |
| Preview.BooksWhenReady | internal/api/handler.go:2471-2488 | in a reachable state line, receipt and status of a ready receipt pass every trigger |
| Protocol.StepKeeps | internal/api/amazon_submission_mcp.go:199-341 | every single action, phase or crash keeps the invariant of the system |
| Protocol.RunKeeps | internal/api/amazon_submission_mcp.go:199-341 | so does every run |
| Protocol.ClaimBegun | internal/api/amazon_submission_mcp.go:265-279 | a first claim starts the only process, record and future send of its order |
| Protocol.ReplayKeeps | internal/api/amazon_submission_mcp.go:222-236 | a replay never claims and keeps the invariant |
| Protocol.ReconcileKeeps | internal/api/submission_reconciliation_mcp.go:65-140 | a human reconciliation keeps the invariant next to processes still under way |
| Preservation.PutProductKeeps | internal/database/master_lifecycle_schema.go:17-36 | archiving or editing a product keeps every reference to it valid |
| Preservation.PutSupplierKeeps | internal/database/master_lifecycle_schema.go:17-20 | the same for suppliers |
| Preservation.PutCategoryKeeps | internal/database/master_lifecycle_schema.go:17-19 | the same for categories |
| Preservation.ArchiveRequisitionKeeps | internal/database/workflow_lifecycle_schema.go:43-56 | archiving and restoring a requisition leaves no open order without its source |
| Preservation.EditDraftKeeps | internal/api/order_draft.go:16-100 | rewriting header and lines of a draft keeps the invariant |
| Preservation.ConvertRequisitionKeeps | internal/api/requisition_order_mcp.go:235-262 | order creation and the `ordered` requisition together keep it |
| FileSteps.AmazonClaimKeeps | internal/api/amazon_submission_mcp.go:135-173 | a ready Amazon claim freezes a distinctly approved cart |
| FileSteps.AdamHallClaimKeeps | internal/api/adam_hall_checkout_workflow.go:140-170 | reviewed prices, order row and claim keep the order's invariant |
| FileSteps.FinalizeSucceeds | internal/api/amazon_submission_mcp.go:361-431 | in a reachable state finalizing a saved outcome is never refused |
| FileSteps.ConfirmKeeps | internal/api/amazon_confirmation.go:131-288 | a confirmation keeps the bounds of rows and receipts and the claim |
| FileSteps.BookOrderKeeps | internal/api/handler.go:2471-2488 | a receipt keeps sums, bounds and the meaning of the status |
| Evolution.StepExtends | internal/database/workflow_lifecycle_schema.go:57-94 | one action raises the version of whatever it changes, keeps closed orders closed and claims and approved carts as they are |
| Evolution.RunExtends | internal/database/workflow_lifecycle_schema.go:57-94 | so does any run |
| Merging.CombineSums | internal/api/amazon_confirmation.go:180-191 | for every message, order line and Amazon order the combined part is there if and only if some line names them, holds the sums of what those lines accept and reject, and the latest delivery they name |
| Merging.ItemsAreStored | internal/api/amazon_confirmation.go:192-221 | a message with items leaves these sums in the rows it names, unless it cancels or is older, and every other row as it was |
| Merging.ItemsFitIff | internal/api/amazon_confirmation.go:192-197 | it is refused if and only if one of its lines names no line of the order |
| Merging.WholeOrderIsStored | internal/api/amazon_confirmation.go:155-174 | a message without items leaves one row per line, all accepted or all rejected, and nothing else |
| Merging.AppliedSays | internal/api/amazon_confirmation.go:131-288 | an applied confirmation leaves exactly these rows, and names on the order exactly the Amazon orders that accept something |
| Merging.SplitItemsDecide | internal/api/amazon_confirmation.go:180-263 | a first message that accepts every ordered quantity, however its lines are split, confirms the order, and one that rejects every quantity cancels it |
| Confirmations.CombinePermutation | internal/api/amazon_confirmation.go:180-191 | the combined parts do not depend on the order of the message's lines |
| Confirmations.LineOrderIrrelevant | internal/api/amazon_confirmation.go:180-221 | nor does the committed state |
| Messages.RedeliveryChangesNothing | internal/api/amazon_confirmation.go:140-148 | after an accepted confirmation and any later run, a message with its payload id changes nothing, for whatever order and with whatever content, and the same message is answered as accepted |
| Confirmations.ApplyIdempotent | internal/api/amazon_confirmation.go:140-148 | delivering a message twice equals delivering it once |
| Confirmations.MergeMovesOrReplaces | internal/api/amazon_confirmation.go:208-217 | a partial cancellation moves quantity from accepted to rejected and loses none; any other message replaces the row's quantities |
| Confirmations.DelayedKeepsNewerRows | internal/api/amazon_confirmation.go:155-204 | a delayed message leaves every newer row as it is if and only if it has line items or there is no newer row |
| Confirmations.DelayedChangesNothing | internal/api/amazon_confirmation.go:180-221 | after a message, a delayed older one that names no other line and Amazon order changes no row |
| Witnesses.SomeCancellationIsUndone | internal/api/amazon_confirmation.go:165-174 | a reachable order whose cancelled quantity an older acceptance of the whole order restores |
| Confirmations.OtherRowsStay | internal/api/amazon_confirmation.go:180-221 | a message with items keeps the row of every place none of its items names, adds rows for named places only, and removes none |
| Confirmations.NextRowsNonNegative | internal/api/amazon_confirmation.go:180-221 | merging keeps accepted and rejected quantities non-negative |
| Confirmations.TotalsBoundLines | internal/api/amazon_confirmation.go:230-252 | what one line leaves open bounds every total, for any tolerance |
| Confirmations.ConfirmedMeansEveryLine | internal/api/amazon_confirmation.go:223-266 | for any tolerance, `confirmed` means every line accepted and none rejected up to the tolerance per line |
| Confirmations.PartialMeansAccounted | internal/api/amazon_confirmation.go:223-266 | for any tolerance, `partially_confirmed` means every line accounted for |
| Confirmations.CancelledMeansEveryLine | internal/api/amazon_confirmation.go:223-266 | for any tolerance, `cancelled` means every line rejected and none accepted unless the totals decide nothing |
| Confirmations.ExactStatus | internal/api/amazon_confirmation.go:254-263 | without a tolerance the status says exactly what the lines say: confirmed if and only if all are accepted, partially confirmed if and only if all are accounted for with both kinds, cancelled if all are rejected |
| Messages.CancelledExactly | internal/api/amazon_confirmation.go:254-266 | in every reachable state a message leaves an order `cancelled` that its rows do not reject if and only if it was cancelled before, is not archived, and the totals decide nothing |
| Witnesses.SomeCancelledOrderIsAccepted | internal/api/amazon_confirmation.go:254-266 | a reachable cancelled order of which half is accepted, nothing is rejected, and that stays cancelled |
| Confirmations.FullyRejectedCancels | internal/api/amazon_confirmation.go:254-257 | an order rejected line by line becomes `cancelled` |
| Confirmations.FullyAcceptedConfirms | internal/api/amazon_confirmation.go:254-259 | an order accepted line by line becomes `confirmed` exactly when it asks for more than the tolerance |
| Confirmations.SumCellsSplit | internal/api/amazon_confirmation.go:223-252 | the sum over stored rows does not depend on the order they are read in |
| ConfirmationHandler.CombineLines | internal/api/amazon_confirmation.go:180-191 | the loop over the message computes the combined parts |
| ConfirmationHandler.MergeParts | internal/api/amazon_confirmation.go:192-221 | the loop over the combined map, in any order, computes the merged rows, and refuses exactly a part beyond the order's lines |
| ConfirmationHandler.CreateWholeRows | internal/api/amazon_confirmation.go:155-174 | a message without items replaces all rows by one per line |
| ConfirmationHandler.SumLines | internal/api/amazon_confirmation.go:230-252 | the nested loops compute the totals, and stop exactly when a line exceeds its quantity |
| ConfirmationHandler.ApplyConfirmation | internal/api/amazon_confirmation.go:131-288 | the handler commits exactly the specified state or nothing |
| Storage.Store.SaveOrder | internal/database/workflow_lifecycle_schema.go:27-58 | an order row is stored with a later version if and only if all three triggers let it pass |
| Storage.Store.SaveLines | internal/database/workflow_lifecycle_schema.go:65-94 | changed lines are stored and the order touched if and only if the line triggers let them pass |
| Storage.Store.SaveRequisition | internal/database/workflow_references_schema.go:10-23 | a requisition row under both triggers |
| Storage.Store.SaveProduct | internal/database/master_lifecycle_schema.go:7-36 | a product row under the master trigger |
| Storage.Store.SaveOffer | internal/database/master_lifecycle_schema.go:7-27 | an offer row under the master trigger |
| Storage.Store.CreateOrder | internal/database/workflow_references_schema.go:23-39 | an order is inserted with fresh ids if and only if its references are active |
| Storage.Store.SaveSupplier | internal/database/master_lifecycle_schema.go:7-27 | a supplier row under the master trigger |
| Storage.Store.SaveCategory | internal/database/master_lifecycle_schema.go:7-27 | a category row under the master trigger |
| Storage.Store.CreateClaim | internal/database/order_submission_schema.go:7-20 | at most one claim per order and per payload id |
| Storage.Store.SaveClaim | internal/database/order_submission_schema.go:21-28 | identity immutable, outcome written once |
| Storage.Store.GuardSubmittedOrder | internal/database/order_submission_schema.go:30-42 | the submitted-order trigger decides exactly the stated condition |
| Storage.Store.GuardOrderReferences | internal/database/workflow_references_schema.go:23-39 | the reference trigger with its loop decides exactly the stated condition |
| Keys.KeyIsSpent | internal/api/handler.go:2201-2232 | once a key is recorded, after any later run a request under it with another body leaves the whole system as it is, and no request under it claims an order or starts a process that could send |
| AmazonHandler.RemoteLines | internal/api/amazon_submission_mcp.go:161-173 | the line loop reports exactly the unusable lines and otherwise builds the payload and its total |
| AmazonHandler.Prepare | internal/api/amazon_submission_mcp.go:64-197 | nothing is required if and only if the order is ready, and then the payload is the order's |
| AmazonHandler.FinalizeSubmission | internal/api/amazon_submission_mcp.go:361-431 | the finalizing transaction commits exactly the specified state or nothing |
| AmazonHandler.SaveOutcome | internal/api/amazon_submission_mcp.go:305-322 | the outcome transaction |
| AmazonHandler.ReplayMutation | internal/api/amazon_submission_mcp.go:216-236 | the replay branch |
| AmazonHandler.Submit | internal/api/amazon_submission_mcp.go:199-285 | the first transaction commits exactly the specified claim, status and record or nothing |
| AdamHallHandler.CollectItems | internal/api/adam_hall_checkout_mcp.go:132-181 | the accumulator over the lines is the per-article sum, or some line is reported |
| AdamHallHandler.ArticleNumber | internal/api/adam_hall_checkout_mcp.go:149-170 | the article number is the cheapest active offer's own, or else the product's, trimmed and in upper case |
| AdamHallHandler.CheckLine | internal/api/adam_hall_checkout_mcp.go:137-173 | a line is reported exactly when product, quantity, offer or article number is unfit |
| AdamHallHandler.ReviewedLines | internal/api/adam_hall_checkout_mcp.go:235-248 | every line takes the reviewed price of its article, or a missing price is reported |
| AdamHallHandler.Prepare | internal/api/adam_hall_checkout_mcp.go:55-281 | nothing is required if and only if order and reviewed checkout are ready |
| AdamHallHandler.Submit | internal/api/adam_hall_checkout_workflow.go:59-177 | the first transaction commits exactly the specified state or nothing |
| WorkflowHandler.PrepareReconciliation | internal/api/submission_reconciliation_mcp.go:154-249 | nothing is required if and only if the reconciliation is allowed |
| WorkflowHandler.ReconcileSubmission | internal/api/submission_reconciliation_mcp.go:65-152 | the reconciliation commits exactly the specified state or nothing |
| WorkflowHandler.SetOrderStatus | internal/api/handler.go:2020-2094 | a manual status change commits exactly the specified state or nothing |
| WorkflowHandler.DecideDemand | internal/api/handler.go:1677-1732 | a requisition decision |
| WorkflowHandler.SubmitDemand | internal/api/handler.go:1616-1675 | a requisition submission |
| WorkflowHandler.OrderTotal | internal/service/pricing.go:44-50 | the running total is the sum of the truncated line amounts |
| ReceiptHandler.Normalize | internal/api/handler.go:2259-2278 | serial numbers are accepted exactly when counted, non-blank and distinct without case, and come back trimmed |
| ReceiptHandler.InsertDevices | internal/api/handler.go:2441-2463 | the device loop inserts one device per piece or meets a used serial number |
| ReceiptHandler.ApplyReceipt | internal/api/handler.go:2358-2498 | the receipt commits exactly the specified state or nothing |
| ReceiptHandler.Prepare | internal/api/goods_receipt_mcp.go:183-345 | the preview requires nothing if and only if the receipt is ready, and announces the specified effects |
| Text.CaseFolds | internal/scraper/adamhall.go:275-296 | raising or lowering the case identifies exactly the texts that differ in the case of letters |
| Text.ArticlesMatch | internal/scraper/adamhall.go:275-296 | so article numbers match exactly if they differ in case and in blanks around them only |
| Cart.SumSplits | internal/scraper/adamhall.go:275-296 | the total of an article is the sum of its items' quantities, however the items are divided |
| Cart.Aggregate | internal/scraper/adamhall.go:275-296 | distinct article numbers in first-seen order with preserved sums, or a refusal exactly of blank or non-positive items |
| Cart.NormalizeItems | internal/scraper/adamhall.go:275-296 | the same for raw items, compared trimmed and in upper case |
| Cart.Match | internal/scraper/adamhall.go:249-273 | accepts exactly the carts in which every item asks for what is left of its article, for any items, and no article goes unasked |
| Cart.MatchesMeans | internal/scraper/adamhall.go:249-273 | for distinct items that is the same non-blank articles with equal sums on both sides |
| Cart.ValidateCart | internal/scraper/adamhall.go:249-273 | the same for the remote cart as it arrives |
| Cart.ReviewCart | internal/scraper/adamhall_reviewed_checkout.go:46-54 | an accepted remote cart holds per article the sum of the requested lines, in both directions |
| Cart.FirstSeenOrder | internal/scraper/adamhall.go:277-290 | an article stands before every article first mentioned later |
| WorkflowHandler.ConvertDemand | internal/api/requisition_order_mcp.go:107-262 | the conversion handler builds the promised lines and commits exactly the specified order and requisition or nothing |
| Offers.CheapestOfferMeans | internal/api/requisition_order_mcp.go:181-186 | the offer query finds the one cheapest active offer, or none when there is none |
| Offers.FindCheapest | internal/api/requisition_order_mcp.go:181-186 | the first active offer in (price, id) order, or none |
| Conversion.BuildLines | internal/api/requisition_order_mcp.go:175-212 | one line per requisition line, same goods, promised price; ready only if every applying offer fits |
| Drafts.Merge | internal/api/order_draft_mcp.go:213-244 | retained ids must be bounded, owned and unique; a retained line keeps its hidden fields and takes the new business fields |
| Drafts.StableSort | internal/api/order_draft_mcp.go:383-388 | retained lines by id, new lines behind them in their order |
| Drafts.SortedAdds | internal/api/order_draft_mcp.go:383-388 | the requested new lines stand last, in the order requested |
| Drafts.ReadsUnique | internal/api/order_draft_mcp.go:151-154 | a table has one reading in id order |
| Drafts.LineTable.Replace | internal/api/order_draft_mcp.go:122-152 | delete-not-kept, update-kept, create-new leave a table that reads as the preview position by position |
| Drafts.Preview | internal/api/requisition_draft_mcp.go:226-258 | the preview shows every requested line with its hidden fields and is fit for execution |
| Drafts.EditLines | internal/api/requisition_draft_mcp.go:156-182 | preview and stored lines agree, and so does the total |
| OrderDrafts.EditOrder | internal/api/order_draft_mcp.go:122-244 | the guided edit merges, sorts, prices and commits: one stored line per requested line with the hidden fields of the line it retains, in id order, new lines last in the order requested, the shown total is the order total, and a foreign or repeated line id commits nothing |
| Money.ParsePrint | internal/amazon/cxml.go:316-335 | printing and parsing is the identity exactly for 0 to 100000000099 cents |
| Money.PrintParse | internal/amazon/cxml.go:558 | an accepted text has a canonical form that parses back to its value |
| Money.ParsedValue | internal/amazon/cxml.go:319-335 | the parsed value is read off digit by digit |
| Money.PrintIsCanonical | internal/amazon/cxml.go:558 | no leading zero, always two decimals |
| Money.WriteDocument | internal/amazon/cxml.go:505-544 | the order document is written exactly for sendable lines, with the total of all lines |
| Money.AmountsReadBack | internal/amazon/cxml.go:512-542 | every document line names the goods of its payload line and is read back as the quantity and unit price it was written for |
| Money.ReadyIsSendable | internal/amazon/cxml.go:512-515 | a line the readiness check admits is never refused by the document |
| Idempotency.KeyRefusedIff | internal/api/handler.go:2190-2206 | a guided request is turned away for its key if and only if the key, without blanks around it, is not 8 to 128 letters, digits and separators beginning with a letter or digit |
| Idempotency.AtMostOneBody | internal/models/models.go:267-276 | per user, operation and key at most one body ever commits |
| Idempotency.LaterRequestsReplay | internal/api/handler.go:2201-2232 | an equal payload gets the first response later, another is refused, nothing is changed |
| Idempotency.RolledBackLeavesNothing | internal/api/handler.go:2192-2243 | any number of previews and failed attempts leave no trace, and the next attempt under one of their keys does run its body |
| Idempotency.Records.Handle | internal/api/handler.go:2192-2243 | begin, body and complete serve a request as specified |

## Left out

- HTTP, JSON and cXML decoding, signed delegation, administrator rights, AES-GCM storage of the supplier context: library behaviour; a request arrives decoded and authorized.
- The external calls: an arbitrary possible answer (acknowledged, or uncertain) is the parameter of the sending action; a call that never returns is a crash. A send counts as soon as the call starts.
- Floating-point rounding: quantities are exact reals and the tolerance 0.000001 is explicit; `int64(quantity * price)` is the exact product rounded down.
- 64-bit overflow of totals: `validateOrder` bounds them at 9e18, Amazon orders at 50 lines of 999 pieces.
- Hash collisions, random payload ids, order numbers: fingerprints are the reviewed rows, payload ids are checked for uniqueness, numbers are inputs.
- Row locks and isolation: each transaction is atomic.
- Unicode case folding and white space beyond ASCII.
- The remote half of the Adam Hall checkout (cart preparation rows, encrypted token, the supplier's HTTP steps): a reviewed checkout arrives with its prices, total, creation time and context; category activity of its products follows from the lifecycle invariant.
- Header texts of requisitions, decision notes beyond their presence, the dates requisitions need by, expected delivery, audit and activity rows: they decide nothing modelled here.
- Shipment notices (`applyAmazonShipment`): they store a row and move an expected delivery, no status.
- Length limits of descriptive texts, the list of currencies, and the duplicate check for supplier numbers on drafts: field validation beside the point.
- Idempotency records of the other guided handlers: `World` keeps those of submissions and reconciliations; for any other mutation the protocol is `Idempotency`.
- Deletion: the triggers forbid it for orders and requisitions, so no action deletes them.
- Legacy replay files, scraping, OCR, matching heuristics, branding, dashboards and the frontend.
- The key syntax is checked in `Idempotency` only; submission requests arrive with a valid key.
- The previews' bounds on 1000 context rows and on one megabyte of context, and the goods receipt's on the warehouse stock capacity of 9999999.999: they only make a preview stricter, so that the closing of `Closing.ClosableIffNotAccepted` is meant for contexts within them.
- Storage.Store.SaveLines: takes the new list of lines at once where the source saves them one by one, so an edit of several lines raises the version once instead of several times.
- Workflow.EditDraft, Workflow.EditRequisition: take the stored lines after an edit as an argument; how a guided edit computes them is `Drafts`, and `OrderDrafts.EditOrder` for orders.
- What the warehouse does to its stock and devices: any change is an action of `World`, recorded with its before and after; why it happens, and how it moves the putaway tasks other than closing them, is not modelled.
