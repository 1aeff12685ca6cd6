/**
 The supplier-submission transactions: readiness, claim, outcome, finalization, replay and human reconciliation.
 Each transaction is a function from the database to the committed database; a refusal commits nothing.
 */
module Submission {
  import opened Base
  import opened Schema
  import opened Triggers
  import Cart
  import Offers
  import Text

  /** Fifteen minutes on the microsecond clock. */
  const SETTLE_TIME: Time := 900_000_000

  // ---------- what is sent ----------

  /** A line Amazon can take: whole quantity 1..999, identified, priced, nothing received. */
  predicate AmazonLine(l: Line) {
    && Whole(l.quantity) && 1.0 <= l.quantity <= 999.0
    && !Text.Blank(l.part) && !Text.Blank(l.auxiliary) && !Text.Blank(l.description) && !Text.Blank(l.unit)
    && 0 <= l.priceCents <= 1_000_000_000 && l.received == 0.0
  }

  function ToPayloadLine(l: Line): PayloadLine {
    PayloadLine(l.part, l.auxiliary, l.description, l.quantity.Floor, l.unit, l.priceCents)
  }

  function ToPayloadLines(lines: seq<Line>): (r: seq<PayloadLine>)
    ensures |r| == |lines|
    ensures forall i :: 0 <= i < |lines| ==> r[i] == ToPayloadLine(lines[i])
  {
    seq(|lines|, i requires 0 <= i < |lines| => ToPayloadLine(lines[i]))
  }

  /** Sum of quantity times unit price over whole quantities. */
  function PayloadTotal(lines: seq<PayloadLine>): int {
    if lines == [] then 0
    else PayloadTotal(lines[..|lines| - 1]) + lines[|lines| - 1].quantity * lines[|lines| - 1].priceCents
  }

  /** The six commercial fields that must equal the approved requisition line. */
  predicate SameLine(a: RequisitionLine, b: Line) {
    && a.part == b.part && a.auxiliary == b.auxiliary && a.quantity == b.quantity
    && a.priceCents == b.priceCents && a.unit == b.unit && a.description == b.description
  }

  predicate SameCart(approved: seq<RequisitionLine>, lines: seq<Line>) {
    |approved| == |lines| && forall i :: 0 <= i < |lines| ==> SameLine(approved[i], lines[i])
  }

  /** The supplier's own article number of the cheapest active offer, if that offer has one. */
  function OfferedSku(catalog: Catalog, supplier: Id, product: Id): string {
    var offer := Offers.CheapestOffer(catalog.offers, product, supplier);
    if offer.Some? then Text.Trim(catalog.offers[offer.value].supplierSku) else ""
  }

  /** The article number an order line is bought under: the offer's, or else the product's own. */
  function SkuOf(catalog: Catalog, supplier: Id, l: Line): string {
    if l.product.None? || l.product.value !in catalog.products then ""
    else
      var offered := OfferedSku(catalog, supplier, l.product.value);
      if offered != "" then Text.Upper(offered) else Text.Article(catalog.products[l.product.value].sku)
  }

  function CartItems(catalog: Catalog, supplier: Id, lines: seq<Line>): (r: seq<Cart.Item>)
    ensures |r| == |lines|
  {
    seq(|lines|, i requires 0 <= i < |lines| => Cart.Item(SkuOf(catalog, supplier, lines[i]), lines[i].quantity.Floor))
  }

  /** The cheapest active offer, if there is one, is in euro, valid, and fits the quantity. */
  predicate OfferFits(catalog: Catalog, supplier: Id, product: Id, quantity: real, now: Time) {
    var offer := Offers.CheapestOffer(catalog.offers, product, supplier);
    offer.Some? ==>
      var found := catalog.offers[offer.value];
      && Offers.Euro(found.currency) && !Offers.Expired(found, now) && found.minimum <= quantity
      && Offers.PackFits(quantity, found.pack, 0.00000001)
  }

  predicate AdamHallLine(catalog: Catalog, supplier: Id, l: Line, now: Time) {
    && l.product.Some? && ActiveProduct(catalog, l.product)
    && Whole(l.quantity) && 1.0 <= l.quantity <= 999.0 && l.received == 0.0
    && OfferFits(catalog, supplier, l.product.value, l.quantity, now)
    && 1 <= |SkuOf(catalog, supplier, l)| <= 120
  }

  // ---------- readiness ----------

  predicate Bought(lines: seq<Line>, product: Id) {
    exists i :: 0 <= i < |lines| && lines[i].product == Some(product)
  }

  /** The rows a preview shows and fingerprints; offers only for orders that are not from a PunchOut cart. */
  function CurrentContext(db: Db, o: Id): Context
    requires o in db.files
  {
    var f := db.files[o];
    Context(
      f,
      if f.order.supplier in db.catalog.suppliers then Some(db.catalog.suppliers[f.order.supplier]) else None,
      map p | p in db.catalog.products && Bought(f.lines, p) :: db.catalog.products[p],
      map i | && 0 <= i < |db.catalog.offers| && f.order.session.None?
              && db.catalog.offers[i].supplier == f.order.supplier && Bought(f.lines, db.catalog.offers[i].product)
        :: db.catalog.offers[i],
      if f.order.requisition.Some? && f.order.requisition.value in db.requisitions
      then Some(db.requisitions[f.order.requisition.value]) else None)
  }

  predicate Untouched(db: Db, o: Id)
    requires o in db.files
  {
    var f := db.files[o];
    && !f.order.archived && f.order.status == Draft && f.order.supplierNumber == "" && f.order.payloadId == ""
    && !HasReceipt(db.receipts, o) && f.confirmations == map[] && f.claim.None?
  }

  predicate DistinctlyApproved(r: Requisition) {
    !r.archived && r.status == ReqOrdered && r.approvedBy.Some? && r.approvedBy.value != r.requester && r.decided
  }

  /** The order still is the distinctly approved cart of the same PunchOut session. */
  predicate ApprovedSource(r: Requisition, f: OrderFile) {
    DistinctlyApproved(r) && r.session == f.order.session && SameCart(r.lines, f.lines)
  }

  /** prepareAmazonSubmission: no required field is left. `exact` is the guided request, which must name the version. */
  predicate AmazonReady(db: Db, send: SendRequest, exact: bool, configured: bool) {
    && send.order in db.files
    && var o := send.order;
       var f := db.files[o];
       && Untouched(db, o)
       && f.order.session.Some?
       && VersionAccepted(f.order.version, send.expectedVersion, exact)
       && ActiveSupplier(db.catalog, f.order.supplier)
       && db.catalog.suppliers[f.order.supplier].code == "AMAZON-BUSINESS"
       && ActiveLineProducts(db.catalog, f.lines)
       && f.order.requisition.Some? && f.order.requisition.value in db.requisitions
       && ApprovedSource(db.requisitions[f.order.requisition.value], f)
       && 1 <= |f.lines| <= 50
       && (forall i :: 0 <= i < |f.lines| ==> AmazonLine(f.lines[i]))
       && Offers.Euro(f.order.currency) && PayloadTotal(ToPayloadLines(f.lines)) == f.order.totalCents
       && configured
       && (send.expectedContext.Some? ==> send.expectedContext.value == CurrentContext(db, o))
  }

  /** prepareAdamHallOwner for a confirmed `send`: the reviewed checkout is the one bound to this order and context. */
  predicate AdamHallReady(db: Db, send: SendRequest, configured: bool, now: Time) {
    && send.order in db.files
    && var o := send.order;
       var f := db.files[o];
       && Untouched(db, o)
       && f.order.session.None?
       && VersionAccepted(f.order.version, send.expectedVersion, true)
       && ActiveSupplier(db.catalog, f.order.supplier) && db.catalog.suppliers[f.order.supplier].adamHall
       && (f.order.requisition.Some? ==>
             f.order.requisition.value in db.requisitions
             && DistinctlyApproved(db.requisitions[f.order.requisition.value]))
       && 1 <= |f.lines| <= 100
       && (forall i :: 0 <= i < |f.lines| ==> AdamHallLine(db.catalog, f.order.supplier, f.lines[i], now))
       && (forall i :: 0 <= i < |f.lines| ==>
             Cart.Sum(CartItems(db.catalog, f.order.supplier, f.lines),
                      SkuOf(db.catalog, f.order.supplier, f.lines[i])) <= 999)
       && configured
       && send.checkout.Some?
       && send.checkout.value.order == o && send.checkout.value.context == CurrentContext(db, o)
       && now <= send.checkout.value.createdAt + SETTLE_TIME
       && (forall i :: 0 <= i < |f.lines| ==>
             SkuOf(db.catalog, f.order.supplier, f.lines[i]) in send.checkout.value.prices)
       && (send.expectedContext.Some? ==> send.expectedContext.value == CurrentContext(db, o))
  }

  // ---------- claim ----------

  /** The Amazon claim: unique claim row, status `submitting` and payload identity in one transaction. */
  function CommitAmazonClaim(db: Db, user: Id, o: Id, payloadId: string, now: Time): Result<Db>
    requires o in db.files
  {
    var f := db.files[o];
    var claim := Claim(Amazon, user, payloadId, AmazonPayload(f.order.number, ToPayloadLines(f.lines)), Pending,
                       NoOutcome, now);
    var claimed :- InsertClaim(db, o, claim);
    UpdateOrder(claimed, o, claimed.files[o].order.(status := Submitting, payloadId := payloadId), now)
  }

  /** The line at its article's reviewed price. */
  function Priced(catalog: Catalog, supplier: Id, l: Line, prices: map<string, int>): Line {
    var article := SkuOf(catalog, supplier, l);
    l.(priceCents := if article in prices then prices[article] else 0)
  }

  function PricedLines(catalog: Catalog, supplier: Id, lines: seq<Line>, prices: map<string, int>): (r: seq<Line>)
    ensures |r| == |lines|
    ensures forall i :: 0 <= i < |lines| ==> r[i] == Priced(catalog, supplier, lines[i], prices)
  {
    seq(|lines|, i requires 0 <= i < |lines| => Priced(catalog, supplier, lines[i], prices))
  }

  /** The Adam Hall claim: reviewed prices, order row, then the claim. */
  function CommitAdamHallClaim(db: Db, user: Id, o: Id, checkout: Checkout, payloadId: string, now: Time): Result<Db>
    requires o in db.files
  {
    var f := db.files[o];
    var priced :- ChangeLines(db, o, PricedLines(db.catalog, f.order.supplier, f.lines, checkout.prices), now);
    var header := priced.files[o].order.(status := Submitting, currency := checkout.currency,
                                         totalCents := checkout.totalCents);
    var submitting :- UpdateOrder(priced, o, header, now);
    var items := Cart.Quantities(CartItems(db.catalog, f.order.supplier, f.lines));
    var claim := Claim(AdamHall, user, payloadId, AdamHallPayload(f.order.number, items), Pending, NoOutcome, now);
    InsertClaim(submitting, o, claim)
  }

  /** A committed answer; `claimed` says that this very request now owns the external send. */
  datatype Reply = Reply(db: Db, response: Response, claimed: bool)

  /** runAmazonSubmission up to its first commit. Without a token the request is native and keeps no record. */
  function SubmitAmazon(db: Db, user: Id, token: Option<string>, send: SendRequest, payloadId: string,
      configured: bool, now: Time): Result<Reply> {
    if token.None? then
      if send.order !in db.files then Err(NotFound)
      else if !AmazonReady(db, send.(expectedVersion := None, expectedContext := None), false, configured)
      then Err(NotReady)
      else
        var claimed :- CommitAmazonClaim(db, user, send.order, payloadId, now);
        Ok(Reply(claimed, PendingResponse(send.order, claimed.files[send.order].order), true))
    else if send.expectedContext.None? then Err(ContextRequired)
    else
      var key := Key(user, SendAmazon(send.order), token.value);
      if key in db.records then Replay(db, key, SendBody(send), send.order, now)
      else if send.order !in db.files then Err(NotFound)
      else if !AmazonReady(db, send, true, configured) then Err(NotReady)
      else if send.phrase != Some(Phrase(send.order, PayloadTotal(ToPayloadLines(db.files[send.order].lines)),
                                         CurrentContext(db, send.order))) then Err(PhraseRequired)
      else
        var claimed :- CommitAmazonClaim(db, user, send.order, payloadId, now);
        Ok(Recorded(claimed, key, SendBody(send), send.order))
  }

  /** runAdamHallCheckout("send") up to its first commit: native and guided requests alike need a key. */
  function SubmitAdamHall(db: Db, user: Id, token: string, send: SendRequest, payloadId: string, configured: bool,
      now: Time): Result<Reply> {
    if send.expectedContext.None? then Err(ContextRequired)
    else
      var key := Key(user, SendAdamHall(send.order), token);
      if key in db.records then Replay(db, key, SendBody(send), send.order, now)
      else if send.order !in db.files then Err(NotFound)
      else if !AdamHallReady(db, send, configured, now) then Err(NotReady)
      else if send.phrase != Some(Phrase(send.order, send.checkout.value.totalCents, CurrentContext(db, send.order)))
      then Err(PhraseRequired)
      else
        var claimed :- CommitAdamHallClaim(db, user, send.order, send.checkout.value, payloadId, now);
        Ok(Recorded(claimed, key, SendBody(send), send.order))
  }

  /** completeIdempotentMutation(202, pending) of the record begun in the same transaction. */
  function Recorded(db: Db, key: Key, body: RequestBody, o: Id): Reply
    requires o in db.files
  {
    var response := PendingResponse(o, db.files[o].order);
    Reply(db.(records := db.records[key := Record(body, response, 202)]), response, true)
  }

  // ---------- outcome and finalization ----------

  /** The second transaction: the provider's answer is written to the claim, once. */
  function RecordOutcome(db: Db, o: Id, status: ClaimStatus, outcome: Outcome): Result<Db> {
    if o !in db.files || db.files[o].claim.None? then Err(NotFound)
    else UpdateClaim(db, o, db.files[o].claim.value.(status := status, outcome := outcome))
  }

  function SettledStatus(c: Claim): OrderStatus {
    if c.status == Accepted then Sent else SubmissionUnknown
  }

  /** The order row finalization writes while the order is still `submitting`. */
  function SettledOrder(c: Claim, order: Order, now: Time): Order {
    var date := if c.status == Accepted && order.orderDate.None? then Some(now) else order.orderDate;
    var dated := order.(status := SettledStatus(c), orderDate := date);
    if c.status == Accepted && c.provider == AdamHall && c.outcome.Acknowledged?
    then dated.(supplierNumber := c.outcome.number)
    else dated
  }

  /** finalizeAmazonSubmission. */
  function Finalize(db: Db, o: Id, key: Option<Key>, now: Time): Result<Db> {
    if key.Some? && key.value !in db.records then Err(NotFound)
    else if o !in db.files || db.files[o].claim.None? then Err(NotFound)
    else
      var f := db.files[o];
      var c := f.claim.value;
      if f.order.status == Submitting then
        if c.status == Accepted && c.provider == AdamHall && (!c.outcome.Acknowledged? || c.outcome.number == "")
        then Err(NotFound)
        else
          var settled :- UpdateOrder(db, o, SettledOrder(c, f.order, now), now);
          Ok(Answered(settled, o, key))
      else Ok(Answered(db, o, key))
  }

  /** completeIdempotentMutation(200, result) when the request had a key. */
  function Answered(db: Db, o: Id, key: Option<Key>): Db
    requires o in db.files && db.files[o].claim.Some?
    requires key.Some? ==> key.value in db.records
  {
    if key.None? then db
    else
      var c := db.files[o].claim.value;
      var response := FinishedResponse(o, db.files[o].order, SettledStatus(c), c.status);
      db.(records := db.records[key.value := db.records[key.value].(response := response, statusCode := 200)])
  }

  /**
   A request whose key already exists: conflict, stored response, or finalization of a saved outcome. Never a send.
   */
  function Replay(db: Db, key: Key, body: RequestBody, o: Id, now: Time): Result<Reply>
    requires key in db.records
  {
    var record := db.records[key];
    if record.request != body then Err(PayloadConflict)
    else if !record.response.PendingResponse? then Ok(Reply(db, record.response, false))
    else if o !in db.files || db.files[o].claim.None? then Err(NotFound)
    else if db.files[o].claim.value.status == Pending then Ok(Reply(db, record.response, false))
    else
      var finished :- Finalize(db, o, Some(key), now);
      Ok(Reply(finished, finished.records[key].response, false))
  }

  // ---------- human reconciliation ----------

  /** Another order of the same supplier carries this supplier number, ignoring case and blanks around it. */
  predicate CarriesNumber(files: map<Id, OrderFile>, o: Id, number: string, p: Id)
    requires o in files && p in files
  {
    && p != o && files[p].order.supplier == files[o].order.supplier
    && Text.Lower(Text.Trim(files[p].order.supplierNumber)) == Text.Lower(Text.Trim(number))
  }

  predicate DuplicateNumber(db: Db, o: Id, number: string)
    requires o in db.files
  {
    number != "" && exists p :: p in db.files && CarriesNumber(db.files, o, number, p)
  }

  /** What a reconciliation preview fingerprints: the rows without offers, and the proposal. */
  function Proposed(db: Db, req: ReconcileRequest): Proposal
    requires req.order in db.files
  {
    Proposal(CurrentContext(db, req.order).(offers := map[]), req.resolution, req.supplierNumber, req.evidence,
             req.humanVerified)
  }

  /** The sentence to copy. */
  function Spoken(db: Db, req: ReconcileRequest): Verdict
    requires req.order in db.files && db.files[req.order].claim.Some?
  {
    Verdict(db.files[req.order].claim.value.provider, req.order, req.resolution, Proposed(db, req))
  }

  /** prepareSubmissionReconciliation: no required field is left. */
  predicate ReconcileReady(db: Db, req: ReconcileRequest, now: Time)
    requires req.order in db.files && db.files[req.order].claim.Some?
  {
    var f := db.files[req.order];
    var c := f.claim.value;
    && !f.order.archived && (f.order.status == Submitting || f.order.status == SubmissionUnknown)
    && (c.status == Pending || c.status == Unknown)
    && now >= c.createdAt + SETTLE_TIME
    && req.humanVerified && |req.evidence| >= 10
    && (if req.resolution == FoundOrder then req.supplierNumber != "" else req.supplierNumber == "")
    && VersionAccepted(f.order.version, req.expectedVersion, true)
    && f.reconciliation.None?
    && !HasReceipt(db.receipts, req.order) && f.confirmations == map[]
    && (req.resolution == FoundOrder ==>
          ActiveSupplier(db.catalog, f.order.supplier) && UnarchivedRequisition(db.requisitions, f.order.requisition))
    && !DuplicateNumber(db, req.order, req.supplierNumber)
    && (req.expectedContext.Some? ==> req.expectedContext.value == Proposed(db, req))
  }

  function ReconciledOrder(order: Order, req: ReconcileRequest, now: Time): Order {
    match req.resolution
    case FoundOrder => order.(status := Sent, supplierNumber := req.supplierNumber, orderDate := Some(now))
    case ConfirmedNotSent => order.(status := Cancelled, supplierNumber := req.supplierNumber)
  }

  /** submissionReconciliationMCP. */
  function Reconcile(db: Db, user: Id, token: string, req: ReconcileRequest, now: Time): Result<Reply> {
    if req.expectedContext.None? then Err(ContextRequired)
    else
      var key := Key(user, ReconcileSubmission(req.order), token);
      if key in db.records then
        if db.records[key].request != ReconcileBody(req)
        then Err(PayloadConflict) else Ok(Reply(db, db.records[key].response, false))
      else if req.order !in db.files || db.files[req.order].claim.None? then Err(NotFound)
      else if !ReconcileReady(db, req, now) then Err(NotReady)
      else if req.phrase != Some(Spoken(db, req)) then Err(PhraseRequired)
      else
        var noted :- InsertReconciliation(db, req.order,
                                          Reconciliation(user, req.resolution, req.supplierNumber, req.evidence));
        var settled :- UpdateOrder(noted, req.order, ReconciledOrder(noted.files[req.order].order, req, now), now);
        var response := ReconciledResponse(req.order, settled.files[req.order].order, req.resolution);
        Ok(Reply(settled.(records := settled.records[key := Record(ReconcileBody(req), response, 200)]), response,
                 false))
  }
}
