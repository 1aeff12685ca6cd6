/**
 When a submission, a reconciliation or a confirmation commits in a reachable state, on the fields of the rows: the
 tests that the invariant makes superfluous are off the list, so what remains is what decides.
 */
module Readiness {
  import opened Base
  import opened Schema
  import opened Triggers
  import opened Submission
  import opened World
  import opened Invariants
  import opened FileSteps
  import opened Protocol
  import Cart
  import Closing
  import Confirmations
  import Merging
  import Offers
  import OfferTerms
  import Origins
  import Reviews
  import Safety
  import Sessions
  import Text
  import Workflow

  // ---------- Amazon ----------

  /** One to 999 pieces, identified, described, with a unit and a price. */
  predicate Purchased(l: Line) {
    && (exists n: int :: 1 <= n <= 999 && OfferTerms.Pieces(l.quantity, n))
    && Text.Trim(l.part) != "" && Text.Trim(l.auxiliary) != ""
    && Text.Trim(l.description) != "" && Text.Trim(l.unit) != ""
    && 0 <= l.priceCents && l.priceCents <= 1_000_000_000
  }

  predicate SameArticle(a: RequisitionLine, l: Line) {
    && l.part == a.part && l.auxiliary == a.auxiliary && l.description == a.description
    && l.quantity == a.quantity && l.unit == a.unit && l.priceCents == a.priceCents
  }

  /** Line for line what was requested. */
  predicate IsCart(cart: seq<RequisitionLine>, lines: seq<Line>) {
    |cart| == |lines| && forall i :: 0 <= i < |cart| ==> SameArticle(cart[i], lines[i])
  }

  /** Somebody other than the requester decided the requisition the order was made of. */
  predicate SecondPerson(db: Db, requisition: Option<Id>) {
    && requisition.Some? && requisition.value in db.requisitions
    && var source := db.requisitions[requisition.value];
       source.decided && source.approvedBy.Some? && source.approvedBy.value != source.requester
  }

  /** A PunchOut draft that still is the cart that was approved, in euro, within Amazon's limits. */
  predicate Purchasable(db: Db, f: OrderFile) {
    && f.order.status == Draft && !f.order.archived && f.order.supplierNumber == "" && f.order.session.Some?
    && f.order.supplier in db.catalog.suppliers && db.catalog.suppliers[f.order.supplier].code == "AMAZON-BUSINESS"
    && SecondPerson(db, f.order.requisition)
    && IsCart(db.requisitions[f.order.requisition.value].lines, f.lines)
    && 1 <= |f.lines| && |f.lines| <= 50 && (forall i :: 0 <= i < |f.lines| ==> Purchased(f.lines[i]))
    && Text.Upper(f.order.currency) == "EUR" && f.order.totalCents == Workflow.Total(f.lines)
  }

  lemma PurchasedMeans(l: Line)
    requires l.received == 0.0
    ensures AmazonLine(l) <==> Purchased(l)
  {
    Text.TrimMeaning(l.part);
    Text.TrimMeaning(l.auxiliary);
    Text.TrimMeaning(l.description);
    Text.TrimMeaning(l.unit);
    if Whole(l.quantity) && 1.0 <= l.quantity <= 999.0 {
      assert 1 <= l.quantity.Floor <= 999 && OfferTerms.Pieces(l.quantity, l.quantity.Floor);
    }
  }

  lemma PurchasesMean(lines: seq<Line>)
    requires forall i :: 0 <= i < |lines| ==> lines[i].received == 0.0
    ensures (forall i :: 0 <= i < |lines| ==> AmazonLine(lines[i]))
         <==> (forall i :: 0 <= i < |lines| ==> Purchased(lines[i]))
    ensures (forall i :: 0 <= i < |lines| ==> AmazonLine(lines[i])) ==>
              PayloadTotal(ToPayloadLines(lines)) == Workflow.Total(lines)
  {
    forall i | 0 <= i < |lines|
      ensures AmazonLine(lines[i]) <==> Purchased(lines[i])
    {
      PurchasedMeans(lines[i]);
    }
    if forall i :: 0 <= i < |lines| ==> AmazonLine(lines[i]) {
      Reviews.PayloadCosts(lines);
    }
  }

  /** What the invariant says of a draft: nothing is claimed, received or confirmed, and all it names is in use. */
  lemma DraftIsUntouched(db: Db, approvals: seq<Approval>, o: Id)
    requires o in db.files && Holds(db, approvals, o, db.files[o])
    requires db.files[o].order.status == Draft && !db.files[o].order.archived
    ensures var f := db.files[o];
            && (Untouched(db, o) <==> f.order.supplierNumber == "") && f.claim.None?
            && ActiveSupplier(db.catalog, f.order.supplier) && ActiveLineProducts(db.catalog, f.lines)
            && UnarchivedRequisition(db.requisitions, f.order.requisition)
            && !HasReceipt(db.receipts, o) && f.order.payloadId == ""
            && forall i :: 0 <= i < |f.lines| ==> f.lines[i].received == 0.0
  {
  }

  lemma PurchasableMeans(db: Db, approvals: seq<Approval>, send: SendRequest, exact: bool, configured: bool)
    requires send.order in db.files && Holds(db, approvals, send.order, db.files[send.order])
    requires Sessions.FromCart(db.requisitions, db.files[send.order])
    ensures AmazonReady(db, send, exact, configured) <==>
              && Purchasable(db, db.files[send.order]) && configured
              && VersionAccepted(db.files[send.order].order.version, send.expectedVersion, exact)
              && (send.expectedContext.Some? ==> send.expectedContext.value == CurrentContext(db, send.order))
  {
    var f := db.files[send.order];
    if f.order.status == Draft && !f.order.archived {
      DraftIsUntouched(db, approvals, send.order);
      PurchasesMean(f.lines);
      if f.order.session.Some? {
        var cart := db.requisitions[f.order.requisition.value].lines;
        assert SameCart(cart, f.lines) <==> IsCart(cart, f.lines) by {
          assert forall i :: 0 <= i < |cart| && i < |f.lines| ==>
              (SameLine(cart[i], f.lines[i]) <==> SameArticle(cart[i], f.lines[i]));
        }
      }
    }
  }

  /** No claim has this payload id. */
  predicate FreshPayload(files: map<Id, OrderFile>, payloadId: string) {
    payloadId != "" && forall o :: o in files && files[o].claim.Some? ==> files[o].claim.value.payloadId != payloadId
  }

  lemma AmazonCommits(db: Db, approvals: seq<Approval>, user: Id, o: Id, payloadId: string, now: Time)
    requires o in db.files && Holds(db, approvals, o, db.files[o]) && payloadId != ""
    requires db.files[o].order.status == Draft && !db.files[o].order.archived
    ensures CommitAmazonClaim(db, user, o, payloadId, now).Ok? <==> FreshPayload(db.files, payloadId)
  {
    DraftIsUntouched(db, approvals, o);
    assert PayloadIdUsed(db.files, payloadId) <==> !FreshPayload(db.files, payloadId);
  }

  /** The request names the version and the rows as they are, and the sentence copied for them and this amount. */
  predicate Reviewed(db: Db, send: SendRequest, cents: int)
    requires send.order in db.files
  {
    && send.expectedVersion == Some(db.files[send.order].order.version)
    && send.expectedContext == Some(CurrentContext(db, send.order))
    && send.phrase == Some(Phrase(send.order, cents, CurrentContext(db, send.order)))
  }

  /** Everything a first Amazon request needs; without a token it is native, and nobody reviewed anything. */
  predicate AmazonClaimable(w: World, a: Action)
    requires a.RequestAmazon?
  {
    && a.process !in w.processes && a.configured && FreshPayload(w.db.files, a.payloadId)
    && a.send.order in w.db.files && Purchasable(w.db, w.db.files[a.send.order])
    && (a.token.Some? ==>
          && Key(a.user, SendAmazon(a.send.order), a.token.value) !in w.db.records
          && Reviewed(w.db, a.send, w.db.files[a.send.order].order.totalCents))
  }

  lemma AmazonClaimRests(w: World, a: Action)
    requires Inv(w) && Sessions.CartsOk(w.db) && a.RequestAmazon? && Origins.Claims(w, a)
    ensures AmazonClaimable(w, a)
  {
    var o := a.send.order;
    assert Holds(w.db, w.approvals, o, w.db.files[o]);
    if a.token.None? {
      NativeAmazon(w.db, a.user, a.send, a.payloadId, a.configured, a.now);
      PurchasableMeans(w.db, w.approvals, a.send.(expectedVersion := None, expectedContext := None), false,
                       a.configured);
    } else if Key(a.user, SendAmazon(o), a.token.value) in w.db.records {
      ReplayedAmazon(w.db, a.user, a.token.value, a.send, a.payloadId, a.configured, a.now);
      Origins.ReplayClaims(w.db, Key(a.user, SendAmazon(o), a.token.value), SendBody(a.send), o, a.now);
      assert false;
    } else {
      GuidedAmazon(w.db, a.user, a.token.value, a.send, a.payloadId, a.configured, a.now);
      PurchasableMeans(w.db, w.approvals, a.send, true, a.configured);
    }
    AmazonCommits(w.db, w.approvals, a.user, o, a.payloadId, a.now);
  }

  lemma AmazonClaimCommits(w: World, a: Action)
    requires Inv(w) && Sessions.CartsOk(w.db) && a.RequestAmazon? && AmazonClaimable(w, a)
    ensures Origins.Claims(w, a)
  {
    var o := a.send.order;
    assert Holds(w.db, w.approvals, o, w.db.files[o]);
    AmazonCommits(w.db, w.approvals, a.user, o, a.payloadId, a.now);
    if a.token.None? {
      PurchasableMeans(w.db, w.approvals, a.send.(expectedVersion := None, expectedContext := None), false,
                       a.configured);
    } else {
      PurchasableMeans(w.db, w.approvals, a.send, true, a.configured);
    }
  }

  /** In every reachable state an Amazon request claims its order if and only if the order is the approved cart. */
  lemma {:induction false} AmazonClaimsIff(actions: seq<Action>, a: Action)
    requires a.RequestAmazon?
    ensures Origins.Claims(Run(Init(), actions), a) <==> AmazonClaimable(Run(Init(), actions), a)
  {
    var w := Run(Init(), actions);
    Safety.Reached(actions);
    InitInv();
    Sessions.RunCarts(Init(), actions);
    if Origins.Claims(w, a) {
      AmazonClaimRests(w, a);
    } else if AmazonClaimable(w, a) {
      AmazonClaimCommits(w, a);
    }
  }

  // ---------- Adam Hall ----------

  /** The article number: the applying offer's own if it has one, else the product's, without blanks, in capitals. */
  lemma SkuMeans(catalog: Catalog, supplier: Id, l: Line, id: nat)
    requires l.product.Some? && l.product.value in catalog.products
    ensures OfferTerms.Applies(catalog.offers, id, l.product.value, supplier)
            && Text.Trim(catalog.offers[id].supplierSku) != "" ==>
              SkuOf(catalog, supplier, l) == Text.Upper(Text.Trim(catalog.offers[id].supplierSku))
    ensures (forall k: nat :: OfferTerms.Applies(catalog.offers, k, l.product.value, supplier) ==>
               Text.Trim(catalog.offers[k].supplierSku) == "") ==>
              SkuOf(catalog, supplier, l) == Text.Upper(Text.Trim(catalog.products[l.product.value].sku))
  {
    OfferTerms.AppliesMeans(catalog.offers, id, l.product.value, supplier);
    var offer := Offers.CheapestOffer(catalog.offers, l.product.value, supplier);
    if offer.Some? {
      OfferTerms.AppliesMeans(catalog.offers, offer.value, l.product.value, supplier);
    }
  }

  /**
   A draft of Adam Hall: no PunchOut, a second person if it was requested, fit lines at offers that meet their terms.
   */
  ghost predicate Checkable(db: Db, f: OrderFile, now: Time) {
    && f.order.status == Draft && !f.order.archived && f.order.supplierNumber == "" && f.order.session.None?
    && f.order.supplier in db.catalog.suppliers && db.catalog.suppliers[f.order.supplier].adamHall
    && (f.order.requisition.Some? ==>
          && SecondPerson(db, f.order.requisition)
          && db.requisitions[f.order.requisition.value].status == ReqOrdered)
    && 1 <= |f.lines| && |f.lines| <= 100
    && (forall i :: 0 <= i < |f.lines| ==> OfferTerms.Orderable(db.catalog, f.order.supplier, f.lines[i]))
    && (forall i :: 0 <= i < |f.lines| ==>
          OfferTerms.ProductTerms(db.catalog.offers, f.lines[i].product.value, f.order.supplier, f.lines[i].quantity,
                                  now))
    && (forall i :: 0 <= i < |f.lines| ==> Asked(db.catalog, f, i) <= 999)
  }

  /** What all lines of the article of line `i` ask for together. */
  function Asked(catalog: Catalog, f: OrderFile, i: nat): int
    requires i < |f.lines|
  {
    Cart.Sum(CartItems(catalog, f.order.supplier, f.lines), SkuOf(catalog, f.order.supplier, f.lines[i]))
  }

  /** The reviewed checkout is of this order and these rows, not older than a quarter of an hour, with every price. */
  predicate CheckedOut(db: Db, send: SendRequest, now: Time)
    requires send.order in db.files
  {
    var f := db.files[send.order];
    && send.checkout.Some?
    && Reviews.FreshCheckout(send.checkout.value, send.order, CurrentContext(db, send.order), now)
    && forall i :: 0 <= i < |f.lines| ==> SkuOf(db.catalog, f.order.supplier, f.lines[i]) in send.checkout.value.prices
  }

  lemma CheckableMeans(db: Db, approvals: seq<Approval>, send: SendRequest, configured: bool, now: Time)
    requires send.order in db.files && Holds(db, approvals, send.order, db.files[send.order])
    ensures AdamHallReady(db, send, configured, now) <==>
              && Checkable(db, db.files[send.order], now) && CheckedOut(db, send, now) && configured
              && send.expectedVersion == Some(db.files[send.order].order.version)
              && (send.expectedContext.Some? ==> send.expectedContext.value == CurrentContext(db, send.order))
  {
    var f := db.files[send.order];
    forall i | 0 <= i < |f.lines|
      ensures AdamHallLine(db.catalog, f.order.supplier, f.lines[i], now) <==>
                && OfferTerms.Orderable(db.catalog, f.order.supplier, f.lines[i])
                && OfferTerms.ProductTerms(db.catalog.offers, f.lines[i].product.value, f.order.supplier,
                                           f.lines[i].quantity, now)
    {
      OfferTerms.AdamHallLineIff(db.catalog, f.order.supplier, f.lines[i], now);
    }
    assert forall i :: 0 <= i < |f.lines| ==>
        Asked(db.catalog, f, i)
          == Cart.Sum(CartItems(db.catalog, f.order.supplier, f.lines),
                      SkuOf(db.catalog, f.order.supplier, f.lines[i]));
    if f.order.status == Draft && !f.order.archived {
      DraftIsUntouched(db, approvals, send.order);
      if f.order.requisition.Some? {
        SecondPersonMeans(db, f.order.requisition);
      }
    }
  }

  lemma SecondPersonMeans(db: Db, requisition: Option<Id>)
    requires UnarchivedRequisition(db.requisitions, requisition) && requisition.Some?
    ensures DistinctlyApproved(db.requisitions[requisition.value]) <==>
              SecondPerson(db, requisition) && db.requisitions[requisition.value].status == ReqOrdered
  {
  }

  lemma AdamHallCommits(db: Db, approvals: seq<Approval>, user: Id, o: Id, checkout: Checkout, payloadId: string,
      now: Time)
    requires o in db.files && Holds(db, approvals, o, db.files[o]) && payloadId != ""
    requires db.files[o].order.status == Draft && !db.files[o].order.archived
    ensures CommitAdamHallClaim(db, user, o, checkout, payloadId, now).Ok? <==> FreshPayload(db.files, payloadId)
  {
    var f := db.files[o];
    DraftIsUntouched(db, approvals, o);
    var lines := PricedLines(db.catalog, f.order.supplier, f.lines, checkout.prices);
    PricedLinesPass(db, o, lines);
    var priced := ChangeLines(db, o, lines, now).value;
    var header := priced.files[o].order.(status := Submitting, currency := checkout.currency,
                                         totalCents := checkout.totalCents);
    assert OrderUpdateAllowed(priced, o, header);
    assert PayloadIdUsed(db.files, payloadId) <==> !FreshPayload(db.files, payloadId);
    var submitting := UpdateOrder(priced, o, header, now).value;
    SameClaims(db.files, submitting.files, payloadId);
    assert PayloadIdUsed(submitting.files, payloadId) <==> !FreshPayload(submitting.files, payloadId);
  }

  lemma SameClaims(files: map<Id, OrderFile>, files': map<Id, OrderFile>, payloadId: string)
    requires files'.Keys == files.Keys && forall o :: o in files ==> files'[o].claim == files[o].claim
    ensures FreshPayload(files', payloadId) <==> FreshPayload(files, payloadId)
  {
    forall o | o in files
      ensures files'[o].claim == files[o].claim && o in files'
    {
    }
  }

  lemma PricedLinesPass(db: Db, o: Id, lines: seq<Line>)
    requires o in db.files && |lines| == |db.files[o].lines|
    requires forall i :: 0 <= i < |lines| ==> lines[i].product == db.files[o].lines[i].product
    requires var f := db.files[o];
             && !f.order.archived && f.claim.None? && !HasReceipt(db.receipts, o)
             && ActiveSupplier(db.catalog, f.order.supplier) && ActiveLineProducts(db.catalog, f.lines)
             && UnarchivedRequisition(db.requisitions, f.order.requisition)
    ensures LinesAllowed(db, o, lines) && OrderUpdateAllowed(db, o, db.files[o].order)
  {
    forall i | 0 <= i < |lines|
      ensures ActiveProduct(db.catalog, lines[i].product)
    {
      assert ActiveProduct(db.catalog, db.files[o].lines[i].product);
    }
    forall i | 0 <= i < |db.files[o].lines|
      ensures !LineHasReceipt(db.receipts, o, db.files[o].lines[i].id)
    {
    }
  }

  /** Everything a first Adam Hall request needs. */
  ghost predicate AdamHallClaimable(w: World, a: Action)
    requires a.RequestAdamHall?
  {
    && a.process !in w.processes && a.configured && FreshPayload(w.db.files, a.payloadId)
    && a.send.order in w.db.files && Checkable(w.db, w.db.files[a.send.order], a.now)
    && CheckedOut(w.db, a.send, a.now)
    && Key(a.user, SendAdamHall(a.send.order), a.key) !in w.db.records
    && Reviewed(w.db, a.send, a.send.checkout.value.totalCents)
  }

  lemma AdamHallClaimRests(w: World, a: Action)
    requires Inv(w) && a.RequestAdamHall? && Origins.Claims(w, a)
    ensures AdamHallClaimable(w, a)
  {
    var o := a.send.order;
    assert Holds(w.db, w.approvals, o, w.db.files[o]);
    if Key(a.user, SendAdamHall(o), a.key) in w.db.records {
      ReplayedAdamHall(w.db, a.user, a.key, a.send, a.payloadId, a.configured, a.now);
      Origins.ReplayClaims(w.db, Key(a.user, SendAdamHall(o), a.key), SendBody(a.send), o, a.now);
      assert false;
    } else {
      FirstAdamHall(w.db, a.user, a.key, a.send, a.payloadId, a.configured, a.now);
      CheckableMeans(w.db, w.approvals, a.send, a.configured, a.now);
      AdamHallCommits(w.db, w.approvals, a.user, o, a.send.checkout.value, a.payloadId, a.now);
    }
  }

  lemma AdamHallClaimCommits(w: World, a: Action)
    requires Inv(w) && a.RequestAdamHall? && AdamHallClaimable(w, a)
    ensures Origins.Claims(w, a)
  {
    var o := a.send.order;
    assert Holds(w.db, w.approvals, o, w.db.files[o]);
    CheckableMeans(w.db, w.approvals, a.send, a.configured, a.now);
    AdamHallCommits(w.db, w.approvals, a.user, o, a.send.checkout.value, a.payloadId, a.now);
  }

  /**
   In every reachable state an Adam Hall request claims its order if and only if order and reviewed cart are ready.
   */
  lemma {:induction false} AdamHallClaimsIff(actions: seq<Action>, a: Action)
    requires a.RequestAdamHall?
    ensures Origins.Claims(Run(Init(), actions), a) <==> AdamHallClaimable(Run(Init(), actions), a)
  {
    var w := Run(Init(), actions);
    Safety.Reached(actions);
    if Origins.Claims(w, a) {
      AdamHallClaimRests(w, a);
    } else if AdamHallClaimable(w, a) {
      AdamHallClaimCommits(w, a);
    }
  }

  // ---------- reconciliation ----------

  /**
   A human looked the order up, late enough and with evidence; a number found is given, short, and no other order's.
   */
  predicate LookedUp(db: Db, req: ReconcileRequest, now: Time)
    requires req.order in db.files
  {
    var f := db.files[req.order];
    && (f.order.status == Submitting || f.order.status == SubmissionUnknown)
    && f.claim.Some? && f.claim.value.status != Accepted
    && now - f.claim.value.createdAt >= Reviews.QUARTER_HOUR
    && req.humanVerified && 10 <= |req.evidence| && |req.evidence| <= 2000
    && (match req.resolution
        case FoundOrder => && 1 <= |req.supplierNumber| && |req.supplierNumber| <= 120
                           && !Reviews.NumberElsewhere(db.files, req.order, req.supplierNumber)
        case ConfirmedNotSent => req.supplierNumber == "")
    && req.expectedVersion == Some(f.order.version)
    && req.expectedContext == Some(Proposed(db, req))
    && req.phrase == Some(Verdict(f.claim.value.provider, req.order, req.resolution, Proposed(db, req)))
  }

  lemma DuplicateMeans(db: Db, o: Id, number: string)
    requires o in db.files
    ensures DuplicateNumber(db, o, number) <==> number != "" && Reviews.NumberElsewhere(db.files, o, number)
  {
    assert forall p :: p in db.files ==>
        (CarriesNumber(db.files, o, number, p) <==>
           && p != o && db.files[p].order.supplier == db.files[o].order.supplier
           && Text.Lower(Text.Trim(db.files[p].order.supplierNumber)) == Text.Lower(Text.Trim(number)));
    if Reviews.NumberElsewhere(db.files, o, number) {
      var p :| p in db.files && p != o && db.files[p].order.supplier == db.files[o].order.supplier
               && Text.Lower(Text.Trim(db.files[p].order.supplierNumber)) == Text.Lower(Text.Trim(number));
      assert CarriesNumber(db.files, o, number, p);
    }
  }

  lemma UnsettledFacts(db: Db, approvals: seq<Approval>, o: Id)
    requires o in db.files && Holds(db, approvals, o, db.files[o]) && Closing.SettledFile(db.files[o])
    requires db.files[o].order.status == Submitting || db.files[o].order.status == SubmissionUnknown
    ensures var f := db.files[o];
            && f.claim.Some? && !f.order.archived && f.reconciliation.None? && f.confirmations == map[]
            && !HasReceipt(db.receipts, o)
            && ActiveSupplier(db.catalog, f.order.supplier)
            && UnarchivedRequisition(db.requisitions, f.order.requisition)
  {
  }

  lemma ReconciledRow(db: Db, approvals: seq<Approval>, req: ReconcileRequest, now: Time)
    requires req.order in db.files && Holds(db, approvals, req.order, db.files[req.order])
    requires db.files[req.order].order.status == Submitting || db.files[req.order].order.status == SubmissionUnknown
    ensures OrderUpdateAllowed(db, req.order, ReconciledOrder(db.files[req.order].order, req, now))
  {
  }

  lemma ReconcileCommits(db: Db, approvals: seq<Approval>, user: Id, token: string, req: ReconcileRequest, now: Time)
    requires req.order in db.files && Holds(db, approvals, req.order, db.files[req.order])
    requires Closing.SettledFile(db.files[req.order]) && LookedUp(db, req, now)
    requires Key(user, ReconcileSubmission(req.order), token) !in db.records
    ensures Reconcile(db, user, token, req, now).Ok?
  {
    UnsettledFacts(db, approvals, req.order);
    DuplicateMeans(db, req.order, req.supplierNumber);
    ReconciledRow(db, approvals, req, now);
    assert ReconcileReady(db, req, now);
    var row := Reconciliation(user, req.resolution, req.supplierNumber, req.evidence);
    var noted := InsertReconciliation(db, req.order, row).value;
    assert OrderUpdateAllowed(noted, req.order, ReconciledOrder(db.files[req.order].order, req, now));
  }

  lemma ReconcileRests(db: Db, user: Id, token: string, req: ReconcileRequest, now: Time)
    requires Reconcile(db, user, token, req, now).Ok?
    requires Key(user, ReconcileSubmission(req.order), token) !in db.records
    ensures req.order in db.files && LookedUp(db, req, now)
  {
    DuplicateMeans(db, req.order, req.supplierNumber);
  }

  /** In every reachable state a first reconciliation commits if and only if a human looked the order up as required. */
  lemma {:induction false} ReconcilesIff(actions: seq<Action>, user: Id, token: string, req: ReconcileRequest,
      now: Time)
    requires Key(user, ReconcileSubmission(req.order), token) !in Run(Init(), actions).db.records
    ensures var db := Run(Init(), actions).db;
            Reconcile(db, user, token, req, now).Ok? <==> req.order in db.files && LookedUp(db, req, now)
  {
    var w := Run(Init(), actions);
    Safety.Reached(actions);
    InitInv();
    Closing.RunSettled(Init(), actions);
    if Reconcile(w.db, user, token, req, now).Ok? {
      ReconcileRests(w.db, user, token, req, now);
    } else if req.order in w.db.files && LookedUp(w.db, req, now) {
      assert Holds(w.db, w.approvals, req.order, w.db.files[req.order]);
      ReconcileCommits(w.db, w.approvals, user, token, req, now);
    }
  }

  // ---------- confirmations ----------

  /** The message is about this PunchOut order, which was sent under the payload id it names, if it names one. */
  predicate Addressed(f: OrderFile, m: Confirmations.Message) {
    && f.order.session.Some? && f.order.payloadId != "" && f.order.status != Draft
    && (m.orderPayloadId == "" || m.orderPayloadId == f.order.payloadId)
  }

  /** A new message that can still be merged: nothing received, no deletion, and it stays within the order. */
  ghost predicate Mergeable(f: OrderFile, m: Confirmations.Message) {
    && f.order.status != Received && f.order.status != PartiallyReceived && !f.order.archived
    && !m.operation.DeleteMessage?
    && (Confirmations.Itemized(m) ==> forall i :: 0 <= i < |m.lines| ==> 1 <= m.lines[i].number <= |f.lines|)
    && Confirmations.NextRows(f, m).Ok?
    && var rows := Confirmations.NextRows(f, m).value;
       && (forall j :: 0 <= j < |f.lines| ==>
             Confirmations.Accepted(rows, f.lines[j].id) + Confirmations.Rejected(rows, f.lines[j].id)
               <= f.lines[j].quantity + 0.000001)
       && (f.order.status == Cancelled ==> Confirmations.StatusAfter(f.order, rows, f.lines) == Cancelled)
  }

  lemma CommitPasses(db: Db, approvals: seq<Approval>, o: Id, m: Confirmations.Message,
      rows: map<ConfirmationKey, ConfirmationRow>, status: OrderStatus, text: string, now: Time)
    requires o in db.files && Holds(db, approvals, o, db.files[o]) && Addressed(db.files[o], m)
    requires status == Cancelled || status == OrderStatus.Confirmed || status == PartiallyConfirmed || status == Sent
    requires !ReceivedStatus(db.files[o].order.status)
    ensures Confirmations.Commit(db, o, m, rows, status, text, now).Ok? <==>
              !db.files[o].order.archived && (db.files[o].order.status == Cancelled ==> status == Cancelled)
  {
    var f := db.files[o];
    var merged := db.(files := db.files[o := f.(confirmations := rows)]);
    var row := Confirmations.ConfirmedOrder(f.order, status, Confirmations.AcceptedNumbers(rows, f.lines), text);
    if !f.order.archived && (f.order.status == Cancelled ==> status == Cancelled) {
      assert OrderUpdateAllowed(merged, o, row);
    }
  }

  lemma ConfirmedIs(db: Db, approvals: seq<Approval>, o: Id, m: Confirmations.Message, text: string, now: Time)
    requires o in db.files && Holds(db, approvals, o, db.files[o])
    ensures Confirmations.Apply(db, o, m, text, now).Ok? <==>
              && Addressed(db.files[o], m)
              && (if m.payloadId in db.events then db.events[m.payloadId] == o else Mergeable(db.files[o], m))
  {
    var f := db.files[o];
    if Confirmations.Precheck(db, o, m).None? {
      MergedIs(db, approvals, o, m, text, now);
    } else {
      assert Confirmations.Apply(db, o, m, text, now) == Confirmations.Precheck(db, o, m).value;
    }
  }

  /** The rows fit the order, and a cancelled order stays cancelled. */
  ghost predicate Merges(f: OrderFile, m: Confirmations.Message) {
    && Confirmations.NextRows(f, m).Ok?
    && var rows := Confirmations.NextRows(f, m).value;
       && Confirmations.WithinQuantities(rows, f.lines)
       && (f.order.status == Cancelled ==> Confirmations.StatusAfter(f.order, rows, f.lines) == Cancelled)
  }

  lemma MergedIs(db: Db, approvals: seq<Approval>, o: Id, m: Confirmations.Message, text: string, now: Time)
    requires o in db.files && Holds(db, approvals, o, db.files[o]) && Confirmations.Precheck(db, o, m).None?
    ensures Confirmations.Apply(db, o, m, text, now).Ok? <==> Mergeable(db.files[o], m)
  {
    MergeCommits(db, o, m, text, now);
    if Confirmations.NextRows(db.files[o], m).Ok? {
      MergePasses(db, approvals, o, m, text, now);
    }
    MergeableMeans(db.files[o], m);
  }

  lemma MergePasses(db: Db, approvals: seq<Approval>, o: Id, m: Confirmations.Message, text: string, now: Time)
    requires o in db.files && Holds(db, approvals, o, db.files[o]) && Addressed(db.files[o], m)
    requires !ReceivedStatus(db.files[o].order.status) && Confirmations.NextRows(db.files[o], m).Ok?
    ensures var f := db.files[o];
            var rows := Confirmations.NextRows(f, m).value;
            Confirmations.Commit(db, o, m, rows, Confirmations.StatusAfter(f.order, rows, f.lines), text, now).Ok? <==>
              && !f.order.archived
              && (f.order.status == Cancelled ==> Confirmations.StatusAfter(f.order, rows, f.lines) == Cancelled)
  {
    var f := db.files[o];
    var rows := Confirmations.NextRows(f, m).value;
    CommitPasses(db, approvals, o, m, rows, Confirmations.StatusAfter(f.order, rows, f.lines), text, now);
  }

  lemma MergeableMeans(f: OrderFile, m: Confirmations.Message)
    ensures Mergeable(f, m) <==>
              && f.order.status != Received && f.order.status != PartiallyReceived && !f.order.archived
              && !m.operation.DeleteMessage? && Merges(f, m)
  {
    if Confirmations.Itemized(m) {
      Merging.ItemsFitIff(f, m);
    }
    if Confirmations.NextRows(f, m).Ok? {
      WithinMeans(f, Confirmations.NextRows(f, m).value);
    }
  }

  lemma MergeCommits(db: Db, o: Id, m: Confirmations.Message, text: string, now: Time)
    requires o in db.files && Confirmations.Precheck(db, o, m).None?
    ensures Addressed(db.files[o], m) && !m.operation.DeleteMessage?
    ensures db.files[o].order.status != Received && db.files[o].order.status != PartiallyReceived
    ensures var f := db.files[o];
            Confirmations.Apply(db, o, m, text, now).Ok? <==>
              && Confirmations.NextRows(f, m).Ok?
              && var rows := Confirmations.NextRows(f, m).value;
                 && Confirmations.WithinQuantities(rows, f.lines)
                 && Confirmations.Commit(db, o, m, rows, Confirmations.StatusAfter(f.order, rows, f.lines), text,
                                         now).Ok?
  {
  }

  lemma WithinMeans(f: OrderFile, rows: map<ConfirmationKey, ConfirmationRow>)
    ensures Confirmations.WithinQuantities(rows, f.lines) <==>
              forall j :: 0 <= j < |f.lines| ==>
                Confirmations.Accepted(rows, f.lines[j].id) + Confirmations.Rejected(rows, f.lines[j].id)
                  <= f.lines[j].quantity + 0.000001
  {
  }

  /**
   In every reachable state a message is taken if and only if it is addressed to the order and known, or mergeable.
   */
  lemma {:induction false} ConfirmsIff(actions: seq<Action>, o: Id, m: Confirmations.Message, text: string, now: Time)
    ensures var db := Run(Init(), actions).db;
            Confirmations.Apply(db, o, m, text, now).Ok? <==>
              && o in db.files && Addressed(db.files[o], m)
              && (if m.payloadId in db.events then db.events[m.payloadId] == o else Mergeable(db.files[o], m))
  {
    var w := Run(Init(), actions);
    Safety.Reached(actions);
    if o in w.db.files {
      assert Holds(w.db, w.approvals, o, w.db.files[o]);
      ConfirmedIs(w.db, w.approvals, o, m, text, now);
    }
  }
}
