/** Archiving: when a row can be archived or restored, and that an archived row waits unchanged for its restoration. */
module Lifecycle {
  import opened Base
  import opened Schema
  import opened Triggers
  import opened World
  import opened Invariants
  import opened FileSteps
  import opened Protocol
  import opened Evolution
  import Confirmations
  import GoodsReceipts
  import Preservation
  import Safety
  import Sessions
  import Submission
  import Workflow

  // ---------- master rows ----------

  /** A write between an active and an archived row: it archives, restores, or leaves an active row active. */
  datatype Change = Edits | Archives | Restores | Touches

  function Changed(wasActive: bool, active: bool): Change {
    if wasActive then (if active then Edits else Archives) else if active then Restores else Touches
  }

  /** An order that is neither archived nor received nor cancelled. */
  predicate Open(f: OrderFile) {
    !f.order.archived && f.order.status != Received && f.order.status != Cancelled
  }

  /** A requisition that may still become an order. */
  predicate Live(r: Requisition) {
    !r.archived && (r.status == ReqDraft || r.status == ReqSubmitted || r.status == ReqApproved)
  }

  /** No active product is of the category. */
  predicate Empty(catalog: Catalog, category: Id) {
    forall p :: p in catalog.products && catalog.products[p].category == Some(category) ==> !catalog.products[p].active
  }

  lemma CategoryWriteIff(db: Db, id: Id, row: Category, now: Time)
    requires id in db.catalog.categories
    ensures var was := db.catalog.categories[id];
            WriteCategory(db, id, row, now).Ok? <==>
              match Changed(was.active, row.active)
              case Edits => true
              case Archives => row.name == was.name && Empty(db.catalog, id)
              case Restores => row.name == was.name
              case Touches => false
  {
    var products := db.catalog.products;
    assert forall p :: p in products ==>
        (CategoryInUse(products[p], id) <==> products[p].category == Some(id) && products[p].active);
  }

  lemma SupplierWriteIff(db: Db, id: Id, row: Supplier, now: Time)
    requires id in db.catalog.suppliers
    ensures var was := db.catalog.suppliers[id];
            var same := row.name == was.name && row.code == was.code && row.adamHall == was.adamHall;
            WriteSupplier(db, id, row, now).Ok? <==>
              match Changed(was.active, row.active)
              case Edits => true
              case Archives =>
                same && forall o :: o in db.files && Open(db.files[o]) ==> db.files[o].order.supplier != id
              case Restores => same
              case Touches => false
  {
    assert forall o :: o in db.files ==>
        (SupplierInUse(db.files[o], id) <==> Open(db.files[o]) && db.files[o].order.supplier == id);
  }

  /** Some line of the order is of this product. */
  predicate Orders(f: OrderFile, product: Id) {
    exists i :: 0 <= i < |f.lines| && f.lines[i].product == Some(product)
  }

  predicate Requests(r: Requisition, product: Id) {
    exists i :: 0 <= i < |r.lines| && r.lines[i].product == Some(product)
  }

  predicate CategoryActive(catalog: Catalog, category: Option<Id>) {
    category.Some? ==> category.value in catalog.categories && catalog.categories[category.value].active
  }

  lemma ProductWriteIff(db: Db, id: Id, row: Product, now: Time)
    requires id in db.catalog.products
    ensures var was := db.catalog.products[id];
            var same := row.name == was.name && row.sku == was.sku && row.category == was.category;
            WriteProduct(db, id, row, now).Ok? <==>
              match Changed(was.active, row.active)
              case Edits => CategoryActive(db.catalog, row.category)
              case Archives =>
                && same
                && (forall o :: o in db.files && Open(db.files[o]) ==> !Orders(db.files[o], id))
                && (forall r :: r in db.requisitions && Live(db.requisitions[r]) ==> !Requests(db.requisitions[r], id))
              case Restores => same && CategoryActive(db.catalog, row.category)
              case Touches => false
  {
    assert forall o :: o in db.files ==>
        (ProductInUse(db.files[o], id) <==> Open(db.files[o]) && Orders(db.files[o], id));
    assert forall r :: r in db.requisitions ==>
        (ProductRequested(db.requisitions[r], id) <==> Live(db.requisitions[r]) && Requests(db.requisitions[r], id));
  }

  predicate SameTerms(was: Offer, row: Offer) {
    && row.product == was.product && row.supplier == was.supplier && row.supplierSku == was.supplierSku
    && row.priceCents == was.priceCents && row.currency == was.currency && row.minimum == was.minimum
    && row.pack == was.pack && row.validUntil == was.validUntil && row.url == was.url
  }

  lemma OfferWriteIff(db: Db, id: nat, row: Offer, now: Time)
    requires id < |db.catalog.offers|
    ensures var was := db.catalog.offers[id];
            WriteOffer(db, id, row, now).Ok? <==>
              match Changed(was.active, row.active)
              case Edits => true
              case Archives => SameTerms(was, row)
              case Restores =>
                && SameTerms(was, row)
                && row.product in db.catalog.products && db.catalog.products[row.product].active
                && row.supplier in db.catalog.suppliers && db.catalog.suppliers[row.supplier].active
              case Touches => false
  {
  }

  /** New master rows are active, and a new product's category is, too. */
  lemma NewMasterIff(db: Db, category: Category, supplier: Supplier, product: Product, offer: Offer, now: Time)
    ensures InsertCategory(db, category, now).Ok? <==> category.active
    ensures InsertSupplier(db, supplier, now).Ok? <==> supplier.active
    ensures InsertProduct(db, product, now).Ok? <==> product.active && CategoryActive(db.catalog, product.category)
    ensures InsertOffer(db, offer, now).Ok? <==> offer.active
  {
  }

  // ---------- order rows ----------

  /** Every field but the archive flag and the version. */
  predicate SameOrder(was: Order, row: Order) {
    && row.number == was.number && row.supplier == was.supplier && row.requisition == was.requisition
    && row.session == was.session && row.status == was.status && row.currency == was.currency
    && row.totalCents == was.totalCents && row.payloadId == was.payloadId
    && row.supplierNumber == was.supplierNumber && row.amazonNumbers == was.amazonNumbers
    && row.orderDate == was.orderDate && row.notes == was.notes
  }

  /** What a claim leaves free in the row of its order. */
  predicate ClaimPermits(claim: Claim, was: Order, row: Order) {
    && row.status != Draft && (row.status == Submitting ==> was.status == Draft || was.status == Submitting)
    && row.number == was.number && row.supplier == was.supplier && row.requisition == was.requisition
    && row.session == was.session && row.currency == was.currency && row.totalCents == was.totalCents
    && (was.payloadId == "" || row.payloadId == was.payloadId)
    && (claim.provider == Amazon ==> row.payloadId == claim.payloadId)
  }

  /** The order row of a write names what is in use, or closes the order without naming anything else. */
  predicate Writable(db: Db, o: Id, row: Order)
    requires o in db.files
  {
    var f := db.files[o];
    && (f.claim.Some? ==> ClaimPermits(f.claim.value, f.order, row))
    && (if f.order.archived then !row.archived && SameOrder(f.order, row) && Referable(db, f)
        else if row.archived then
          && SameOrder(f.order, row) && PutAway(db, o)
          && (row.status == Draft || row.status == Received || row.status == Cancelled)
        else
          || Referenced(db, row)
          || (&& (row.status == Received || row.status == Cancelled)
              && row.supplier == f.order.supplier && row.requisition == f.order.requisition))
  }

  lemma OrderWriteIff(db: Db, o: Id, row: Order, now: Time)
    requires o in db.files
    ensures UpdateOrder(db, o, row, now).Ok? <==> Writable(db, o, row)
  {
    ReferableMeans(db, db.files[o]);
    SameOrderMeans(db.files[o].order, row);
    assert OpenPutaway(db, o) <==> !PutAway(db, o);
  }

  lemma SameOrderMeans(was: Order, row: Order)
    ensures SameOrder(was, row) <==> Business(was) == Business(row)
  {
    if SameOrder(was, row) {
      assert Business(was) == Business(row);
    }
  }

  // ---------- requisition rows ----------

  /** Every field but archive flag, version and lines. */
  predicate SameRequisition(was: Requisition, row: Requisition) {
    && row.session == was.session && row.requester == was.requester && row.status == was.status
    && row.approvedBy == was.approvedBy && row.decided == was.decided
  }

  /** The requester stays; archiving and restoring change nothing else; submitting and approving look at the lines. */
  predicate DemandWritable(db: Db, r: Id, row: Requisition)
    requires r in db.requisitions
  {
    var was := db.requisitions[r];
    && row.requester == was.requester
    && (if was.archived then !row.archived && SameRequisition(was, row) && Requestable(db.catalog, was.lines)
        else if row.archived then
          && SameRequisition(was, row) && was.status != ReqSubmitted && was.status != ReqApproved
          && forall o :: o in db.files && Open(db.files[o]) ==> db.files[o].order.requisition != Some(r)
        else
          (row.status == ReqSubmitted || row.status == ReqApproved) && row.status != was.status ==>
            Requestable(db.catalog, was.lines))
  }

  lemma RequisitionWriteIff(db: Db, r: Id, row: Requisition, now: Time)
    requires r in db.requisitions
    ensures UpdateRequisition(db, r, row, now).Ok? <==> DemandWritable(db, r, row)
  {
    RequestableMeans(db.catalog, db.requisitions[r].lines);
    assert SameRequisition(db.requisitions[r], row) ==>
        RequisitionBusiness(db.requisitions[r]) == RequisitionBusiness(row);
    assert forall o :: o in db.files ==>
        (RequisitionInUse(db.files[o], r) <==> Open(db.files[o]) && db.files[o].order.requisition == Some(r));
  }

  /** Some stored line is exactly this one, or the line names what is in use. */
  predicate DemandLineFits(catalog: Catalog, was: seq<RequisitionLine>, l: RequisitionLine) {
    (exists i :: 0 <= i < |was| && was[i] == l) || Requestable(catalog, [l])
  }

  lemma DemandLinesWriteIff(db: Db, r: Id, lines: seq<RequisitionLine>, now: Time)
    requires r in db.requisitions
    ensures var was := db.requisitions[r];
            ChangeRequisitionLines(db, r, lines, now).Ok? <==>
              && !was.archived
              && forall i :: 0 <= i < |lines| ==> DemandLineFits(db.catalog, was.lines, lines[i])
  {
    forall i | 0 <= i < |lines|
      ensures DemandLineFits(db.catalog, db.requisitions[r].lines, lines[i]) <==>
                || HasRequisitionLine(db.requisitions[r].lines, lines[i])
                || (&& ActiveProduct(db.catalog, lines[i].product)
                    && ActivePreferred(db.catalog, lines[i].preferredSupplier))
    {
      OneRequestable(db.catalog, lines[i]);
    }
  }

  lemma OneRequestable(catalog: Catalog, l: RequisitionLine)
    ensures Requestable(catalog, [l])
         <==> ActiveProduct(catalog, l.product) && ActivePreferred(catalog, l.preferredSupplier)
  {
    RequestableMeans(catalog, [l]);
    assert [l][0] == l;
  }

  // ---------- claim and reconciliation rows ----------

  /** One claim per order and payload id; its identity stays and its outcome is written while it is pending. */
  lemma ClaimWriteIff(db: Db, o: Id, claim: Claim)
    requires o in db.files
    ensures InsertClaim(db, o, claim).Ok? <==>
              && db.files[o].claim.None?
              && forall p :: p in db.files && db.files[p].claim.Some? ==>
                   db.files[p].claim.value.payloadId != claim.payloadId
    ensures db.files[o].claim.Some? ==>
              var was := db.files[o].claim.value;
              UpdateClaim(db, o, claim).Ok? <==>
                Safety.SameIdentity(was, claim) && (was.status == Pending || claim == was)
  {
  }

  /** One reconciliation per order, with evidence, and a number exactly if the order was found. */
  lemma ReconciliationWriteIff(db: Db, o: Id, row: Reconciliation)
    requires o in db.files
    ensures InsertReconciliation(db, o, row).Ok? <==>
              && db.files[o].reconciliation.None? && 10 <= |row.evidence| && |row.evidence| <= 2000
              && match row.resolution
                 case FoundOrder => 1 <= |row.supplierNumber| && |row.supplierNumber| <= 120
                 case ConfirmedNotSent => row.supplierNumber == ""
  {
  }

  // ---------- archived orders ----------

  /** Nothing of the order changed, unless the answer of its supplier was noted on the claim. */
  predicate Waits(f: OrderFile, g: OrderFile) {
    && g.order == f.order && g.lines == f.lines && g.confirmations == f.confirmations
    && g.reconciliation == f.reconciliation
    && (f.claim.None? ==> g.claim.None?)
    && (f.claim.Some? ==> g.claim.Some? && Safety.SameIdentity(f.claim.value, g.claim.value))
  }

  /** Archived rows wait, the others stay unarchived. */
  predicate Held(f: OrderFile, g: OrderFile) {
    g.order.archived == f.order.archived && (f.order.archived ==> Waits(f, g))
  }

  predicate FileHeld(files: map<Id, OrderFile>, files': map<Id, OrderFile>, o: Id) {
    o in files ==> o in files' && Held(files[o], files'[o])
  }

  /** One order changed, and it was not archived. */
  lemma OneHeld(files: map<Id, OrderFile>, files': map<Id, OrderFile>, o: Id, p: Id)
    requires p in files && p in files' && files' == files[p := files'[p]]
    requires !files[p].order.archived && !files'[p].order.archived
    ensures FileHeld(files, files', o)
  {
  }

  lemma RowHeld(db: Db, p: Id, row: Order, now: Time, o: Id)
    requires p in db.files && UpdateOrder(db, p, row, now).Ok? && row.archived == db.files[p].order.archived
    ensures !row.archived && FileHeld(db.files, UpdateOrder(db, p, row, now).value.files, o)
  {
    OneHeld(db.files, UpdateOrder(db, p, row, now).value.files, o, p);
  }

  lemma LinesHeld(db: Db, p: Id, lines: seq<Line>, now: Time, o: Id)
    requires p in db.files && ChangeLines(db, p, lines, now).Ok?
    ensures FileHeld(db.files, ChangeLines(db, p, lines, now).value.files, o)
  {
    OneHeld(db.files, ChangeLines(db, p, lines, now).value.files, o, p);
  }

  lemma EditHeld(db: Db, p: Id, input: Workflow.OrderInput, lines: Option<seq<Line>>, now: Time, o: Id)
    requires Workflow.EditDraft(db, p, input, lines, now).Ok?
    ensures FileHeld(db.files, Workflow.EditDraft(db, p, input, lines, now).value.files, o)
  {
    Preservation.EditedDraft(db, p, input, lines, now);
    var total := Workflow.Total(if lines.Some? then lines.value else db.files[p].lines);
    var header := Workflow.DraftHeader(db.files[p].order, input, total);
    RowHeld(db, p, header, now, o);
    if lines.Some? {
      LinesHeld(UpdateOrder(db, p, header, now).value, p, lines.value, now, o);
    }
  }

  lemma OrderHeld(db: Db, a: Action, o: Id)
    requires OrderAction(a) && Transaction(db, a).Ok? && !(a.ArchiveOrder? && a.id == o) && SerialOk(db)
    ensures FileHeld(db.files, Transaction(db, a).value.files, o)
  {
    match a
    case NewOrder(input, now) => {}
    case EditDraft(id, input, lines, _, now) => EditHeld(db, id, input, lines, now, o);
    case SetStatus(id, to, number, notes, check, now) =>
      OneHeld(db.files, Transaction(db, a).value.files, o, id);
    case ApproveOrder(id, to, reason, _, now) => OneHeld(db.files, Transaction(db, a).value.files, o, id);
    case ArchiveOrder(id, archive, _, now) => {}
  }

  lemma CommitHeld(db: Db, p: Id, m: Confirmations.Message, rows: map<ConfirmationKey, ConfirmationRow>,
      status: OrderStatus, text: string, now: Time, o: Id)
    requires p in db.files && Confirmations.Commit(db, p, m, rows, status, text, now).Ok?
    ensures FileHeld(db.files, Confirmations.Commit(db, p, m, rows, status, text, now).value.files, o)
  {
    Preservation.CommitShape(db, p, m, rows, status, text, now);
    OneHeld(db.files, Confirmations.Commit(db, p, m, rows, status, text, now).value.files, o, p);
  }

  lemma ConfirmHeld(db: Db, p: Id, m: Confirmations.Message, text: string, now: Time, o: Id)
    requires Confirmations.Apply(db, p, m, text, now).Ok?
    ensures FileHeld(db.files, Confirmations.Apply(db, p, m, text, now).value.files, o)
  {
    if Confirmations.Precheck(db, p, m).None? {
      AppliedAs(db, p, m, text, now);
      var rows := Confirmations.NextRows(db.files[p], m).value;
      CommitHeld(db, p, m, rows, Confirmations.StatusAfter(db.files[p].order, rows, db.files[p].lines), text, now, o);
    }
  }

  lemma ReceiptHeld(db: Db, p: Id, input: GoodsReceipts.ReceiptInput, guided: bool, user: Id, now: Time, o: Id)
    requires GoodsReceipts.Receive(db, p, input, guided, user, now).Ok?
    ensures FileHeld(db.files, GoodsReceipts.Receive(db, p, input, guided, user, now).value.files, o)
  {
    var q := Confirmations.Position(db.files[p].lines, input.line);
    var stocked := GoodsReceipts.Stocked(db, db.files[p].lines[q], input, guided).value;
    var row := GoodsReceipts.ReceiptRow(db, p, db.files[p].lines[q], input, user);
    Preservation.StockedShape(db, db.files[p].lines[q], input, guided);
    BookedShape(stocked, p, q, input.quantity, row, now);
    OneHeld(db.files, GoodsReceipts.Receive(db, p, input, guided, user, now).value.files, o, p);
  }

  lemma SupplierHeld(db: Db, a: Action, o: Id)
    requires SupplierAction(a) && Transaction(db, a).Ok?
    ensures FileHeld(db.files, Transaction(db, a).value.files, o)
  {
    match a
    case ReconcileOrder(user, key, request, now) =>
      if Key(user, ReconcileSubmission(request.order), key) !in db.records {
        ReconciledShape(db, user, key, request, now);
        OneHeld(db.files, Transaction(db, a).value.files, o, request.order);
      }
    case Confirm(id, message, text, now) => ConfirmHeld(db, id, message, text, now, o);
    case Receive(id, receipt, guided, user, now) => ReceiptHeld(db, id, receipt, guided, user, now, o);
  }

  lemma DemandHeld(db: Db, a: Action, o: Id)
    requires !OrderAction(a) && !SupplierAction(a) && Transaction(db, a).Ok? && SerialOk(db)
    ensures FileHeld(db.files, Transaction(db, a).value.files, o)
  {
    if a.ConvertRequisition? {
      ConversionAdds(db, a);
    } else {
      DemandKeepsFiles(db, a);
    }
  }

  lemma ConversionAdds(db: Db, a: Action)
    requires a.ConvertRequisition? && Transaction(db, a).Ok?
    ensures var files := Transaction(db, a).value.files;
            db.serial in files && files == db.files[db.serial := files[db.serial]]
  {
  }

  lemma DemandKeepsFiles(db: Db, a: Action)
    requires !OrderAction(a) && !SupplierAction(a) && !a.ConvertRequisition? && Transaction(db, a).Ok?
    ensures Transaction(db, a).value.files == db.files
  {
  }

  lemma FinalizeHeld(db: Db, p: Id, key: Option<Key>, now: Time, o: Id)
    requires Submission.Finalize(db, p, key, now).Ok?
    ensures FileHeld(db.files, Submission.Finalize(db, p, key, now).value.files, o)
  {
    if db.files[p].order.status == Submitting {
      RowHeld(db, p, Submission.SettledOrder(db.files[p].claim.value, db.files[p].order, now), now, o);
    }
  }

  lemma ReplayHeld(db: Db, key: Key, body: RequestBody, p: Id, now: Time, o: Id)
    requires key in db.records && Submission.Replay(db, key, body, p, now).Ok?
    ensures FileHeld(db.files, Submission.Replay(db, key, body, p, now).value.db.files, o)
  {
    if Submission.Finalize(db, p, Some(key), now).Ok? {
      FinalizeHeld(db, p, Some(key), now, o);
    }
  }

  lemma AmazonHeld(w: World, a: Action, o: Id)
    requires a.RequestAmazon?
    ensures FileHeld(w.db.files, Step(w, a).db.files, o)
  {
    if AmazonReply(w.db, a.user, a.token, a.send, a.payloadId, a.configured, a.now).Ok? && Step(w, a) != w {
      if a.token.None? {
        NativeAmazon(w.db, a.user, a.send, a.payloadId, a.configured, a.now);
        AmazonClaimHeld(w.db, a.user, a.send.order, a.payloadId, a.now, o);
      } else if Key(a.user, SendAmazon(a.send.order), a.token.value) in w.db.records {
        ReplayedAmazon(w.db, a.user, a.token.value, a.send, a.payloadId, a.configured, a.now);
        ReplayHeld(w.db, Key(a.user, SendAmazon(a.send.order), a.token.value), SendBody(a.send), a.send.order, a.now,
                   o);
      } else {
        GuidedAmazon(w.db, a.user, a.token.value, a.send, a.payloadId, a.configured, a.now);
        AmazonClaimHeld(w.db, a.user, a.send.order, a.payloadId, a.now, o);
      }
    }
  }

  lemma AmazonClaimHeld(db: Db, user: Id, p: Id, payloadId: string, now: Time, o: Id)
    requires p in db.files && !db.files[p].order.archived
    requires Submission.CommitAmazonClaim(db, user, p, payloadId, now).Ok?
    ensures FileHeld(db.files, Submission.CommitAmazonClaim(db, user, p, payloadId, now).value.files, o)
  {
    OneHeld(db.files, Submission.CommitAmazonClaim(db, user, p, payloadId, now).value.files, o, p);
  }

  lemma AdamHallClaimHeld(db: Db, user: Id, p: Id, checkout: Checkout, payloadId: string, now: Time, o: Id)
    requires p in db.files && !db.files[p].order.archived
    requires Submission.CommitAdamHallClaim(db, user, p, checkout, payloadId, now).Ok?
    ensures FileHeld(db.files, Submission.CommitAdamHallClaim(db, user, p, checkout, payloadId, now).value.files, o)
  {
    AdamHallClaimShape(db, user, p, checkout, payloadId, now);
    OneHeld(db.files, Submission.CommitAdamHallClaim(db, user, p, checkout, payloadId, now).value.files, o, p);
  }

  lemma AdamHallHeld(w: World, a: Action, o: Id)
    requires a.RequestAdamHall?
    ensures FileHeld(w.db.files, Step(w, a).db.files, o)
  {
    if AdamHallReply(w.db, a.user, a.key, a.send, a.payloadId, a.configured, a.now).Ok? && Step(w, a) != w {
      if Key(a.user, SendAdamHall(a.send.order), a.key) in w.db.records {
        ReplayedAdamHall(w.db, a.user, a.key, a.send, a.payloadId, a.configured, a.now);
        ReplayHeld(w.db, Key(a.user, SendAdamHall(a.send.order), a.key), SendBody(a.send), a.send.order, a.now, o);
      } else {
        FirstAdamHall(w.db, a.user, a.key, a.send, a.payloadId, a.configured, a.now);
        AdamHallClaimHeld(w.db, a.user, a.send.order, a.send.checkout.value, a.payloadId, a.now, o);
      }
    }
  }

  lemma PhaseHeld(w: World, a: Action, o: Id)
    requires Phase(a)
    ensures FileHeld(w.db.files, Step(w, a).db.files, o)
  {
    if a.FinalizeOrder? && a.process in w.processes {
      var x := w.processes[a.process];
      if Submission.Finalize(w.db, x.order, x.key, a.now).Ok? {
        FinalizeHeld(w.db, x.order, x.key, a.now, o);
      }
    }
  }

  /** Whatever is asked for but archiving and restoring the order itself: archived it waits, otherwise it stays open. */
  lemma StepHeld(w: World, a: Action, o: Id)
    requires SerialOk(w.db) && !(a.ArchiveOrder? && a.id == o)
    ensures FileHeld(w.db.files, Step(w, a).db.files, o)
  {
    if Phase(a) {
      PhaseHeld(w, a, o);
    } else if a.RequestAmazon? {
      AmazonHeld(w, a, o);
    } else if a.RequestAdamHall? {
      AdamHallHeld(w, a, o);
    } else if Transaction(w.db, a).Ok? {
      assert Step(w, a).db == Transaction(w.db, a).value;
      if OrderAction(a) {
        OrderHeld(w.db, a, o);
      } else if SupplierAction(a) {
        SupplierHeld(w.db, a, o);
      } else {
        DemandHeld(w.db, a, o);
      }
    }
  }

  /** Nobody restores the order. */
  predicate Unrestored(actions: seq<Action>, o: Id) {
    forall i :: 0 <= i < |actions| && actions[i].ArchiveOrder? && actions[i].id == o ==> actions[i].archive
  }

  lemma ArchivedAgain(w: World, a: Action, o: Id)
    requires a.ArchiveOrder? && a.id == o && a.archive && o in w.db.files && w.db.files[o].order.archived
    ensures Step(w, a) == w
  {
  }

  lemma {:induction false} ArchivedRun(w: World, actions: seq<Action>, o: Id)
    requires Inv(w) && o in w.db.files && w.db.files[o].order.archived && Unrestored(actions, o)
    ensures o in Run(w, actions).db.files && Waits(w.db.files[o], Run(w, actions).db.files[o])
    decreases |actions|
  {
    if actions != [] {
      var a := actions[0];
      assert Unrestored(actions[1..], o);
      if a.ArchiveOrder? && a.id == o {
        ArchivedAgain(w, a, o);
      } else {
        StepHeld(w, a, o);
      }
      StepKeeps(w, a);
      ArchivedRun(Step(w, a), actions[1..], o);
    }
  }

  /**
   From whatever reachable state: an archived order waits row for row until it is restored, whatever requests, messages,
   receipts and decisions arrive in between; only the answer to a call under way may still be noted.
   */
  lemma {:induction false} ArchivedOrderWaits(actions: seq<Action>, later: seq<Action>, o: Id)
    requires o in Run(Init(), actions).db.files && Run(Init(), actions).db.files[o].order.archived
    requires Unrestored(later, o)
    ensures o in Run(Init(), actions + later).db.files
    ensures Waits(Run(Init(), actions).db.files[o], Run(Init(), actions + later).db.files[o])
  {
    Safety.Reached(actions);
    Safety.RunThen(Init(), actions, later);
    ArchivedRun(Run(Init(), actions), later, o);
  }

  // ---------- archiving and restoring ----------

  /** The order went into or out of the archive as it was. */
  predicate Moved(f: OrderFile, g: OrderFile, archive: bool) {
    && f.order.archived == !archive && g.order.archived == archive && g.order.version > f.order.version
    && g == f.(order := f.order.(archived := archive, version := g.order.version))
  }

  /** Every putaway task of the order's receipts is closed or gone. */
  predicate PutAway(db: Db, o: Id) {
    forall i :: 0 <= i < |db.receipts| && db.receipts[i].order == o && db.receipts[i].task.Some? ==>
      || db.receipts[i].task.value !in db.warehouse.tasks
      || db.warehouse.tasks[db.receipts[i].task.value].closed
  }

  /** The order's supplier, requisition and products are all there to be used. */
  predicate Referable(db: Db, f: OrderFile) {
    && f.order.supplier in db.catalog.suppliers && db.catalog.suppliers[f.order.supplier].active
    && (f.order.requisition.Some? ==>
          && f.order.requisition.value in db.requisitions && !db.requisitions[f.order.requisition.value].archived)
    && forall i :: 0 <= i < |f.lines| && f.lines[i].product.Some? ==>
         && f.lines[i].product.value in db.catalog.products && db.catalog.products[f.lines[i].product.value].active
  }

  /**
   In every reachable state an order is archived if and only if it is a draft, received or cancelled and nothing of it
   waits to be put away; it is restored if and only if everything it names can be used; and it comes back as it went.
   */
  lemma {:induction false} ArchiveOrderIff(actions: seq<Action>, o: Id, archive: bool, now: Time)
    requires o in Run(Init(), actions).db.files
    ensures var db := Run(Init(), actions).db;
            var f := db.files[o];
            Workflow.ArchiveOrder(db, o, archive, now).Ok? <==>
              && f.order.archived == !archive
              && (archive ==>
                    && (f.order.status == Draft || f.order.status == Received || f.order.status == Cancelled)
                    && PutAway(db, o))
              && (!archive ==> Referable(db, f) && Workflow.ValidLines(f.lines))
    ensures var db := Run(Init(), actions).db;
            var r := Workflow.ArchiveOrder(db, o, archive, now);
            r.Ok? ==> o in r.value.files && Moved(db.files[o], r.value.files[o], archive)
  {
    var w := Run(Init(), actions);
    Safety.Reached(actions);
    assert Holds(w.db, w.approvals, o, w.db.files[o]);
    var f := w.db.files[o];
    ReferableMeans(w.db, f);
    if f.order.archived == !archive {
      RowMoves(w.db, o, archive);
    }
  }

  /** The guards on an order row that only goes into or out of the archive. */
  lemma RowMoves(db: Db, o: Id, archive: bool)
    requires o in db.files && db.files[o].order.archived == !archive
    requires db.files[o].claim.Some? ==>
               && db.files[o].order.status != Draft
               && (db.files[o].claim.value.provider == Amazon ==>
                     db.files[o].order.payloadId == db.files[o].claim.value.payloadId)
    ensures OrderUpdateAllowed(db, o, db.files[o].order.(archived := archive)) <==>
              && (archive ==> (db.files[o].order.status == Draft || Closed(db.files[o].order.status)) && PutAway(db, o))
              && (!archive ==> Referable(db, db.files[o]))
  {
    ReferableMeans(db, db.files[o]);
    assert OpenPutaway(db, o) <==> !PutAway(db, o);
  }

  /** The tasks that keep an order out of the archive. */
  predicate Awaits(db: Db, o: Id, task: Id) {
    && task in db.warehouse.tasks && !db.warehouse.tasks[task].closed
    && exists i :: 0 <= i < |db.receipts| && db.receipts[i].order == o && db.receipts[i].task == Some(task)
  }

  /** Closing a task closes it and nothing else, so an order is put away once its last waiting task is closed. */
  lemma CloseTaskIff(db: Db, task: Id)
    ensures Workflow.CloseTask(db, task).Ok? <==> task in db.warehouse.tasks
    ensures Workflow.CloseTask(db, task).Ok? ==>
              var db' := Workflow.CloseTask(db, task).value;
              && db'.warehouse.tasks.Keys == db.warehouse.tasks.Keys && db'.warehouse.tasks[task].closed
              && (forall t :: t in db.warehouse.tasks && t != task ==>
                    db'.warehouse.tasks[t] == db.warehouse.tasks[t])
              && db' == db.(warehouse := db.warehouse.(tasks := db'.warehouse.tasks))
              && forall o :: PutAway(db', o) <==> forall t :: Awaits(db, o, t) ==> t == task
  {
    if Workflow.CloseTask(db, task).Ok? {
      forall o
        ensures PutAway(Workflow.CloseTask(db, task).value, o) <==> forall t :: Awaits(db, o, t) ==> t == task
      {
        LastTask(db, task, o);
      }
    }
  }

  lemma LastTask(db: Db, task: Id, o: Id)
    requires Workflow.CloseTask(db, task).Ok?
    ensures PutAway(Workflow.CloseTask(db, task).value, o) <==> forall t :: Awaits(db, o, t) ==> t == task
  {
    var db' := Workflow.CloseTask(db, task).value;
    if t :| Awaits(db, o, t) && t != task {
      var i :| 0 <= i < |db.receipts| && db.receipts[i].order == o && db.receipts[i].task == Some(t);
      assert db'.receipts[i].task.value in db'.warehouse.tasks;
      assert !PutAway(db', o);
    }
    if !PutAway(db', o) {
      var i :| 0 <= i < |db'.receipts| && db'.receipts[i].order == o && db'.receipts[i].task.Some?
               && db'.receipts[i].task.value in db'.warehouse.tasks
               && !db'.warehouse.tasks[db'.receipts[i].task.value].closed;
      assert Awaits(db, o, db.receipts[i].task.value);
    }
  }

  lemma ReferableMeans(db: Db, f: OrderFile)
    ensures Referable(db, f) <==>
              && ActiveSupplier(db.catalog, f.order.supplier)
              && UnarchivedRequisition(db.requisitions, f.order.requisition)
              && ActiveLineProducts(db.catalog, f.lines)
  {
    forall i | 0 <= i < |f.lines|
      ensures ActiveProduct(db.catalog, f.lines[i].product) <==>
                (f.lines[i].product.Some? ==>
                   && f.lines[i].product.value in db.catalog.products
                   && db.catalog.products[f.lines[i].product.value].active)
    {
    }
  }

  // ---------- order lines ----------

  /** Some stored line is exactly this one. */
  predicate Unchanged(was: seq<Line>, l: Line) {
    exists i :: 0 <= i < |was| && was[i] == l
  }

  /** A stored line of the same id is of the same product. */
  predicate SameProduct(was: seq<Line>, l: Line) {
    exists i :: 0 <= i < |was| && was[i].id == l.id && was[i].product == l.product
  }

  predicate Deleted(was: Line, lines: seq<Line>) {
    forall i :: 0 <= i < |lines| ==> lines[i].id != was.id
  }

  predicate Receipted(receipts: seq<Receipt>, o: Id, line: Id) {
    exists i :: 0 <= i < |receipts| && receipts[i].order == o && receipts[i].line == line
  }

  /** New lines of an order may name what is in use; a closed order keeps its products; lines with receipts stay. */
  predicate Replaceable(db: Db, o: Id, lines: seq<Line>)
    requires o in db.files
  {
    var f := db.files[o];
    && !f.order.archived
    && (f.order.status == Received || f.order.status == Cancelled || Referenced(db, f.order))
    && (f.claim.Some? ==>
          && f.order.status != Draft && Sessions.SameGoods(f.lines, lines)
          && (f.claim.value.provider == Amazon ==> f.order.payloadId == f.claim.value.payloadId))
    && (forall i :: 0 <= i < |lines| && !Unchanged(f.lines, lines[i]) ==>
          || (lines[i].product.Some? ==>
                lines[i].product.value in db.catalog.products && db.catalog.products[lines[i].product.value].active)
          || ((f.order.status == Received || f.order.status == Cancelled) && SameProduct(f.lines, lines[i])))
    && (forall i :: 0 <= i < |f.lines| && Deleted(f.lines[i], lines) ==> !Receipted(db.receipts, o, f.lines[i].id))
  }

  predicate Referenced(db: Db, order: Order) {
    && order.supplier in db.catalog.suppliers && db.catalog.suppliers[order.supplier].active
    && (order.requisition.Some? ==>
          order.requisition.value in db.requisitions && !db.requisitions[order.requisition.value].archived)
  }

  /** When the triggers let the lines of an order be replaced. */
  lemma LinesWriteIff(db: Db, o: Id, lines: seq<Line>, now: Time)
    requires o in db.files
    ensures ChangeLines(db, o, lines, now).Ok? <==> Replaceable(db, o, lines)
  {
    var f := db.files[o];
    SameGoodsMeans(f.lines, lines);
    forall i | 0 <= i < |lines|
      ensures Unchanged(f.lines, lines[i]) <==> HasLine(f.lines, lines[i])
      ensures SameProduct(f.lines, lines[i]) <==> KeepsProduct(f.lines, lines[i])
    {
    }
    forall i | 0 <= i < |f.lines|
      ensures Deleted(f.lines[i], lines) <==> !HasLineId(lines, f.lines[i].id)
      ensures Receipted(db.receipts, o, f.lines[i].id) <==> LineHasReceipt(db.receipts, o, f.lines[i].id)
    {
    }
    if !f.order.archived {
      TouchPasses(db, o);
    }
  }

  lemma TouchPasses(db: Db, o: Id)
    requires o in db.files && !db.files[o].order.archived
    ensures var f := db.files[o];
            OrderUpdateAllowed(db, o, f.order) <==>
              && (f.order.status == Received || f.order.status == Cancelled || Referenced(db, f.order))
              && (f.claim.Some? ==>
                    && f.order.status != Draft
                    && (f.claim.value.provider == Amazon ==> f.order.payloadId == f.claim.value.payloadId))
  {
  }

  lemma SameGoodsMeans(lines: seq<Line>, lines': seq<Line>)
    ensures Sessions.SameGoods(lines, lines') <==> CommercialLines(lines') == CommercialLines(lines)
  {
    if CommercialLines(lines') == CommercialLines(lines) {
      Sessions.GoodsKept(lines, lines');
    }
    if Sessions.SameGoods(lines, lines') {
      assert CommercialLines(lines') == CommercialLines(lines);
    }
  }

  // ---------- requisitions ----------

  /** What the lines of a requisition name can be used. */
  predicate Requestable(catalog: Catalog, lines: seq<RequisitionLine>) {
    forall i :: 0 <= i < |lines| ==>
      && (lines[i].product.Some? ==>
            lines[i].product.value in catalog.products && catalog.products[lines[i].product.value].active)
      && (lines[i].preferredSupplier.Some? ==>
            && lines[i].preferredSupplier.value in catalog.suppliers
            && catalog.suppliers[lines[i].preferredSupplier.value].active)
  }

  lemma RequestableMeans(catalog: Catalog, lines: seq<RequisitionLine>)
    ensures Requestable(catalog, lines)
         <==> ActiveRequisitionProducts(catalog, lines) && ActivePreferredSuppliers(catalog, lines)
  {
    forall i | 0 <= i < |lines|
      ensures ActiveProduct(catalog, lines[i].product) <==>
                (lines[i].product.Some? ==>
                   lines[i].product.value in catalog.products && catalog.products[lines[i].product.value].active)
      ensures ActivePreferred(catalog, lines[i].preferredSupplier) <==>
                (lines[i].preferredSupplier.Some? ==>
                   && lines[i].preferredSupplier.value in catalog.suppliers
                   && catalog.suppliers[lines[i].preferredSupplier.value].active)
    {
    }
  }

  /**
   A requisition is archived if and only if no decision on it is pending or waiting to be ordered and no open order is
   made of it; it is restored if and only if its lines name what can be used; and it comes back as it went.
   */
  lemma ArchiveRequisitionIff(db: Db, r: Id, archive: bool, now: Time)
    requires r in db.requisitions
    ensures var row := db.requisitions[r];
            Workflow.ArchiveRequisition(db, r, archive, now).Ok? <==>
              && row.archived == !archive
              && (archive ==>
                    && row.status != ReqSubmitted && row.status != ReqApproved
                    && forall o :: o in db.files && Open(db.files[o]) ==> db.files[o].order.requisition != Some(r))
              && (!archive ==> Requestable(db.catalog, row.lines) && Workflow.ValidRequisitionLines(row.lines))
    ensures var result := Workflow.ArchiveRequisition(db, r, archive, now);
            result.Ok? ==>
              && r in result.value.requisitions
              && var was, row := db.requisitions[r], result.value.requisitions[r];
                 row == was.(archived := archive, version := row.version) && row.version > was.version
  {
    RequestableMeans(db.catalog, db.requisitions[r].lines);
    assert forall o :: o in db.files ==>
        (RequisitionInUse(db.files[o], r) <==> Open(db.files[o]) && db.files[o].order.requisition == Some(r));
  }

  /** Archived requisitions stay as they are, the others unarchived. */
  predicate DemandHeldBy(before: map<Id, Requisition>, after: map<Id, Requisition>, r: Id) {
    r in before ==>
      && r in after && after[r].archived == before[r].archived && (before[r].archived ==> after[r] == before[r])
  }

  lemma RequisitionWaits(db: Db, a: Action, r: Id)
    requires Transaction(db, a).Ok? && SerialOk(db) && !(a.ArchiveRequisition? && a.id == r)
    ensures DemandHeldBy(db.requisitions, Transaction(db, a).value.requisitions, r)
  {
    if SupplierAction(a) {
      Sessions.SupplierKeepsRequisitions(db, a);
    } else if a.ConvertRequisition? {
      ConversionKeepsDemand(db, a, r);
    }
  }

  lemma ConversionKeepsDemand(db: Db, a: Action, r: Id)
    requires a.ConvertRequisition? && Transaction(db, a).Ok?
    ensures DemandHeldBy(db.requisitions, Transaction(db, a).value.requisitions, r)
  {
  }

  lemma DemandStep(w: World, a: Action, r: Id)
    requires SerialOk(w.db) && !(a.ArchiveRequisition? && a.id == r)
    ensures DemandHeldBy(w.db.requisitions, Step(w, a).db.requisitions, r)
  {
    if Phase(a) {
      Sessions.PhaseSameHouse(w, a);
    } else if a.RequestAmazon? {
      Sessions.AmazonSameHouse(w, a);
    } else if a.RequestAdamHall? {
      Sessions.AdamHallSameHouse(w, a);
    } else if Transaction(w.db, a).Ok? {
      assert Step(w, a).db == Transaction(w.db, a).value;
      RequisitionWaits(w.db, a, r);
    }
  }

  lemma DemandArchivedAgain(w: World, a: Action, r: Id)
    requires a.ArchiveRequisition? && a.id == r && a.archive
    requires r in w.db.requisitions && w.db.requisitions[r].archived
    ensures Step(w, a) == w
  {
  }

  /** Nobody restores the requisition. */
  predicate DemandUnrestored(actions: seq<Action>, r: Id) {
    forall i :: 0 <= i < |actions| && actions[i].ArchiveRequisition? && actions[i].id == r ==> actions[i].archive
  }

  lemma {:induction false} DemandArchivedRun(w: World, actions: seq<Action>, r: Id)
    requires Inv(w) && r in w.db.requisitions && w.db.requisitions[r].archived && DemandUnrestored(actions, r)
    ensures r in Run(w, actions).db.requisitions && Run(w, actions).db.requisitions[r] == w.db.requisitions[r]
    decreases |actions|
  {
    if actions != [] {
      var a := actions[0];
      assert DemandUnrestored(actions[1..], r);
      if a.ArchiveRequisition? && a.id == r {
        DemandArchivedAgain(w, a, r);
      } else {
        DemandStep(w, a, r);
      }
      StepKeeps(w, a);
      DemandArchivedRun(Step(w, a), actions[1..], r);
    }
  }

  /** An archived requisition, too, waits unchanged until it is restored. */
  lemma {:induction false} ArchivedRequisitionWaits(actions: seq<Action>, later: seq<Action>, r: Id)
    requires r in Run(Init(), actions).db.requisitions && Run(Init(), actions).db.requisitions[r].archived
    requires DemandUnrestored(later, r)
    ensures var after := Run(Init(), actions + later).db.requisitions;
            r in after && after[r] == Run(Init(), actions).db.requisitions[r]
  {
    Safety.Reached(actions);
    Safety.RunThen(Init(), actions, later);
    DemandArchivedRun(Run(Init(), actions), later, r);
  }
}
