/**
 The database triggers as guards on row writes. A write names the new row; it succeeds exactly when every
 trigger lets it pass, and the stored row carries the version the trigger assigns.
 */
module Triggers {
  import opened Base
  import opened Schema

  // ---------- guard_procurement_master_lifecycle ----------

  /** A record that is or becomes archived changes in nothing else, and an archived one only back. */
  predicate MasterFrozen(wasActive: bool, active: bool, same: bool) {
    (!wasActive || !active) && (!same || (!wasActive && !active))
  }

  function WriteCategory(db: Db, id: Id, row: Category, now: Time): Result<Db>
    requires id in db.catalog.categories
  {
    var was := db.catalog.categories[id];
    var stored := row.(version := Bump(was.version, now));
    if MasterFrozen(was.active, row.active, was.name == row.name) then Err(GuardRaised)
    else if && was.active && !row.active
            && exists p :: p in db.catalog.products && CategoryInUse(db.catalog.products[p], id)
    then Err(GuardRaised)
    else Ok(db.(catalog := db.catalog.(categories := db.catalog.categories[id := stored])))
  }

  function WriteSupplier(db: Db, id: Id, row: Supplier, now: Time): Result<Db>
    requires id in db.catalog.suppliers
  {
    var was := db.catalog.suppliers[id];
    var stored := row.(version := Bump(was.version, now));
    if MasterFrozen(was.active, row.active, was.(active := true, version := 0) == row.(active := true, version := 0))
    then Err(GuardRaised)
    else if was.active && !row.active && exists o :: o in db.files && SupplierInUse(db.files[o], id)
    then Err(GuardRaised)
    else Ok(db.(catalog := db.catalog.(suppliers := db.catalog.suppliers[id := stored])))
  }

  predicate CategoryInUse(p: Product, id: Id) {
    p.category == Some(id) && p.active
  }

  predicate SupplierInUse(f: OrderFile, id: Id) {
    f.order.supplier == id && !Closed(f.order.status) && !f.order.archived
  }

  predicate ProductInUse(f: OrderFile, id: Id) {
    !Closed(f.order.status) && !f.order.archived && exists i :: 0 <= i < |f.lines| && f.lines[i].product == Some(id)
  }

  predicate ProductRequested(r: Requisition, id: Id) {
    LiveRequisition(r.status) && !r.archived && exists i :: 0 <= i < |r.lines| && r.lines[i].product == Some(id)
  }

  function WriteProduct(db: Db, id: Id, row: Product, now: Time): Result<Db>
    requires id in db.catalog.products
  {
    var was := db.catalog.products[id];
    var stored := row.(version := Bump(was.version, now));
    if MasterFrozen(was.active, row.active, was.(active := true, version := 0) == row.(active := true, version := 0))
    then Err(GuardRaised)
    else if && was.active && !row.active
            && (|| (exists o :: o in db.files && ProductInUse(db.files[o], id))
                || (exists r :: r in db.requisitions && ProductRequested(db.requisitions[r], id)))
    then Err(GuardRaised)
    else if row.active && !ActiveCategory(db.catalog, row.category) then Err(GuardRaised)
    else Ok(db.(catalog := db.catalog.(products := db.catalog.products[id := stored])))
  }

  predicate ActiveCategory(catalog: Catalog, c: Option<Id>) {
    c.Some? ==> c.value in catalog.categories && catalog.categories[c.value].active
  }

  function InsertCategory(db: Db, row: Category, now: Time): Result<Db> {
    if !row.active then Err(GuardRaised)
    else
      Ok(db.(catalog := db.catalog.(categories := db.catalog.categories[db.serial := row.(version := now)]),
             serial := db.serial + 1))
  }

  function InsertSupplier(db: Db, row: Supplier, now: Time): Result<Db> {
    if !row.active then Err(GuardRaised)
    else
      Ok(db.(catalog := db.catalog.(suppliers := db.catalog.suppliers[db.serial := row.(version := now)]),
             serial := db.serial + 1))
  }

  function InsertProduct(db: Db, row: Product, now: Time): Result<Db> {
    if !row.active || !ActiveCategory(db.catalog, row.category) then Err(GuardRaised)
    else
      Ok(db.(catalog := db.catalog.(products := db.catalog.products[db.serial := row.(version := now)]),
             serial := db.serial + 1))
  }

  function WriteOffer(db: Db, id: nat, row: Offer, now: Time): Result<Db>
    requires id < |db.catalog.offers|
  {
    var was := db.catalog.offers[id];
    var stored := row.(version := Bump(was.version, now));
    if MasterFrozen(was.active, row.active, was.(active := true, version := 0) == row.(active := true, version := 0))
    then Err(GuardRaised)
    else if && !was.active && row.active
            && !(ActiveProduct(db.catalog, Some(row.product)) && ActiveSupplier(db.catalog, row.supplier))
    then Err(GuardRaised)
    else Ok(db.(catalog := db.catalog.(offers := db.catalog.offers[id := stored])))
  }

  function InsertOffer(db: Db, row: Offer, now: Time): Result<Db> {
    if !row.active then Err(GuardRaised)
    else Ok(db.(catalog := db.catalog.(offers := db.catalog.offers + [row.(version := now)])))
  }

  // ---------- purchase order rows ----------

  /** guard_procurement_workflow_catalog_references on UPDATE of an order. */
  predicate OrderReferencesAllow(catalog: Catalog, requisitions: map<Id, Requisition>, lines: seq<Line>, was: Order,
      row: Order) {
    || row.archived
    || (!was.archived && Closed(row.status) && row.supplier == was.supplier && row.requisition == was.requisition)
    || (&& ActiveSupplier(catalog, row.supplier)
        && UnarchivedRequisition(requisitions, row.requisition)
        && (was.archived ==> ActiveLineProducts(catalog, lines)))
  }

  /** guard_procurement_workflow_lifecycle on UPDATE of an order. */
  predicate OrderLifecycleAllows(db: Db, o: Id, lines: seq<Line>, was: Order, row: Order) {
    && (was.archived || row.archived ==> Business(was) == Business(row) && !(was.archived && row.archived))
    && (!was.archived && row.archived ==> (was.status == Draft || Closed(was.status)) && !OpenPutaway(db, o))
    && (was.archived && !row.archived ==>
          && ActiveSupplier(db.catalog, row.supplier)
          && UnarchivedRequisition(db.requisitions, row.requisition)
          && ActiveLineProducts(db.catalog, lines))
  }

  /** guard_procurement_submitted_order on UPDATE of an order. */
  predicate SubmissionAllows(claim: Option<Claim>, was: Order, row: Order) {
    claim.Some? ==>
      && row.status != Draft
      && (row.status == Submitting ==> was.status == Draft || was.status == Submitting)
      && was.number == row.number && was.supplier == row.supplier && was.requisition == row.requisition
      && was.session == row.session && was.currency == row.currency && was.totalCents == row.totalCents
      && (was.payloadId != "" ==> was.payloadId == row.payloadId)
      && (claim.value.provider == Amazon ==> row.payloadId == claim.value.payloadId)
  }

  predicate OrderUpdateAllowed(db: Db, o: Id, row: Order)
    requires o in db.files
  {
    var f := db.files[o];
    && OrderReferencesAllow(db.catalog, db.requisitions, f.lines, f.order, row)
    && OrderLifecycleAllows(db, o, f.lines, f.order, row)
    && SubmissionAllows(f.claim, f.order, row)
  }

  /** UPDATE proc_purchase_orders: all three guards, then the assigned version. */
  function UpdateOrder(db: Db, o: Id, row: Order, now: Time): Result<Db>
    requires o in db.files
  {
    if OrderUpdateAllowed(db, o, row)
    then Ok(db.(files := db.files[o := db.files[o].(order := row.(version := Bump(db.files[o].order.version, now)))]))
    else Err(GuardRaised)
  }

  // ---------- purchase order lines ----------

  predicate HasLine(lines: seq<Line>, l: Line) {
    exists i :: 0 <= i < |lines| && lines[i] == l
  }

  predicate HasLineId(lines: seq<Line>, id: Id) {
    exists i :: 0 <= i < |lines| && lines[i].id == id
  }

  /** Replacing line `l` where the same id held `l'` keeps the product. */
  predicate KeepsProduct(lines: seq<Line>, l: Line) {
    exists i :: 0 <= i < |lines| && lines[i].id == l.id && lines[i].product == l.product
  }

  /** The three line triggers for the rows that differ between `f.lines` and `lines`. */
  predicate LinesAllowed(db: Db, o: Id, lines: seq<Line>)
    requires o in db.files
  {
    var f := db.files[o];
    && !f.order.archived
    && (f.claim.Some? ==> CommercialLines(lines) == CommercialLines(f.lines))
    && (forall i :: 0 <= i < |lines| ==>
          || HasLine(f.lines, lines[i])
          || (Closed(f.order.status) && KeepsProduct(f.lines, lines[i]))
          || ActiveProduct(db.catalog, lines[i].product))
    && (forall i :: 0 <= i < |f.lines| ==>
          HasLineId(lines, f.lines[i].id) || !LineHasReceipt(db.receipts, o, f.lines[i].id))
  }

  /**
   INSERT, UPDATE and DELETE of lines, which touches the parent row: the touch is itself an update of the
   unchanged order row and passes the row guards again.
   */
  function ChangeLines(db: Db, o: Id, lines: seq<Line>, now: Time): Result<Db>
    requires o in db.files
  {
    var f := db.files[o];
    if LinesAllowed(db, o, lines) && OrderUpdateAllowed(db, o, f.order)
    then Ok(db.(files := db.files[o := f.(lines := lines, order := f.order.(version := Bump(f.order.version, now)))]))
    else Err(GuardRaised)
  }

  /** INSERT of an order with its lines; ids come from the sequence. */
  function InsertOrder(db: Db, row: Order, lines: seq<Line>, now: Time): Result<Db> {
    if || row.archived
       || !ActiveSupplier(db.catalog, row.supplier) || !UnarchivedRequisition(db.requisitions, row.requisition)
       || !ActiveLineProducts(db.catalog, lines)
    then Err(GuardRaised)
    else
      Ok(db.(files := db.files[db.serial :=
                               OrderFile(row.(version := now), NumberFrom(lines, db.serial + 1), None, None, map[])],
                serial := db.serial + 1 + |lines|))
  }

  function NumberFrom(lines: seq<Line>, first: Id): (r: seq<Line>)
    ensures |r| == |lines| && Numbered(r)
    ensures forall i :: 0 <= i < |lines| ==> r[i] == lines[i].(id := first + i)
  {
    seq(|lines|, i requires 0 <= i < |lines| => lines[i].(id := first + i))
  }

  // ---------- requisitions ----------

  /** Both requisition guards on UPDATE of the row. */
  predicate RequisitionUpdateAllowed(db: Db, r: Id, row: Requisition)
    requires r in db.requisitions
  {
    var was := db.requisitions[r];
    && row.requester == was.requester
    && (was.archived || row.archived ==>
          RequisitionBusiness(was) == RequisitionBusiness(row) && !(was.archived && row.archived))
    && (!was.archived && row.archived ==>
          && was.status != ReqSubmitted && was.status != ReqApproved
          && !(exists o :: o in db.files && RequisitionInUse(db.files[o], r)))
    && (RequisitionChecked(was, row) ==>
          ActiveRequisitionProducts(db.catalog, was.lines) && ActivePreferredSuppliers(db.catalog, was.lines))
  }

  /** The update after which the retained lines must name active records. */
  predicate RequisitionChecked(was: Requisition, row: Requisition) {
    || (was.archived && !row.archived)
    || (!row.archived && (row.status == ReqSubmitted || row.status == ReqApproved) && row.status != was.status)
  }

  predicate RequisitionInUse(f: OrderFile, r: Id) {
    f.order.requisition == Some(r) && !f.order.archived && !Closed(f.order.status)
  }

  /** UPDATE proc_requisitions; the lines are another table and stay. */
  function UpdateRequisition(db: Db, r: Id, row: Requisition, now: Time): Result<Db>
    requires r in db.requisitions
  {
    var was := db.requisitions[r];
    if RequisitionUpdateAllowed(db, r, row)
    then Ok(db.(requisitions := db.requisitions[r := row.(lines := was.lines, version := Bump(was.version, now))]))
    else Err(GuardRaised)
  }

  predicate HasRequisitionLine(lines: seq<RequisitionLine>, l: RequisitionLine) {
    exists i :: 0 <= i < |lines| && lines[i] == l
  }

  /** INSERT, UPDATE and DELETE of requisition lines with the parent touch. */
  function ChangeRequisitionLines(db: Db, r: Id, lines: seq<RequisitionLine>, now: Time): Result<Db>
    requires r in db.requisitions
  {
    var was := db.requisitions[r];
    if && !was.archived
       && RequisitionUpdateAllowed(db, r, was)
       && (forall i :: 0 <= i < |lines| ==>
             HasRequisitionLine(was.lines, lines[i])
             || (ActiveProduct(db.catalog, lines[i].product)
                 && ActivePreferred(db.catalog, lines[i].preferredSupplier)))
    then Ok(db.(requisitions := db.requisitions[r := was.(lines := lines, version := Bump(was.version, now))]))
    else Err(GuardRaised)
  }

  function InsertRequisition(db: Db, row: Requisition, now: Time): Result<Db> {
    if || row.archived
       || !ActiveRequisitionProducts(db.catalog, row.lines) || !ActivePreferredSuppliers(db.catalog, row.lines)
    then Err(GuardRaised)
    else Ok(db.(requisitions := db.requisitions[db.serial := row.(version := now)], serial := db.serial + 1))
  }

  // ---------- supplier submissions ----------

  /** guard_procurement_order_submission_identity: identity immutable, outcome written once. */
  predicate ClaimUpdateAllowed(was: Claim, row: Claim) {
    && was.provider == row.provider && was.user == row.user && was.payloadId == row.payloadId
    && was.payload == row.payload && was.createdAt == row.createdAt
    && (was.status != Pending ==> was.status == row.status && was.outcome == row.outcome)
  }

  /** payload_id TEXT NOT NULL UNIQUE. */
  predicate PayloadIdUsed(files: map<Id, OrderFile>, payloadId: string) {
    exists o :: o in files && files[o].claim.Some? && files[o].claim.value.payloadId == payloadId
  }

  /** INSERT INTO proc_order_submissions: one row per purchase order. */
  function InsertClaim(db: Db, o: Id, claim: Claim): Result<Db>
    requires o in db.files
  {
    if db.files[o].claim.Some? || PayloadIdUsed(db.files, claim.payloadId) then Err(UniqueViolation)
    else Ok(db.(files := db.files[o := db.files[o].(claim := Some(claim))]))
  }

  function UpdateClaim(db: Db, o: Id, claim: Claim): Result<Db>
    requires o in db.files && db.files[o].claim.Some?
  {
    if ClaimUpdateAllowed(db.files[o].claim.value, claim)
    then Ok(db.(files := db.files[o := db.files[o].(claim := Some(claim))]))
    else Err(GuardRaised)
  }

  /** INSERT INTO proc_submission_reconciliations: one row per submission, checks on the row, never changed later. */
  function InsertReconciliation(db: Db, o: Id, row: Reconciliation): Result<Db>
    requires o in db.files
  {
    if db.files[o].reconciliation.Some? then Err(UniqueViolation)
    else if |row.evidence| < 10 || |row.evidence| > 2000 then Err(GuardRaised)
    else if || (row.resolution == FoundOrder && !(1 <= |row.supplierNumber| <= 120))
            || (row.resolution == ConfirmedNotSent && row.supplierNumber != "")
    then Err(GuardRaised)
    else Ok(db.(files := db.files[o := db.files[o].(reconciliation := Some(row))]))
  }
}
