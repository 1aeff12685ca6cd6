/**
 The database as an object: tables are fields, and every row write runs its triggers first. A write that a trigger
 refuses changes nothing; a transaction that fails later is rolled back by its caller.
 */
module Storage {
  import opened Base
  import opened Schema
  import opened Triggers

  /** `after` is what the specified transaction leaves: its result, or everything as before with the reason. */
  predicate Did(before: Db, after: Db, spec: Result<Db>, refusal: Option<Refusal>) {
    match spec
    case Ok(db) => refusal.None? && after == db
    case Err(e) => refusal == Some(e) && after == before
  }

  class Store {
    var catalog: Catalog
    var requisitions: map<Id, Requisition>
    var files: map<Id, OrderFile>
    var events: map<string, Id>
    var receipts: seq<Receipt>
    var warehouse: Warehouse
    var records: map<Key, Record>
    var serial: Id

    function Contents(): Db
      reads this
    {
      Db(catalog, requisitions, files, events, receipts, warehouse, records, serial)
    }

    constructor (db: Db)
      ensures Contents() == db
    {
      catalog, requisitions, files, events := db.catalog, db.requisitions, db.files, db.events;
      receipts, warehouse, records, serial := db.receipts, db.warehouse, db.records, db.serial;
    }

    /** ROLLBACK. */
    method Rollback(db: Db)
      modifies this
      ensures Contents() == db
    {
      catalog, requisitions, files, events := db.catalog, db.requisitions, db.files, db.events;
      receipts, warehouse, records, serial := db.receipts, db.warehouse, db.records, db.serial;
    }

    // ---------- loops of the triggers ----------

    /** The FOR loop over the product ids of retained lines. */
    method ProductsActive(lines: seq<Line>) returns (ok: bool)
      ensures ok <==> ActiveLineProducts(catalog, lines)
    {
      for i := 0 to |lines|
        invariant forall k :: 0 <= k < i ==> ActiveProduct(catalog, lines[k].product)
      {
        var product := lines[i].product;
        if product.Some? {
          var foundActive := product.value in catalog.products && catalog.products[product.value].active;
          if !foundActive {
            return false;
          }
        }
      }
      return true;
    }

    /** The two FOR loops over the products and preferred suppliers of a requisition. */
    method DemandActive(lines: seq<RequisitionLine>) returns (ok: bool)
      ensures ok <==> ActiveRequisitionProducts(catalog, lines) && ActivePreferredSuppliers(catalog, lines)
    {
      for i := 0 to |lines|
        invariant forall k :: 0 <= k < i ==> ActiveProduct(catalog, lines[k].product)
      {
        if && lines[i].product.Some?
           && !(lines[i].product.value in catalog.products && catalog.products[lines[i].product.value].active)
        {
          assert !ActiveProduct(catalog, lines[i].product);
          return false;
        }
      }
      for i := 0 to |lines|
        invariant forall k :: 0 <= k < i ==> ActivePreferred(catalog, lines[k].preferredSupplier)
      {
        var supplier := lines[i].preferredSupplier;
        if supplier.Some? && !(supplier.value in catalog.suppliers && catalog.suppliers[supplier.value].active) {
          assert !ActivePreferred(catalog, lines[i].preferredSupplier);
          return false;
        }
      }
      return true;
    }

    /** procurement_order_has_open_putaway. */
    method HasOpenPutaway(o: Id) returns (found: bool)
      ensures found <==> OpenPutaway(Contents(), o)
    {
      for i := 0 to |receipts|
        invariant forall k :: 0 <= k < i && receipts[k].order == o && receipts[k].task.Some? ==>
          !(receipts[k].task.value in warehouse.tasks && !warehouse.tasks[receipts[k].task.value].closed)
      {
        var task := receipts[i].task;
        if && receipts[i].order == o
           && task.Some? && task.value in warehouse.tasks && !warehouse.tasks[task.value].closed
        {
          return true;
        }
      }
      return false;
    }

    // ---------- purchase orders ----------

    /** guard_procurement_workflow_catalog_references for an order row. */
    method GuardOrderReferences(lines: seq<Line>, was: Order, row: Order) returns (ok: bool)
      ensures ok <==> OrderReferencesAllow(catalog, requisitions, lines, was, row)
    {
      if row.archived {
        return true;
      }
      if && !was.archived
         && (row.status == Received || row.status == Cancelled) && row.supplier == was.supplier
         && row.requisition == was.requisition
      {
        return true;
      }
      if !(row.supplier in catalog.suppliers && catalog.suppliers[row.supplier].active) {
        return false;
      }
      if && row.requisition.Some?
         && !(row.requisition.value in requisitions && !requisitions[row.requisition.value].archived)
      {
        return false;
      }
      if was.archived {
        var active := ProductsActive(lines);
        return active;
      }
      return true;
    }

    /** guard_procurement_workflow_lifecycle for an order row. */
    method GuardOrderLifecycle(o: Id, lines: seq<Line>, was: Order, row: Order) returns (ok: bool)
      ensures ok <==> OrderLifecycleAllows(Contents(), o, lines, was, row)
    {
      if && (was.archived || row.archived)
         && (Business(was) != Business(row) || (was.archived == row.archived && was.archived))
      {
        return false;
      }
      if !was.archived && row.archived {
        if was.status != Draft && was.status != Received && was.status != Cancelled {
          return false;
        }
        var open := HasOpenPutaway(o);
        if open {
          return false;
        }
      }
      if was.archived && !row.archived {
        if !(row.supplier in catalog.suppliers && catalog.suppliers[row.supplier].active) {
          return false;
        }
        if && row.requisition.Some?
           && !(row.requisition.value in requisitions && !requisitions[row.requisition.value].archived)
        {
          return false;
        }
        var active := ProductsActive(lines);
        if !active {
          return false;
        }
      }
      return true;
    }

    /** guard_procurement_submitted_order for an order row. */
    method GuardSubmittedOrder(claim: Option<Claim>, was: Order, row: Order) returns (ok: bool)
      ensures ok <==> SubmissionAllows(claim, was, row)
    {
      if claim.None? {
        return true;
      }
      if row.status == Draft || (row.status == Submitting && was.status != Draft && was.status != Submitting) {
        return false;
      }
      if !(was.number == row.number && was.supplier == row.supplier && was.requisition == row.requisition
           && was.session == row.session && was.currency == row.currency && was.totalCents == row.totalCents) {
        return false;
      }
      if was.payloadId != "" && was.payloadId != row.payloadId {
        return false;
      }
      if claim.value.provider == Amazon && row.payloadId != claim.value.payloadId {
        return false;
      }
      return true;
    }

    /** UPDATE proc_purchase_orders of one row. */
    method SaveOrder(o: Id, row: Order, now: Time) returns (refusal: Option<Refusal>)
      requires o in files
      modifies `files
      ensures Did(old(Contents()), Contents(), UpdateOrder(old(Contents()), o, row, now), refusal)
    {
      var f := files[o];
      var references := GuardOrderReferences(f.lines, f.order, row);
      var lifecycle := GuardOrderLifecycle(o, f.lines, f.order, row);
      var submission := GuardSubmittedOrder(f.claim, f.order, row);
      if !references || !lifecycle || !submission {
        return Some(GuardRaised);
      }
      var version := if now > f.order.version + 1 then now else f.order.version + 1;
      files := files[o := f.(order := row.(version := version))];
      return None;
    }

    /** INSERT, UPDATE and DELETE of the lines that differ, and the touch of the parent row. */
    method SaveLines(o: Id, lines: seq<Line>, now: Time) returns (refusal: Option<Refusal>)
      requires o in files
      modifies `files
      ensures Did(old(Contents()), Contents(), ChangeLines(old(Contents()), o, lines, now), refusal)
    {
      var f := files[o];
      if f.order.archived || (f.claim.Some? && CommercialLines(lines) != CommercialLines(f.lines)) {
        return Some(GuardRaised);
      }
      for i := 0 to |lines|
        invariant forall k :: 0 <= k < i ==>
          || HasLine(f.lines, lines[k]) || (Closed(f.order.status) && KeepsProduct(f.lines, lines[k]))
          || ActiveProduct(catalog, lines[k].product)
      {
        var written := !HasLine(f.lines, lines[i]);
        var checked := !(Closed(f.order.status) && KeepsProduct(f.lines, lines[i]));
        if && written
           && checked && lines[i].product.Some?
           && !(lines[i].product.value in catalog.products && catalog.products[lines[i].product.value].active)
        {
          assert !ActiveProduct(catalog, lines[i].product);
          return Some(GuardRaised);
        }
      }
      for i := 0 to |f.lines|
        invariant forall k :: 0 <= k < i ==>
                  HasLineId(lines, f.lines[k].id) || !LineHasReceipt(receipts, o, f.lines[k].id)
      {
        if !HasLineId(lines, f.lines[i].id) && LineHasReceipt(receipts, o, f.lines[i].id) {
          return Some(GuardRaised);
        }
      }
      var references := GuardOrderReferences(f.lines, f.order, f.order);
      var lifecycle := GuardOrderLifecycle(o, f.lines, f.order, f.order);
      var submission := GuardSubmittedOrder(f.claim, f.order, f.order);
      if !references || !lifecycle || !submission {
        return Some(GuardRaised);
      }
      var version := if now > f.order.version + 1 then now else f.order.version + 1;
      files := files[o := f.(lines := lines, order := f.order.(version := version))];
      return None;
    }

    /** INSERT INTO proc_purchase_orders with its lines, ids from the sequence. */
    method CreateOrder(row: Order, lines: seq<Line>, now: Time) returns (refusal: Option<Refusal>)
      modifies `files, `serial
      ensures Did(old(Contents()), Contents(), InsertOrder(old(Contents()), row, lines, now), refusal)
    {
      if row.archived || !(row.supplier in catalog.suppliers && catalog.suppliers[row.supplier].active) {
        return Some(GuardRaised);
      }
      if && row.requisition.Some?
         && !(row.requisition.value in requisitions && !requisitions[row.requisition.value].archived)
      {
        return Some(GuardRaised);
      }
      var active := ProductsActive(lines);
      if !active {
        return Some(GuardRaised);
      }
      var id := serial;
      var stored: seq<Line> := [];
      serial := serial + 1;
      for i := 0 to |lines|
        invariant |stored| == i && forall k :: 0 <= k < i ==> stored[k] == lines[k].(id := id + 1 + k)
        invariant serial == id + 1 + i && files == old(files)
      {
        stored := stored + [lines[i].(id := serial)];
        serial := serial + 1;
      }
      assert stored == NumberFrom(lines, id + 1);
      files := files[id := OrderFile(row.(version := now), stored, None, None, map[])];
      return None;
    }

    // ---------- requisitions ----------

    /** UPDATE proc_requisitions of one row. */
    method SaveRequisition(r: Id, row: Requisition, now: Time) returns (refusal: Option<Refusal>)
      requires r in requisitions
      modifies `requisitions
      ensures Did(old(Contents()), Contents(), UpdateRequisition(old(Contents()), r, row, now), refusal)
    {
      var was := requisitions[r];
      if row.requester != was.requester {
        return Some(GuardRaised);
      }
      if && (was.archived || row.archived)
         && (RequisitionBusiness(was) != RequisitionBusiness(row) || (was.archived == row.archived && was.archived))
      {
        return Some(GuardRaised);
      }
      if !was.archived && row.archived {
        if was.status == ReqSubmitted || was.status == ReqApproved {
          return Some(GuardRaised);
        }
        if exists o :: o in files && RequisitionInUse(files[o], r) {
          return Some(GuardRaised);
        }
      }
      if RequisitionChecked(was, row) {
        var active := DemandActive(was.lines);
        if !active {
          return Some(GuardRaised);
        }
      }
      var version := if now > was.version + 1 then now else was.version + 1;
      requisitions := requisitions[r := row.(lines := was.lines, version := version)];
      return None;
    }

    // ---------- catalog ----------

    /** UPDATE proc_products of one row. */
    method SaveProduct(id: Id, row: Product, now: Time) returns (refusal: Option<Refusal>)
      requires id in catalog.products
      modifies `catalog
      ensures Did(old(Contents()), Contents(), WriteProduct(old(Contents()), id, row, now), refusal)
    {
      var was := catalog.products[id];
      var sameBusiness := was.(active := true, version := 0) == row.(active := true, version := 0);
      if (!was.active || !row.active) && (!sameBusiness || (!was.active && !row.active)) {
        return Some(GuardRaised);
      }
      if was.active && !row.active {
        if || (exists o :: o in files && ProductInUse(files[o], id))
           || (exists r :: r in requisitions && ProductRequested(requisitions[r], id))
        {
          return Some(GuardRaised);
        }
      }
      if && row.active
         && row.category.Some?
         && !(row.category.value in catalog.categories && catalog.categories[row.category.value].active)
      {
        return Some(GuardRaised);
      }
      var version := if now > was.version + 1 then now else was.version + 1;
      catalog := catalog.(products := catalog.products[id := row.(version := version)]);
      return None;
    }

    /** UPDATE proc_offers of one row. */
    method SaveOffer(id: nat, row: Offer, now: Time) returns (refusal: Option<Refusal>)
      requires id < |catalog.offers|
      modifies `catalog
      ensures Did(old(Contents()), Contents(), WriteOffer(old(Contents()), id, row, now), refusal)
    {
      var was := catalog.offers[id];
      var sameBusiness := was.(active := true, version := 0) == row.(active := true, version := 0);
      if (!was.active || !row.active) && (!sameBusiness || (!was.active && !row.active)) {
        return Some(GuardRaised);
      }
      if !was.active && row.active {
        if || !(row.product in catalog.products && catalog.products[row.product].active)
           || !(row.supplier in catalog.suppliers && catalog.suppliers[row.supplier].active)
        {
          return Some(GuardRaised);
        }
      }
      var version := if now > was.version + 1 then now else was.version + 1;
      catalog := catalog.(offers := catalog.offers[id := row.(version := version)]);
      return None;
    }

    /** UPDATE proc_suppliers of one row. */
    method SaveSupplier(id: Id, row: Supplier, now: Time) returns (refusal: Option<Refusal>)
      requires id in catalog.suppliers
      modifies `catalog
      ensures Did(old(Contents()), Contents(), WriteSupplier(old(Contents()), id, row, now), refusal)
    {
      var was := catalog.suppliers[id];
      var sameBusiness := was.(active := true, version := 0) == row.(active := true, version := 0);
      if (!was.active || !row.active) && (!sameBusiness || (!was.active && !row.active)) {
        return Some(GuardRaised);
      }
      if was.active && !row.active && exists o :: o in files && SupplierInUse(files[o], id) {
        return Some(GuardRaised);
      }
      var version := if now > was.version + 1 then now else was.version + 1;
      catalog := catalog.(suppliers := catalog.suppliers[id := row.(version := version)]);
      return None;
    }

    /** UPDATE proc_categories of one row. */
    method SaveCategory(id: Id, row: Category, now: Time) returns (refusal: Option<Refusal>)
      requires id in catalog.categories
      modifies `catalog
      ensures Did(old(Contents()), Contents(), WriteCategory(old(Contents()), id, row, now), refusal)
    {
      var was := catalog.categories[id];
      if (!was.active || !row.active) && (was.name != row.name || (!was.active && !row.active)) {
        return Some(GuardRaised);
      }
      if && was.active
         && !row.active
         && exists p :: p in catalog.products && catalog.products[p].category == Some(id) && catalog.products[p].active
      {
        return Some(GuardRaised);
      }
      var version := if now > was.version + 1 then now else was.version + 1;
      catalog := catalog.(categories := catalog.categories[id := row.(version := version)]);
      return None;
    }

    // ---------- submissions ----------

    /** INSERT INTO proc_order_submissions. */
    method CreateClaim(o: Id, claim: Claim) returns (refusal: Option<Refusal>)
      requires o in files
      modifies `files
      ensures Did(old(Contents()), Contents(), InsertClaim(old(Contents()), o, claim), refusal)
    {
      if files[o].claim.Some? || PayloadIdUsed(files, claim.payloadId) {
        return Some(UniqueViolation);
      }
      files := files[o := files[o].(claim := Some(claim))];
      return None;
    }

    /** UPDATE proc_order_submissions under guard_procurement_order_submission_identity. */
    method SaveClaim(o: Id, claim: Claim) returns (refusal: Option<Refusal>)
      requires o in files && files[o].claim.Some?
      modifies `files
      ensures Did(old(Contents()), Contents(), UpdateClaim(old(Contents()), o, claim), refusal)
    {
      var was := files[o].claim.value;
      if !(was.provider == claim.provider && was.user == claim.user && was.payloadId == claim.payloadId
           && was.payload == claim.payload && was.createdAt == claim.createdAt) {
        return Some(GuardRaised);
      }
      if was.status != Pending && !(was.status == claim.status && was.outcome == claim.outcome) {
        return Some(GuardRaised);
      }
      files := files[o := files[o].(claim := Some(claim))];
      return None;
    }

    /** INSERT INTO proc_submission_reconciliations. */
    method CreateReconciliation(o: Id, row: Reconciliation) returns (refusal: Option<Refusal>)
      requires o in files
      modifies `files
      ensures Did(old(Contents()), Contents(), InsertReconciliation(old(Contents()), o, row), refusal)
    {
      if files[o].reconciliation.Some? {
        return Some(UniqueViolation);
      }
      if |row.evidence| < 10 || |row.evidence| > 2000 {
        return Some(GuardRaised);
      }
      if || (row.resolution == FoundOrder && !(1 <= |row.supplierNumber| <= 120))
         || (row.resolution == ConfirmedNotSent && row.supplierNumber != "")
      {
        return Some(GuardRaised);
      }
      files := files[o := files[o].(reconciliation := Some(row))];
      return None;
    }
  }
}
