/** Every action keeps the invariant. */
module Preservation {
  import opened Base
  import opened Schema
  import opened Triggers
  import opened World
  import opened Invariants
  import opened FileSteps
  import Confirmations
  import GoodsReceipts
  import Workflow

  // ---------- frames ----------

  predicate ClaimsKept(files: map<Id, OrderFile>, files': map<Id, OrderFile>) {
    forall o :: o in files ==> o in files' && files'[o].claim == files[o].claim
  }

  /** Records, processes and sends see orders only through their claims. */
  lemma ClaimsFrame(w: World, db': Db)
    requires RecordsOk(w.db) && ProcessesOk(w) && SendsOk(w)
    requires ClaimsKept(w.db.files, db'.files) && db'.records == w.db.records
    ensures RecordsOk(db') && ProcessesOk(w.(db := db')) && SendsOk(w.(db := db'))
  {
    forall k | k in db'.records
      ensures RecordOk(db'.files, k, db'.records[k])
    {
      assert RecordOk(w.db.files, k, w.db.records[k]);
    }
    forall p | p in w.processes
      ensures ProcessOk(db', w.sends, w.processes[p])
    {
      assert ProcessOk(w.db, w.sends, w.processes[p]);
    }
    forall i | 0 <= i < |w.sends|
      ensures SendOk(db'.files, w.sends[i])
    {
      assert SendOk(w.db.files, w.sends[i]);
    }
  }

  /** Rewriting one order file, its claim kept. */
  lemma ReplaceFile(w: World, o: Id, g: OrderFile)
    requires Inv(w) && o in w.db.files && g.claim == w.db.files[o].claim
    requires Holds(w.db, w.approvals, o, g)
    ensures Inv(w.(db := w.db.(files := w.db.files[o := g])))
  {
    var db' := w.db.(files := w.db.files[o := g]);
    ClaimsFrame(w, db');
    forall p | p in db'.files
      ensures Holds(db', w.approvals, p, db'.files[p])
    {
      if p != o {
        assert Holds(w.db, w.approvals, p, w.db.files[p]);
      }
    }
    assert SerialOk(db');
  }

  // ---------- catalog ----------

  /** The catalog write itself: tables and sequence, everything else kept. */
  predicate CatalogWrite(db: Db, db': Db) {
    && db' == db.(catalog := db'.catalog, serial := db'.serial) && db'.serial >= db.serial
    && (SerialOk(db) ==> SerialOk(db'))
  }

  /** What a catalog write must leave true of the records that refer to it. */
  lemma CatalogStep(w: World, db': Db)
    requires Inv(w) && CatalogWrite(w.db, db')
    requires CatalogOk(db'.catalog) && RequisitionsOk(db')
    requires forall o :: o in w.db.files ==> ReferencesOk(db'.catalog, db'.requisitions, db'.files[o])
    ensures Inv(w.(db := db'))
  {
    ClaimsFrame(w, db');
    forall o | o in db'.files
      ensures Holds(db', w.approvals, o, db'.files[o])
    {
      assert Holds(w.db, w.approvals, o, w.db.files[o]);
    }
  }

  /** Every active record stays active, so nothing that refers to it breaks. */
  predicate StaysActive(before: Catalog, after: Catalog) {
    && (forall p :: p in before.products && before.products[p].active ==>
          p in after.products && after.products[p].active)
    && (forall s :: s in before.suppliers && before.suppliers[s].active ==>
          s in after.suppliers && after.suppliers[s].active)
  }

  lemma GrowingCatalog(w: World, db': Db)
    requires Inv(w) && CatalogWrite(w.db, db')
    requires CatalogOk(db'.catalog) && StaysActive(w.db.catalog, db'.catalog)
    ensures Inv(w.(db := db'))
  {
    forall r | r in db'.requisitions
      ensures RequisitionOk(db'.catalog, db'.requisitions[r])
    {
      assert RequisitionOk(w.db.catalog, w.db.requisitions[r]);
    }
    forall o | o in w.db.files
      ensures ReferencesOk(db'.catalog, db'.requisitions, db'.files[o])
    {
      assert Holds(w.db, w.approvals, o, w.db.files[o]);
    }
    CatalogStep(w, db');
  }

  lemma InsertsKeep(w: World, a: Action)
    requires Inv(w) && (a.NewCategory? || a.NewSupplier? || a.NewProduct?)
    requires Transaction(w.db, a).Ok?
    ensures Inv(w.(db := Transaction(w.db, a).value))
  {
    GrowingCatalog(w, Transaction(w.db, a).value);
  }

  /** Offers are referred to by nothing. */
  lemma OffersKeep(w: World, a: Action)
    requires Inv(w) && (a.NewOffer? || a.PutOffer?)
    requires Transaction(w.db, a).Ok?
    ensures Inv(w.(db := Transaction(w.db, a).value))
  {
    GrowingCatalog(w, Transaction(w.db, a).value);
  }

  lemma PutCategoryKeeps(w: World, id: Id, row: Category, now: Time)
    requires Inv(w) && id in w.db.catalog.categories && WriteCategory(w.db, id, row, now).Ok?
    ensures Inv(w.(db := WriteCategory(w.db, id, row, now).value))
  {
    var db' := WriteCategory(w.db, id, row, now).value;
    forall p | p in db'.catalog.products && db'.catalog.products[p].active
      ensures ActiveCategory(db'.catalog, db'.catalog.products[p].category)
    {
      assert ActiveCategory(w.db.catalog, w.db.catalog.products[p].category);
    }
    GrowingCatalog(w, db');
  }

  lemma PutSupplierKeeps(w: World, id: Id, row: Supplier, now: Time)
    requires Inv(w) && id in w.db.catalog.suppliers && WriteSupplier(w.db, id, row, now).Ok?
    ensures Inv(w.(db := WriteSupplier(w.db, id, row, now).value))
  {
    var db' := WriteSupplier(w.db, id, row, now).value;
    forall r | r in db'.requisitions
      ensures RequisitionOk(db'.catalog, db'.requisitions[r])
    {
      assert RequisitionOk(w.db.catalog, w.db.requisitions[r]);
    }
    forall o | o in w.db.files
      ensures ReferencesOk(db'.catalog, db'.requisitions, db'.files[o])
    {
      assert Holds(w.db, w.approvals, o, w.db.files[o]);
      assert w.db.catalog.suppliers[id].active && !row.active ==> !SupplierInUse(w.db.files[o], id);
    }
    CatalogStep(w, db');
  }

  lemma PutProductKeeps(w: World, id: Id, row: Product, now: Time)
    requires Inv(w) && id in w.db.catalog.products && WriteProduct(w.db, id, row, now).Ok?
    ensures Inv(w.(db := WriteProduct(w.db, id, row, now).value))
  {
    var db' := WriteProduct(w.db, id, row, now).value;
    var archived := w.db.catalog.products[id].active && !row.active;
    forall r | r in db'.requisitions
      ensures RequisitionOk(db'.catalog, db'.requisitions[r])
    {
      assert RequisitionOk(w.db.catalog, w.db.requisitions[r]);
      assert archived ==> !ProductRequested(w.db.requisitions[r], id);
    }
    forall o | o in w.db.files
      ensures ReferencesOk(db'.catalog, db'.requisitions, db'.files[o])
    {
      assert Holds(w.db, w.approvals, o, w.db.files[o]);
      assert archived ==> !ProductInUse(w.db.files[o], id);
    }
    CatalogStep(w, db');
  }

  // ---------- requisitions ----------

  /** Rewriting one requisition: the open orders of an archived one do not exist. */
  lemma RequisitionStep(w: World, r: Id, row: Requisition, approvals: seq<Approval>, converted: seq<Id>)
    requires Inv(w) && r in w.db.requisitions
    requires RequisitionOk(w.db.catalog, row)
    requires row.archived && !w.db.requisitions[r].archived ==>
              forall o :: o in w.db.files ==> !RequisitionInUse(w.db.files[o], r)
    requires approvals == w.approvals || (exists a :: approvals == w.approvals + [a])
    requires ApprovalsOk(w.db.requisitions[r := row], approvals)
    requires ApprovalsKnown(w.db.requisitions[r := row], approvals)
    requires ConvertedOk(w.db.requisitions[r := row], converted)
    ensures Inv(w.(db := w.db.(requisitions := w.db.requisitions[r := row]), approvals := approvals,
                   converted := converted))
  {
    var db' := w.db.(requisitions := w.db.requisitions[r := row]);
    ClaimsFrame(w, db');
    forall o | o in db'.files
      ensures Holds(db', approvals, o, db'.files[o])
    {
      assert Holds(w.db, w.approvals, o, w.db.files[o]);
      assert row.archived && !w.db.requisitions[r].archived ==> !RequisitionInUse(w.db.files[o], r);
      if approvals != w.approvals {
        var a :| approvals == w.approvals + [a];
        MoreApprovals(w.db, w.approvals, a, o, w.db.files[o]);
      }
    }
    forall q | q in db'.requisitions
      ensures RequisitionOk(db'.catalog, db'.requisitions[q])
    {
      assert q != r ==> RequisitionOk(w.db.catalog, w.db.requisitions[q]);
    }
  }

  lemma NewRequisitionKeeps(w: World, requester: Id, session: Option<Id>, lines: seq<RequisitionLine>, now: Time)
    requires Inv(w) && Workflow.CreateRequisition(w.db, requester, session, lines, now).Ok?
    ensures Inv(w.(db := Workflow.CreateRequisition(w.db, requester, session, lines, now).value))
  {
    var db' := Workflow.CreateRequisition(w.db, requester, session, lines, now).value;
    assert ActiveRequisitionProducts(w.db.catalog, db'.requisitions[w.db.serial].lines);
    ClaimsFrame(w, db');
    forall o | o in db'.files
      ensures Holds(db', w.approvals, o, db'.files[o])
    {
      assert Holds(w.db, w.approvals, o, w.db.files[o]);
    }
    forall q | q in db'.requisitions
      ensures RequisitionOk(db'.catalog, db'.requisitions[q])
    {
      assert q != w.db.serial ==> RequisitionOk(w.db.catalog, w.db.requisitions[q]);
    }
  }

  lemma EditRequisitionKeeps(w: World, r: Id, lines: Option<seq<RequisitionLine>>, now: Time)
    requires Inv(w) && Workflow.EditRequisition(w.db, r, lines, now).Ok?
    ensures Inv(w.(db := Workflow.EditRequisition(w.db, r, lines, now).value))
  {
    var db' := Workflow.EditRequisition(w.db, r, lines, now).value;
    var row := db'.requisitions[r];
    assert db'.requisitions == w.db.requisitions[r := row];
    assert w.converted == w.converted && forall i :: 0 <= i < |w.converted| ==> w.converted[i] != r;
    RequisitionStep(w, r, row, w.approvals, w.converted);
  }

  lemma SubmitRequisitionKeeps(w: World, r: Id, now: Time)
    requires Inv(w) && Workflow.SubmitRequisition(w.db, r, now).Ok?
    ensures Inv(w.(db := Workflow.SubmitRequisition(w.db, r, now).value))
  {
    var row := Workflow.SubmitRequisition(w.db, r, now).value.requisitions[r];
    RequisitionStep(w, r, row, w.approvals, w.converted);
  }

  lemma DecideRequisitionKeeps(w: World, a: Action)
    requires Inv(w) && a.DecideRequisition? && Transaction(w.db, a).Ok?
    ensures Inv(Step(w, a))
  {
    var r := a.id;
    var was := w.db.requisitions[r];
    var row := Transaction(w.db, a).value.requisitions[r];
    var w' := Step(w, a);
    if a.decision == Workflow.Approve {
      var noted := Approved(r, was, a.user);
      assert w'.approvals == w.approvals + [noted];
      forall q | q in w'.db.requisitions
      && (w'.db.requisitions[q].status == ReqApproved || w'.db.requisitions[q].status == ReqOrdered)
        ensures w'.db.requisitions[q].approvedBy.Some?
        ensures WasApproved(w'.approvals, Approved(q, w'.db.requisitions[q], w'.db.requisitions[q].approvedBy.value))
      {
        if q == r {
          assert w'.approvals[|w.approvals|] == noted;
        } else {
          var old' := Approved(q, w.db.requisitions[q], w.db.requisitions[q].approvedBy.value);
          assert WasApproved(w.approvals, old');
          var i :| 0 <= i < |w.approvals| && w.approvals[i] == old';
          assert w'.approvals[i] == old';
        }
      }
    }
    RequisitionStep(w, r, row, w'.approvals, w.converted);
  }

  lemma ArchiveRequisitionKeeps(w: World, r: Id, archive: bool, now: Time)
    requires Inv(w) && Workflow.ArchiveRequisition(w.db, r, archive, now).Ok?
    ensures Inv(w.(db := Workflow.ArchiveRequisition(w.db, r, archive, now).value))
  {
    var was := w.db.requisitions[r];
    var row := Workflow.ArchiveRequisition(w.db, r, archive, now).value.requisitions[r];
    assert row == was.(archived := archive, version := row.version);
    assert RequisitionOk(w.db.catalog, was);
    RequisitionStep(w, r, row, w.approvals, w.converted);
  }

  // ---------- orders ----------

  /** A new order file next to the existing ones. */
  lemma InsertedFile(w: World, row: Order, lines: seq<Line>, now: Time)
    requires Inv(w) && InsertOrder(w.db, row, lines, now).Ok?
    requires row.payloadId == "" && (row.status == Draft || row.status == Sent || row.status == Confirmed)
    requires forall i :: 0 <= i < |lines| ==> lines[i].quantity > 0.0 && lines[i].received == 0.0
    ensures Inv(w.(db := InsertOrder(w.db, row, lines, now).value))
  {
    var db' := InsertOrder(w.db, row, lines, now).value;
    ClaimsFrame(w, db');
    InsertedOk(w.db, w.approvals, row, lines, now);
    forall p | p in db'.files
      ensures Holds(db', w.approvals, p, db'.files[p])
    {
      if p != w.db.serial {
        assert Holds(w.db, w.approvals, p, w.db.files[p]);
      }
    }
    assert SerialOk(db');
  }

  lemma NewOrderKeeps(w: World, input: Workflow.OrderInput, now: Time)
    requires Inv(w) && Workflow.CreateOrder(w.db, input, now).Ok?
    ensures Inv(w.(db := Workflow.CreateOrder(w.db, input, now).value))
  {
    assert forall i :: 0 <= i < |input.lines| ==> Workflow.ValidLine(input.lines[i]);
    InsertedFile(w, Workflow.NewOrder(input, None, input.status, now), Workflow.Fresh(input.lines), now);
  }

  /** Conversion: the order is created and the requisition becomes `ordered`, which nothing leaves. */
  lemma ConvertRequisitionKeeps(w: World, a: Action)
    requires Inv(w) && a.ConvertRequisition? && Transaction(w.db, a).Ok?
    ensures Inv(Step(w, a))
  {
    var r := a.id;
    var req := w.db.requisitions[r];
    var row := Workflow.ConvertedOrder(r, req, a.input, a.now);
    assert forall i :: 0 <= i < |a.input.lines| ==> Workflow.ValidLine(a.input.lines[i]);
    InsertedFile(w, row, a.input.lines, a.now);
    var created := InsertOrder(w.db, row, a.input.lines, a.now).value;
    assert created.requisitions == w.db.requisitions;
    ConvertedKeeps(w.(db := created), r, a.now);
  }

  lemma ConvertedKeeps(w: World, r: Id, now: Time)
    requires Inv(w) && r in w.db.requisitions && w.db.requisitions[r].status == ReqApproved
    requires !w.db.requisitions[r].archived
    requires UpdateRequisition(w.db, r, w.db.requisitions[r].(status := ReqOrdered), now).Ok?
    ensures Inv(w.(db := UpdateRequisition(w.db, r, w.db.requisitions[r].(status := ReqOrdered), now).value,
                   converted := w.converted + [r]))
  {
    var req := w.db.requisitions[r];
    var ordered := UpdateRequisition(w.db, r, req.(status := ReqOrdered), now).value.requisitions[r];
    assert ordered == req.(status := ReqOrdered, version := ordered.version);
    assert ConvertedOk(w.db.requisitions[r := ordered], w.converted + [r]);
    RequisitionStep(w, r, ordered, w.approvals, w.converted + [r]);
  }

  /** An edit that succeeded: a header update, then perhaps new lines fit for a draft. */
  lemma EditedDraft(db: Db, o: Id, input: Workflow.OrderInput, lines: Option<seq<Line>>, now: Time)
    requires Workflow.EditDraft(db, o, input, lines, now).Ok?
    ensures o in db.files && db.files[o].order.status == Draft && db.files[o].order.session.None?
    ensures var f := db.files[o];
            var header := Workflow.DraftHeader(f.order, input,
                                               Workflow.Total(if lines.Some? then lines.value else f.lines));
            && HeaderStep(f, header) && UpdateOrder(db, o, header, now).Ok?
            && var updated := UpdateOrder(db, o, header, now).value;
               if lines.None? then Workflow.EditDraft(db, o, input, lines, now) == Ok(updated)
               else
                 && o in updated.files && updated.files[o].order.status == Draft && updated.serial == db.serial
                 && ChangeLines(updated, o, lines.value, now).Ok?
                 && LinesOk(lines.value) && ActiveLineProducts(updated.catalog, lines.value)
                 && (forall i :: 0 <= i < |lines.value| ==> lines.value[i].received == 0.0)
                 && Workflow.EditDraft(db, o, input, lines, now).value
                      == ChangeLines(updated, o, lines.value, now).value
                         .(serial := Workflow.SerialAfter(db.serial, lines.value))
  {
    assert lines.Some? ==> forall i :: 0 <= i < |lines.value| ==> Workflow.ValidLine(lines.value[i]);
  }

  lemma EditDraftKeeps(w: World, o: Id, input: Workflow.OrderInput, lines: Option<seq<Line>>, now: Time)
    requires Inv(w) && Workflow.EditDraft(w.db, o, input, lines, now).Ok?
    ensures Inv(w.(db := Workflow.EditDraft(w.db, o, input, lines, now).value))
  {
    EditedDraft(w.db, o, input, lines, now);
    var f := w.db.files[o];
    var total := Workflow.Total(if lines.Some? then lines.value else f.lines);
    var header := Workflow.DraftHeader(f.order, input, total);
    HeaderUpdateKeeps(w, o, header, now);
    if lines.Some? {
      DraftLinesReplaced(w.(db := UpdateOrder(w.db, o, header, now).value), o, lines.value, now,
                         Workflow.SerialAfter(w.db.serial, lines.value));
    }
  }

  /** New draft lines, and the sequence their ids came from. */
  lemma DraftLinesReplaced(w: World, o: Id, lines: seq<Line>, now: Time, serial: Id)
    requires Inv(w) && o in w.db.files && w.db.files[o].order.status == Draft && serial >= w.db.serial
    requires LinesOk(lines) && ActiveLineProducts(w.db.catalog, lines) && ChangeLines(w.db, o, lines, now).Ok?
    requires forall i :: 0 <= i < |lines| ==> lines[i].received == 0.0
    ensures Inv(w.(db := ChangeLines(w.db, o, lines, now).value.(serial := serial)))
  {
    assert Holds(w.db, w.approvals, o, w.db.files[o]);
    DraftLinesKeep(w.db, w.approvals, o, lines, now);
    var changed := w.(db := ChangeLines(w.db, o, lines, now).value);
    ReplaceFile(w, o, changed.db.files[o]);
    WarehouseFrame(changed, changed.db.warehouse, serial);
  }

  /** A guarded header update by any handler rule. */
  lemma HeaderUpdateKeeps(w: World, o: Id, row: Order, now: Time)
    requires Inv(w) && o in w.db.files && UpdateOrder(w.db, o, row, now).Ok? && HeaderStep(w.db.files[o], row)
    ensures Inv(w.(db := UpdateOrder(w.db, o, row, now).value))
  {
    assert Holds(w.db, w.approvals, o, w.db.files[o]);
    HeaderKeeps(w.db, w.approvals, o, row, now);
    ReplaceFile(w, o, UpdateOrder(w.db, o, row, now).value.files[o]);
  }

  lemma SetStatusKeeps(w: World, o: Id, to: OrderStatus, number: string, notes: string, guided: bool, now: Time)
    requires Inv(w) && Workflow.SetStatus(w.db, o, to, number, notes, guided, now).Ok?
    ensures Inv(w.(db := Workflow.SetStatus(w.db, o, to, number, notes, guided, now).value))
  {
    var was := w.db.files[o].order;
    var row := Workflow.ManualRow(was, to, number, notes, now);
    HeaderUpdateKeeps(w, o, row, now);
  }

  lemma ApproveOrderKeeps(w: World, o: Id, to: OrderStatus, reason: string, now: Time)
    requires Inv(w) && Workflow.ApproveOrder(w.db, o, to, reason, now).Ok?
    ensures Inv(w.(db := Workflow.ApproveOrder(w.db, o, to, reason, now).value))
  {
    var was := w.db.files[o].order;
    var row := Workflow.GuidedRow(was, to, reason, now);
    HeaderUpdateKeeps(w, o, row, now);
  }

  lemma ArchiveOrderKeeps(w: World, o: Id, archive: bool, now: Time)
    requires Inv(w) && Workflow.ArchiveOrder(w.db, o, archive, now).Ok?
    ensures Inv(w.(db := Workflow.ArchiveOrder(w.db, o, archive, now).value))
  {
    HeaderUpdateKeeps(w, o, w.db.files[o].order.(archived := archive), now);
  }

  /** A confirmation writes one order file and the event list. */
  lemma CommitShape(db: Db, o: Id, m: Confirmations.Message, rows: map<ConfirmationKey, ConfirmationRow>,
      status: OrderStatus, text: string, now: Time)
    requires o in db.files && Confirmations.Commit(db, o, m, rows, status, text, now).Ok?
    ensures var db' := Confirmations.Commit(db, o, m, rows, status, text, now).value;
            o in db'.files && db' == db.(files := db.files[o := db'.files[o]], events := db'.events)
  {
    var f := db.files[o];
    var merged := db.(files := db.files[o := f.(confirmations := rows)]);
    var row := Confirmations.ConfirmedOrder(f.order, status, Confirmations.AcceptedNumbers(rows, f.lines), text);
    var updated := UpdateOrder(merged, o, row, now).value;
    assert updated.files == db.files[o := updated.files[o]];
  }

  lemma ApplyShape(db: Db, o: Id, m: Confirmations.Message, text: string, now: Time)
    requires Confirmations.Apply(db, o, m, text, now).Ok?
    ensures o in db.files
    ensures var db' := Confirmations.Apply(db, o, m, text, now).value;
            o in db'.files && db' == db.(files := db.files[o := db'.files[o]], events := db'.events)
  {
    if Confirmations.Precheck(db, o, m).None? {
      var f := db.files[o];
      var rows := Confirmations.NextRows(f, m).value;
      CommitShape(db, o, m, rows, Confirmations.StatusAfter(f.order, rows, f.lines), text, now);
    } else {
      assert db.files == db.files[o := db.files[o]];
    }
  }

  lemma ConfirmActionKeeps(w: World, o: Id, m: Confirmations.Message, text: string, now: Time)
    requires Inv(w) && Confirmations.Parsed(m) && Confirmations.Apply(w.db, o, m, text, now).Ok?
    ensures Inv(w.(db := Confirmations.Apply(w.db, o, m, text, now).value))
  {
    var db' := Confirmations.Apply(w.db, o, m, text, now).value;
    ApplyShape(w.db, o, m, text, now);
    var g := db'.files[o];
    assert Holds(w.db, w.approvals, o, g) && g.claim == w.db.files[o].claim by {
      assert Holds(w.db, w.approvals, o, w.db.files[o]);
      ConfirmKeeps(w.db, w.approvals, o, m, text, now);
    }
    FileAndEvents(w, o, g, db'.events);
  }

  lemma FileAndEvents(w: World, o: Id, g: OrderFile, events: map<string, Id>)
    requires Inv(w) && o in w.db.files && g.claim == w.db.files[o].claim
    requires Holds(w.db, w.approvals, o, g)
    ensures Inv(w.(db := w.db.(files := w.db.files[o := g], events := events)))
  {
    ReplaceFile(w, o, g);
    EventsFrame(w.(db := w.db.(files := w.db.files[o := g])), events);
  }

  lemma EventsFrame(w: World, events: map<string, Id>)
    requires Inv(w)
    ensures Inv(w.(db := w.db.(events := events)))
  {
    var db' := w.db.(events := events);
    ClaimsFrame(w, db');
    forall p | p in db'.files
      ensures Holds(db', w.approvals, p, db'.files[p])
    {
      assert Holds(w.db, w.approvals, p, w.db.files[p]);
    }
  }

  /** The warehouse side of the database is not part of any order's invariant. */
  lemma WarehouseFrame(w: World, warehouse: Warehouse, serial: Id)
    requires Inv(w) && serial >= w.db.serial
    ensures Inv(w.(db := w.db.(warehouse := warehouse, serial := serial)))
  {
    var db' := w.db.(warehouse := warehouse, serial := serial);
    ClaimsFrame(w, db');
    forall p | p in db'.files
      ensures Holds(db', w.approvals, p, db'.files[p])
    {
      assert Holds(w.db, w.approvals, p, w.db.files[p]);
    }
  }

  /** Booking the warehouse touches the warehouse and the id sequence only. */
  lemma StockedShape(db: Db, line: Line, input: GoodsReceipts.ReceiptInput, guided: bool)
    requires GoodsReceipts.Stocked(db, line, input, guided).Ok?
    ensures var db' := GoodsReceipts.Stocked(db, line, input, guided).value;
            db' == db.(warehouse := db'.warehouse, serial := db'.serial) && db'.serial >= db.serial
  {
  }

  lemma ReceiveKeeps(w: World, o: Id, input: GoodsReceipts.ReceiptInput, guided: bool, user: Id, now: Time)
    requires Inv(w) && input.quantity > 0.0 && GoodsReceipts.Receive(w.db, o, input, guided, user, now).Ok?
    ensures Inv(w.(db := GoodsReceipts.Receive(w.db, o, input, guided, user, now).value))
  {
    var f := w.db.files[o];
    var p := Confirmations.Position(f.lines, input.line);
    var row := GoodsReceipts.ReceiptRow(w.db, o, f.lines[p], input, user);
    var stocked := GoodsReceipts.Stocked(w.db, f.lines[p], input, guided).value;
    StockedShape(w.db, f.lines[p], input, guided);
    WarehouseFrame(w, stocked.warehouse, stocked.serial);
    BookedKeeps(w.(db := stocked), o, p, input.quantity, row, now);
  }

  lemma BookedKeeps(w: World, o: Id, p: nat, quantity: real, row: Receipt, now: Time)
    requires Inv(w) && o in w.db.files && p < |w.db.files[o].lines| && quantity > 0.0
    requires GoodsReceipts.Receivable(w.db.files[o].order.status)
    requires row.order == o && row.line == w.db.files[o].lines[p].id && row.quantity == quantity
    requires !GoodsReceipts.BeyondConfirmed(w.db.files[o], row.line, w.db.files[o].lines[p].received + quantity)
    requires GoodsReceipts.BookOrder(w.db, o, p, quantity, row, now).Ok?
    ensures Inv(w.(db := GoodsReceipts.BookOrder(w.db, o, p, quantity, row, now).value))
  {
    var g := GoodsReceipts.BookOrder(w.db, o, p, quantity, row, now).value.files[o];
    BookedShape(w.db, o, p, quantity, row, now);
    assert Holds(w.db.(receipts := w.db.receipts + [row]), w.approvals, o, g) && g.claim == w.db.files[o].claim by {
      assert Holds(w.db, w.approvals, o, w.db.files[o]);
      BookOrderKeeps(w.db, w.approvals, o, p, quantity, row, now);
    }
    ReceiptFrame(w, o, g, row);
  }

  /** A new receipt row together with the file it belongs to. */
  lemma ReceiptFrame(w: World, o: Id, g: OrderFile, row: Receipt)
    requires Inv(w) && o in w.db.files && row.order == o && g.claim == w.db.files[o].claim
    requires Holds(w.db.(receipts := w.db.receipts + [row]), w.approvals, o, g)
    ensures Inv(w.(db := w.db.(receipts := w.db.receipts + [row], files := w.db.files[o := g])))
  {
    var db' := w.db.(receipts := w.db.receipts + [row], files := w.db.files[o := g]);
    ClaimsFrame(w, db');
    ReceiptFiles(w, o, g, row);
    ReceiptSerials(w.db, o, g, row);
    assert CatalogOk(db'.catalog) && RequisitionsOk(db');
  }

  lemma ReceiptFiles(w: World, o: Id, g: OrderFile, row: Receipt)
    requires FilesOk(w.db, w.approvals) && o in w.db.files && row.order == o
    requires Holds(w.db.(receipts := w.db.receipts + [row]), w.approvals, o, g)
    ensures FilesOk(w.db.(receipts := w.db.receipts + [row], files := w.db.files[o := g]), w.approvals)
  {
    var db' := w.db.(receipts := w.db.receipts + [row], files := w.db.files[o := g]);
    forall q | q in db'.files
      ensures FileOk(db'.catalog, db'.requisitions, db'.receipts, w.approvals, q, db'.files[q])
    {
      if q != o {
        ForeignReceipt(w.db, w.approvals, row, q, w.db.files[q]);
      }
    }
  }

  lemma ReceiptSerials(db: Db, o: Id, g: OrderFile, row: Receipt)
    requires SerialOk(db) && o in db.files && row.order == o
    ensures SerialOk(db.(receipts := db.receipts + [row], files := db.files[o := g]))
  {
  }
}
