/**
 What people do to orders and requisitions by hand: when it commits, on the fields of the rows, and what it leaves.
 */
module Manual {
  import opened Base
  import opened Schema
  import opened Triggers
  import opened World
  import opened FileSteps
  import Lifecycle
  import Safety
  import Text
  import Workflow

  // ---------- fields ----------

  const MOST: int := 1_000_000_000

  /**
   There are lines, each described, of a positive quantity and a price that is not negative, neither above a limit.
   */
  predicate Fit(lines: seq<Line>) {
    |lines| > 0 && forall i :: 0 <= i < |lines| ==>
      && Text.Trim(lines[i].description) != ""
      && 0.0 < lines[i].quantity && lines[i].quantity <= MOST as real
      && 0 <= lines[i].priceCents && lines[i].priceCents <= MOST
  }

  predicate FitDemand(lines: seq<RequisitionLine>) {
    |lines| > 0 && forall i :: 0 <= i < |lines| ==>
      && Text.Trim(lines[i].description) != ""
      && 0.0 < lines[i].quantity && lines[i].quantity <= MOST as real
      && 0 <= lines[i].priceCents && lines[i].priceCents <= MOST
  }

  lemma FitMeans(lines: seq<Line>)
    ensures Workflow.ValidLines(lines) <==> Fit(lines)
  {
    forall i | 0 <= i < |lines|
      ensures Text.Blank(lines[i].description) <==> Text.Trim(lines[i].description) == ""
      ensures Workflow.ValidLine(lines[i]) <==>
                && Text.Trim(lines[i].description) != ""
                && 0.0 < lines[i].quantity && lines[i].quantity <= MOST as real
                && 0 <= lines[i].priceCents && lines[i].priceCents <= MOST
    {
      Text.TrimMeaning(lines[i].description);
    }
  }

  lemma FitDemandMeans(lines: seq<RequisitionLine>)
    ensures Workflow.ValidRequisitionLines(lines) <==> FitDemand(lines)
  {
    forall i | 0 <= i < |lines|
      ensures Text.Blank(lines[i].description) <==> Text.Trim(lines[i].description) == ""
    {
      Text.TrimMeaning(lines[i].description);
    }
  }

  /** Every named product is there and active. */
  predicate Usable(catalog: Catalog, lines: seq<Line>) {
    forall i :: 0 <= i < |lines| && lines[i].product.Some? ==>
      lines[i].product.value in catalog.products && catalog.products[lines[i].product.value].active
  }

  lemma UsableMeans(catalog: Catalog, lines: seq<Line>)
    ensures Usable(catalog, lines) <==> ActiveLineProducts(catalog, lines)
  {
    forall i | 0 <= i < |lines|
      ensures ActiveProduct(catalog, lines[i].product) <==>
                (lines[i].product.Some? ==>
                   lines[i].product.value in catalog.products && catalog.products[lines[i].product.value].active)
    {
    }
  }

  predicate Supplies(catalog: Catalog, supplier: Id) {
    supplier in catalog.suppliers && catalog.suppliers[supplier].active
  }

  // ---------- status changes ----------

  /** Every change of status anyone makes by hand, from and to. */
  const STEPS: set<(OrderStatus, OrderStatus)> := {
    (Draft, Sent), (Draft, Cancelled),
    (Sent, OrderStatus.Confirmed), (Sent, PartiallyConfirmed), (Sent, Cancelled),
    (OrderStatus.Confirmed, Cancelled), (PartiallyConfirmed, Cancelled), (PartiallyReceived, Cancelled)}

  /** Only status, supplier number, notes, date and version of the order may differ. */
  predicate OnlyRow(f: OrderFile, g: OrderFile) {
    && g.order.version > f.order.version
    && g == f.(order := f.order.(status := g.order.status, supplierNumber := g.order.supplierNumber,
                                 notes := g.order.notes, orderDate := g.order.orderDate, version := g.order.version))
  }

  /** The date of an order that is sent without one is the moment of sending; nothing else dates it. */
  predicate DatedOnSending(was: Order, row: Order, now: Time) {
    row.orderDate == (if row.status == Sent && was.orderDate.None? then Some(now) else was.orderDate)
  }

  /** What a manual change may do, whatever the order came from. */
  predicate Changeable(was: Order, to: OrderStatus, supplierNumber: string, guided: bool) {
    && !was.archived && |supplierNumber| <= 120 && to != Submitting
    && (to == was.status || (was.status, to) in STEPS)
    && !(was.session.Some? && was.status == Draft && to == Sent)
    && !(guided && was.status == SubmissionUnknown)
  }

  lemma RowPasses(db: Db, approvals: seq<Approval>, o: Id, row: Order)
    requires o in db.files && Holds(db, approvals, o, db.files[o]) && !db.files[o].order.archived
    requires var was := db.files[o].order;
             row == was.(status := row.status, supplierNumber := row.supplierNumber, notes := row.notes,
                         orderDate := row.orderDate)
    requires row.status != Submitting && (Closed(db.files[o].order.status) ==> Closed(row.status))
    ensures OrderUpdateAllowed(db, o, row) <==> (db.files[o].claim.Some? ==> row.status != Draft)
  {
  }

  lemma StatusRow(db: Db, approvals: seq<Approval>, o: Id, to: OrderStatus, supplierNumber: string, notes: string,
      guided: bool, now: Time)
    requires o in db.files && Holds(db, approvals, o, db.files[o])
    ensures Workflow.SetStatus(db, o, to, supplierNumber, notes, guided, now).Ok? <==>
              Changeable(db.files[o].order, to, supplierNumber, guided)
  {
    var was := db.files[o].order;
    var row := Workflow.ManualRow(was, to, supplierNumber, notes, now);
    if !was.archived && to != Submitting && (Closed(was.status) ==> Closed(to)) {
      RowPasses(db, approvals, o, row);
    }
  }

  /**
   In every reachable state a manual status change commits if and only if it keeps the status or is one of eight steps,
   of an order that is not archived; a PunchOut order is not sent by hand and a guided change leaves uncertain orders
   alone. So the listed step from an uncertain order back to a draft is never passed. It leaves lines, claim and
   confirmations as they were.
   */
  lemma {:induction false} SetStatusIff(actions: seq<Action>, o: Id, to: OrderStatus, supplierNumber: string,
      notes: string, guided: bool, now: Time)
    ensures var db := Run(Init(), actions).db;
            Workflow.SetStatus(db, o, to, supplierNumber, notes, guided, now).Ok? <==>
              o in db.files && Changeable(db.files[o].order, to, supplierNumber, guided)
    ensures var db := Run(Init(), actions).db;
            var r := Workflow.SetStatus(db, o, to, supplierNumber, notes, guided, now);
            r.Ok? ==>
              && o in r.value.files && OnlyRow(db.files[o], r.value.files[o])
              && var row := r.value.files[o].order;
                 && row.status == to && row.supplierNumber == Text.Trim(supplierNumber) && row.notes == notes
                 && DatedOnSending(db.files[o].order, row, now)
  {
    var w := Run(Init(), actions);
    Safety.Reached(actions);
    if o in w.db.files {
      assert Holds(w.db, w.approvals, o, w.db.files[o]);
      StatusRow(w.db, w.approvals, o, to, supplierNumber, notes, guided, now);
    }
  }

  /** The table of transitions names a step that no reachable state lets pass: an uncertain order has a claim. */
  lemma {:induction false} ResetNeverPasses(actions: seq<Action>, o: Id, supplierNumber: string, notes: string,
      guided: bool, now: Time)
    requires o in Run(Init(), actions).db.files
    requires Run(Init(), actions).db.files[o].order.status == SubmissionUnknown
    ensures Workflow.TransitionAllowed(SubmissionUnknown, Draft)
    ensures Workflow.SetStatus(Run(Init(), actions).db, o, Draft, supplierNumber, notes, guided, now).Err?
  {
    SetStatusIff(actions, o, Draft, supplierNumber, notes, guided, now);
  }

  /** What a guided change may do; it never sends a PunchOut order and gives a reason for every cancellation. */
  predicate Approvable(f: OrderFile, to: OrderStatus, reason: string) {
    && !f.order.archived && (f.order.status, to) in STEPS && to != PartiallyConfirmed
    && (to == Cancelled ==> Text.Trim(reason) != "")
    && (to == Sent ==> f.order.session.None?)
    && (to != Cancelled ==> Fit(f.lines))
  }

  lemma ApprovedRow(db: Db, approvals: seq<Approval>, o: Id, to: OrderStatus, reason: string, now: Time)
    requires o in db.files && Holds(db, approvals, o, db.files[o])
    ensures Workflow.ApproveOrder(db, o, to, reason, now).Ok? <==> Approvable(db.files[o], to, reason)
  {
    var f := db.files[o];
    GuidedMeans(f, to, reason);
    if !f.order.archived && to != Submitting && !Closed(f.order.status) {
      RowPasses(db, approvals, o, Workflow.GuidedRow(f.order, to, reason, now));
    }
  }

  lemma GuidedMeans(f: OrderFile, to: OrderStatus, reason: string)
    ensures Workflow.GuidedTransition(f.order.status, to) <==> (f.order.status, to) in STEPS && to != PartiallyConfirmed
    ensures Text.Blank(reason) <==> Text.Trim(reason) == ""
    ensures Workflow.ValidLines(f.lines) <==> Fit(f.lines)
  {
    FitMeans(f.lines);
    Text.TrimMeaning(reason);
  }

  /** In every reachable state, when a guided change commits and what it leaves. */
  lemma {:induction false} ApproveOrderIff(actions: seq<Action>, o: Id, to: OrderStatus, reason: string, now: Time)
    ensures var db := Run(Init(), actions).db;
            Workflow.ApproveOrder(db, o, to, reason, now).Ok? <==> o in db.files && Approvable(db.files[o], to, reason)
    ensures var db := Run(Init(), actions).db;
            var r := Workflow.ApproveOrder(db, o, to, reason, now);
            r.Ok? ==> o in db.files && o in r.value.files && ApprovedAs(db.files[o], r.value.files[o], to, reason, now)
  {
    var w := Run(Init(), actions);
    Safety.Reached(actions);
    if o in w.db.files {
      assert Holds(w.db, w.approvals, o, w.db.files[o]);
      ApprovedRow(w.db, w.approvals, o, to, reason, now);
    }
    if Workflow.ApproveOrder(w.db, o, to, reason, now).Ok? {
      ApprovalLeaves(w.db, o, to, reason, now);
    }
  }

  /** The status asked for, and behind the notes of before the reason of a cancellation. */
  predicate ApprovedAs(f: OrderFile, g: OrderFile, to: OrderStatus, reason: string, now: Time) {
    var was, row := f.order, g.order;
    && OnlyRow(f, g) && row.status == to && row.supplierNumber == was.supplierNumber && DatedOnSending(was, row, now)
    && was.notes <= row.notes && (to != Cancelled ==> row.notes == was.notes)
    && (to == Cancelled ==>
          |Text.Trim(reason)| <= |row.notes| && row.notes[|row.notes| - |Text.Trim(reason)|..] == Text.Trim(reason))
  }

  lemma ApprovalLeaves(db: Db, o: Id, to: OrderStatus, reason: string, now: Time)
    requires Workflow.ApproveOrder(db, o, to, reason, now).Ok?
    ensures o in db.files && o in Workflow.ApproveOrder(db, o, to, reason, now).value.files
    ensures ApprovedAs(db.files[o], Workflow.ApproveOrder(db, o, to, reason, now).value.files[o], to, reason, now)
  {
  }

  // ---------- new orders and drafts ----------

  /** The lines as given, under consecutive ids, nothing received and without part ids. */
  predicate NumberedAs(given: seq<Line>, stored: seq<Line>, first: Id) {
    && |stored| == |given|
    && forall i :: 0 <= i < |given| ==>
         stored[i] == given[i].(id := first + i, part := "", auxiliary := "", received := 0.0)
  }

  /** What a created order holds. */
  predicate Created(input: Workflow.OrderInput, f: OrderFile, o: Id, now: Time) {
    && f.claim.None? && f.reconciliation.None? && f.confirmations == map[]
    && NumberedAs(input.lines, f.lines, o + 1)
    && f.order.number == input.number && f.order.supplier == input.supplier
    && f.order.requisition == input.requisition && f.order.session.None? && f.order.status == input.status
    && f.order.currency == input.currency && f.order.totalCents == Workflow.Total(input.lines)
    && f.order.payloadId == "" && f.order.amazonNumbers == {} && f.order.supplierNumber == input.supplierNumber
    && f.order.notes == input.notes && !f.order.archived && f.order.version == now
    && f.order.orderDate ==
         (if input.orderDate.Some? then input.orderDate else if input.status == Draft then None else Some(now))
  }

  /** An order is created if and only if its lines are fit and what it names can be used. */
  lemma CreateOrderIff(db: Db, input: Workflow.OrderInput, now: Time)
    ensures Workflow.CreateOrder(db, input, now).Ok? <==>
              && Fit(input.lines)
              && (input.status == Draft || input.status == Sent || input.status == OrderStatus.Confirmed)
              && Supplies(db.catalog, input.supplier) && Usable(db.catalog, input.lines)
              && (input.requisition.Some? ==>
                    && input.requisition.value in db.requisitions
                    && !db.requisitions[input.requisition.value].archived)
    ensures var r := Workflow.CreateOrder(db, input, now);
            r.Ok? ==>
              && db.serial in r.value.files && Created(input, r.value.files[db.serial], db.serial, now)
              && (forall o :: o in db.files && o != db.serial ==> o in r.value.files && r.value.files[o] == db.files[o])
              && r.value.serial == db.serial + 1 + |input.lines|
  {
    FitMeans(input.lines);
    UsableMeans(db.catalog, input.lines);
    assert ActiveLineProducts(db.catalog, Workflow.Fresh(input.lines))
        <==> ActiveLineProducts(db.catalog, input.lines) by {
      assert forall i :: 0 <= i < |input.lines| ==> Workflow.Fresh(input.lines)[i].product == input.lines[i].product;
    }
  }

  /** What a draft may be edited into. */
  predicate Editable(db: Db, f: OrderFile, input: Workflow.OrderInput, kept: seq<Line>) {
    && f.order.status == Draft && f.order.session.None? && !f.order.archived
    && Fit(kept) && Usable(db.catalog, kept) && Supplies(db.catalog, input.supplier)
    && (forall i :: 0 <= i < |kept| ==> kept[i].received == 0.0)
    && (forall i, j :: 0 <= i < j < |kept| ==> kept[i].id < kept[j].id)
  }

  lemma EditPasses(db: Db, approvals: seq<Approval>, o: Id, input: Workflow.OrderInput, lines: Option<seq<Line>>,
      now: Time)
    requires o in db.files && Holds(db, approvals, o, db.files[o])
    requires Editable(db, db.files[o], input, if lines.Some? then lines.value else db.files[o].lines)
    ensures Workflow.EditDraft(db, o, input, lines, now).Ok?
  {
    var f := db.files[o];
    var kept := if lines.Some? then lines.value else f.lines;
    FitMeans(kept);
    UsableMeans(db.catalog, kept);
    HeaderPasses(db, approvals, o, input, Workflow.Total(kept));
    if lines.Some? {
      var updated := UpdateOrder(db, o, Workflow.DraftHeader(f.order, input, Workflow.Total(kept)), now).value;
      LinesPass(updated, o, lines.value);
    }
  }

  lemma HeaderPasses(db: Db, approvals: seq<Approval>, o: Id, input: Workflow.OrderInput, total: int)
    requires o in db.files && Holds(db, approvals, o, db.files[o])
    requires db.files[o].order.status == Draft && !db.files[o].order.archived && Supplies(db.catalog, input.supplier)
    ensures OrderUpdateAllowed(db, o, Workflow.DraftHeader(db.files[o].order, input, total))
    ensures var f := db.files[o];
            && f.claim.None? && !HasReceipt(db.receipts, o)
            && UnarchivedRequisition(db.requisitions, f.order.requisition)
  {
  }

  /** New lines of an unclaimed draft without receipts. */
  lemma LinesPass(db: Db, o: Id, lines: seq<Line>)
    requires o in db.files && ActiveLineProducts(db.catalog, lines)
    requires var f := db.files[o];
             && !f.order.archived && f.claim.None? && !HasReceipt(db.receipts, o)
             && ActiveSupplier(db.catalog, f.order.supplier)
             && UnarchivedRequisition(db.requisitions, f.order.requisition)
    ensures LinesAllowed(db, o, lines) && OrderUpdateAllowed(db, o, db.files[o].order)
  {
    forall i | 0 <= i < |db.files[o].lines|
      ensures !LineHasReceipt(db.receipts, o, db.files[o].lines[i].id)
    {
    }
  }

  /** What an edited draft holds: its identity kept, the header as given, the lines as given and their total. */
  predicate Edited(f: OrderFile, g: OrderFile, input: Workflow.OrderInput, kept: seq<Line>) {
    && g == f.(order := g.order, lines := kept)
    && g.order.supplier == input.supplier && g.order.supplierNumber == input.supplierNumber
    && g.order.currency == input.currency && g.order.orderDate == input.orderDate && g.order.notes == input.notes
    && g.order.totalCents == Workflow.Total(kept)
    && g.order.number == f.order.number && g.order.requisition == f.order.requisition
    && g.order.session == f.order.session && g.order.status == Draft && g.order.payloadId == f.order.payloadId
    && g.order.amazonNumbers == f.order.amazonNumbers && !g.order.archived && g.order.version > f.order.version
  }

  lemma EditRests(db: Db, o: Id, input: Workflow.OrderInput, lines: Option<seq<Line>>, now: Time)
    requires Workflow.EditDraft(db, o, input, lines, now).Ok?
    ensures o in db.files
    ensures var kept := if lines.Some? then lines.value else db.files[o].lines;
            var r := Workflow.EditDraft(db, o, input, lines, now).value;
            && Editable(db, db.files[o], input, kept) && o in r.files && Edited(db.files[o], r.files[o], input, kept)
  {
    var kept := if lines.Some? then lines.value else db.files[o].lines;
    FitMeans(kept);
    UsableMeans(db.catalog, kept);
  }

  /** In every reachable state, when an edit of a draft commits and what it leaves. */
  lemma {:induction false} EditDraftIff(actions: seq<Action>, o: Id, input: Workflow.OrderInput,
      lines: Option<seq<Line>>, now: Time)
    requires o in Run(Init(), actions).db.files
    ensures var db := Run(Init(), actions).db;
            var kept := if lines.Some? then lines.value else db.files[o].lines;
            var r := Workflow.EditDraft(db, o, input, lines, now);
            && (r.Ok? <==> Editable(db, db.files[o], input, kept))
            && (r.Ok? ==> o in r.value.files && Edited(db.files[o], r.value.files[o], input, kept))
  {
    var w := Run(Init(), actions);
    Safety.Reached(actions);
    assert Holds(w.db, w.approvals, o, w.db.files[o]);
    if Workflow.EditDraft(w.db, o, input, lines, now).Ok? {
      EditRests(w.db, o, input, lines, now);
    } else if Editable(w.db, w.db.files[o], input, if lines.Some? then lines.value else w.db.files[o].lines) {
      EditPasses(w.db, w.approvals, o, input, lines, now);
    }
  }

  // ---------- requisitions ----------

  /** A requisition is created if and only if its lines are fit, name what can be used, and its session is new. */
  lemma CreateRequisitionIff(db: Db, requester: Id, session: Option<Id>, lines: seq<RequisitionLine>, now: Time)
    ensures Workflow.CreateRequisition(db, requester, session, lines, now).Ok? <==>
              && FitDemand(lines) && Lifecycle.Requestable(db.catalog, lines)
              && (session.Some? ==> forall r :: r in db.requisitions ==> db.requisitions[r].session != session)
    ensures var result := Workflow.CreateRequisition(db, requester, session, lines, now);
            result.Ok? ==>
              && db.serial in result.value.requisitions
              && var row := result.value.requisitions[db.serial];
                 && row.session == session && row.requester == requester && row.status == ReqDraft
                 && row.approvedBy.None? && !row.decided && !row.archived && row.version == now
                 && DemandAs(lines, row.lines, session.Some?)
  {
    FitDemandMeans(lines);
    Lifecycle.RequestableMeans(db.catalog, lines);
    Lifecycle.RequestableMeans(db.catalog, Workflow.Unidentified(lines));
    assert forall i :: 0 <= i < |lines| ==>
        && Workflow.Unidentified(lines)[i].product == lines[i].product
        && Workflow.Unidentified(lines)[i].preferredSupplier == lines[i].preferredSupplier;
  }

  /** The lines as given; only a PunchOut session brings part ids. */
  predicate DemandAs(given: seq<RequisitionLine>, stored: seq<RequisitionLine>, punchOut: bool) {
    && |stored| == |given|
    && forall i :: 0 <= i < |given| ==>
         stored[i] == if punchOut then given[i] else given[i].(part := "", auxiliary := "")
  }

  /** Only drafts and returned ones of no session are edited, and they are drafts again. */
  lemma EditRequisitionIff(db: Db, r: Id, lines: Option<seq<RequisitionLine>>, now: Time)
    requires r in db.requisitions
    ensures var was := db.requisitions[r];
            var kept := if lines.Some? then lines.value else was.lines;
            var result := Workflow.EditRequisition(db, r, lines, now);
            && (result.Ok? <==>
                  && (was.status == ReqDraft || was.status == ReqReturned) && was.session.None? && !was.archived
                  && FitDemand(kept) && Lifecycle.Requestable(db.catalog, kept))
            && (result.Ok? ==>
                  && r in result.value.requisitions
                  && var row := result.value.requisitions[r];
                     row == was.(status := ReqDraft, lines := kept, version := row.version)
                     && row.version > was.version)
  {
    var kept := if lines.Some? then lines.value else db.requisitions[r].lines;
    FitDemandMeans(kept);
    Lifecycle.RequestableMeans(db.catalog, kept);
  }

  /** Only drafts are submitted, with any earlier decision forgotten. */
  lemma SubmitRequisitionIff(db: Db, r: Id, now: Time)
    requires r in db.requisitions
    ensures var was := db.requisitions[r];
            var result := Workflow.SubmitRequisition(db, r, now);
            && (result.Ok? <==>
                  && was.status == ReqDraft && !was.archived
                  && FitDemand(was.lines) && Lifecycle.Requestable(db.catalog, was.lines))
            && (result.Ok? ==>
                  && r in result.value.requisitions
                  && var row := result.value.requisitions[r];
                     row == was.(status := ReqSubmitted, approvedBy := None, decided := false, version := row.version)
                     && row.version > was.version)
  {
    FitDemandMeans(db.requisitions[r].lines);
    Lifecycle.RequestableMeans(db.catalog, db.requisitions[r].lines);
  }

  /**
   A submitted requisition is decided by anyone, in a guided decision by anyone but its requester; a return needs a
   note, and an approval needs lines that name what can be used.
   */
  lemma DecideRequisitionIff(db: Db, r: Id, user: Id, decision: Workflow.Decision, guided: bool, now: Time)
    requires r in db.requisitions
    ensures var was := db.requisitions[r];
            Workflow.DecideRequisition(db, r, user, decision, guided, now).Ok? <==>
              && was.status == ReqSubmitted && !was.archived
              && (guided ==> was.requester != user)
              && (decision.Return? ==> Text.Trim(decision.note) != "")
              && (decision.Approve? ==> Lifecycle.Requestable(db.catalog, was.lines))
              && (decision.Approve? && guided ==> FitDemand(was.lines))
  {
    FitDemandMeans(db.requisitions[r].lines);
    Lifecycle.RequestableMeans(db.catalog, db.requisitions[r].lines);
    if decision.Return? {
      Text.TrimMeaning(decision.note);
    }
  }
}
