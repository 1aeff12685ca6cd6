/** Requisition and order transactions of the handlers, before any supplier is involved. */
module Workflow {
  import opened Base
  import opened Schema
  import opened Triggers
  import Conversion
  import Text

  // ---------- field validation ----------

  predicate ValidLine(l: Line) {
    && !Text.Blank(l.description) && 0.0 < l.quantity <= 1_000_000_000.0
    && 0 <= l.priceCents <= 1_000_000_000
  }

  predicate ValidLines(lines: seq<Line>) {
    lines != [] && forall i :: 0 <= i < |lines| ==> ValidLine(lines[i])
  }

  predicate ValidRequisitionLines(lines: seq<RequisitionLine>) {
    lines != [] && forall i :: 0 <= i < |lines| ==>
      && !Text.Blank(lines[i].description) && 0.0 < lines[i].quantity <= 1_000_000_000.0
      && 0 <= lines[i].priceCents <= 1_000_000_000
  }

  /** Nothing has been received on any line. */
  predicate Unreceived(lines: seq<Line>) {
    forall i :: 0 <= i < |lines| ==> lines[i].received == 0.0
  }

  /** int64(quantity * price) of one line. */
  function LineCents(l: Line): int {
    (l.quantity * (l.priceCents as real)).Floor
  }

  /** service.PurchaseOrderTotal. */
  function Total(lines: seq<Line>): int {
    if lines == [] then 0 else Total(lines[..|lines| - 1]) + LineCents(lines[|lines| - 1])
  }

  // ---------- requisitions ----------

  /** createRequisition, or the PunchOut return when a session is given. */
  function CreateRequisition(db: Db, requester: Id, session: Option<Id>, lines: seq<RequisitionLine>,
      now: Time): Result<Db> {
    if !ValidRequisitionLines(lines) then Err(NotReady)
    else if session.Some? && exists r :: r in db.requisitions && db.requisitions[r].session == session
    then Err(UniqueViolation)
    else
      var demand := if session.Some? then lines else Unidentified(lines);
      InsertRequisition(db, Requisition(session, requester, ReqDraft, None, false, false, now, demand), now)
  }

  /** Only a PunchOut return names the supplier's part ids. */
  function Unidentified(lines: seq<RequisitionLine>): (r: seq<RequisitionLine>)
    ensures |r| == |lines|
    ensures forall i :: 0 <= i < |lines| ==> r[i] == lines[i].(part := "", auxiliary := "")
  {
    seq(|lines|, i requires 0 <= i < |lines| => lines[i].(part := "", auxiliary := ""))
  }

  /**
   updateRequisition and the guided update. `lines` are the stored lines after the edit; without them the lines
   stay and must name active records.
   */
  function EditRequisition(db: Db, r: Id, lines: Option<seq<RequisitionLine>>, now: Time): Result<Db> {
    if r !in db.requisitions then Err(NotFound)
    else
      var was := db.requisitions[r];
      var kept := if lines.Some? then lines.value else was.lines;
      if (was.status != ReqDraft && was.status != ReqReturned) || was.session.Some? then Err(Forbidden)
      else if || !ValidRequisitionLines(kept)
              || !ActiveRequisitionProducts(db.catalog, kept) || !ActivePreferredSuppliers(db.catalog, kept)
      then Err(NotReady)
      else
        var drafted :- UpdateRequisition(db, r, was.(status := ReqDraft), now);
        if lines.None? then Ok(drafted) else ChangeRequisitionLines(drafted, r, lines.value, now)
  }

  /** submitRequisition. */
  function SubmitRequisition(db: Db, r: Id, now: Time): Result<Db> {
    if r !in db.requisitions then Err(NotFound)
    else
      var was := db.requisitions[r];
      if was.status != ReqDraft then Err(TransitionRefused)
      else if !ValidRequisitionLines(was.lines) then Err(NotReady)
      else UpdateRequisition(db, r, was.(status := ReqSubmitted, approvedBy := None, decided := false), now)
  }

  /** A return needs a note. */
  datatype Decision = Approve | Reject | Return(note: string)

  function DecidedStatus(d: Decision): RequisitionStatus {
    match d
    case Approve => ReqApproved
    case Reject => ReqRejected
    case Return(_) => ReqReturned
  }

  /**
   decideRequisition and the guided decision; only the guided one enforces that requester and decider differ, and looks
   at the lines again before it approves.
   */
  function DecideRequisition(db: Db, r: Id, user: Id, decision: Decision, guided: bool, now: Time): Result<Db> {
    if decision.Return? && Text.Blank(decision.note) then Err(NotReady)
    else if r !in db.requisitions then Err(NotFound)
    else
      var was := db.requisitions[r];
      if was.status != ReqSubmitted then Err(TransitionRefused)
      else if guided && was.requester == user then Err(Forbidden)
      else if guided && decision.Approve? && !ValidRequisitionLines(was.lines) then Err(NotReady)
      else
        UpdateRequisition(db, r, was.(status := DecidedStatus(decision), approvedBy := Some(user), decided := true),
                          now)
  }

  /** The guided archive (true) and restore (false) of a requisition. */
  function ArchiveRequisition(db: Db, r: Id, archive: bool, now: Time): Result<Db> {
    if r !in db.requisitions then Err(NotFound)
    else
      var was := db.requisitions[r];
      if was.archived == archive || (!archive && !ValidRequisitionLines(was.lines)) then Err(NotReady)
      else UpdateRequisition(db, r, was.(archived := archive), now)
  }

  // ---------- orders ----------

  datatype OrderInput = OrderInput(
    number: string, supplier: Id, requisition: Option<Id>, status: OrderStatus, currency: string,
    supplierNumber: string, orderDate: Option<Time>, notes: string, lines: seq<Line>)

  function NewOrder(input: OrderInput, session: Option<Id>, status: OrderStatus, now: Time): Order {
    Order(input.number, input.supplier, input.requisition, session, status, input.currency, Total(input.lines), "",
          input.supplierNumber, {},
          if status != Draft && input.orderDate.None? then Some(now) else input.orderDate, input.notes, false, now)
  }

  /**
   createOrder: natively also as `sent` or `confirmed`; PunchOut session, part ids and received quantities are cleared.
   */
  function CreateOrder(db: Db, input: OrderInput, now: Time): Result<Db> {
    if || !ValidLines(input.lines)
       || (input.status != Draft && input.status != Sent && input.status != Confirmed)
    then Err(NotReady)
    else InsertOrder(db, NewOrder(input, None, input.status, now), Fresh(input.lines), now)
  }

  /** The lines of a new order: nothing received, and not from a PunchOut cart. */
  function Fresh(lines: seq<Line>): (r: seq<Line>)
    ensures |r| == |lines|
    ensures forall i :: 0 <= i < |lines| ==> r[i] == lines[i].(part := "", auxiliary := "", received := 0.0)
  {
    seq(|lines|, i requires 0 <= i < |lines| => lines[i].(part := "", auxiliary := "", received := 0.0))
  }

  /** The draft made of a requisition: in euro, of the same PunchOut session, with nothing from the supplier yet. */
  function ConvertedOrder(r: Id, req: Requisition, input: OrderInput, now: Time): Order {
    NewOrder(input.(requisition := Some(r), supplierNumber := "", currency := "EUR", orderDate := None, notes := ""),
             req.session, Draft, now)
  }

  predicate HasOrder(db: Db, r: Id) {
    exists o :: o in db.files && db.files[o].order.requisition == Some(r)
  }

  /**
   prepareRequisitionOrder and commitRequisitionOrder: the new order and the `ordered` requisition in one transaction.
   */
  ghost function ConvertRequisition(db: Db, r: Id, input: OrderInput, now: Time): Result<Db> {
    if r !in db.requisitions then Err(NotFound)
    else
      var req := db.requisitions[r];
      if req.archived || req.status != ReqApproved || HasOrder(db, r) then Err(NotReady)
      else if || !ActiveSupplier(db.catalog, input.supplier)
              || (req.session.Some? && db.catalog.suppliers[input.supplier].code != "AMAZON-BUSINESS")
      then Err(NotReady)
      else if !ActiveRequisitionProducts(db.catalog, req.lines) || !ActivePreferredSuppliers(db.catalog, req.lines)
      then Err(NotReady)
      else if |req.lines| > 100 || !Conversion.OffersFit(db.catalog.offers, req, input.supplier, now) then Err(NotReady)
      else if !ValidLines(input.lines) || !Conversion.Converts(db.catalog.offers, req, input.supplier, input.lines)
      then Err(NotReady)
      else
        var created :- InsertOrder(db, ConvertedOrder(r, req, input, now), input.lines, now);
        UpdateRequisition(created, r, req.(status := ReqOrdered), now)
  }

  /** The header fields of an edit. */
  function DraftHeader(was: Order, input: OrderInput, total: int): Order {
    was.(supplier := input.supplier, supplierNumber := input.supplierNumber, currency := input.currency,
         orderDate := input.orderDate, notes := input.notes, totalCents := total)
  }

  /** updateOrderDraft and the guided draft update; `lines` are the stored lines after the edit. */
  function EditDraft(db: Db, o: Id, input: OrderInput, lines: Option<seq<Line>>, now: Time): Result<Db> {
    if o !in db.files then Err(NotFound)
    else
      var f := db.files[o];
      var kept := if lines.Some? then lines.value else f.lines;
      if f.order.status != Draft || f.order.session.Some? then Err(Forbidden)
      else if !ValidLines(kept) || !Unreceived(kept) || !Numbered(kept) || !ActiveLineProducts(db.catalog, kept)
      then Err(NotReady)
      else
        var updated :- UpdateOrder(db, o, DraftHeader(f.order, input, Total(kept)), now);
        if lines.None? then Ok(updated)
        else
          var changed :- ChangeLines(updated, o, lines.value, now);
          Ok(changed.(serial := SerialAfter(db.serial, lines.value)))
  }

  /** The sequence behind the ids of the lines, which are in id order. */
  function SerialAfter(serial: Id, lines: seq<Line>): (r: Id)
    ensures r >= serial
    ensures Numbered(lines) ==> forall i :: 0 <= i < |lines| ==> lines[i].id < r
  {
    if lines != [] && lines[|lines| - 1].id >= serial then lines[|lines| - 1].id + 1 else serial
  }

  /** orderTransitionAllowed. */
  predicate TransitionAllowed(from: OrderStatus, to: OrderStatus) {
    || from == to
    || (from == Draft && (to == Sent || to == Cancelled))
    || (from == Sent && (to == Confirmed || to == PartiallyConfirmed || to == Cancelled))
    || ((from == Confirmed || from == PartiallyConfirmed || from == PartiallyReceived) && to == Cancelled)
    || (from == SubmissionUnknown && to == Draft)
  }

  /** updateOrder: `submitting` cannot be asked for; PunchOut orders are neither sent nor reset by hand. */
  function SetStatus(db: Db, o: Id, to: OrderStatus, supplierNumber: string, notes: string, guided: bool,
      now: Time): Result<Db> {
    if to == Submitting || |supplierNumber| > 120 then Err(NotReady)
    else if o !in db.files then Err(NotFound)
    else
      var was := db.files[o].order;
      if !TransitionAllowed(was.status, to) then Err(TransitionRefused)
      else if && was.session.Some?
              && ((was.status == Draft && to == Sent) || (was.status == SubmissionUnknown && to == Draft))
      then Err(TransitionRefused)
      else if guided && was.status == SubmissionUnknown then Err(Forbidden)
      else UpdateOrder(db, o, ManualRow(was, to, supplierNumber, notes, now), now)
  }

  /** The row of a manual change. */
  function ManualRow(was: Order, to: OrderStatus, supplierNumber: string, notes: string, now: Time): Order {
    was.(status := to, supplierNumber := Text.Trim(supplierNumber), notes := notes,
         orderDate := if to == Sent && was.orderDate.None? then Some(now) else was.orderDate)
  }

  /** The guided transitions of prepareProcurementApproval. */
  predicate GuidedTransition(from: OrderStatus, to: OrderStatus) {
    || (from == Draft && (to == Sent || to == Cancelled))
    || (from == Sent && (to == Confirmed || to == Cancelled))
    || ((from == Confirmed || from == PartiallyConfirmed || from == PartiallyReceived) && to == Cancelled)
  }

  /** approvalMCP on an order. */
  function ApproveOrder(db: Db, o: Id, to: OrderStatus, reason: string, now: Time): Result<Db> {
    if o !in db.files then Err(NotFound)
    else
      var f := db.files[o];
      var was := f.order;
      if || was.archived
         || !GuidedTransition(was.status, to) || (to == Cancelled && Text.Blank(reason))
         || (to == Sent && was.session.Some?)
      then Err(NotReady)
      else if && to != Cancelled
              && (|| !ValidLines(f.lines)
                  || !ActiveLineProducts(db.catalog, f.lines) || !ActiveSupplier(db.catalog, was.supplier)
                  || !UnarchivedRequisition(db.requisitions, was.requisition))
      then Err(NotReady)
      else
        UpdateOrder(db, o, GuidedRow(was, to, reason, now), now)
  }

  /** The row of a guided change; a cancellation appends its reason on a line of its own. */
  function GuidedRow(was: Order, to: OrderStatus, reason: string, now: Time): Order {
    var before := if was.notes == "" then "" else was.notes + "\n";
    was.(status := to, orderDate := if to == Sent && was.orderDate.None? then Some(now) else was.orderDate,
         notes := if to == Cancelled then before + "Cancellation: " + Text.Trim(reason) else was.notes)
  }

  /** The guided archive (true) and restore (false) of an order. */
  function ArchiveOrder(db: Db, o: Id, archive: bool, now: Time): Result<Db> {
    if o !in db.files then Err(NotFound)
    else
      var f := db.files[o];
      if || f.order.archived == archive
         || (archive && ((f.order.status != Draft && !Closed(f.order.status)) || OpenPutaway(db, o)))
         || (!archive
             && (|| !ActiveSupplier(db.catalog, f.order.supplier) || !ActiveLineProducts(db.catalog, f.lines)
                 || !UnarchivedRequisition(db.requisitions, f.order.requisition) || !ValidLines(f.lines)))
      then Err(NotReady)
      else UpdateOrder(db, o, f.order.(archived := archive), now)
  }

  /** Warehouse work on a putaway task. */
  function CloseTask(db: Db, task: Id): Result<Db> {
    if task !in db.warehouse.tasks then Err(NotFound)
    else
      Ok(db.(warehouse := db.warehouse.(tasks :=
                                        db.warehouse.tasks[task := db.warehouse.tasks[task].(closed := true)])))
  }
}
