/** What holds in every reachable state of the system. */
module Invariants {
  import opened Base
  import opened Schema
  import opened Triggers
  import opened Submission
  import opened World
  import Confirmations

  // ---------- lifecycle integrity ----------

  /** An active product has no category or an active one. */
  predicate CatalogOk(catalog: Catalog) {
    forall p ::
      p in catalog.products && catalog.products[p].active ==> ActiveCategory(catalog, catalog.products[p].category)
  }

  /** A live requisition has only active products. */
  predicate RequisitionOk(catalog: Catalog, r: Requisition) {
    LiveRequisition(r.status) && !r.archived ==> ActiveRequisitionProducts(catalog, r.lines)
  }

  /** An open order has an active supplier, active line products and an unarchived source requisition. */
  predicate ReferencesOk(catalog: Catalog, requisitions: map<Id, Requisition>, f: OrderFile) {
    !f.order.archived && !Closed(f.order.status) ==>
      && ActiveSupplier(catalog, f.order.supplier)
      && UnarchivedRequisition(requisitions, f.order.requisition)
      && ActiveLineProducts(catalog, f.lines)
  }

  /** Only drafts and closed orders are archived. */
  predicate ArchiveOk(f: OrderFile) {
    f.order.archived ==> f.order.status == Draft || Closed(f.order.status)
  }

  // ---------- claims ----------

  /** This very requisition, from this PunchOut session, was distinctly approved with exactly these payload lines. */
  predicate ApprovedCart(approvals: seq<Approval>, requisition: Option<Id>, session: Option<Id>,
      lines: seq<PayloadLine>) {
    exists i :: 0 <= i < |approvals| && ApprovesCart(approvals[i], requisition, session, lines)
  }

  predicate ApprovesCart(a: Approval, requisition: Option<Id>, session: Option<Id>, lines: seq<PayloadLine>) {
    && requisition == Some(a.requisition) && a.session == session && a.approver != a.requester
    && CartPayload(a.lines, lines)
  }

  /** Line for line the same part ids, quantity, unit, price and description. */
  predicate CartPayload(cart: seq<RequisitionLine>, lines: seq<PayloadLine>) {
    |cart| == |lines| && forall i :: 0 <= i < |lines| ==>
      && lines[i].part == cart[i].part && lines[i].auxiliary == cart[i].auxiliary
      && lines[i].quantity as real == cart[i].quantity && lines[i].unit == cart[i].unit
      && lines[i].priceCents == cart[i].priceCents && lines[i].description == cart[i].description
  }

  predicate ClaimOk(approvals: seq<Approval>, f: OrderFile) {
    match f.claim
    case None =>
      && f.order.status != Submitting && f.order.status != SubmissionUnknown
      && f.order.payloadId == "" && f.reconciliation.None? && f.confirmations == map[]
    case Some(c) =>
      && f.order.status != Draft && c.payloadId != ""
      && (c.status == Pending <==> c.outcome == NoOutcome)
      && (c.status != Pending ==> PossibleOutcome(c.provider, c.status, c.outcome))
      && (f.order.status == SubmissionUnknown ==> c.status == Unknown)
      && match c.provider
         case Amazon => && f.order.payloadId == c.payloadId && f.order.session.Some?
                        && c.payload == AmazonPayload(f.order.number, ToPayloadLines(f.lines))
                        && ApprovedCart(approvals, f.order.requisition, f.order.session, ToPayloadLines(f.lines))
         case AdamHall => f.order.payloadId == "" && f.order.session.None? && f.confirmations == map[]
                          && c.payload.AdamHallPayload? && c.payload.number == f.order.number
  }

  // ---------- lines, confirmations and receipts ----------

  predicate LinesOk(lines: seq<Line>) {
    Numbered(lines) && forall i :: 0 <= i < |lines| ==> lines[i].quantity > 0.0 && lines[i].received >= 0.0
  }

  ghost predicate ConfirmationsOk(f: OrderFile) {
    Confirmations.NonNegative(f.confirmations) && Confirmations.WithinQuantities(f.confirmations, f.lines)
  }

  /** Total quantity of the receipts of one order line. */
  function ReceivedSum(receipts: seq<Receipt>, o: Id, line: Id): real {
    if receipts == [] then 0.0
    else
      var last := receipts[|receipts| - 1];
      ReceivedSum(receipts[..|receipts| - 1], o, line)
        + (if last.order == o && last.line == line then last.quantity else 0.0)
  }

  predicate ReceivedStatus(s: OrderStatus) {
    s == PartiallyReceived || s == Received
  }

  /** A confirmed line has received at most what Amazon accepted, up to the tolerance. */
  ghost predicate WithinAccepted(f: OrderFile, line: Line) {
    f.order.session.Some? && Confirmations.LineKeys(f.confirmations, line.id) != {} ==>
      line.received <= Confirmations.Accepted(f.confirmations, line.id) + Confirmations.EPSILON
  }

  ghost predicate ReceiptsOk(receipts: seq<Receipt>, o: Id, f: OrderFile) {
    && (forall i :: 0 <= i < |f.lines| ==> f.lines[i].received == ReceivedSum(receipts, o, f.lines[i].id))
    && (!ReceivedStatus(f.order.status) && f.order.status != Cancelled ==>
          !HasReceipt(receipts, o) && forall i :: 0 <= i < |f.lines| ==> f.lines[i].received == 0.0)
    && (f.order.status == PartiallyReceived ==>
          exists i :: 0 <= i < |f.lines| && f.lines[i].received < f.lines[i].quantity)
    && (f.order.status == Received ==> forall i :: 0 <= i < |f.lines| ==> f.lines[i].received >= f.lines[i].quantity)
    && (ReceivedStatus(f.order.status) ==> forall i :: 0 <= i < |f.lines| ==> WithinAccepted(f, f.lines[i]))
  }

  // ---------- one order ----------

  ghost predicate FileOk(catalog: Catalog, requisitions: map<Id, Requisition>, receipts: seq<Receipt>,
      approvals: seq<Approval>, o: Id, f: OrderFile) {
    && ReferencesOk(catalog, requisitions, f)
    && ArchiveOk(f)
    && ClaimOk(approvals, f)
    && LinesOk(f.lines)
    && ConfirmationsOk(f)
    && ReceiptsOk(receipts, o, f)
  }

  ghost predicate FilesOk(db: Db, approvals: seq<Approval>) {
    forall o :: o in db.files ==> FileOk(db.catalog, db.requisitions, db.receipts, approvals, o, db.files[o])
  }

  predicate RequisitionsOk(db: Db) {
    forall r :: r in db.requisitions ==> RequisitionOk(db.catalog, db.requisitions[r])
  }

  /** Ids come from the sequence: everything stored is older than the next id. */
  predicate SerialOk(db: Db) {
    && (forall c :: c in db.catalog.categories ==> c < db.serial)
    && (forall p :: p in db.catalog.products ==> p < db.serial)
    && (forall s :: s in db.catalog.suppliers ==> s < db.serial)
    && (forall o :: o in db.files ==> o < db.serial)
    && (forall r :: r in db.requisitions ==> r < db.serial)
    && (forall i :: 0 <= i < |db.receipts| ==> db.receipts[i].order in db.files)
  }

  // ---------- records, processes, sends ----------

  /** The order an operation sends, if it is a submission. */
  function SentOrder(op: Operation): Option<Id> {
    match op
    case SendAmazon(o) => Some(o)
    case SendAdamHall(o) => Some(o)
    case ReconcileSubmission(_) => None
  }

  /** A submission record belongs to the claim committed with it. */
  predicate RecordOk(files: map<Id, OrderFile>, key: Key, record: Record) {
    match key.operation
    case ReconcileSubmission(o) => record.response.ReconciledResponse?
    case SendAmazon(o) => SendRecordOk(files, o, Amazon, record)
    case SendAdamHall(o) => SendRecordOk(files, o, AdamHall, record)
  }

  predicate SendRecordOk(files: map<Id, OrderFile>, o: Id, provider: Provider, record: Record) {
    && o in files && files[o].claim.Some? && files[o].claim.value.provider == provider
    && (|| record.response.PendingResponse?
        || (record.response.FinishedResponse? && files[o].claim.value.status != Pending))
    && record.response.order == o
  }

  predicate SameOrder(a: Operation, b: Operation) {
    SentOrder(a).Some? && SentOrder(a) == SentOrder(b)
  }

  /** Every record fits its claim, and one order has at most one submission record. */
  predicate RecordsOk(db: Db) {
    && (forall k :: k in db.records ==> RecordOk(db.files, k, db.records[k]))
    && (forall k, l :: k in db.records && l in db.records && SameOrder(k.operation, l.operation) ==> k == l)
  }

  predicate ProcessOk(db: Db, sends: seq<Send>, p: Process) {
    && p.order in db.files && db.files[p.order].claim.Some?
    && (p.key.Some? ==> p.key.value in db.records && SentOrder(p.key.value.operation) == Some(p.order))
    && var c := db.files[p.order].claim.value;
       match p.stage
       case Sending => c.status == Pending && !WasSent(sends, p.order)
       case Responded(status, outcome) => c.status == Pending && PossibleOutcome(c.provider, status, outcome)
       case Finalizing => c.status != Pending
  }

  predicate WasSent(sends: seq<Send>, o: Id) {
    exists i :: 0 <= i < |sends| && sends[i].order == o
  }

  /** One order has at most one process. */
  predicate ProcessesOk(w: World) {
    && (forall p :: p in w.processes ==> ProcessOk(w.db, w.sends, w.processes[p]))
    && (forall p, q :: p in w.processes && q in w.processes && w.processes[p].order == w.processes[q].order ==> p == q)
  }

  /** A send carries the identity and payload of the committed claim of its order. */
  predicate SendOk(files: map<Id, OrderFile>, s: Send) {
    && s.order in files && files[s.order].claim.Some?
    && var c := files[s.order].claim.value;
       s.provider == c.provider && s.payloadId == c.payloadId && s.payload == c.payload
  }

  predicate SendsOk(w: World) {
    && (forall i :: 0 <= i < |w.sends| ==> SendOk(w.db.files, w.sends[i]))
    && (forall i, j :: 0 <= i < j < |w.sends| ==> w.sends[i].order != w.sends[j].order)
  }

  // ---------- history ----------

  /** An approved or converted requisition still has the lines its decider approved. */
  predicate ApprovalsOk(requisitions: map<Id, Requisition>, approvals: seq<Approval>) {
    forall r :: r in requisitions && (requisitions[r].status == ReqApproved || requisitions[r].status == ReqOrdered) ==>
      && requisitions[r].approvedBy.Some?
      && WasApproved(approvals, Approved(r, requisitions[r], requisitions[r].approvedBy.value))
  }

  /** Every approval is of a requisition that still has its requester and session. */
  predicate ApprovalsKnown(requisitions: map<Id, Requisition>, approvals: seq<Approval>) {
    forall i :: 0 <= i < |approvals| ==> ApprovalKnown(requisitions, approvals[i])
  }

  predicate ApprovalKnown(requisitions: map<Id, Requisition>, a: Approval) {
    && a.requisition in requisitions && requisitions[a.requisition].requester == a.requester
    && requisitions[a.requisition].session == a.session
  }

  predicate WasApproved(approvals: seq<Approval>, a: Approval) {
    exists i :: 0 <= i < |approvals| && approvals[i] == a
  }

  /** Converted requisitions are `ordered` and each was converted once. */
  predicate ConvertedOk(requisitions: map<Id, Requisition>, converted: seq<Id>) {
    && (forall i :: 0 <= i < |converted| ==>
          converted[i] in requisitions && requisitions[converted[i]].status == ReqOrdered)
    && (forall i, j :: 0 <= i < j < |converted| ==> converted[i] != converted[j])
  }

  /** Every reachable state. */
  ghost predicate Inv(w: World) {
    && CatalogOk(w.db.catalog)
    && RequisitionsOk(w.db)
    && FilesOk(w.db, w.approvals)
    && SerialOk(w.db)
    && RecordsOk(w.db)
    && ProcessesOk(w)
    && SendsOk(w)
    && ApprovalsOk(w.db.requisitions, w.approvals)
    && ApprovalsKnown(w.db.requisitions, w.approvals)
    && ConvertedOk(w.db.requisitions, w.converted)
  }

  lemma InitInv()
    ensures Inv(Init())
  {
  }
}
