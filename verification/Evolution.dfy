/**
 What one step, and hence any run, can do to a stored order or requisition: versions, write-once claims,
 frozen lines, terminal statuses and the rank of a status.
 */
module Evolution {
  import opened Base
  import opened Schema
  import opened Triggers
  import opened Submission
  import opened World
  import opened Invariants
  import opened FileSteps
  import opened Preservation
  import opened Protocol
  import Confirmations
  import GoodsReceipts
  import Workflow

  /** Progress of an order through its life. */
  function Rank(s: OrderStatus): nat {
    match s
    case Draft => 0
    case Submitting => 1
    case SubmissionUnknown => 2
    case Sent => 3
    case Confirmed => 4
    case PartiallyConfirmed => 4
    case PartiallyReceived => 5
    case Received => 6
    case Cancelled => 6
  }

  /** The supplier's side of the order is known. */
  predicate Settled(s: OrderStatus) {
    s != Draft && s != Submitting && s != SubmissionUnknown
  }

  /** How far an order row may move: identity kept, closed stays closed, nothing returns to draft. */
  predicate StatusStep(was: Order, row: Order) {
    && row.number == was.number && row.session == was.session && row.requisition == was.requisition
    && (Closed(was.status) ==> row.status == was.status)
    && (was.status != Draft ==> row.status != Draft)
    && (row.status == Submitting ==> was.status == Submitting || was.status == Draft)
    && (row.status == SubmissionUnknown ==> !Settled(was.status))
    && (was.session.None? ==> row.status == was.status || Rank(row.status) > Rank(was.status))
  }

  /** Nothing received is ever taken back. */
  predicate Grows(lines: seq<Line>, lines': seq<Line>) {
    && CommercialLines(lines') == CommercialLines(lines)
    && forall i :: 0 <= i < |lines| && i < |lines'| ==> lines'[i].received >= lines[i].received
  }

  /** A committed claim fixes what was ordered; only its outcome may still be written, once. */
  predicate ClaimStep(f: OrderFile, g: OrderFile) {
    f.claim.Some? ==>
      && g.claim.Some? && ClaimUpdateAllowed(f.claim.value, g.claim.value)
      && Grows(f.lines, g.lines)
      && g.order.supplier == f.order.supplier && g.order.requisition == f.order.requisition
      && g.order.currency == f.order.currency && g.order.totalCents == f.order.totalCents
  }

  /** Row, lines and confirmations either stay or get a later version. */
  predicate VersionStep(f: OrderFile, g: OrderFile) {
    || (g.order == f.order && g.lines == f.lines && g.confirmations == f.confirmations)
    || g.order.version > f.order.version
  }

  /** Not yet asked of any supplier, or given up. */
  predicate Unopened(s: OrderStatus) {
    s == Draft || s == Cancelled
  }

  /** A PunchOut cart is never rewritten, and without a claim it is at most cancelled. */
  predicate PunchOutStep(f: OrderFile, g: OrderFile) {
    f.order.session.Some? ==>
      && CommercialLines(g.lines) == CommercialLines(f.lines)
      && (g.claim.None? && Unopened(f.order.status) ==> Unopened(g.order.status))
  }

  predicate FileStep(f: OrderFile, g: OrderFile) {
    && PunchOutStep(f, g)
    && VersionStep(f, g)
    && StatusStep(f.order, g.order)
    && ClaimStep(f, g)
    && (f.reconciliation.Some? ==> g.reconciliation == f.reconciliation)
    && (g.reconciliation != f.reconciliation || g.confirmations != f.confirmations ==> Settled(g.order.status))
  }

  lemma FileStepRefl(f: OrderFile)
    ensures FileStep(f, f)
  {
  }

  lemma FileStepTrans(f: OrderFile, g: OrderFile, h: OrderFile)
    requires FileStep(f, g) && FileStep(g, h)
    ensures FileStep(f, h)
  {
    if f.claim.Some? {
      forall i | 0 <= i < |f.lines| && i < |h.lines|
        ensures h.lines[i].received >= f.lines[i].received
      {
        assert |f.lines| == |CommercialLines(f.lines)| == |CommercialLines(g.lines)| == |g.lines|;
        assert g.lines[i].received >= f.lines[i].received;
      }
    }
  }

  /** An approved cart stays as it was approved; `ordered` is final. */
  predicate RequisitionStepped(was: Requisition, row: Requisition) {
    && row.session == was.session && row.requester == was.requester
    && (row == was || row.version > was.version)
    && (was.status == ReqApproved || was.status == ReqOrdered ==>
          && (row.status == ReqApproved || row.status == ReqOrdered)
          && row.lines == was.lines && row.approvedBy == was.approvedBy)
    && (was.status == ReqOrdered ==> row.status == ReqOrdered)
    && (was.status == ReqRejected ==> row.status == ReqRejected && row.lines == was.lines)
    && (was.session.Some? ==> row.lines == was.lines)
  }

  predicate FilesEvolve(files: map<Id, OrderFile>, files': map<Id, OrderFile>) {
    forall o :: o in files ==> o in files' && FileStep(files[o], files'[o])
  }

  predicate RequisitionsEvolve(before: map<Id, Requisition>, after: map<Id, Requisition>) {
    forall r :: r in before ==> r in after && RequisitionStepped(before[r], after[r])
  }

  /** A confirmation that was applied stays known, for the same order. */
  predicate EventsKept(events: map<string, Id>, events': map<string, Id>) {
    forall m :: m in events ==> m in events' && events'[m] == events[m]
  }

  /** The status stays or its rank rises. */
  predicate Climbs(was: OrderStatus, now: OrderStatus) {
    now == was || Rank(now) > Rank(was)
  }

  predicate FilesClimb(files: map<Id, OrderFile>, files': map<Id, OrderFile>) {
    forall o :: o in files && o in files' ==> Climbs(files[o].order.status, files'[o].order.status)
  }

  /**
   Databases related by one committed transaction; only where a confirmation was applied may a status fail to climb.
   */
  predicate Evolves(db: Db, db': Db) {
    && FilesEvolve(db.files, db'.files)
    && RequisitionsEvolve(db.requisitions, db'.requisitions)
    && EventsKept(db.events, db'.events)
    && (db'.events == db.events ==> FilesClimb(db.files, db'.files))
    && db.receipts <= db'.receipts
    && db.serial <= db'.serial
  }

  lemma Reflexive(db: Db)
    ensures Evolves(db, db)
  {
    forall o | o in db.files
      ensures FileStep(db.files[o], db.files[o])
    {
      FileStepRefl(db.files[o]);
    }
  }

  lemma Transitive(a: Db, b: Db, c: Db)
    requires Evolves(a, b) && Evolves(b, c)
    ensures Evolves(a, c)
  {
    forall o | o in a.files
      ensures o in c.files && FileStep(a.files[o], c.files[o])
    {
      FileStepTrans(a.files[o], b.files[o], c.files[o]);
    }
    assert EventsKept(a.events, c.events);
    if c.events == a.events {
      SameBetween(a.events, b.events);
      assert FilesClimb(a.files, c.files);
    }
  }

  /** Events kept in both directions are the same events. */
  lemma SameBetween(events: map<string, Id>, between: map<string, Id>)
    requires EventsKept(events, between) && EventsKept(between, events)
    ensures between == events
  {
  }

  /** One order file replaced. */
  lemma OneFile(db: Db, o: Id, g: OrderFile, db': Db)
    requires o in db.files && FileStep(db.files[o], g)
    requires db'.files == db.files[o := g] && db'.requisitions == db.requisitions && EventsKept(db.events, db'.events)
    requires Climbs(db.files[o].order.status, g.order.status) || db'.events != db.events
    requires db.receipts <= db'.receipts && db.serial <= db'.serial
    ensures Evolves(db, db')
  {
    Reflexive(db);
  }

  lemma OneRequisition(db: Db, r: Id, row: Requisition, db': Db)
    requires r in db.requisitions && RequisitionStepped(db.requisitions[r], row)
    requires db' == db.(requisitions := db.requisitions[r := row])
    ensures Evolves(db, db')
  {
    Reflexive(db);
  }

  /** The files are another transaction's business. */
  lemma Untouched(db: Db, db': Db)
    requires db'.files == db.files && db'.requisitions == db.requisitions && db'.events == db.events
    requires db'.receipts == db.receipts && db.serial <= db'.serial
    ensures Evolves(db, db')
  {
    Reflexive(db);
  }

  // ---------- single writes ----------

  lemma HeaderEvolves(db: Db, o: Id, row: Order, now: Time)
    requires o in db.files && UpdateOrder(db, o, row, now).Ok? && StatusStep(db.files[o].order, row)
    requires Climbs(db.files[o].order.status, row.status)
    requires db.files[o].order.session.Some? && db.files[o].claim.None? && Unopened(db.files[o].order.status) ==>
               Unopened(row.status)
    ensures Evolves(db, UpdateOrder(db, o, row, now).value)
  {
    var db' := UpdateOrder(db, o, row, now).value;
    OneFile(db, o, db'.files[o], db');
  }

  lemma LinesEvolve(db: Db, o: Id, lines: seq<Line>, now: Time)
    requires o in db.files && ChangeLines(db, o, lines, now).Ok?
    requires db.files[o].claim.Some? ==> Grows(db.files[o].lines, lines)
    requires db.files[o].order.session.Some? ==> CommercialLines(lines) == CommercialLines(db.files[o].lines)
    ensures Evolves(db, ChangeLines(db, o, lines, now).value)
  {
    var db' := ChangeLines(db, o, lines, now).value;
    OneFile(db, o, db'.files[o], db');
  }

  lemma InsertEvolves(db: Db, row: Order, lines: seq<Line>, now: Time)
    requires SerialOk(db) && InsertOrder(db, row, lines, now).Ok?
    ensures Evolves(db, InsertOrder(db, row, lines, now).value)
  {
    Reflexive(db);
  }

  // ---------- requisition and catalog transactions ----------

  lemma RequisitionEvolves(db: Db, a: Action)
    requires a.EditRequisition? || a.SubmitRequisition? || a.DecideRequisition? || a.ArchiveRequisition?
    requires Transaction(db, a).Ok?
    ensures Evolves(db, Transaction(db, a).value)
  {
    var db' := Transaction(db, a).value;
    OneRequisition(db, a.id, db'.requisitions[a.id], db');
  }

  lemma ConvertEvolves(db: Db, a: Action)
    requires SerialOk(db) && a.ConvertRequisition? && Transaction(db, a).Ok?
    ensures Evolves(db, Transaction(db, a).value)
  {
    var req := db.requisitions[a.id];
    var row := Workflow.ConvertedOrder(a.id, req, a.input, a.now);
    var created := InsertOrder(db, row, a.input.lines, a.now).value;
    InsertEvolves(db, row, a.input.lines, a.now);
    var db' := Transaction(db, a).value;
    OneRequisition(created, a.id, db'.requisitions[a.id], db');
    Transitive(db, created, db');
  }

  // ---------- order transactions ----------

  /** What the invariant says of drafts, uncertain orders and ids. */
  predicate Guarded(db: Db) {
    && SerialOk(db)
    && forall o :: o in db.files ==> GuardedFile(db.files[o])
  }

  predicate GuardedFile(f: OrderFile) {
    && (f.order.status == Draft ==> f.claim.None?) && (f.order.status == SubmissionUnknown ==> f.claim.Some?)
    && (f.order.payloadId != "" ==> f.claim.Some?)
  }

  lemma InvGuards(w: World)
    requires Inv(w)
    ensures Guarded(w.db)
  {
    forall o | o in w.db.files
      ensures GuardedFile(w.db.files[o])
    {
      assert Holds(w.db, w.approvals, o, w.db.files[o]);
    }
  }

  lemma EditDraftEvolves(db: Db, o: Id, input: Workflow.OrderInput, lines: Option<seq<Line>>, now: Time)
    requires Guarded(db) && Workflow.EditDraft(db, o, input, lines, now).Ok?
    ensures Evolves(db, Workflow.EditDraft(db, o, input, lines, now).value)
  {
    EditedDraft(db, o, input, lines, now);
    var f := db.files[o];
    assert GuardedFile(f);
    var total := Workflow.Total(if lines.Some? then lines.value else f.lines);
    var header := Workflow.DraftHeader(f.order, input, total);
    HeaderEvolves(db, o, header, now);
    if lines.Some? {
      var updated := UpdateOrder(db, o, header, now).value;
      var changed := ChangeLines(updated, o, lines.value, now).value;
      LinesEvolve(updated, o, lines.value, now);
      Transitive(db, updated, changed);
      Untouched(changed, changed.(serial := Workflow.SerialAfter(db.serial, lines.value)));
      Transitive(db, changed, changed.(serial := Workflow.SerialAfter(db.serial, lines.value)));
    }
  }

  lemma SetStatusEvolves(db: Db, o: Id, to: OrderStatus, number: string, notes: string, guided: bool, now: Time)
    requires Guarded(db) && Workflow.SetStatus(db, o, to, number, notes, guided, now).Ok?
    ensures Evolves(db, Workflow.SetStatus(db, o, to, number, notes, guided, now).value)
  {
    assert GuardedFile(db.files[o]);
    var was := db.files[o].order;
    var row := Workflow.ManualRow(was, to, number, notes, now);
    HeaderEvolves(db, o, row, now);
  }

  lemma ApproveOrderEvolves(db: Db, o: Id, to: OrderStatus, reason: string, now: Time)
    requires Workflow.ApproveOrder(db, o, to, reason, now).Ok?
    ensures Evolves(db, Workflow.ApproveOrder(db, o, to, reason, now).value)
  {
    var was := db.files[o].order;
    var row := Workflow.GuidedRow(was, to, reason, now);
    HeaderEvolves(db, o, row, now);
  }

  // ---------- submission transactions ----------

  lemma AmazonClaimEvolves(db: Db, user: Id, o: Id, payloadId: string, now: Time)
    requires o in db.files && db.files[o].order.status == Draft
    requires CommitAmazonClaim(db, user, o, payloadId, now).Ok?
    ensures Evolves(db, CommitAmazonClaim(db, user, o, payloadId, now).value)
  {
    var db' := CommitAmazonClaim(db, user, o, payloadId, now).value;
    OneFile(db, o, db'.files[o], db');
  }

  lemma AdamHallClaimEvolves(db: Db, user: Id, o: Id, checkout: Checkout, payloadId: string, now: Time)
    requires o in db.files && db.files[o].order.status == Draft && db.files[o].order.session.None?
    requires CommitAdamHallClaim(db, user, o, checkout, payloadId, now).Ok?
    ensures Evolves(db, CommitAdamHallClaim(db, user, o, checkout, payloadId, now).value)
  {
    var db' := CommitAdamHallClaim(db, user, o, checkout, payloadId, now).value;
    AdamHallClaimShape(db, user, o, checkout, payloadId, now);
    OneFile(db, o, db'.files[o], db');
  }

  lemma FinalizeEvolves(db: Db, o: Id, key: Option<Key>, now: Time)
    requires Finalize(db, o, key, now).Ok?
    ensures Evolves(db, Finalize(db, o, key, now).value)
  {
    var db' := Finalize(db, o, key, now).value;
    FinalizeShape(db, o, key, now);
    FileStepRefl(db.files[o]);
    OneFile(db, o, db'.files[o], db');
  }

  lemma ReplayEvolves(db: Db, key: Key, body: RequestBody, o: Id, now: Time)
    requires key in db.records && Replay(db, key, body, o, now).Ok?
    ensures Evolves(db, Replay(db, key, body, o, now).value.db)
  {
    Reflexive(db);
    if Finalize(db, o, Some(key), now).Ok? {
      FinalizeEvolves(db, o, Some(key), now);
    }
  }

  lemma AmazonEvolves(db: Db, user: Id, token: Option<string>, send: SendRequest, payloadId: string,
      configured: bool, now: Time)
    requires SubmitAmazon(db, user, token, send, payloadId, configured, now).Ok?
    ensures Evolves(db, SubmitAmazon(db, user, token, send, payloadId, configured, now).value.db)
  {
    if token.None? {
      NativeAmazon(db, user, send, payloadId, configured, now);
      AmazonClaimEvolves(db, user, send.order, payloadId, now);
    } else if Key(user, SendAmazon(send.order), token.value) in db.records {
      ReplayEvolves(db, Key(user, SendAmazon(send.order), token.value), SendBody(send), send.order, now);
    } else {
      GuidedAmazon(db, user, token.value, send, payloadId, configured, now);
      AmazonClaimEvolves(db, user, send.order, payloadId, now);
    }
  }

  lemma AdamHallEvolves(db: Db, user: Id, token: string, send: SendRequest, payloadId: string, configured: bool,
      now: Time)
    requires SubmitAdamHall(db, user, token, send, payloadId, configured, now).Ok?
    ensures Evolves(db, SubmitAdamHall(db, user, token, send, payloadId, configured, now).value.db)
  {
    if Key(user, SendAdamHall(send.order), token) in db.records {
      ReplayEvolves(db, Key(user, SendAdamHall(send.order), token), SendBody(send), send.order, now);
    } else {
      FirstAdamHall(db, user, token, send, payloadId, configured, now);
      AdamHallClaimEvolves(db, user, send.order, send.checkout.value, payloadId, now);
    }
  }

  lemma OutcomeEvolves(db: Db, o: Id, status: ClaimStatus, outcome: Outcome)
    requires RecordOutcome(db, o, status, outcome).Ok?
    ensures Evolves(db, RecordOutcome(db, o, status, outcome).value)
  {
    var db' := RecordOutcome(db, o, status, outcome).value;
    OneFile(db, o, db'.files[o], db');
  }

  lemma ReconcileEvolves(db: Db, user: Id, token: string, req: ReconcileRequest, now: Time)
    requires Reconcile(db, user, token, req, now).Ok?
    ensures Evolves(db, Reconcile(db, user, token, req, now).value.db)
  {
    Reflexive(db);
    if Key(user, ReconcileSubmission(req.order), token) !in db.records {
      ReconciledShape(db, user, token, req, now);
      var db' := Reconcile(db, user, token, req, now).value.db;
      OneFile(db, req.order, db'.files[req.order], db');
    }
  }

  /** A first reconciliation writes the order row and the reconciliation row of an unresolved order. */
  lemma ReconciledShape(db: Db, user: Id, token: string, req: ReconcileRequest, now: Time)
    requires Reconcile(db, user, token, req, now).Ok? && Key(user, ReconcileSubmission(req.order), token) !in db.records
    ensures req.order in db.files && db.files[req.order].claim.Some? && ReconcileReady(db, req, now)
    ensures var db' := Reconcile(db, user, token, req, now).value.db;
            && req.order in db'.files
            && db' == db.(files := db.files[req.order := db'.files[req.order]], records := db'.records)
    ensures var f := db.files[req.order];
            var g := Reconcile(db, user, token, req, now).value.db.files[req.order];
            && g.order == ReconciledOrder(f.order, req, now).(version := g.order.version)
            && g.order.version > f.order.version
            && g == f.(order := g.order,
                       reconciliation := Some(Reconciliation(user, req.resolution, req.supplierNumber, req.evidence)))
  {
  }

  // ---------- Amazon and warehouse ----------

  /** What an applied confirmation passed, and the commit it ends in. */
  lemma AppliedAs(db: Db, o: Id, m: Confirmations.Message, text: string, now: Time)
    requires Confirmations.Apply(db, o, m, text, now).Ok? && Confirmations.Precheck(db, o, m).None?
    ensures o in db.files && Confirmations.NextRows(db.files[o], m).Ok? && m.payloadId !in db.events
    ensures db.files[o].order.session.Some? && db.files[o].order.status != Received && db.files[o].order.payloadId != ""
    ensures var f := db.files[o];
            var rows := Confirmations.NextRows(f, m).value;
            Confirmations.Apply(db, o, m, text, now)
              == Confirmations.Commit(db, o, m, rows, Confirmations.StatusAfter(f.order, rows, f.lines), text, now)
  {
  }

  lemma CommittedSettles(order: Order, rows: map<ConfirmationKey, ConfirmationRow>, lines: seq<Line>)
    ensures Settled(Confirmations.StatusAfter(order, rows, lines))
  {
  }

  lemma ConfirmEvolves(db: Db, o: Id, m: Confirmations.Message, text: string, now: Time)
    requires Guarded(db) && Confirmations.Apply(db, o, m, text, now).Ok?
    ensures Evolves(db, Confirmations.Apply(db, o, m, text, now).value)
  {
    if Confirmations.Precheck(db, o, m).None? {
      AppliedAs(db, o, m, text, now);
      var f := db.files[o];
      assert GuardedFile(f);
      var rows := Confirmations.NextRows(f, m).value;
      CommittedSettles(f.order, rows, f.lines);
      CommitEvolves(db, o, m, rows, Confirmations.StatusAfter(f.order, rows, f.lines), text, now);
    } else {
      Reflexive(db);
    }
  }

  lemma CommitEvolves(db: Db, o: Id, m: Confirmations.Message, rows: map<ConfirmationKey, ConfirmationRow>,
      status: OrderStatus, text: string, now: Time)
    requires o in db.files && Confirmations.Commit(db, o, m, rows, status, text, now).Ok?
    requires db.files[o].order.session.Some? && db.files[o].order.status != Received && Settled(status)
    requires db.files[o].claim.Some? && m.payloadId !in db.events
    ensures Evolves(db, Confirmations.Commit(db, o, m, rows, status, text, now).value)
  {
    var db' := Confirmations.Commit(db, o, m, rows, status, text, now).value;
    CommitShape(db, o, m, rows, status, text, now);
    OneFile(db, o, db'.files[o], db');
  }

  lemma ReceiveEvolves(db: Db, o: Id, input: GoodsReceipts.ReceiptInput, guided: bool, user: Id, now: Time)
    requires input.quantity > 0.0 && GoodsReceipts.Receive(db, o, input, guided, user, now).Ok?
    ensures Evolves(db, GoodsReceipts.Receive(db, o, input, guided, user, now).value)
  {
    var f := db.files[o];
    var p := Confirmations.Position(f.lines, input.line);
    var row := GoodsReceipts.ReceiptRow(db, o, f.lines[p], input, user);
    var stocked := GoodsReceipts.Stocked(db, f.lines[p], input, guided).value;
    StockedShape(db, f.lines[p], input, guided);
    Untouched(db, stocked);
    BookEvolves(stocked, o, p, input.quantity, row, now);
    Transitive(db, stocked, GoodsReceipts.BookOrder(stocked, o, p, input.quantity, row, now).value);
  }

  lemma BookEvolves(db: Db, o: Id, p: nat, quantity: real, row: Receipt, now: Time)
    requires o in db.files && p < |db.files[o].lines| && quantity > 0.0
    requires GoodsReceipts.Receivable(db.files[o].order.status)
    requires GoodsReceipts.BookOrder(db, o, p, quantity, row, now).Ok?
    ensures Evolves(db, GoodsReceipts.BookOrder(db, o, p, quantity, row, now).value)
  {
    var db' := GoodsReceipts.BookOrder(db, o, p, quantity, row, now).value;
    BookedShape(db, o, p, quantity, row, now);
    assert Grows(db.files[o].lines, db'.files[o].lines);
    OneFile(db, o, db'.files[o], db');
  }

  // ---------- every step, every run ----------

  predicate OrderAction(a: Action) {
    a.NewOrder? || a.EditDraft? || a.SetStatus? || a.ApproveOrder? || a.ArchiveOrder?
  }

  predicate SupplierAction(a: Action) {
    a.ReconcileOrder? || a.Confirm? || a.Receive?
  }

  lemma OrderEvolves(db: Db, a: Action)
    requires Guarded(db) && OrderAction(a) && Transaction(db, a).Ok?
    ensures Evolves(db, Transaction(db, a).value)
  {
    match a
    case NewOrder(input, now) =>
      InsertEvolves(db, Workflow.NewOrder(input, None, input.status, now), Workflow.Fresh(input.lines), now);
    case EditDraft(id, input, lines, _, now) => EditDraftEvolves(db, id, input, lines, now);
    case SetStatus(id, to, number, notes, check, now) => SetStatusEvolves(db, id, to, number, notes, check.guided, now);
    case ApproveOrder(id, to, reason, _, now) => ApproveOrderEvolves(db, id, to, reason, now);
    case ArchiveOrder(id, archive, _, now) => HeaderEvolves(db, id, db.files[id].order.(archived := archive), now);
  }

  lemma SupplierEvolves(db: Db, a: Action)
    requires Guarded(db) && SupplierAction(a) && Transaction(db, a).Ok?
    ensures Evolves(db, Transaction(db, a).value)
  {
    match a
    case ReconcileOrder(user, key, request, now) => ReconcileEvolves(db, user, key, request, now);
    case Confirm(id, message, text, now) => ConfirmEvolves(db, id, message, text, now);
    case Receive(id, receipt, guided, user, now) => ReceiveEvolves(db, id, receipt, guided, user, now);
  }

  lemma DemandEvolves(db: Db, a: Action)
    requires Guarded(db) && !OrderAction(a) && !SupplierAction(a) && Transaction(db, a).Ok?
    ensures Evolves(db, Transaction(db, a).value)
  {
    var db' := Transaction(db, a).value;
    Reflexive(db);
    if a.EditRequisition? || a.SubmitRequisition? || a.DecideRequisition? || a.ArchiveRequisition? {
      RequisitionEvolves(db, a);
    } else if a.ConvertRequisition? {
      ConvertEvolves(db, a);
    } else if !a.NewRequisition? {
      Untouched(db, db');
    }
  }

  lemma TransactionEvolves(db: Db, a: Action)
    requires Guarded(db) && Transaction(db, a).Ok?
    ensures Evolves(db, Transaction(db, a).value)
  {
    if OrderAction(a) {
      OrderEvolves(db, a);
    } else if SupplierAction(a) {
      SupplierEvolves(db, a);
    } else {
      DemandEvolves(db, a);
    }
  }

  /** The histories of a world only grow. */
  predicate Extends(w: World, w': World) {
    && Evolves(w.db, w'.db)
    && w.sends <= w'.sends && w.approvals <= w'.approvals && w.converted <= w'.converted
  }

  lemma BeginExtends(w: World, p: nat, r: Result<Reply>, o: Id, key: Option<Key>)
    requires r.Ok? ==> Evolves(w.db, r.value.db)
    ensures Extends(w, Begin(w, p, r, o, key))
  {
    Reflexive(w.db);
  }

  lemma AmazonExtends(w: World, p: nat, user: Id, token: Option<string>, send: SendRequest, payloadId: string,
      configured: bool, now: Time)
    ensures Extends(w, Begin(w, p, AmazonReply(w.db, user, token, send, payloadId, configured, now), send.order,
                             AmazonKey(user, token, send.order)))
  {
    var r := AmazonReply(w.db, user, token, send, payloadId, configured, now);
    if r.Ok? {
      AmazonEvolves(w.db, user, token, send, payloadId, configured, now);
    }
    BeginExtends(w, p, r, send.order, AmazonKey(user, token, send.order));
  }

  lemma AdamHallExtends(w: World, p: nat, user: Id, token: string, send: SendRequest, payloadId: string,
      configured: bool, now: Time)
    ensures Extends(w, Begin(w, p, AdamHallReply(w.db, user, token, send, payloadId, configured, now), send.order,
                             Some(Key(user, SendAdamHall(send.order), token))))
  {
    var r := AdamHallReply(w.db, user, token, send, payloadId, configured, now);
    if r.Ok? {
      AdamHallEvolves(w.db, user, token, send, payloadId, configured, now);
    }
    BeginExtends(w, p, r, send.order, Some(Key(user, SendAdamHall(send.order), token)));
  }

  lemma RequestExtends(w: World, a: Action)
    requires a.RequestAmazon? || a.RequestAdamHall?
    ensures Extends(w, Step(w, a))
  {
    match a
    case RequestAmazon(p, user, token, send, payloadId, configured, now) =>
      AmazonExtends(w, p, user, token, send, payloadId, configured, now);
    case RequestAdamHall(p, user, key, send, payloadId, configured, now) =>
      AdamHallExtends(w, p, user, key, send, payloadId, configured, now);
  }

  lemma SaveExtends(w: World, p: nat)
    ensures Extends(w, Save(w, p))
  {
    Reflexive(w.db);
    if p in w.processes && w.processes[p].stage.Responded? {
      var x := w.processes[p];
      if RecordOutcome(w.db, x.order, x.stage.status, x.stage.outcome).Ok? {
        OutcomeEvolves(w.db, x.order, x.stage.status, x.stage.outcome);
      }
    }
  }

  lemma SettleExtends(w: World, p: nat, now: Time)
    ensures Extends(w, Settle(w, p, now))
  {
    Reflexive(w.db);
    if p in w.processes && Finalize(w.db, w.processes[p].order, w.processes[p].key, now).Ok? {
      FinalizeEvolves(w.db, w.processes[p].order, w.processes[p].key, now);
    }
  }

  /** A call and a crash write no table. */
  lemma OutsideExtends(w: World, a: Action)
    requires a.SendOut? || a.Crash?
    ensures Extends(w, Step(w, a))
  {
    Reflexive(w.db);
    assert Step(w, a).db == w.db;
  }

  lemma PhaseExtends(w: World, a: Action)
    requires Phase(a)
    ensures Extends(w, Step(w, a))
  {
    if a.SaveOutcome? {
      SaveExtends(w, a.process);
    } else if a.FinalizeOrder? {
      SettleExtends(w, a.process, a.now);
    } else {
      OutsideExtends(w, a);
    }
  }

  lemma StepExtends(w: World, a: Action)
    requires Guarded(w.db)
    ensures Extends(w, Step(w, a))
  {
    if Phase(a) {
      PhaseExtends(w, a);
    } else if a.RequestAmazon? || a.RequestAdamHall? {
      RequestExtends(w, a);
    } else if Transaction(w.db, a).Ok? {
      TransactionEvolves(w.db, a);
    } else {
      Reflexive(w.db);
    }
  }

  /** Any run, from any good state: what FileStep says of one step holds of the whole run. */
  lemma {:induction false} RunExtends(w: World, actions: seq<Action>)
    requires Inv(w)
    ensures Extends(w, Run(w, actions))
    decreases |actions|
  {
    if actions == [] {
      Reflexive(w.db);
    } else {
      var next := Step(w, actions[0]);
      InvGuards(w);
      StepExtends(w, actions[0]);
      StepKeeps(w, actions[0]);
      RunExtends(next, actions[1..]);
      Transitive(w.db, next.db, Run(w, actions).db);
    }
  }
}
