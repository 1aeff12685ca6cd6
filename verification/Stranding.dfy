/**
 Which crashed submissions can still be finished. A keyed request leaves a record by which its replay finalizes the
 order; a native Amazon request leaves none, and an accepted outcome is then beyond finalization and reconciliation.
 */
module Stranding {
  import opened Base
  import opened Schema
  import opened Submission
  import opened World
  import opened Invariants
  import opened FileSteps
  import opened Preservation
  import opened Protocol
  import opened Evolution
  import opened Recovery
  import Confirmations
  import GoodsReceipts
  import Safety

  // ---------- recorded requests can be repeated ----------

  /**
   A submission record holds the request it answers, and is finished only once the order is; a reconciliation record
   stands beside the reconciliation of its order. What either answers is true.
   */
  predicate RequestOk(files: map<Id, OrderFile>, key: Key, record: Record) {
    match key.operation
    case ReconcileSubmission(o) =>
      && o in files && files[o].reconciliation.Some?
      && TellsReconciliation(files[o].reconciliation.value, key.user, o, record)
    case _ =>
      var o := SentOrder(key.operation).value;
      && record.request.SendBody? && record.request.send.order == o && record.request.send.expectedContext.Some?
      && (!record.response.PendingResponse? ==> o in files && files[o].order.status != Submitting)
      && o in files && TellsSubmission(files[o], key.user, o, record)
  }

  /**
   The stored answer to a submission: accepted for processing with 202 while it is pending, then with 200 what the
   supplier's answer was and what became of the order, for the user who claimed it.
   */
  predicate TellsSubmission(f: OrderFile, user: Id, o: Id, record: Record) {
    && f.claim.Some? && f.claim.value.user == user
    && record.response.order == o
    && record.response.snapshot.number == f.order.number && record.response.snapshot.totalCents == f.order.totalCents
    && match record.response
       case PendingResponse(_, snapshot) => record.statusCode == 202 && snapshot.status == Submitting
       case FinishedResponse(_, snapshot, status, outcome) =>
         && record.statusCode == 200 && snapshot.status != Submitting
         && outcome == f.claim.value.status && outcome != Pending
         && (status == Sent <==> outcome == Accepted) && (status == SubmissionUnknown <==> outcome == Unknown)
       case ReconciledResponse(_, _, _) => false
  }

  /** The stored answer to a reconciliation: who decided what, on the evidence of the recorded request. */
  predicate TellsReconciliation(r: Reconciliation, user: Id, o: Id, record: Record) {
    && record.request.ReconcileBody? && record.request.reconcile.order == o && record.statusCode == 200
    && record.response.ReconciledResponse? && record.response.order == o
    && record.response.resolution == r.resolution == record.request.reconcile.resolution
    && r.user == user && r.evidence == record.request.reconcile.evidence
    && r.supplierNumber == record.request.reconcile.supplierNumber
    && record.response.snapshot.status == (if r.resolution == FoundOrder then Sent else Cancelled)
  }

  predicate RequestsOk(db: Db) {
    forall k :: k in db.records ==> RequestOk(db.files, k, db.records[k])
  }

  /** Claimed orders never become `submitting` again, so records stay right under any order step. */
  lemma RequestsFrame(w: World, db': Db)
    requires Inv(w) && RequestsOk(w.db) && Evolves(w.db, db') && db'.records == w.db.records
    ensures RequestsOk(db')
  {
    forall k | k in db'.records
      ensures RequestOk(db'.files, k, db'.records[k])
    {
      RecordFrame(w, db', k);
    }
  }

  lemma RecordFrame(w: World, db': Db, k: Key)
    requires Inv(w) && k in w.db.records && RequestOk(w.db.files, k, w.db.records[k]) && Evolves(w.db, db')
    ensures RequestOk(db'.files, k, w.db.records[k])
  {
    if SentOrder(k.operation).Some? {
      var o := SentOrder(k.operation).value;
      assert RecordOk(w.db.files, k, w.db.records[k]);
      assert Holds(w.db, w.approvals, o, w.db.files[o]);
      assert FileStep(w.db.files[o], db'.files[o]);
    } else {
      var o := k.operation.order;
      assert FileStep(w.db.files[o], db'.files[o]);
    }
  }

  /** One record written next to the others. */
  lemma RecordWritten(w: World, db': Db, k: Key)
    requires Inv(w) && RequestsOk(w.db) && Evolves(w.db, db')
    requires k in db'.records && db'.records == w.db.records[k := db'.records[k]]
    requires RequestOk(db'.files, k, db'.records[k])
    ensures RequestsOk(db')
  {
    forall l | l in db'.records
      ensures RequestOk(db'.files, l, db'.records[l])
    {
      if l != k {
        RecordFrame(w, db', l);
      }
    }
  }

  lemma FinalizeRequests(w: World, o: Id, key: Option<Key>, now: Time)
    requires Inv(w) && RequestsOk(w.db) && Answerable(w.db, o) && Finalize(w.db, o, key, now).Ok?
    requires key.Some? ==> key.value in w.db.records && SentOrder(key.value.operation) == Some(o)
    ensures RequestsOk(Finalize(w.db, o, key, now).value)
  {
    var db' := Finalize(w.db, o, key, now).value;
    FinalizeEvolves(w.db, o, key, now);
    FinalizeShape(w.db, o, key, now);
    SettledLeaves(w.db, o, key, now);
    if key.None? {
      RequestsFrame(w, db');
    } else {
      assert RequestOk(w.db.files, key.value, w.db.records[key.value]);
      RecordWritten(w, db', key.value);
    }
  }

  lemma AmazonRequests(w: World, user: Id, token: Option<string>, send: SendRequest, payloadId: string,
      configured: bool, now: Time)
    requires Inv(w) && RequestsOk(w.db) && SubmitAmazon(w.db, user, token, send, payloadId, configured, now).Ok?
    ensures RequestsOk(SubmitAmazon(w.db, user, token, send, payloadId, configured, now).value.db)
  {
    AmazonEvolves(w.db, user, token, send, payloadId, configured, now);
    if token.None? {
      NativeRecord(w.db, user, send, payloadId, configured, now);
      RequestsFrame(w, SubmitAmazon(w.db, user, token, send, payloadId, configured, now).value.db);
    } else if Key(user, SendAmazon(send.order), token.value) in w.db.records {
      ReplayedAmazon(w.db, user, token.value, send, payloadId, configured, now);
      ReplayRequests(w, Key(user, SendAmazon(send.order), token.value), SendBody(send), send.order, now);
    } else {
      GuidedRequests(w, user, token.value, send, payloadId, configured, now);
    }
  }

  lemma GuidedRequests(w: World, user: Id, token: string, send: SendRequest, payloadId: string, configured: bool,
      now: Time)
    requires Inv(w) && RequestsOk(w.db) && SubmitAmazon(w.db, user, Some(token), send, payloadId, configured, now).Ok?
    requires Key(user, SendAmazon(send.order), token) !in w.db.records
    ensures RequestsOk(SubmitAmazon(w.db, user, Some(token), send, payloadId, configured, now).value.db)
  {
    AmazonEvolves(w.db, user, Some(token), send, payloadId, configured, now);
    GuidedRecord(w.db, user, token, send, payloadId, configured, now);
    GuidedTells(w.db, user, token, send, payloadId, configured, now);
    RecordWritten(w, SubmitAmazon(w.db, user, Some(token), send, payloadId, configured, now).value.db,
                  Key(user, SendAmazon(send.order), token));
  }

  lemma GuidedTells(db: Db, user: Id, token: string, send: SendRequest, payloadId: string, configured: bool, now: Time)
    requires SubmitAmazon(db, user, Some(token), send, payloadId, configured, now).Ok?
    requires Key(user, SendAmazon(send.order), token) !in db.records
    ensures var key := Key(user, SendAmazon(send.order), token);
            var db' := SubmitAmazon(db, user, Some(token), send, payloadId, configured, now).value.db;
            key in db'.records && RequestOk(db'.files, key, db'.records[key])
  {
    GuidedAmazon(db, user, token, send, payloadId, configured, now);
    AmazonClaimShape(db, user, send.order, payloadId, now);
  }

  /** A native request writes none. */
  lemma NativeRecord(db: Db, user: Id, send: SendRequest, payloadId: string, configured: bool, now: Time)
    requires SubmitAmazon(db, user, None, send, payloadId, configured, now).Ok?
    ensures SubmitAmazon(db, user, None, send, payloadId, configured, now).value.db.records == db.records
  {
  }

  /** A first guided request writes the record of exactly this request. */
  lemma GuidedRecord(db: Db, user: Id, token: string, send: SendRequest, payloadId: string, configured: bool, now: Time)
    requires SubmitAmazon(db, user, Some(token), send, payloadId, configured, now).Ok?
    requires Key(user, SendAmazon(send.order), token) !in db.records
    ensures var key := Key(user, SendAmazon(send.order), token);
            var records := SubmitAmazon(db, user, Some(token), send, payloadId, configured, now).value.db.records;
            key in records && records == db.records[key := records[key]] && FirstRecord(send, records[key])
  {
    GuidedAmazon(db, user, token, send, payloadId, configured, now);
    AmazonClaimShape(db, user, send.order, payloadId, now);
  }

  predicate FirstRecord(send: SendRequest, record: Record) {
    record.request == SendBody(send) && send.expectedContext.Some? && record.response.PendingResponse?
  }

  lemma AdamHallRequests(w: World, user: Id, token: string, send: SendRequest, payloadId: string, configured: bool,
      now: Time)
    requires Inv(w) && RequestsOk(w.db) && SubmitAdamHall(w.db, user, token, send, payloadId, configured, now).Ok?
    ensures RequestsOk(SubmitAdamHall(w.db, user, token, send, payloadId, configured, now).value.db)
  {
    var db' := SubmitAdamHall(w.db, user, token, send, payloadId, configured, now).value.db;
    AdamHallEvolves(w.db, user, token, send, payloadId, configured, now);
    var key := Key(user, SendAdamHall(send.order), token);
    if key in w.db.records {
      ReplayedAdamHall(w.db, user, token, send, payloadId, configured, now);
      ReplayRequests(w, key, SendBody(send), send.order, now);
    } else {
      FirstAdamHall(w.db, user, token, send, payloadId, configured, now);
      AdamHallClaimShape(w.db, user, send.order, send.checkout.value, payloadId, now);
      RecordWritten(w, db', key);
    }
  }

  lemma ReplayRequests(w: World, key: Key, body: RequestBody, o: Id, now: Time)
    requires Inv(w) && RequestsOk(w.db) && key in w.db.records && SentOrder(key.operation) == Some(o)
    requires Replay(w.db, key, body, o, now).Ok?
    ensures RequestsOk(Replay(w.db, key, body, o, now).value.db)
  {
    if w.db.records[key].response.PendingResponse? && Answerable(w.db, o) {
      FinalizeRequests(w, o, Some(key), now);
    }
  }

  lemma ReconcileRequests(w: World, user: Id, token: string, req: ReconcileRequest, now: Time)
    requires Inv(w) && RequestsOk(w.db) && Reconcile(w.db, user, token, req, now).Ok?
    ensures RequestsOk(Reconcile(w.db, user, token, req, now).value.db)
  {
    var key := Key(user, ReconcileSubmission(req.order), token);
    var db' := Reconcile(w.db, user, token, req, now).value.db;
    ReconcileEvolves(w.db, user, token, req, now);
    ReconcileRecords(w.db, user, token, req, now);
    if key in w.db.records {
      assert db' == w.db;
    } else {
      ReconcileTells(w.db, user, token, req, now);
      RecordWritten(w, db', key);
    }
  }

  lemma ReconcileTells(db: Db, user: Id, token: string, req: ReconcileRequest, now: Time)
    requires Reconcile(db, user, token, req, now).Ok? && Key(user, ReconcileSubmission(req.order), token) !in db.records
    ensures var key := Key(user, ReconcileSubmission(req.order), token);
            var db' := Reconcile(db, user, token, req, now).value.db;
            key in db'.records && RequestOk(db'.files, key, db'.records[key])
  {
    ReconciledShape(db, user, token, req, now);
  }

  lemma ReconcileRecords(db: Db, user: Id, token: string, req: ReconcileRequest, now: Time)
    requires Reconcile(db, user, token, req, now).Ok?
    ensures var key := Key(user, ReconcileSubmission(req.order), token);
            var records := Reconcile(db, user, token, req, now).value.db.records;
            key in records && records == db.records[key := records[key]]
  {
  }

  /** Only submissions and reconciliations write records. */
  lemma RecordsKept(db: Db, a: Action)
    requires !a.ReconcileOrder? && Transaction(db, a).Ok?
    ensures Transaction(db, a).value.records == db.records
  {
    if a.Receive? {
      ReceiveKeepsRecords(db, a.id, a.receipt, a.guided, a.user, a.now);
    } else if a.Confirm? {
      ApplyShape(db, a.id, a.message, a.text, a.now);
    } else if OrderAction(a) {
      OrderKeepsRecords(db, a);
    } else {
      DemandKeepsRecords(db, a);
    }
  }

  lemma OrderKeepsRecords(db: Db, a: Action)
    requires OrderAction(a) && Transaction(db, a).Ok?
    ensures Transaction(db, a).value.records == db.records
  {
  }

  lemma DemandKeepsRecords(db: Db, a: Action)
    requires !OrderAction(a) && !SupplierAction(a) && Transaction(db, a).Ok?
    ensures Transaction(db, a).value.records == db.records
  {
  }

  lemma ReceiveKeepsRecords(db: Db, o: Id, input: GoodsReceipts.ReceiptInput, guided: bool, user: Id, now: Time)
    requires GoodsReceipts.Receive(db, o, input, guided, user, now).Ok?
    ensures GoodsReceipts.Receive(db, o, input, guided, user, now).value.records == db.records
    ensures o in db.files && GoodsReceipts.Receivable(db.files[o].order.status)
    ensures var files := GoodsReceipts.Receive(db, o, input, guided, user, now).value.files;
            o in files && files == db.files[o := files[o]]
  {
    var f := db.files[o];
    var p := Confirmations.Position(f.lines, input.line);
    StockedShape(db, f.lines[p], input, guided);
    var stocked := GoodsReceipts.Stocked(db, f.lines[p], input, guided).value;
    BookedShape(stocked, o, p, input.quantity, GoodsReceipts.ReceiptRow(db, o, f.lines[p], input, user), now);
  }

  lemma SaveRequests(w: World, p: nat)
    requires Inv(w) && RequestsOk(w.db)
    ensures RequestsOk(Save(w, p).db)
  {
    SaveExtends(w, p);
    RequestsFrame(w, Save(w, p).db);
  }

  lemma SettleRequests(w: World, p: nat, now: Time)
    requires Inv(w) && RequestsOk(w.db)
    ensures RequestsOk(Settle(w, p, now).db)
  {
    if p in w.processes && w.processes[p].stage == Finalizing {
      Finalizable(w, p, now);
      assert ProcessOk(w.db, w.sends, w.processes[p]);
      FinalizeRequests(w, w.processes[p].order, w.processes[p].key, now);
    }
  }

  lemma PhaseRequests(w: World, a: Action)
    requires Inv(w) && RequestsOk(w.db) && Phase(a)
    ensures RequestsOk(Step(w, a).db)
  {
    match a
    case SendOut(_, _, _) =>
    case SaveOutcome(p) => SaveRequests(w, p);
    case FinalizeOrder(p, now) => SettleRequests(w, p, now);
    case Crash(_) =>
  }

  /** A request leaves the database as it was, or as its reply says. */
  lemma BeginRequests(w: World, p: nat, r: Result<Reply>, o: Id, key: Option<Key>)
    requires RequestsOk(w.db) && (r.Ok? ==> RequestsOk(r.value.db))
    ensures RequestsOk(Begin(w, p, r, o, key).db)
  {
  }

  lemma AmazonStepRequests(w: World, a: Action)
    requires Inv(w) && RequestsOk(w.db) && a.RequestAmazon?
    ensures RequestsOk(Step(w, a).db)
  {
    var r := AmazonReply(w.db, a.user, a.token, a.send, a.payloadId, a.configured, a.now);
    if r.Ok? {
      AmazonRequests(w, a.user, a.token, a.send, a.payloadId, a.configured, a.now);
    }
    BeginRequests(w, a.process, r, a.send.order, AmazonKey(a.user, a.token, a.send.order));
  }

  lemma AdamHallStepRequests(w: World, a: Action)
    requires Inv(w) && RequestsOk(w.db) && a.RequestAdamHall?
    ensures RequestsOk(Step(w, a).db)
  {
    var r := AdamHallReply(w.db, a.user, a.key, a.send, a.payloadId, a.configured, a.now);
    if r.Ok? {
      AdamHallRequests(w, a.user, a.key, a.send, a.payloadId, a.configured, a.now);
    }
    BeginRequests(w, a.process, r, a.send.order, Some(Key(a.user, SendAdamHall(a.send.order), a.key)));
  }

  lemma StepRequests(w: World, a: Action)
    requires Inv(w) && RequestsOk(w.db)
    ensures RequestsOk(Step(w, a).db)
  {
    if Phase(a) {
      PhaseRequests(w, a);
    } else if a.RequestAmazon? {
      AmazonStepRequests(w, a);
    } else if a.RequestAdamHall? {
      AdamHallStepRequests(w, a);
    } else {
      TransactionRequests(w, a);
    }
  }

  lemma TransactionRequests(w: World, a: Action)
    requires Inv(w) && RequestsOk(w.db) && !Phase(a) && !a.RequestAmazon? && !a.RequestAdamHall?
    ensures RequestsOk(Step(w, a).db)
  {
    var r := Transaction(w.db, a);
    if r.Ok? {
      if a.ReconcileOrder? {
        ReconcileRequests(w, a.user, a.key, a.request, a.now);
      } else {
        RecordsKept(w.db, a);
        InvGuards(w);
        TransactionEvolves(w.db, a);
        RequestsFrame(w, r.value);
      }
    }
  }

  lemma {:induction false} RunRequests(w: World, actions: seq<Action>)
    requires Inv(w) && RequestsOk(w.db)
    ensures RequestsOk(Run(w, actions).db)
    decreases |actions|
  {
    if actions != [] {
      StepRequests(w, actions[0]);
      StepKeeps(w, actions[0]);
      RunRequests(Step(w, actions[0]), actions[1..]);
    }
  }

  // ---------- stranded orders ----------

  predicate Recorded(db: Db, o: Id) {
    exists k :: k in db.records && SentOrder(k.operation) == Some(o)
  }

  predicate InFlight(w: World, o: Id) {
    exists p :: p in w.processes && w.processes[p].order == o
  }

  /** Accepted by the supplier and saved, still `submitting`, and no process left to finalize it. */
  predicate Abandoned(w: World, o: Id) {
    && o in w.db.files && w.db.files[o].order.status == Submitting
    && w.db.files[o].claim.Some? && w.db.files[o].claim.value.status == Accepted
    && !InFlight(w, o)
  }

  predicate Stranded(w: World, o: Id) {
    Abandoned(w, o) && !Recorded(w.db, o)
  }

  /** No handler but a confirmation moves an accepted order out of `submitting`. */
  lemma OrderActionLeaves(db: Db, a: Action, o: Id)
    requires OrderAction(a) && Transaction(db, a).Ok? && SerialOk(db)
    requires o in db.files && db.files[o].order.status == Submitting
    ensures o in Transaction(db, a).value.files && Transaction(db, a).value.files[o].order.status == Submitting
  {
    match a
    case NewOrder(_, _) =>
    case EditDraft(_, _, _, _, _) => EditDraftLeaves(db, a, o);
    case SetStatus(_, _, _, _, _, _) => StatusActionLeaves(db, a, o);
    case ApproveOrder(_, _, _, _, _) => StatusActionLeaves(db, a, o);
    case ArchiveOrder(_, _, _, _) => StatusActionLeaves(db, a, o);
  }

  lemma EditDraftLeaves(db: Db, a: Action, o: Id)
    requires a.EditDraft? && Transaction(db, a).Ok? && o in db.files && db.files[o].order.status == Submitting
    ensures o in Transaction(db, a).value.files && Transaction(db, a).value.files[o] == db.files[o]
  {
  }

  lemma StatusActionLeaves(db: Db, a: Action, o: Id)
    requires a.SetStatus? || a.ApproveOrder? || a.ArchiveOrder?
    requires Transaction(db, a).Ok? && o in db.files && db.files[o].order.status == Submitting
    ensures o in Transaction(db, a).value.files && Transaction(db, a).value.files[o].order.status == Submitting
  {
  }

  lemma SupplierActionLeaves(db: Db, a: Action, o: Id)
    requires SupplierAction(a) && Transaction(db, a).Ok? && !(a.Confirm? && a.id == o)
    requires o in db.files && db.files[o].order.status == Submitting
    requires db.files[o].claim.Some? && db.files[o].claim.value.status == Accepted
    ensures o in Transaction(db, a).value.files && Transaction(db, a).value.files[o].order.status == Submitting
  {
    match a
    case ReconcileOrder(user, key, request, now) =>
    case Confirm(id, message, text, now) => ApplyShape(db, id, message, text, now);
    case Receive(id, receipt, guided, user, now) => ReceiveKeepsRecords(db, id, receipt, guided, user, now);
  }

  lemma DemandActionLeaves(db: Db, a: Action, o: Id)
    requires !OrderAction(a) && !SupplierAction(a) && Transaction(db, a).Ok? && SerialOk(db)
    requires o in db.files
    ensures o in Transaction(db, a).value.files && Transaction(db, a).value.files[o] == db.files[o]
  {
  }

  lemma ReconcileLeaves(db: Db, user: Id, token: string, req: ReconcileRequest, now: Time, o: Id)
    requires Reconcile(db, user, token, req, now).Ok? && !Recorded(db, o)
    ensures !Recorded(Reconcile(db, user, token, req, now).value.db, o)
  {
    var key := Key(user, ReconcileSubmission(req.order), token);
    var records := Reconcile(db, user, token, req, now).value.db.records;
    assert forall k :: k in records ==> k == key || k in db.records;
  }

  lemma TransactionLeaves(db: Db, a: Action, o: Id)
    requires SerialOk(db) && !(a.Confirm? && a.id == o) && Transaction(db, a).Ok?
    requires o in db.files && db.files[o].order.status == Submitting && !Recorded(db, o)
    requires db.files[o].claim.Some? && db.files[o].claim.value.status == Accepted
    ensures o in Transaction(db, a).value.files && Transaction(db, a).value.files[o].order.status == Submitting
    ensures !Recorded(Transaction(db, a).value, o)
  {
    if OrderAction(a) {
      OrderActionLeaves(db, a, o);
    } else if SupplierAction(a) {
      SupplierActionLeaves(db, a, o);
    } else {
      DemandActionLeaves(db, a, o);
    }
    if a.ReconcileOrder? {
      ReconcileLeaves(db, a.user, a.key, a.request, a.now, o);
    } else {
      RecordsKept(db, a);
    }
  }

  /** A request for another order, or one that is refused. */
  predicate ReplyLeaves(w: World, r: Result<Reply>, order: Id, o: Id) {
    r.Ok? ==>
      && o in r.value.db.files && r.value.db.files[o].order.status == Submitting
      && !Recorded(r.value.db, o) && (r.value.claimed ==> order != o)
  }

  lemma FinalizeLeaves(db: Db, order: Id, key: Option<Key>, now: Time, o: Id)
    requires o in db.files && order != o && !Recorded(db, o) && Finalize(db, order, key, now).Ok?
    ensures var db' := Finalize(db, order, key, now).value;
            o in db'.files && db'.files[o] == db.files[o] && !Recorded(db', o)
  {
    FinalizeShape(db, order, key, now);
    assert Finalize(db, order, key, now).value.records.Keys == db.records.Keys;
  }

  lemma ReplayLeaves(w: World, key: Key, body: RequestBody, order: Id, now: Time, o: Id)
    requires Stranded(w, o) && key in w.db.records && SentOrder(key.operation) == Some(order)
    ensures ReplyLeaves(w, Replay(w.db, key, body, order, now), order, o)
  {
    assert order != o;
    if Finalize(w.db, order, Some(key), now).Ok? {
      FinalizeLeaves(w.db, order, Some(key), now, o);
    }
  }

  lemma AmazonLeaves(w: World, user: Id, token: Option<string>, send: SendRequest, payloadId: string,
      configured: bool, now: Time, o: Id)
    requires Stranded(w, o)
    ensures ReplyLeaves(w, SubmitAmazon(w.db, user, token, send, payloadId, configured, now), send.order, o)
  {
    if SubmitAmazon(w.db, user, token, send, payloadId, configured, now).Ok? {
      if token.None? {
        NativeAmazon(w.db, user, send, payloadId, configured, now);
        AmazonClaimShape(w.db, user, send.order, payloadId, now);
      } else {
        var key := Key(user, SendAmazon(send.order), token.value);
        if key in w.db.records {
          ReplayedAmazon(w.db, user, token.value, send, payloadId, configured, now);
          ReplayLeaves(w, key, SendBody(send), send.order, now, o);
        } else {
          GuidedAmazon(w.db, user, token.value, send, payloadId, configured, now);
          AmazonClaimShape(w.db, user, send.order, payloadId, now);
        }
      }
    }
  }

  lemma AdamHallLeaves(w: World, user: Id, token: string, send: SendRequest, payloadId: string, configured: bool,
      now: Time, o: Id)
    requires Stranded(w, o)
    ensures ReplyLeaves(w, SubmitAdamHall(w.db, user, token, send, payloadId, configured, now), send.order, o)
  {
    if SubmitAdamHall(w.db, user, token, send, payloadId, configured, now).Ok? {
      var key := Key(user, SendAdamHall(send.order), token);
      if key in w.db.records {
        ReplayedAdamHall(w.db, user, token, send, payloadId, configured, now);
        ReplayLeaves(w, key, SendBody(send), send.order, now, o);
      } else {
        FirstAdamHall(w.db, user, token, send, payloadId, configured, now);
        AdamHallClaimShape(w.db, user, send.order, send.checkout.value, payloadId, now);
      }
    }
  }

  /** Neither the status of the order nor its lack of a record and a process changes. */
  predicate LeftAlone(w': World, o: Id) {
    o in w'.db.files && w'.db.files[o].order.status == Submitting && !Recorded(w'.db, o) && !InFlight(w', o)
  }

  lemma BeginLeaves(w: World, p: nat, r: Result<Reply>, order: Id, key: Option<Key>, o: Id)
    requires Stranded(w, o) && ReplyLeaves(w, r, order, o)
    ensures LeftAlone(Begin(w, p, r, order, key), o)
  {
    var w' := Begin(w, p, r, order, key);
    forall q | q in w'.processes
      ensures w'.processes[q].order != o
    {
    }
  }

  lemma PhaseLeaves(w: World, a: Action, o: Id)
    requires Stranded(w, o) && Phase(a)
    ensures LeftAlone(Step(w, a), o)
  {
    match a
    case SendOut(p, status, outcome) => DispatchLeaves(w, p, status, outcome, o);
    case SaveOutcome(p) => SaveLeaves(w, p, o);
    case FinalizeOrder(p, now) => SettleLeaves(w, p, now, o);
    case Crash(p) => assert forall q :: q in w.processes - {p} ==> w.processes[q].order != o;
  }

  lemma DispatchLeaves(w: World, p: nat, status: ClaimStatus, outcome: Outcome, o: Id)
    requires Stranded(w, o)
    ensures LeftAlone(Dispatch(w, p, status, outcome), o)
  {
    var w' := Dispatch(w, p, status, outcome);
    assert forall q :: q in w'.processes ==> w'.processes[q].order == w.processes[q].order;
  }

  lemma SaveLeaves(w: World, p: nat, o: Id)
    requires Stranded(w, o)
    ensures LeftAlone(Save(w, p), o)
  {
    var w' := Save(w, p);
    assert forall q :: q in w'.processes ==> w'.processes[q].order == w.processes[q].order;
    assert w'.db.records == w.db.records;
  }

  lemma SettleLeaves(w: World, p: nat, now: Time, o: Id)
    requires Stranded(w, o)
    ensures LeftAlone(Settle(w, p, now), o)
  {
    var w' := Settle(w, p, now);
    assert forall q :: q in w'.processes ==> w'.processes[q].order == w.processes[q].order;
    if p in w.processes && Finalize(w.db, w.processes[p].order, w.processes[p].key, now).Ok? {
      FinalizeLeaves(w.db, w.processes[p].order, w.processes[p].key, now, o);
    }
  }

  lemma RequestLeaves(w: World, a: Action, o: Id)
    requires Stranded(w, o) && (a.RequestAmazon? || a.RequestAdamHall?)
    ensures LeftAlone(Step(w, a), o)
  {
    match a
    case RequestAmazon(p, user, token, send, payloadId, configured, now) =>
      AmazonLeaves(w, user, token, send, payloadId, configured, now, o);
      BeginLeaves(w, p, AmazonReply(w.db, user, token, send, payloadId, configured, now), send.order,
                  AmazonKey(user, token, send.order), o);
    case RequestAdamHall(p, user, key, send, payloadId, configured, now) =>
      AdamHallLeaves(w, user, key, send, payloadId, configured, now, o);
      BeginLeaves(w, p, AdamHallReply(w.db, user, key, send, payloadId, configured, now), send.order,
                  Some(Key(user, SendAdamHall(send.order), key)), o);
  }

  lemma StepLeaves(w: World, a: Action, o: Id)
    requires SerialOk(w.db) && Stranded(w, o) && !(a.Confirm? && a.id == o)
    ensures LeftAlone(Step(w, a), o)
  {
    if Phase(a) {
      PhaseLeaves(w, a, o);
    } else if a.RequestAmazon? || a.RequestAdamHall? {
      RequestLeaves(w, a, o);
    } else {
      HandlerLeaves(w, a, o);
    }
  }

  lemma HandlerLeaves(w: World, a: Action, o: Id)
    requires SerialOk(w.db) && Stranded(w, o) && !(a.Confirm? && a.id == o)
    requires !Phase(a) && !a.RequestAmazon? && !a.RequestAdamHall?
    ensures LeftAlone(Step(w, a), o)
  {
    assert Step(w, a).processes == w.processes;
    if Transaction(w.db, a).Ok? {
      TransactionLeaves(w.db, a, o);
      assert Step(w, a).db == Transaction(w.db, a).value;
    }
  }

  lemma StrandedStep(w: World, a: Action, o: Id)
    requires Inv(w) && Stranded(w, o) && !(a.Confirm? && a.id == o)
    ensures Stranded(Step(w, a), o)
  {
    StepLeaves(w, a, o);
    InvGuards(w);
    StepExtends(w, a);
    assert FileStep(w.db.files[o], Step(w, a).db.files[o]);
  }

  /** No Amazon confirmation of this order arrives. */
  predicate Unconfirmed(actions: seq<Action>, o: Id) {
    forall i :: 0 <= i < |actions| ==> !(actions[i].Confirm? && actions[i].id == o)
  }

  lemma {:induction false} StrandedForever(w: World, actions: seq<Action>, o: Id)
    requires Inv(w) && Stranded(w, o) && Unconfirmed(actions, o)
    ensures Stranded(Run(w, actions), o)
    decreases |actions|
  {
    if actions != [] {
      assert !(actions[0].Confirm? && actions[0].id == o);
      StrandedStep(w, actions[0], o);
      StepKeeps(w, actions[0]);
      StrandedForever(Step(w, actions[0]), actions[1..], o);
    }
  }

  ghost predicate Finishes(w: World, more: seq<Action>, o: Id) {
    var files := Run(w, more).db.files; o in files && files[o].order.status != Submitting
  }

  /** The action that repeats a recorded request. */
  function Repetition(k: Key, send: SendRequest): Action {
    match k.operation
    case SendAmazon(_) => RequestAmazon(0, k.user, Some(k.token), send, "payload", true, 0)
    case _ => RequestAdamHall(0, k.user, k.token, send, "payload", true, 0)
  }

  lemma Repeated(db: Db, k: Key)
    requires k in db.records && RequestOk(db.files, k, db.records[k]) && SentOrder(k.operation).Some?
    requires db.records[k].response.PendingResponse?
    ensures db.records[k].request.SendBody? && db.records[k].request.send.order == SentOrder(k.operation).value
    ensures Repeats(db, Repetition(k, db.records[k].request.send), k)
  {
  }

  lemma OneStep(w: World, a: Action)
    ensures Run(w, [a]) == Step(w, a)
  {
    assert [a][1..] == [];
    assert Run(w, [a]) == Run(Step(w, a), []);
  }

  lemma FinalizableRecord(w: World, o: Id, k: Key)
    requires Inv(w) && Answerable(w.db, o) && k in w.db.records
    ensures Finalize(w.db, o, Some(k), 0).Ok?
  {
    assert Holds(w.db, w.approvals, o, w.db.files[o]);
    FinalizeSucceeds(w.db, w.approvals, o, Some(k), 0);
  }

  /** The replay of the recorded request finishes the order at once. */
  lemma RecordedFinishes(w: World, o: Id)
    requires Inv(w) && RequestsOk(w.db) && Abandoned(w, o) && Recorded(w.db, o)
    ensures exists more :: Unconfirmed(more, o) && Finishes(w, more, o)
  {
    var k :| k in w.db.records && SentOrder(k.operation) == Some(o);
    assert RequestOk(w.db.files, k, w.db.records[k]);
    FinalizableRecord(w, o, k);
    RepetitionFinishes(w, o, k);
    RepetitionUnconfirmed(k, w.db.records[k].request.send, o);
  }

  lemma RepetitionUnconfirmed(k: Key, send: SendRequest, o: Id)
    ensures Unconfirmed([Repetition(k, send)], o)
  {
  }

  lemma RepetitionFinishes(w: World, o: Id, k: Key)
    requires k in w.db.records && SentOrder(k.operation) == Some(o) && RequestOk(w.db.files, k, w.db.records[k])
    requires w.db.records[k].response.PendingResponse? && Answerable(w.db, o) && Finalize(w.db, o, Some(k), 0).Ok?
    ensures w.db.records[k].request.SendBody?
    ensures Finishes(w, [Repetition(k, w.db.records[k].request.send)], o)
  {
    var a := Repetition(k, w.db.records[k].request.send);
    Repeated(w.db, k);
    ReplayStep(w, a, k);
    SettledLeaves(w.db, o, Some(k), 0);
    OneStep(w, a);
  }

  /** A repeated request of either provider: the recorded answer, or the finished one once the supplier has answered. */
  predicate Answered(db: Db, key: Key, r: Result<Reply>)
    requires SentOrder(key.operation).Some?
  {
    && key in db.records && r.Ok? && !r.value.claimed && key in r.value.db.records
    && r.value.response == r.value.db.records[key].response
    && (r.value.db == db <==>
          !(db.records[key].response.PendingResponse? && Answerable(db, SentOrder(key.operation).value)))
    && (r.value.db != db ==> r.value.response.FinishedResponse?)
  }

  /**
   In every reachable state a request that is repeated under its key, word for word, is answered: from its record, or by
   finishing what the supplier has answered in the meantime.
   */
  lemma {:induction false} RepeatIsAnswered(actions: seq<Action>, key: Key, user: Id, send: SendRequest,
      payloadId: string, configured: bool, now: Time)
    requires var db := Run(Init(), actions).db;
             key in db.records && db.records[key].request == SendBody(send) && key.user == user
    requires SentOrder(key.operation).Some?
    ensures var db := Run(Init(), actions).db;
            && send.order == SentOrder(key.operation).value
            && match key.operation
               case SendAmazon(_) =>
                 Answered(db, key, SubmitAmazon(db, user, Some(key.token), send, payloadId, configured, now))
               case _ => Answered(db, key, SubmitAdamHall(db, user, key.token, send, payloadId, configured, now))
  {
    var w := Run(Init(), actions);
    Safety.Reached(actions);
    InitInv();
    RunRequests(Init(), actions);
    assert RequestOk(w.db.files, key, w.db.records[key]);
    assert RecordOk(w.db.files, key, w.db.records[key]);
    var o := SentOrder(key.operation).value;
    assert Holds(w.db, w.approvals, o, w.db.files[o]);
    ReplayAnswers(w.db, w.approvals, key, o, now);
    match key.operation
    case SendAmazon(_) => ReplayedAmazon(w.db, user, key.token, send, payloadId, configured, now);
    case SendAdamHall(_) => ReplayedAdamHall(w.db, user, key.token, send, payloadId, configured, now);
  }

  lemma ReplayAnswers(db: Db, approvals: seq<Approval>, key: Key, o: Id, now: Time)
    requires o in db.files && Holds(db, approvals, o, db.files[o]) && db.files[o].claim.Some?
    requires key in db.records && SentOrder(key.operation) == Some(o)
    requires db.records[key].response.PendingResponse? || db.records[key].response.FinishedResponse?
    ensures Answered(db, key, Replay(db, key, db.records[key].request, o, now))
  {
    if db.records[key].response.PendingResponse? && Answerable(db, o) {
      FinalizeSucceeds(db, approvals, o, Some(key), now);
      FinalizeShape(db, o, Some(key), now);
      assert Finalize(db, o, Some(key), now).value.records[key].response.FinishedResponse?;
    }
  }

  /**
   An accepted order left in `submitting` by a crash can be finished without a further word from the supplier if
   and only if its request was recorded, that is, unless it was a native request without an idempotency key.
   */
  lemma RecoverableIffRecorded(actions: seq<Action>, o: Id)
    requires Abandoned(Run(Init(), actions), o)
    ensures (exists more :: Unconfirmed(more, o) && Finishes(Run(Init(), actions), more, o))
         <==> Recorded(Run(Init(), actions).db, o)
  {
    var w := Run(Init(), actions);
    Safety.Reached(actions);
    InitInv();
    RunRequests(Init(), actions);
    if Recorded(w.db, o) {
      RecordedFinishes(w, o);
    } else if exists more :: Unconfirmed(more, o) && Finishes(w, more, o) {
      var more :| Unconfirmed(more, o) && Finishes(w, more, o);
      StrandedForever(w, more, o);
      assert false;
    }
  }
}
