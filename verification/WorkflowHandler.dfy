/** The handlers for human reconciliation, order statuses and requisition decisions. */
module WorkflowHandler {
  import opened Base
  import opened Schema
  import opened Triggers
  import opened Storage
  import opened Submission
  import opened AmazonHandler
  import Conversion
  import Text
  import Workflow

  // ---------- reconciliation ----------

  /** The query for another order of the supplier with the same number. */
  method NumberTaken(store: Store, o: Id, number: string) returns (taken: bool)
    requires o in store.files
    ensures taken <==> DuplicateNumber(store.Contents(), o, number)
  {
    taken := false;
    if number == "" {
      return;
    }
    var rest := store.files.Keys;
    while rest != {}
      invariant rest <= store.files.Keys
      invariant taken <==> exists p :: p in store.files && p !in rest && CarriesNumber(store.files, o, number, p)
      decreases |rest|
    {
      var p :| p in rest;
      rest := rest - {p};
      if p != o && store.files[p].order.supplier == store.files[o].order.supplier
         && Text.Lower(Text.Trim(store.files[p].order.supplierNumber)) == Text.Lower(Text.Trim(number))
      {
        taken := true;
      }
    }
  }

  predicate HumanReady(req: ReconcileRequest) {
    && req.humanVerified && |req.evidence| >= 10
    && (if req.resolution == FoundOrder then req.supplierNumber != "" else req.supplierNumber == "")
  }

  /** What the person must have stated. */
  method HumanRequirements(req: ReconcileRequest) returns (required: seq<string>)
    ensures required == [] <==> HumanReady(req)
  {
    required := [];
    if !req.humanVerified {
      required := required + ["human_external_verification"];
    }
    if |req.evidence| < 10 {
      required := required + ["evidence_note"];
    }
    if req.resolution == FoundOrder && req.supplierNumber == "" {
      required := required + ["supplier_order_number"];
    }
    if req.resolution != FoundOrder && req.supplierNumber != "" {
      required := required + ["no_supplier_order_number"];
    }
  }

  predicate ClaimReady(db: Db, req: ReconcileRequest, now: Time)
    requires req.order in db.files && db.files[req.order].claim.Some?
  {
    var f := db.files[req.order];
    var c := f.claim.value;
    && !f.order.archived && (f.order.status == Submitting || f.order.status == SubmissionUnknown)
    && (c.status == Pending || c.status == Unknown)
    && now >= c.createdAt + SETTLE_TIME
    && VersionAccepted(f.order.version, req.expectedVersion, true)
    && f.reconciliation.None?
    && !HasReceipt(db.receipts, req.order) && f.confirmations == map[]
  }

  /** What order and claim must be like. */
  method ClaimRequirements(store: Store, req: ReconcileRequest, now: Time) returns (required: seq<string>)
    requires req.order in store.files && store.files[req.order].claim.Some?
    ensures required == [] <==> ClaimReady(store.Contents(), req, now)
  {
    var f := store.files[req.order];
    var submission := f.claim.value;
    required := [];
    if f.order.archived || (f.order.status != Submitting && f.order.status != SubmissionUnknown) {
      required := required + ["unresolved_order"];
    }
    if submission.status != Pending && submission.status != Unknown {
      required := required + ["uncertain_submission"];
    }
    if now < submission.createdAt + SETTLE_TIME {
      required := required + ["minimum_claim_age_15_minutes"];
    }
    if req.expectedVersion.None? || req.expectedVersion.value != f.order.version {
      required := required + ["expected_updated_at"];
    }
    if f.reconciliation.Some? {
      required := required + ["no_previous_reconciliation"];
    }
    if HasReceipt(store.receipts, req.order) || f.confirmations != map[] {
      required := required + ["no_receipts_or_confirmations"];
    }
  }

  /** prepareSubmissionReconciliation. */
  method PrepareReconciliation(store: Store, req: ReconcileRequest, now: Time) returns (required: seq<string>)
    requires req.order in store.files && store.files[req.order].claim.Some?
    ensures required == [] <==> ReconcileReady(store.Contents(), req, now)
  {
    var f := store.files[req.order];
    var ofClaim := ClaimRequirements(store, req, now);
    var ofHuman := HumanRequirements(req);
    required := ofClaim + ofHuman;
    if req.resolution == FoundOrder {
      if !(f.order.supplier in store.catalog.suppliers && store.catalog.suppliers[f.order.supplier].active) {
        required := required + ["active_supplier"];
      }
      if && f.order.requisition.Some?
         && !(f.order.requisition.value in store.requisitions
              && !store.requisitions[f.order.requisition.value].archived)
      {
        required := required + ["active_requisition"];
      }
    }
    var taken := NumberTaken(store, req.order, req.supplierNumber);
    if taken {
      required := required + ["unique_supplier_order_number"];
    }
    if req.expectedContext.Some? && req.expectedContext.value != Proposed(store.Contents(), req) {
      required := required + ["expected_context"];
    }
  }

  /** submissionReconciliationMCP. */
  method ReconcileSubmission(store: Store, user: Id, token: string, req: ReconcileRequest,
      now: Time) returns (r: Result<Reply>)
    modifies store
    ensures r == Reconcile(old(store.Contents()), user, token, req, now)
    ensures store.Contents() == if r.Ok? then r.value.db else old(store.Contents())
  {
    if req.expectedContext.None? {
      return Err(ContextRequired);
    }
    var key := Key(user, Operation.ReconcileSubmission(req.order), token);
    var found := BeginMutation(store, key, ReconcileBody(req));
    if found == Conflicting {
      return Err(PayloadConflict);
    }
    if found.Replayed? {
      return Ok(Reply(store.Contents(), found.record.response, false));
    }
    if req.order !in store.files || store.files[req.order].claim.None? {
      return Err(NotFound);
    }
    var required := PrepareReconciliation(store, req, now);
    if required != [] {
      return Err(NotReady);
    }
    var before := store.Contents();
    if req.phrase != Some(Spoken(before, req)) {
      return Err(PhraseRequired);
    }
    var refusal := WriteReconciliation(store, user, req, now);
    if refusal.Some? {
      store.Rollback(before);
      return Err(refusal.value);
    }
    var response := ReconciledResponse(req.order, store.files[req.order].order, req.resolution);
    CompleteMutation(store, key, ReconcileBody(req), response, 200);
    return Ok(Reply(store.Contents(), response, false));
  }

  /** The reconciliation row and the order row; the caller rolls back a refusal. */
  method WriteReconciliation(store: Store, user: Id, req: ReconcileRequest,
      now: Time) returns (refusal: Option<Refusal>)
    requires req.order in store.files
    modifies store
    ensures var noted := InsertReconciliation(old(store.Contents()), req.order,
                                              Reconciliation(user, req.resolution, req.supplierNumber, req.evidence));
            match noted
            case Err(e) => refusal == Some(e)
            case Ok(db) =>
              match UpdateOrder(db, req.order, ReconciledOrder(db.files[req.order].order, req, now), now)
              case Ok(settled) => refusal.None? && store.Contents() == settled
              case Err(e) => refusal == Some(e)
  {
    refusal := store.CreateReconciliation(req.order,
                                          Reconciliation(user, req.resolution, req.supplierNumber, req.evidence));
    if refusal.Some? {
      return;
    }
    var order := store.files[req.order].order;
    var row := order.(supplierNumber := req.supplierNumber);
    if req.resolution == FoundOrder {
      row := row.(status := Sent, orderDate := Some(now));
    } else {
      row := row.(status := Cancelled);
    }
    refusal := store.SaveOrder(req.order, row, now);
  }

  // ---------- orders ----------

  /** service.PurchaseOrderTotal: the running total over the lines. */
  method OrderTotal(lines: seq<Line>) returns (total: int)
    ensures total == Workflow.Total(lines)
  {
    total := 0;
    for i := 0 to |lines|
      invariant total == Workflow.Total(lines[..i])
    {
      assert lines[..i + 1][..i] == lines[..i];
      total := total + (lines[i].quantity * (lines[i].priceCents as real)).Floor;
    }
    assert lines[..|lines|] == lines;
  }

  /** The line loop of validateOrder. */
  method ValidateLines(lines: seq<Line>) returns (ok: bool)
    ensures ok <==> Workflow.ValidLines(lines)
  {
    if |lines| == 0 {
      return false;
    }
    for i := 0 to |lines|
      invariant forall k :: 0 <= k < i ==> Workflow.ValidLine(lines[k])
    {
      var l := lines[i];
      if || Text.Blank(l.description)
         || l.quantity <= 0.0 || l.quantity > 1_000_000_000.0 || l.priceCents < 0 || l.priceCents > 1_000_000_000
      {
        assert !Workflow.ValidLine(lines[i]);
        return false;
      }
    }
    return true;
  }

  /** updateOrder. */
  method SetOrderStatus(store: Store, o: Id, to: OrderStatus, supplierNumber: string, notes: string, guided: bool,
      now: Time) returns (refusal: Option<Refusal>)
    modifies store
    ensures Did(old(store.Contents()), store.Contents(),
                Workflow.SetStatus(old(store.Contents()), o, to, supplierNumber, notes, guided, now), refusal)
  {
    if to == Submitting || |supplierNumber| > 120 {
      return Some(NotReady);
    }
    if o !in store.files {
      return Some(NotFound);
    }
    var row := store.files[o].order;
    if !Workflow.TransitionAllowed(row.status, to) {
      return Some(TransitionRefused);
    }
    if row.session.Some? && row.status == Draft && to == Sent {
      return Some(TransitionRefused);
    }
    if row.session.Some? && row.status == SubmissionUnknown && to == Draft {
      return Some(TransitionRefused);
    }
    if guided && row.status == SubmissionUnknown {
      return Some(Forbidden);
    }
    row := row.(status := to, supplierNumber := Text.Trim(supplierNumber), notes := notes);
    if to == Sent && row.orderDate.None? {
      row := row.(orderDate := Some(now));
    }
    refusal := store.SaveOrder(o, row, now);
  }

  // ---------- conversion ----------

  /** The checks of prepareRequisitionOrder before its line loop. */
  method SourceReady(store: Store, r: Id, supplier: Id) returns (ok: bool)
    requires r in store.requisitions
    ensures var req := store.requisitions[r];
            ok <==> !req.archived && req.status == ReqApproved && !Workflow.HasOrder(store.Contents(), r)
                    && ActiveSupplier(store.catalog, supplier)
                    && (req.session.Some? ==> store.catalog.suppliers[supplier].code == "AMAZON-BUSINESS")
                    && ActiveRequisitionProducts(store.catalog, req.lines)
                    && ActivePreferredSuppliers(store.catalog, req.lines)
                    && |req.lines| <= 100
  {
    var req := store.requisitions[r];
    ok := !req.archived && req.status == ReqApproved && |req.lines| <= 100;
    if !(supplier in store.catalog.suppliers && store.catalog.suppliers[supplier].active) {
      return false;
    }
    if req.session.Some? && store.catalog.suppliers[supplier].code != "AMAZON-BUSINESS" {
      ok := false;
    }
    var active := store.DemandActive(req.lines);
    if !active || Workflow.HasOrder(store.Contents(), r) {
      ok := false;
    }
  }

  /** prepareRequisitionOrder and commitRequisitionOrder; `lines` are the order lines the loop built. */
  method ConvertDemand(store: Store, r: Id, input: Workflow.OrderInput, now: Time)
    returns (lines: seq<Line>, refusal: Option<Refusal>)
    modifies store
    ensures Did(old(store.Contents()), store.Contents(),
                Workflow.ConvertRequisition(old(store.Contents()), r, input.(lines := lines), now), refusal)
    ensures r in old(store.requisitions) ==>
              Conversion.Converts(old(store.catalog.offers), old(store.requisitions)[r], input.supplier, lines)
  {
    lines := [];
    if r !in store.requisitions {
      return lines, Some(NotFound);
    }
    var req := store.requisitions[r];
    var fits;
    lines, fits := Conversion.BuildLines(store.catalog.offers, req, input.supplier, now);
    var ok := SourceReady(store, r, input.supplier);
    var valid := ValidateLines(lines);
    if !ok || !fits || !valid {
      return lines, Some(NotReady);
    }
    refusal := CommitConversion(store, r, input.(lines := lines), now);
  }

  /** The new order and the `ordered` requisition; a refused requisition takes the order back. */
  method CommitConversion(store: Store, r: Id, input: Workflow.OrderInput, now: Time) returns (refusal: Option<Refusal>)
    requires r in store.requisitions
    modifies store
    ensures var before := old(store.Contents());
            var req := before.requisitions[r];
            match InsertOrder(before, Workflow.ConvertedOrder(r, req, input, now), input.lines, now)
            case Err(e) => refusal == Some(e) && store.Contents() == before
            case Ok(created) =>
              Did(before, store.Contents(), UpdateRequisition(created, r, req.(status := ReqOrdered), now), refusal)
  {
    var before := store.Contents();
    var req := store.requisitions[r];
    refusal := store.CreateOrder(Workflow.ConvertedOrder(r, req, input, now), input.lines, now);
    if refusal.Some? {
      return;
    }
    refusal := store.SaveRequisition(r, req.(status := ReqOrdered), now);
    if refusal.Some? {
      store.Rollback(before);
    }
  }

  // ---------- requisitions ----------

  /** submitRequisition. */
  method SubmitDemand(store: Store, r: Id, now: Time) returns (refusal: Option<Refusal>)
    modifies store
    ensures Did(old(store.Contents()), store.Contents(), Workflow.SubmitRequisition(old(store.Contents()), r, now),
                refusal)
  {
    if r !in store.requisitions {
      return Some(NotFound);
    }
    var row := store.requisitions[r];
    if row.status != ReqDraft {
      return Some(TransitionRefused);
    }
    if !Workflow.ValidRequisitionLines(row.lines) {
      return Some(NotReady);
    }
    refusal := store.SaveRequisition(r, row.(status := ReqSubmitted, approvedBy := None, decided := false), now);
  }

  /** decideRequisition. */
  method DecideDemand(store: Store, r: Id, user: Id, decision: Workflow.Decision, guided: bool,
      now: Time) returns (refusal: Option<Refusal>)
    modifies store
    ensures Did(old(store.Contents()), store.Contents(),
                Workflow.DecideRequisition(old(store.Contents()), r, user, decision, guided, now), refusal)
  {
    if decision.Return? && Text.Blank(decision.note) {
      return Some(NotReady);
    }
    if r !in store.requisitions {
      return Some(NotFound);
    }
    var row := store.requisitions[r];
    if row.status != ReqSubmitted {
      return Some(TransitionRefused);
    }
    if guided && row.requester == user {
      return Some(Forbidden);
    }
    if guided && decision.Approve? && !Workflow.ValidRequisitionLines(row.lines) {
      return Some(NotReady);
    }
    var status := match decision
      case Approve => ReqApproved
      case Reject => ReqRejected
      case Return(_) => ReqReturned;
    refusal := store.SaveRequisition(r, row.(status := status, approvedBy := Some(user), decided := true), now);
  }
}
