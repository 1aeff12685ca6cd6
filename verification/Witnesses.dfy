/** Runs that do happen: from the empty house to the states the exceptions of the other modules speak of. */
module Witnesses {
  import opened Base
  import opened Schema
  import opened Triggers
  import opened Submission
  import opened World
  import Confirmations
  import Conversion
  import Evolution
  import Messages
  import GoodsReceipts
  import Offers
  import Preview
  import Resending
  import Safety
  import Stranding
  import Text
  import Workflow

  ghost predicate Reachable(w: World) {
    exists actions :: Run(Init(), actions) == w
  }

  lemma StartReachable()
    ensures Reachable(Init())
  {
    assert Run(Init(), []) == Init();
  }

  lemma NextReachable(w: World, a: Action)
    requires Reachable(w)
    ensures Reachable(Step(w, a))
  {
    var actions :| Run(Init(), actions) == w;
    Safety.RunThen(Init(), actions, [a]);
    Stranding.OneStep(w, a);
  }

  // ---------- an approved PunchOut cart, claimed natively ----------

  const REQUESTER: Id := 7
  const APPROVER: Id := 8
  const UNCHECKED := Check(None, false)

  function Amazonia(): Supplier {
    Supplier("Amazon", "AMAZON-BUSINESS", false, true, 0)
  }

  function CartLine(): RequisitionLine {
    RequisitionLine(0, None, None, "part", "auxiliary", "cable", 10.0, "EA", 100, "")
  }

  function Cart(status: RequisitionStatus, approver: Option<Id>, version: Time): Requisition {
    Requisition(Some(9), REQUESTER, status, approver, approver.Some?, false, version, [CartLine()])
  }

  function Bought(id: Id): Line {
    Line(id, None, "part", "auxiliary", "cable", 10.0, 0.0, "EA", 100, "")
  }

  function Input(): Workflow.OrderInput {
    Workflow.OrderInput("PO-1", 1, None, Draft, "EUR", "", None, "", [Bought(0)])
  }

  function Wanted(status: OrderStatus, payloadId: string, version: Time): Order {
    Order("PO-1", 1, Some(2), Some(9), status, "EUR", 1000, payloadId, "", {}, None, "", false, version)
  }

  function Native(): Claim {
    Claim(Amazon, APPROVER, "payload",
          AmazonPayload("PO-1", [PayloadLine("part", "auxiliary", "cable", 10, "EA", 100)]), Pending, NoOutcome, 4)
  }

  /** A house with the supplier and the requisition. */
  function Asked(cart: Requisition, approvals: seq<Approval>, serial: Id): World {
    var db := Init().db;
    Init().(db := db.(catalog := db.catalog.(suppliers := map[1 := Amazonia()]), requisitions := map[2 := cart],
                      serial := serial),
            approvals := approvals)
  }

  function Approvals(): seq<Approval> {
    [Approval(2, REQUESTER, APPROVER, Some(9), [CartLine()])]
  }

  /** A house with the order made of the approved requisition. */
  function Ordered(f: OrderFile): World {
    var w := Asked(Cart(ReqOrdered, Some(APPROVER), 3), Approvals(), 5);
    w.(db := w.db.(files := map[3 := f]), converted := [2])
  }

  function Drafted(): World {
    Ordered(OrderFile(Wanted(Draft, "", 3), [Bought(4)], None, None, map[]))
  }

  function Claimed(): World {
    Ordered(OrderFile(Wanted(Submitting, "payload", 4), [Bought(4)], Some(Native()), None, map[]))
    .(processes := map[0 := Process(3, None, Sending)])
  }

  lemma SupplierStep()
    ensures Step(Init(), NewSupplier(Amazonia(), 0))
         == Init().(db := Init().db.(catalog := Init().db.catalog.(suppliers := map[1 := Amazonia()]), serial := 2))
  {
  }

  lemma RequisitionStep()
    ensures Step(Step(Init(), NewSupplier(Amazonia(), 0)), NewRequisition(REQUESTER, Some(9), [CartLine()], 0))
         == Asked(Cart(ReqDraft, None, 0), [], 3)
  {
    SupplierStep();
  }

  lemma SubmitStep()
    ensures Step(Asked(Cart(ReqDraft, None, 0), [], 3), SubmitRequisition(2, UNCHECKED, 1))
         == Asked(Cart(ReqSubmitted, None, 1), [], 3)
  {
  }

  lemma ApproveStep()
    ensures Step(Asked(Cart(ReqSubmitted, None, 1), [], 3),
                 DecideRequisition(2, APPROVER, Workflow.Approve, UNCHECKED, 2))
         == Asked(Cart(ReqApproved, Some(APPROVER), 2), Approvals(), 3)
  {
  }

  lemma TotalIsTen()
    ensures Workflow.Total([Bought(0)]) == 1000
  {
    assert [Bought(0)][..0] == [];
    assert Workflow.Total([Bought(0)]) == Workflow.Total([]) + Workflow.LineCents(Bought(0));
  }

  /** The approved requisition is converted at its own prices. */
  lemma ConversionReady(cart: Requisition)
    requires cart == Cart(ReqApproved, Some(APPROVER), 2)
    ensures Workflow.ValidLines([Bought(0)]) && Conversion.OffersFit([], cart, 1, 3)
    ensures Conversion.Converts([], cart, 1, [Bought(0)])
  {
  }

  lemma OrderInserted(db: Db)
    requires db == Asked(Cart(ReqApproved, Some(APPROVER), 2), Approvals(), 3).db
    ensures InsertOrder(db, Wanted(Draft, "", 3), [Bought(0)], 3)
         == Ok(Drafted().db.(requisitions := map[2 := Cart(ReqApproved, Some(APPROVER), 2)]))
  {
    assert NumberFrom([Bought(0)], 4) == [Bought(4)];
  }

  lemma OrderNoted(db: Db)
    requires db == Drafted().db.(requisitions := map[2 := Cart(ReqApproved, Some(APPROVER), 2)])
    ensures UpdateRequisition(db, 2, Cart(ReqOrdered, Some(APPROVER), 2), 3) == Ok(Drafted().db)
  {
    assert db.requisitions[2 := Cart(ReqOrdered, Some(APPROVER), 3)] == Drafted().db.requisitions;
  }

  lemma Converted(db: Db)
    requires db == Asked(Cart(ReqApproved, Some(APPROVER), 2), Approvals(), 3).db
    ensures Workflow.ConvertRequisition(db, 2, Input(), 3) == Ok(Drafted().db)
  {
    TotalIsTen();
    ConversionReady(db.requisitions[2]);
    OrderInserted(db);
    assert Workflow.ConvertedOrder(2, db.requisitions[2], Input(), 3) == Wanted(Draft, "", 3);
    OrderNoted(Drafted().db.(requisitions := map[2 := Cart(ReqApproved, Some(APPROVER), 2)]));
  }

  lemma ConvertStep()
    ensures Step(Asked(Cart(ReqApproved, Some(APPROVER), 2), Approvals(), 3),
                 ConvertRequisition(2, Input(), UNCHECKED, 3))
         == Drafted()
  {
    Converted(Asked(Cart(ReqApproved, Some(APPROVER), 2), Approvals(), 3).db);
  }

  function Request(): SendRequest {
    SendRequest(3, None, None, None, None)
  }

  lemma LineReady()
    ensures AmazonLine(Bought(4)) && Offers.Euro("EUR")
    ensures ToPayloadLines([Bought(4)]) == [PayloadLine("part", "auxiliary", "cable", 10, "EA", 100)]
    ensures PayloadTotal(ToPayloadLines([Bought(4)])) == 1000
  {
    assert Text.Upper("EUR") == "EUR";
    var lines := ToPayloadLines([Bought(4)]);
    assert lines[..0] == [];
    assert PayloadTotal(lines) == PayloadTotal([]) + lines[0].quantity * lines[0].priceCents;
  }

  lemma OrderReady()
    ensures AmazonReady(Drafted().db, Request(), false, true)
  {
    LineReady();
    assert SameLine(CartLine(), Bought(4));
  }

  lemma ClaimCommitted()
    ensures CommitAmazonClaim(Drafted().db, APPROVER, 3, "payload", 4) == Ok(Claimed().db)
  {
    LineReady();
    var noted := Drafted().db.(files :=
                               map[3 := OrderFile(Wanted(Draft, "", 3), [Bought(4)], Some(Native()), None, map[])]);
    assert InsertClaim(Drafted().db, 3, Native()) == Ok(noted) by {
      assert Drafted().db.files[3 := noted.files[3]] == noted.files;
    }
    assert UpdateOrder(noted, 3, Wanted(Submitting, "payload", 3), 4) == Ok(Claimed().db) by {
      assert noted.files[3 := Claimed().db.files[3]] == Claimed().db.files;
    }
  }

  lemma ClaimStep()
    ensures Step(Drafted(), RequestAmazon(0, APPROVER, None, Request(), "payload", true, 4)) == Claimed()
  {
    OrderReady();
    ClaimCommitted();
    ClaimBegins(Drafted().db);
  }

  lemma ClaimBegins(db: Db)
    requires 3 in db.files && 3 in Claimed().db.files
    requires AmazonReady(db, Request(), false, true)
    requires CommitAmazonClaim(db, APPROVER, 3, "payload", 4) == Ok(Claimed().db)
    ensures AmazonReply(db, APPROVER, None, Request(), "payload", true, 4)
         == Ok(Reply(Claimed().db, PendingResponse(3, Claimed().db.files[3].order), true))
  {
  }

  lemma ClaimedReachable()
    ensures Reachable(Drafted()) && Reachable(Claimed())
  {
    StartReachable();
    SupplierStep();
    RequisitionStep();
    SubmitStep();
    ApproveStep();
    ConvertStep();
    ClaimStep();
    var w := Step(Init(), NewSupplier(Amazonia(), 0));
    NextReachable(Init(), NewSupplier(Amazonia(), 0));
    NextReachable(w, NewRequisition(REQUESTER, Some(9), [CartLine()], 0));
    NextReachable(Asked(Cart(ReqDraft, None, 0), [], 3), SubmitRequisition(2, UNCHECKED, 1));
    NextReachable(Asked(Cart(ReqSubmitted, None, 1), [], 3),
                  DecideRequisition(2, APPROVER, Workflow.Approve, UNCHECKED, 2));
    NextReachable(Asked(Cart(ReqApproved, Some(APPROVER), 2), Approvals(), 3),
                  ConvertRequisition(2, Input(), UNCHECKED, 3));
    NextReachable(Drafted(), RequestAmazon(0, APPROVER, None, Request(), "payload", true, 4));
  }

  // ---------- sent, accepted and abandoned ----------

  const ACCEPTED := Responded(Accepted, Acknowledged(""))

  /** The claimed order was sent and its process stands at `stage`. */
  function Called(claim: Claim, stage: Stage): World {
    Ordered(OrderFile(Wanted(Submitting, "payload", 4), [Bought(4)], Some(claim), None, map[]))
    .(processes := map[0 := Process(3, None, stage)], sends := [Send(3, Amazon, "payload", Native().payload)])
  }

  function AcceptedClaim(): Claim {
    Native().(status := Accepted, outcome := Acknowledged(""))
  }

  function Sent(): World {
    Ordered(OrderFile(Wanted(OrderStatus.Sent, "payload", 5).(orderDate := Some(5)), [Bought(4)], Some(AcceptedClaim()),
                      None, map[]))
    .(sends := [Send(3, Amazon, "payload", Native().payload)])
  }

  lemma SendStep()
    ensures Step(Claimed(), SendOut(0, Accepted, Acknowledged(""))) == Called(Native(), ACCEPTED)
  {
  }

  lemma SaveStep()
    ensures Step(Called(Native(), ACCEPTED), SaveOutcome(0)) == Called(AcceptedClaim(), Finalizing)
  {
    var w := Called(Native(), ACCEPTED);
    assert w.db.files[3 := Called(AcceptedClaim(), Finalizing).db.files[3]]
        == Called(AcceptedClaim(), Finalizing).db.files;
  }

  lemma FinalizeStep()
    ensures Step(Called(AcceptedClaim(), Finalizing), FinalizeOrder(0, 5)) == Sent()
  {
    var w := Called(AcceptedClaim(), Finalizing);
    assert w.db.files[3 := Sent().db.files[3]] == Sent().db.files;
    assert Finalize(w.db, 3, None, 5) == Ok(Sent().db);
  }

  lemma SavedReachable()
    ensures Reachable(Called(AcceptedClaim(), Finalizing))
  {
    ClaimedReachable();
    SendStep();
    SaveStep();
    NextReachable(Claimed(), SendOut(0, Accepted, Acknowledged("")));
    NextReachable(Called(Native(), ACCEPTED), SaveOutcome(0));
  }

  lemma SentReachable()
    ensures Reachable(Sent())
  {
    SavedReachable();
    FinalizeStep();
    NextReachable(Called(AcceptedClaim(), Finalizing), FinalizeOrder(0, 5));
  }

  /** A run does send: the approved cart leaves the house once and the order says so. */
  lemma SomeRunSends()
    ensures exists actions ::
              var w := Run(Init(), actions);
              |w.sends| == 1 && w.sends[0].order == 3 && 3 in w.db.files
              && w.db.files[3].order.status == OrderStatus.Sent
  {
    SentReachable();
    var actions :| Run(Init(), actions) == Sent();
  }

  /** A native request that crashes between saving the outcome and finalizing leaves its order stranded. */
  lemma SomeOrderIsStranded()
    ensures exists actions :: Stranding.Stranded(Run(Init(), actions), 3)
  {
    SavedReachable();
    var w := Called(AcceptedClaim(), Finalizing);
    NextReachable(w, Crash(0));
    assert Stranding.Stranded(Step(w, Crash(0)), 3);
    var actions :| Run(Init(), actions) == Step(w, Crash(0));
  }

  // ---------- reconciled and still to be sent ----------

  function NotSent(): ReconcileRequest {
    var asked := ReconcileRequest(3, ConfirmedNotSent, "", "called them", true, Some(4), None, None);
    asked.(expectedContext := Some(Proposed(Claimed().db, asked)), phrase := Some(Spoken(Claimed().db, asked)))
  }

  lemma NotSentAccepted(db: Db)
    requires db == Claimed().db
    ensures Reconcile(db, APPROVER, "key", NotSent(), 4 + SETTLE_TIME).Ok?
  {
    assert ReconcileReady(db, NotSent(), 4 + SETTLE_TIME);
  }

  lemma ReconciledState(w: World, db: Db)
    requires db == Claimed().db && w == Step(Claimed(), ReconcileOrder(APPROVER, "key", NotSent(), 4 + SETTLE_TIME))
    ensures 3 in w.db.files && w.db.files[3].order.status == Cancelled && w.db.files[3].claim.Some?
    ensures w.db.files[3].reconciliation.Some? && w.db.files[3].reconciliation.value.resolution == ConfirmedNotSent
    ensures w.processes == map[0 := Process(3, None, Sending)]
  {
    NotSentAccepted(db);
    Evolution.ReconciledShape(db, APPROVER, "key", NotSent(), 4 + SETTLE_TIME);
    ReconcileStep(Claimed(), APPROVER, "key", NotSent(), 4 + SETTLE_TIME);
  }

  lemma ReconcileStep(w: World, user: Id, token: string, req: ReconcileRequest, now: Time)
    requires Reconcile(w.db, user, token, req, now).Ok?
    ensures Step(w, ReconcileOrder(user, token, req, now)) == w.(db := Reconcile(w.db, user, token, req, now).value.db)
  {
  }

  /** A human confirms that the order was never sent, and then the slow process that claimed it sends it. */
  lemma SomeReconciledOrderIsSent()
    ensures exists actions ::
              var w := Run(Init(), actions);
              && 3 in w.db.files && w.db.files[3].order.status == Cancelled
              && w.db.files[3].reconciliation.Some? && w.db.files[3].reconciliation.value.resolution == ConfirmedNotSent
              && Resending.MayBeSent(w, 3)
  {
    ClaimedReachable();
    var a := ReconcileOrder(APPROVER, "key", NotSent(), 4 + SETTLE_TIME);
    NextReachable(Claimed(), a);
    ReconciledState(Step(Claimed(), a), Claimed().db);
    StillSends(Step(Claimed(), a));
  }

  lemma StillSends(w: World)
    requires Reachable(w) && 3 in w.db.files && w.db.files[3].claim.Some?
    requires w.processes == map[0 := Process(3, None, Sending)]
    ensures exists actions :: Run(Init(), actions) == w && Resending.MayBeSent(Run(Init(), actions), 3)
  {
    var actions :| Run(Init(), actions) == w;
    assert w.processes[0].stage == Sending;
    Resending.SentAgainIff(actions, 3);
  }

  // ---------- a confirmation that takes back ----------

  function AcceptWhole(): Confirmations.Message {
    Confirmations.Message("first", "payload", "A-1", Confirmations.AcceptAll, Confirmations.NewMessage, Some(10), [])
  }

  function AcceptHalf(): Confirmations.Message {
    Confirmations.Message("second", "payload", "A-1", Confirmations.Detail, Confirmations.UpdateMessage, Some(20),
      [Confirmations.MessageLine(1, "A-1", 5.0, 0.0, None)])
  }

  function Rows(accepted: real, rejected: real, notice: Time): map<ConfirmationKey, ConfirmationRow> {
    map[ConfirmationKey(4, "A-1") := ConfirmationRow(accepted, rejected, None, Some(notice))]
  }

  lemma RowTotals(accepted: real, rejected: real, notice: Time)
    requires accepted > 0.0
    ensures Confirmations.AcceptedTotal(Rows(accepted, rejected, notice), [Bought(4)]) == accepted
    ensures Confirmations.RejectedTotal(Rows(accepted, rejected, notice), [Bought(4)]) == rejected
    ensures Confirmations.RequestedTotal([Bought(4)]) == 10.0
    ensures accepted + rejected <= 10.0 ==>
              Confirmations.WithinQuantities(Rows(accepted, rejected, notice), [Bought(4)])
    ensures Confirmations.AcceptedNumbers(Rows(accepted, rejected, notice), [Bought(4)]) == {"A-1"}
  {
    var rows := Rows(accepted, rejected, notice);
    var key := ConfirmationKey(4, "A-1");
    assert [Bought(4)][..0] == [];
    assert Confirmations.LineKeys(rows, 4) == {key};
    Confirmations.SumCellsSplit(rows, {key}, key, Confirmations.AcceptedColumn);
    Confirmations.SumCellsSplit(rows, {key}, key, Confirmations.RejectedColumn);
    assert {key} - {key} == {};
    assert Confirmations.Position([Bought(4)], 4) == 0;
    assert Confirmations.RequestedTotal([Bought(4)]) == Confirmations.RequestedTotal([]) + 10.0;
    assert Confirmations.AcceptedTotal(rows, [Bought(4)]) == Confirmations.AcceptedTotal(rows, []) + accepted;
    assert Confirmations.RejectedTotal(rows, [Bought(4)]) == Confirmations.RejectedTotal(rows, []) + rejected;
  }

  /** The order after a confirmation, `confirmed` or cancelled by hand. */
  function Answered(status: OrderStatus, number: string, version: Time): World {
    var w := Sent();
    var f := OrderFile(
      Wanted(status, "payload", version).(orderDate := Some(5), supplierNumber := number, amazonNumbers := {"A-1"}),
      [Bought(4)], Some(AcceptedClaim()), None, Rows(10.0, 0.0, 10));
    w.(db := w.db.(files := map[3 := f], events := map["first" := 3]))
  }

  lemma WholeRows()
    ensures Confirmations.NextRows(Sent().db.files[3], AcceptWhole()) == Ok(Rows(10.0, 0.0, 10))
  {
    assert Confirmations.Position([Bought(4)], 4) == 0;
    assert Sent().db.files[3].lines == [Bought(4)];
    assert Confirmations.WholeOrderRows([Bought(4)], AcceptWhole()) == Rows(10.0, 0.0, 10);
  }

  lemma AppliesAs(db: Db, o: Id, m: Confirmations.Message, rows: map<ConfirmationKey, ConfirmationRow>,
      status: OrderStatus,
      text: string, now: Time)
    requires Confirmations.Precheck(db, o, m).None? && Confirmations.NextRows(db.files[o], m) == Ok(rows)
    requires Confirmations.WithinQuantities(rows, db.files[o].lines)
    requires Confirmations.StatusAfter(db.files[o].order, rows, db.files[o].lines) == status
    ensures Confirmations.Apply(db, o, m, text, now) == Confirmations.Commit(db, o, m, rows, status, text, now)
  {
  }

  /** A confirmation that applies is a step to the committed database. */
  lemma ConfirmsAs(w: World, o: Id, m: Confirmations.Message, text: string, now: Time, db: Db)
    requires Confirmations.Parsed(m) && Confirmations.Apply(w.db, o, m, text, now) == Ok(db)
    ensures Step(w, Confirm(o, m, text, now)) == w.(db := db)
  {
    ConfirmTransacts(w.db, Confirm(o, m, text, now));
    Messages.ConfirmSteps(w, o, m, text, now);
    StepsTo(w, Confirm(o, m, text, now), db);
  }

  lemma ConfirmTransacts(db: Db, a: Action)
    requires a.Confirm? && Confirmations.Parsed(a.message)
    requires Confirmations.Apply(db, a.id, a.message, a.text, a.now).Ok?
    ensures Transaction(db, a).Ok?
  {
  }

  lemma StepsTo(w: World, a: Action, db: Db)
    requires (a.Confirm? || a.SetStatus?) && Transaction(w.db, a) == Ok(db)
    ensures Step(w, a) == w.(db := db)
  {
  }

  lemma WholePrecheck()
    ensures Confirmations.Precheck(Sent().db, 3, AcceptWhole()).None?
    ensures Sent().db.files[3].lines == [Bought(4)] && Sent().db.files[3].order.status == OrderStatus.Sent
  {
  }

  lemma ConfirmStep()
    ensures Step(Sent(), Confirm(3, AcceptWhole(), "A-1", 10)) == Answered(Confirmed, "A-1", 10)
  {
    WholePrecheck();
    WholeRows();
    RowTotals(10.0, 0.0, 10);
    AppliesAs(Sent().db, 3, AcceptWhole(), Rows(10.0, 0.0, 10), Confirmed, "A-1", 10);
    ConfirmCommitted();
    ConfirmsAs(Sent(), 3, AcceptWhole(), "A-1", 10, Answered(Confirmed, "A-1", 10).db);
  }

  lemma ConfirmCommitted()
    ensures Confirmations.Commit(Sent().db, 3, AcceptWhole(), Rows(10.0, 0.0, 10), Confirmed, "A-1", 10)
         == Ok(Answered(Confirmed, "A-1", 10).db)
  {
    var db := Sent().db;
    RowTotals(10.0, 0.0, 10);
    var f := Answered(Confirmed, "A-1", 10).db.files[3];
    var merged := db.(files := map[3 := db.files[3].(confirmations := Rows(10.0, 0.0, 10))]);
    assert db.files[3 := merged.files[3]] == merged.files;
    assert merged.files[3 := f] == map[3 := f];
    assert UpdateOrder(merged, 3, f.order, 10) == Ok(merged.(files := map[3 := f]));
  }

  lemma ConfirmedReachable()
    ensures Reachable(Answered(Confirmed, "A-1", 10))
  {
    SentReachable();
    ConfirmStep();
    NextReachable(Sent(), Confirm(3, AcceptWhole(), "A-1", 10));
  }

  lemma OnePart(accepted: real, rejected: real)
    ensures Confirmations.Combine([Confirmations.MessageLine(1, "A-1", accepted, rejected, None)])
         == map[Confirmations.PartKey(1, "A-1") := Confirmations.Part(accepted, rejected, None)]
  {
    var lines := [Confirmations.MessageLine(1, "A-1", accepted, rejected, None)];
    assert lines[..0] == [];
    assert Confirmations.Combine(lines) == Confirmations.AddPart(Confirmations.Combine([]), lines[0]);
  }

  lemma OnePartMerged(m: Confirmations.Message, part: Confirmations.Part)
    ensures var parts := map[Confirmations.PartKey(1, "A-1") := part];
            var row := Confirmations.MergedRow(Some(ConfirmationRow(10.0, 0.0, None, Some(10))), part, m.operation,
                                               m.notice);
            && Confirmations.PartsFit(parts, [Bought(4)])
            && Confirmations.MergeRows(Rows(10.0, 0.0, 10), parts, [Bought(4)], m)
              == map[ConfirmationKey(4, "A-1") := row]
  {
    var parts := map[Confirmations.PartKey(1, "A-1") := part];
    assert Confirmations.Position([Bought(4)], 4) == 0;
    assert Confirmations.Target([Bought(4)], Confirmations.PartKey(1, "A-1")) == ConfirmationKey(4, "A-1");
    assert (set p | p in parts :: Confirmations.Target([Bought(4)], p)) == {ConfirmationKey(4, "A-1")};
  }

  lemma HalfRows(status: OrderStatus, number: string, version: Time)
    ensures Confirmations.NextRows(Answered(status, number, version).db.files[3], AcceptHalf())
         == Ok(Rows(5.0, 0.0, 20))
  {
    OnePart(5.0, 0.0);
    OnePartMerged(AcceptHalf(), Confirmations.Part(5.0, 0.0, None));
  }

  lemma HalfReachesTotals(status: OrderStatus, number: string, version: Time)
    requires status == Confirmed || status == Cancelled
    ensures Messages.ReachesTotals(Answered(status, number, version).db, 3, AcceptHalf())
    ensures Confirmations.Undecided(Rows(5.0, 0.0, 20), [Bought(4)], Confirmations.EPSILON)
    ensures Answered(status, number, version).db.files[3].lines == [Bought(4)]
    ensures Answered(status, number, version).db.files[3].order.status == status
  {
    HalfRows(status, number, version);
    RowTotals(5.0, 0.0, 20);
    assert "second" != "first";
  }

  lemma HalfCommitted(text: string)
    ensures Confirmations.Commit(Answered(Confirmed, "A-1", 10).db, 3, AcceptHalf(), Rows(5.0, 0.0, 20),
                                 OrderStatus.Sent, text, 20).Ok?
  {
    var db := Answered(Confirmed, "A-1", 10).db;
    var merged := db.(files := map[3 := db.files[3].(confirmations := Rows(5.0, 0.0, 20))]);
    assert db.files[3 := merged.files[3]] == merged.files;
  }

  /** A corrected, smaller confirmation turns a confirmed order back into a sent one. */
  lemma SomeStatusFalls()
    ensures exists actions, a ::
              var w := Run(Init(), actions);
              && 3 in w.db.files && 3 in Step(w, a).db.files
              && w.db.files[3].order.status == Confirmed && Step(w, a).db.files[3].order.status == OrderStatus.Sent
  {
    ConfirmedReachable();
    var w := Answered(Confirmed, "A-1", 10);
    HalfReachesTotals(Confirmed, "A-1", 10);
    HalfRows(Confirmed, "A-1", 10);
    HalfCommitted("A-1");
    HalfApplies(w.db, w);
    var actions :| Run(Init(), actions) == w;
  }

  lemma HalfApplies(db: Db, w: World)
    requires w.db == db && Messages.ReachesTotals(db, 3, AcceptHalf())
    requires Confirmations.NextRows(db.files[3], AcceptHalf()) == Ok(Rows(5.0, 0.0, 20))
    requires db.files[3].order.status == Confirmed && db.files[3].lines == [Bought(4)]
    requires Confirmations.Undecided(Rows(5.0, 0.0, 20), [Bought(4)], Confirmations.EPSILON)
    requires Confirmations.Commit(db, 3, AcceptHalf(), Rows(5.0, 0.0, 20), OrderStatus.Sent, "A-1", 20).Ok?
    ensures var files := Step(w, Confirm(3, AcceptHalf(), "A-1", 20)).db.files;
            3 in files && files[3].order.status == OrderStatus.Sent
  {
    AppliesAs(db, 3, AcceptHalf(), Rows(5.0, 0.0, 20), OrderStatus.Sent, "A-1", 20);
    Messages.CommittedStatus(db, 3, AcceptHalf(), Rows(5.0, 0.0, 20), OrderStatus.Sent, "A-1", 20);
    ConfirmsAs(w, 3, AcceptHalf(), "A-1", 20, Confirmations.Apply(db, 3, AcceptHalf(), "A-1", 20).value);
  }

  // ---------- cancelled although nothing is rejected ----------

  lemma CancelledByHand(db: Db)
    requires db == Answered(Confirmed, "A-1", 10).db
    ensures Workflow.SetStatus(db, 3, Cancelled, "", "", false, 11) == Ok(Answered(Cancelled, "", 11).db)
  {
    var g := Answered(Cancelled, "", 11).db.files[3];
    assert Text.Trim("") == "";
    assert db.files[3 := g] == map[3 := g];
  }

  lemma CancelStep()
    ensures Step(Answered(Confirmed, "A-1", 10), SetStatus(3, Cancelled, "", "", UNCHECKED, 11))
         == Answered(Cancelled, "", 11)
  {
    var a := SetStatus(3, Cancelled, "", "", UNCHECKED, 11);
    var w := Answered(Confirmed, "A-1", 10);
    CancelledByHand(w.db);
    StatusTransacts(w.db, a);
    StepsTo(w, a, Answered(Cancelled, "", 11).db);
  }

  lemma StatusTransacts(db: Db, a: Action)
    requires a.SetStatus? && a.check == UNCHECKED
    ensures Transaction(db, a) == Workflow.SetStatus(db, a.id, a.to, a.supplierNumber, a.notes, false, a.now)
  {
  }

  /** Half of a cancelled order is confirmed, nothing of it is rejected, and it stays `cancelled`. */
  lemma SomeCancelledOrderIsAccepted()
    ensures exists actions, m ::
              var db := Run(Init(), actions).db;
              && Messages.ReachesTotals(db, 3, m) && Messages.CancelledUnrejected(db, 3, m, "A-1", 20)
              && Confirmations.AcceptedTotal(Confirmations.NextRows(db.files[3], m).value, db.files[3].lines) == 5.0
              && Confirmations.RejectedTotal(Confirmations.NextRows(db.files[3], m).value, db.files[3].lines) == 0.0
  {
    ConfirmedReachable();
    CancelStep();
    NextReachable(Answered(Confirmed, "A-1", 10), SetStatus(3, Cancelled, "", "", UNCHECKED, 11));
    HalfReachesTotals(Cancelled, "", 11);
    HalfRows(Cancelled, "", 11);
    RowTotals(5.0, 0.0, 20);
    StaysCancelled(Answered(Cancelled, "", 11));
  }

  lemma StaysCancelled(w: World)
    requires Reachable(w) && Messages.ReachesTotals(w.db, 3, AcceptHalf())
    requires Confirmations.NextRows(w.db.files[3], AcceptHalf()) == Ok(Rows(5.0, 0.0, 20))
    requires w.db.files[3].order.status == Cancelled && !w.db.files[3].order.archived
    requires Confirmations.Undecided(Rows(5.0, 0.0, 20), w.db.files[3].lines, Confirmations.EPSILON)
    ensures exists actions :: Run(Init(), actions) == w
    ensures Messages.CancelledUnrejected(w.db, 3, AcceptHalf(), "A-1", 20)
  {
    var actions :| Run(Init(), actions) == w;
    Messages.CancelledExactly(actions, 3, AcceptHalf(), "A-1", 20);
  }

  // ---------- a delayed message without items ----------

  function CancelFour(): Confirmations.Message {
    Confirmations.Message("third", "payload", "A-1", Confirmations.Detail, Confirmations.UpdateMessage, Some(20),
      [Confirmations.MessageLine(1, "A-1", 0.0, 4.0, None)])
  }

  function DelayedAccept(): Confirmations.Message {
    Confirmations.Message("fourth", "payload", "A-1", Confirmations.AcceptAll, Confirmations.NewMessage, Some(15), [])
  }

  /** Four of ten are cancelled. */
  function Partly(): World {
    var w := Answered(Confirmed, "A-1", 10);
    var f := w.db.files[3];
    w.(db := w.db.(
      files := map[3 := f.(order := f.order.(status := PartiallyConfirmed, version := 20),
                           confirmations := Rows(6.0, 4.0, 20))],
      events := map["first" := 3, "third" := 3]))
  }

  lemma FourRows()
    ensures Confirmations.NextRows(Answered(Confirmed, "A-1", 10).db.files[3], CancelFour()) == Ok(Rows(6.0, 4.0, 20))
  {
    OnePart(0.0, 4.0);
    OnePartMerged(CancelFour(), Confirmations.Part(0.0, 4.0, None));
  }

  lemma FourPrecheck()
    ensures Confirmations.Precheck(Answered(Confirmed, "A-1", 10).db, 3, CancelFour()).None?
    ensures Answered(Confirmed, "A-1", 10).db.files[3].lines == [Bought(4)]
  {
    assert "third" != "first";
  }

  lemma FourCommitted()
    ensures Confirmations.Commit(Answered(Confirmed, "A-1", 10).db, 3, CancelFour(), Rows(6.0, 4.0, 20),
                                 PartiallyConfirmed, "A-1", 20)
         == Ok(Partly().db)
  {
    var db := Answered(Confirmed, "A-1", 10).db;
    RowTotals(6.0, 4.0, 20);
    var f := Partly().db.files[3];
    var merged := db.(files := map[3 := db.files[3].(confirmations := Rows(6.0, 4.0, 20))]);
    assert db.files[3 := merged.files[3]] == merged.files;
    assert merged.files[3 := f] == map[3 := f];
    assert UpdateOrder(merged, 3, f.order, 20) == Ok(merged.(files := map[3 := f]));
  }

  lemma PartlyReachable()
    ensures Reachable(Partly())
  {
    ConfirmedReachable();
    FourRows();
    FourPrecheck();
    RowTotals(6.0, 4.0, 20);
    FourCommitted();
    var w := Answered(Confirmed, "A-1", 10);
    AppliesAs(w.db, 3, CancelFour(), Rows(6.0, 4.0, 20), PartiallyConfirmed, "A-1", 20);
    ConfirmsAs(w, 3, CancelFour(), "A-1", 20, Partly().db);
    NextReachable(w, Confirm(3, CancelFour(), "A-1", 20));
  }

  lemma DelayedApplies(db: Db)
    requires db == Partly().db
    ensures Confirmations.Apply(db, 3, DelayedAccept(), "A-1", 30)
         == Confirmations.Commit(db, 3, DelayedAccept(), Rows(10.0, 0.0, 15), Confirmed, "A-1", 30)
  {
    RowTotals(10.0, 0.0, 15);
    assert "fourth" != "first" && "fourth" != "third";
    assert Confirmations.Precheck(db, 3, DelayedAccept()).None?;
    assert Confirmations.Position([Bought(4)], 4) == 0;
    assert db.files[3].lines == [Bought(4)];
    assert Confirmations.WholeOrderRows([Bought(4)], DelayedAccept()) == Rows(10.0, 0.0, 15);
    AppliesAs(db, 3, DelayedAccept(), Rows(10.0, 0.0, 15), Confirmed, "A-1", 30);
  }

  lemma DelayedCommitted(db: Db)
    requires db == Partly().db
    ensures Confirmations.Commit(db, 3, DelayedAccept(), Rows(10.0, 0.0, 15), Confirmed, "A-1", 30).Ok?
    ensures var files := Confirmations.Commit(db, 3, DelayedAccept(), Rows(10.0, 0.0, 15), Confirmed, "A-1",
                                              30).value.files;
            3 in files && files[3].order.status == Confirmed && files[3].confirmations == Rows(10.0, 0.0, 15)
  {
    var merged := db.(files := map[3 := db.files[3].(confirmations := Rows(10.0, 0.0, 15))]);
    assert db.files[3 := merged.files[3]] == merged.files;
  }

  /** A delayed acceptance of the whole order, older than the cancellation of four pieces, undoes that cancellation. */
  lemma SomeCancellationIsUndone()
    ensures exists actions, m ::
              var db := Run(Init(), actions).db;
              var db' := Step(Run(Init(), actions), Confirm(3, m, "A-1", 30)).db;
              && 3 in db.files && 3 in db'.files && Confirmations.HasNewerRow(db.files[3].confirmations, m)
              && db.files[3].confirmations == Rows(6.0, 4.0, 20) && db.files[3].order.status == PartiallyConfirmed
              && db'.files[3].confirmations == Rows(10.0, 0.0, 15) && db'.files[3].order.status == Confirmed
  {
    PartlyReachable();
    var w := Partly();
    DelayedApplies(w.db);
    DelayedCommitted(w.db);
    ConfirmsAs(w, 3, DelayedAccept(), "A-1", 30, Confirmations.Apply(w.db, 3, DelayedAccept(), "A-1", 30).value);
    assert Confirmations.NewerRow(w.db.files[3].confirmations[ConfirmationKey(4, "A-1")], DelayedAccept());
    var actions :| Run(Init(), actions) == w;
  }

  // ---------- previewed as ready and refused ----------

  function Cable(): Product {
    Product("cable", "sku", None, true, 0)
  }

  function Untracked(): Warehouse {
    Init().db.warehouse.(links := map[2 := 5], products := map[5 := WarehouseProduct(true, Unset)])
  }

  /** A house with a supplier, a product and a link to a warehouse product without a tracking mode. */
  function Linked(): World {
    var db := Init().db;
    Init().(db := db.(catalog := db.catalog.(suppliers := map[1 := Amazonia()], products := map[2 := Cable()]),
                      warehouse := Untracked(), serial := 3))
  }

  function Delivered(id: Id): Line {
    Bought(id).(product := Some(2), part := "", auxiliary := "")
  }

  function Awaiting(): World {
    var order := Order("PO-2", 1, None, None, OrderStatus.Sent, "EUR", 1000, "", "", {}, Some(1), "", false, 1);
    Linked().(db := Linked().db.(files := map[3 := OrderFile(order, [Delivered(4)], None, None, map[])], serial := 5))
  }

  lemma LinkedReachable()
    ensures Reachable(Linked())
  {
    StartReachable();
    SupplierStep();
    NextReachable(Init(), NewSupplier(Amazonia(), 0));
    var w := Step(Init(), NewSupplier(Amazonia(), 0));
    NextReachable(w, NewProduct(Cable(), 0));
    var v := Step(w, NewProduct(Cable(), 0));
    NextReachable(v, PutWarehouse(map[2 := 5], map[5 := WarehouseProduct(true, Unset)], map[]));
    assert v == Linked().(db := Linked().db.(warehouse := Init().db.warehouse));
    assert Step(v, PutWarehouse(map[2 := 5], map[5 := WarehouseProduct(true, Unset)], map[])) == Linked();
  }

  function Wish(): Workflow.OrderInput {
    Workflow.OrderInput("PO-2", 1, None, OrderStatus.Sent, "EUR", "", None, "", [Delivered(0)])
  }

  lemma OrderCreated(db: Db)
    requires db == Linked().db
    ensures Workflow.CreateOrder(db, Wish(), 1) == Ok(Awaiting().db)
  {
    assert [Delivered(0)][..0] == [];
    assert Workflow.Total([Delivered(0)]) == Workflow.Total([]) + Workflow.LineCents(Delivered(0));
    assert NumberFrom([Delivered(0)], 4) == [Delivered(4)];
    assert Workflow.ValidLines([Delivered(0)]);
    assert Workflow.Fresh([Delivered(0)]) == [Delivered(0)];
  }

  lemma OrderStep()
    ensures Step(Linked(), NewOrder(Wish(), 1)) == Awaiting()
  {
    OrderCreated(Linked().db);
  }

  function OnePiece(): GoodsReceipts.ReceiptInput {
    GoodsReceipts.ReceiptInput(4, 1.0, [], None, false, Some(1))
  }

  lemma OnePieceReady()
    ensures GoodsReceipts.PreviewReady(Awaiting().db, 3, OnePiece())
    ensures Confirmations.Position(Awaiting().db.files[3].lines, 4) == 0
    ensures GoodsReceipts.ModeMissing(Awaiting().db, Awaiting().db.files[3].lines[0])
  {
  }

  /** A receipt the preview calls ready is refused, because its warehouse product has no tracking mode. */
  lemma SomeReadyReceiptIsRefused()
    ensures exists actions ::
              var db := Run(Init(), actions).db;
              && GoodsReceipts.PreviewReady(db, 3, OnePiece())
              && GoodsReceipts.Receive(db, 3, OnePiece(), true, APPROVER, 2) == Err(TrackingInvalid)
  {
    LinkedReachable();
    OrderStep();
    NextReachable(Linked(), NewOrder(Wish(), 1));
    OnePieceReady();
    var actions :| Run(Init(), actions) == Awaiting();
    Preview.PreviewIsSound(actions, 3, OnePiece(), APPROVER, 2);
  }
}
