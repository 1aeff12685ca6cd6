/** One PunchOut cart, one requisition, one order, one send: and the cart stays what it was. */
module Sessions {
  import opened Base
  import opened Schema
  import opened World
  import opened Invariants
  import opened Protocol
  import opened Evolution
  import Confirmations
  import GoodsReceipts
  import Preservation
  import Safety
  import Stock
  import Stranding
  import Submission
  import Workflow

  // ---------- the invariant ----------

  predicate SameSession(a: Requisition, b: Requisition) {
    a.session.Some? && a.session == b.session
  }

  /** No two requisitions come from one PunchOut session. */
  predicate OneRequisition(requisitions: map<Id, Requisition>) {
    forall r, s :: r in requisitions && s in requisitions && SameSession(requisitions[r], requisitions[s]) ==> r == s
  }

  /** A PunchOut order was made of the converted requisition of its session, and was opened by a claim only. */
  predicate FromCart(requisitions: map<Id, Requisition>, f: OrderFile) {
    f.order.session.Some? ==>
      && f.order.requisition.Some? && f.order.requisition.value in requisitions
      && requisitions[f.order.requisition.value].session == f.order.session
      && requisitions[f.order.requisition.value].status == ReqOrdered
      && (f.claim.None? ==> f.order.status == Draft || f.order.status == Cancelled)
  }

  predicate SameSource(f: OrderFile, g: OrderFile) {
    f.order.session.Some? && g.order.session.Some? && f.order.requisition == g.order.requisition
  }

  /** No two PunchOut orders come from one requisition. */
  predicate OneOrder(files: map<Id, OrderFile>) {
    forall o, p :: o in files && p in files && SameSource(files[o], files[p]) ==> o == p
  }

  predicate CartsOk(db: Db) {
    && OneRequisition(db.requisitions)
    && (forall o :: o in db.files ==> FromCart(db.requisitions, db.files[o]))
    && OneOrder(db.files)
  }

  // ---------- what appears ----------

  /**
   No action but a conversion adds a PunchOut order, and it adds a draft of an approved requisition without orders.
   */
  lemma NewOrders(db: Db, a: Action, o: Id)
    requires Transaction(db, a).Ok? && o !in db.files && o in Transaction(db, a).value.files
    requires Transaction(db, a).value.files[o].order.session.Some?
    ensures a.ConvertRequisition? && a.id in db.requisitions && db.requisitions[a.id].status == ReqApproved
    ensures var f := Transaction(db, a).value.files[o];
            && f.order.requisition == Some(a.id) && f.order.session == db.requisitions[a.id].session
            && f.order.status == Draft && f.claim.None?
    ensures forall p :: p in db.files ==> db.files[p].order.requisition != Some(a.id)
    ensures a.id in Transaction(db, a).value.requisitions
    ensures Transaction(db, a).value.requisitions[a.id].status == ReqOrdered
    ensures Transaction(db, a).value.requisitions[a.id].session == db.requisitions[a.id].session
    ensures Transaction(db, a).value.files.Keys == db.files.Keys + {o}
  {
    if SupplierAction(a) {
      SupplierAddsNone(db, a);
      assert false;
    } else if OrderAction(a) {
      OrderAddsNative(db, a, o);
      assert false;
    } else if a.ConvertRequisition? {
      ConversionAdds(db, a);
    } else {
      DemandAddsNone(db, a);
      assert false;
    }
  }

  lemma SupplierAddsNone(db: Db, a: Action)
    requires SupplierAction(a) && Transaction(db, a).Ok?
    ensures Transaction(db, a).value.files.Keys == db.files.Keys
  {
    match a
    case ReconcileOrder(user, key, request, now) =>
      if Key(user, ReconcileSubmission(request.order), key) !in db.records {
        ReconciledShape(db, user, key, request, now);
      }
    case Confirm(id, message, text, now) => Preservation.ApplyShape(db, id, message, text, now);
    case Receive(id, receipt, guided, user, now) => Stranding.ReceiveKeepsRecords(db, id, receipt, guided, user, now);
  }

  lemma OrderAddsNative(db: Db, a: Action, o: Id)
    requires OrderAction(a) && Transaction(db, a).Ok? && o !in db.files && o in Transaction(db, a).value.files
    ensures Transaction(db, a).value.files[o].order.session.None?
  {
  }

  lemma ConversionAdds(db: Db, a: Action)
    requires a.ConvertRequisition? && Transaction(db, a).Ok?
    ensures var db' := Transaction(db, a).value;
            && a.id in db.requisitions && db.requisitions[a.id].status == ReqApproved
            && (forall p :: p in db.files ==> db.files[p].order.requisition != Some(a.id))
            && db'.files.Keys == db.files.Keys + {db.serial} && a.id in db'.requisitions
            && db'.requisitions[a.id].status == ReqOrdered
            && db'.requisitions[a.id].session == db.requisitions[a.id].session
            && var f := db'.files[db.serial];
               && f.order.requisition == Some(a.id) && f.order.session == db.requisitions[a.id].session
               && f.order.status == Draft && f.claim.None?
  {
  }

  lemma DemandAddsNone(db: Db, a: Action)
    requires !OrderAction(a) && !SupplierAction(a) && !a.ConvertRequisition? && Transaction(db, a).Ok?
    ensures Transaction(db, a).value.files.Keys == db.files.Keys
  {
  }

  /** A requisition appears only with a session no other has. */
  lemma NewRequisitions(db: Db, a: Action, r: Id)
    requires Transaction(db, a).Ok? && r !in db.requisitions && r in Transaction(db, a).value.requisitions
    ensures forall s :: s in db.requisitions ==>
              !SameSession(Transaction(db, a).value.requisitions[r], db.requisitions[s])
    ensures Transaction(db, a).value.requisitions.Keys == db.requisitions.Keys + {r}
  {
    if SupplierAction(a) {
      SupplierKeepsRequisitions(db, a);
      assert false;
    } else if OrderAction(a) {
      OrderKeepsRequisitions(db, a);
      assert false;
    } else if !a.NewRequisition? {
      DemandKeepsRequisitions(db, a);
      assert false;
    } else {
      assert r == db.serial;
    }
  }

  lemma SupplierKeepsRequisitions(db: Db, a: Action)
    requires SupplierAction(a) && Transaction(db, a).Ok?
    ensures Transaction(db, a).value.requisitions == db.requisitions
  {
    match a
    case ReconcileOrder(user, key, request, now) =>
      if Key(user, ReconcileSubmission(request.order), key) !in db.records {
        ReconciledShape(db, user, key, request, now);
      }
    case Confirm(id, message, text, now) => Preservation.ApplyShape(db, id, message, text, now);
    case Receive(id, receipt, guided, user, now) => ReceiptKeepsRequisitions(db, id, receipt, guided, user, now);
  }

  lemma ReceiptKeepsRequisitions(db: Db, o: Id, input: GoodsReceipts.ReceiptInput, guided: bool, user: Id, now: Time)
    requires GoodsReceipts.Receive(db, o, input, guided, user, now).Ok?
    ensures GoodsReceipts.Receive(db, o, input, guided, user, now).value.requisitions == db.requisitions
  {
    Stock.ReceiveShape(db, o, input, guided, user, now);
    var line := db.files[o].lines[Confirmations.Position(db.files[o].lines, input.line)];
    Preservation.StockedShape(db, line, input, guided);
  }

  lemma OrderKeepsRequisitions(db: Db, a: Action)
    requires OrderAction(a) && Transaction(db, a).Ok?
    ensures Transaction(db, a).value.requisitions == db.requisitions
  {
  }

  lemma DemandKeepsRequisitions(db: Db, a: Action)
    requires !OrderAction(a) && !SupplierAction(a) && !a.NewRequisition? && Transaction(db, a).Ok?
    ensures Transaction(db, a).value.requisitions.Keys == db.requisitions.Keys
  {
  }

  // ---------- phases and requests ----------

  /** The same orders and requisitions, whatever became of the orders. */
  predicate SameHouse(db: Db, db': Db) {
    db'.files.Keys == db.files.Keys && db'.requisitions == db.requisitions
  }

  lemma FinalizeSameHouse(db: Db, o: Id, key: Option<Key>, now: Time)
    requires Submission.Finalize(db, o, key, now).Ok?
    ensures SameHouse(db, Submission.Finalize(db, o, key, now).value)
  {
    FinalizeShape(db, o, key, now);
  }

  lemma ReplaySameHouse(db: Db, key: Key, body: RequestBody, o: Id, now: Time)
    requires key in db.records && Submission.Replay(db, key, body, o, now).Ok?
    ensures SameHouse(db, Submission.Replay(db, key, body, o, now).value.db)
  {
    if Submission.Finalize(db, o, Some(key), now).Ok? {
      FinalizeSameHouse(db, o, Some(key), now);
    }
  }

  lemma BeginSameHouse(w: World, p: nat, r: Result<Submission.Reply>, o: Id, key: Option<Key>)
    requires r.Ok? ==> SameHouse(w.db, r.value.db)
    ensures SameHouse(w.db, Begin(w, p, r, o, key).db)
  {
  }

  lemma AmazonSameHouse(w: World, a: Action)
    requires a.RequestAmazon?
    ensures SameHouse(w.db, Step(w, a).db)
  {
    var r := AmazonReply(w.db, a.user, a.token, a.send, a.payloadId, a.configured, a.now);
    if r.Ok? {
      AmazonReplySameHouse(w, a);
    }
    BeginSameHouse(w, a.process, r, a.send.order, AmazonKey(a.user, a.token, a.send.order));
  }

  lemma AmazonReplySameHouse(w: World, a: Action)
    requires a.RequestAmazon?
    requires AmazonReply(w.db, a.user, a.token, a.send, a.payloadId, a.configured, a.now).Ok?
    ensures SameHouse(w.db, AmazonReply(w.db, a.user, a.token, a.send, a.payloadId, a.configured, a.now).value.db)
  {
    if a.token.None? {
      NativeAmazon(w.db, a.user, a.send, a.payloadId, a.configured, a.now);
      AmazonClaimShape(w.db, a.user, a.send.order, a.payloadId, a.now);
    } else if Key(a.user, SendAmazon(a.send.order), a.token.value) in w.db.records {
      ReplayedAmazon(w.db, a.user, a.token.value, a.send, a.payloadId, a.configured, a.now);
      ReplaySameHouse(w.db, Key(a.user, SendAmazon(a.send.order), a.token.value), SendBody(a.send), a.send.order,
                      a.now);
    } else {
      GuidedAmazon(w.db, a.user, a.token.value, a.send, a.payloadId, a.configured, a.now);
      AmazonClaimShape(w.db, a.user, a.send.order, a.payloadId, a.now);
    }
  }

  lemma AdamHallSameHouse(w: World, a: Action)
    requires a.RequestAdamHall?
    ensures SameHouse(w.db, Step(w, a).db)
  {
    if AdamHallReply(w.db, a.user, a.key, a.send, a.payloadId, a.configured, a.now).Ok? {
      if Key(a.user, SendAdamHall(a.send.order), a.key) in w.db.records {
        ReplayedAdamHall(w.db, a.user, a.key, a.send, a.payloadId, a.configured, a.now);
        ReplaySameHouse(w.db, Key(a.user, SendAdamHall(a.send.order), a.key), SendBody(a.send), a.send.order, a.now);
      } else {
        FirstAdamHall(w.db, a.user, a.key, a.send, a.payloadId, a.configured, a.now);
        AdamHallClaimShape(w.db, a.user, a.send.order, a.send.checkout.value, a.payloadId, a.now);
      }
    }
  }

  lemma PhaseSameHouse(w: World, a: Action)
    requires Phase(a)
    ensures SameHouse(w.db, Step(w, a).db)
  {
    if a.FinalizeOrder? && a.process in w.processes {
      var x := w.processes[a.process];
      if Submission.Finalize(w.db, x.order, x.key, a.now).Ok? {
        FinalizeSameHouse(w.db, x.order, x.key, a.now);
      }
    }
  }

  // ---------- every step, every run ----------

  /** Rows that stay keep what the invariant says of them. */
  lemma KeptCarts(db: Db, db': Db, o: Id)
    requires o in db.files && FromCart(db.requisitions, db.files[o]) && Evolves(db, db')
    ensures o in db'.files && FromCart(db'.requisitions, db'.files[o])
    ensures db'.files[o].order.session == db.files[o].order.session
    ensures db'.files[o].order.requisition == db.files[o].order.requisition
  {
    assert FileStep(db.files[o], db'.files[o]);
    if db.files[o].order.session.Some? {
      var r := db.files[o].order.requisition.value;
      assert RequisitionStepped(db.requisitions[r], db'.requisitions[r]);
    }
  }

  lemma SameHouseCarts(db: Db, db': Db)
    requires CartsOk(db) && Evolves(db, db') && SameHouse(db, db')
    ensures CartsOk(db')
  {
    forall o | o in db'.files
      ensures FromCart(db'.requisitions, db'.files[o])
      ensures db'.files[o].order.session == db.files[o].order.session
      ensures db'.files[o].order.requisition == db.files[o].order.requisition
    {
      KeptCarts(db, db', o);
    }
    forall o, p | o in db'.files && p in db'.files && SameSource(db'.files[o], db'.files[p])
      ensures o == p
    {
      assert SameSource(db.files[o], db.files[p]);
    }
  }

  lemma RequisitionsStayOne(db: Db, a: Action)
    requires OneRequisition(db.requisitions) && Transaction(db, a).Ok? && Evolves(db, Transaction(db, a).value)
    ensures OneRequisition(Transaction(db, a).value.requisitions)
  {
    var after := Transaction(db, a).value.requisitions;
    forall r | r in db.requisitions
      ensures r in after && after[r].session == db.requisitions[r].session
    {
      assert RequisitionStepped(db.requisitions[r], after[r]);
    }
    forall r, s | r in after && s in after && SameSession(after[r], after[s])
      ensures r == s
    {
      if r in db.requisitions && s in db.requisitions {
        assert SameSession(db.requisitions[r], db.requisitions[s]);
      } else if r !in db.requisitions {
        NewRequisitions(db, a, r);
      } else {
        NewRequisitions(db, a, s);
      }
    }
  }

  lemma OrdersStayFromCart(db: Db, a: Action, o: Id)
    requires CartsOk(db) && Transaction(db, a).Ok? && Evolves(db, Transaction(db, a).value)
    requires o in Transaction(db, a).value.files
    ensures FromCart(Transaction(db, a).value.requisitions, Transaction(db, a).value.files[o])
  {
    var db' := Transaction(db, a).value;
    if o in db.files {
      KeptCarts(db, db', o);
    } else if db'.files[o].order.session.Some? {
      NewOrders(db, a, o);
    }
  }

  lemma OrdersStayOne(db: Db, a: Action, o: Id, p: Id)
    requires CartsOk(db) && Transaction(db, a).Ok? && Evolves(db, Transaction(db, a).value)
    requires var files := Transaction(db, a).value.files; o in files && p in files && SameSource(files[o], files[p])
    ensures o == p
  {
    var db' := Transaction(db, a).value;
    if o in db.files && p in db.files {
      KeptCarts(db, db', o);
      KeptCarts(db, db', p);
      assert SameSource(db.files[o], db.files[p]);
    } else if o !in db.files {
      NewOrders(db, a, o);
      if p in db.files {
        KeptCarts(db, db', p);
        assert false;
      }
    } else {
      NewOrders(db, a, p);
      KeptCarts(db, db', o);
      assert false;
    }
  }

  lemma TransactionCarts(db: Db, a: Action)
    requires CartsOk(db) && Transaction(db, a).Ok? && Evolves(db, Transaction(db, a).value)
    ensures CartsOk(Transaction(db, a).value)
  {
    var db' := Transaction(db, a).value;
    RequisitionsStayOne(db, a);
    forall o | o in db'.files
      ensures FromCart(db'.requisitions, db'.files[o])
    {
      OrdersStayFromCart(db, a, o);
    }
    forall o, p | o in db'.files && p in db'.files && SameSource(db'.files[o], db'.files[p])
      ensures o == p
    {
      OrdersStayOne(db, a, o, p);
    }
  }

  lemma StepCarts(w: World, a: Action)
    requires Guarded(w.db) && CartsOk(w.db)
    ensures CartsOk(Step(w, a).db)
  {
    StepExtends(w, a);
    if Phase(a) {
      PhaseSameHouse(w, a);
      SameHouseCarts(w.db, Step(w, a).db);
    } else if a.RequestAmazon? {
      AmazonSameHouse(w, a);
      SameHouseCarts(w.db, Step(w, a).db);
    } else if a.RequestAdamHall? {
      AdamHallSameHouse(w, a);
      SameHouseCarts(w.db, Step(w, a).db);
    } else {
      HandlerCarts(w, a);
    }
  }

  lemma HandlerCarts(w: World, a: Action)
    requires CartsOk(w.db) && !Phase(a) && !a.RequestAmazon? && !a.RequestAdamHall?
    requires Evolves(w.db, Step(w, a).db)
    ensures CartsOk(Step(w, a).db)
  {
    if Transaction(w.db, a).Ok? {
      assert Step(w, a).db == Transaction(w.db, a).value;
      TransactionCarts(w.db, a);
    }
  }

  lemma {:induction false} RunCarts(w: World, actions: seq<Action>)
    requires Inv(w) && CartsOk(w.db)
    ensures CartsOk(Run(w, actions).db)
    decreases |actions|
  {
    if actions != [] {
      InvGuards(w);
      StepCarts(w, actions[0]);
      Protocol.StepKeeps(w, actions[0]);
      RunCarts(Step(w, actions[0]), actions[1..]);
    }
  }

  // ---------- what a reader wants ----------

  /**
   In every run one PunchOut session leads to at most one requisition, one order and one external send, of whatever key,
   user or provider; and an order of a session left `draft` uncancelled only by a committed claim.
   */
  lemma {:induction false} OneSendPerSession(actions: seq<Action>, i: nat, j: nat)
    requires i < |Run(Init(), actions).sends| && j < |Run(Init(), actions).sends|
    requires var w := Run(Init(), actions);
             var o, p := w.sends[i].order, w.sends[j].order;
             && o in w.db.files && p in w.db.files && w.db.files[o].order.session.Some?
             && w.db.files[o].order.session == w.db.files[p].order.session
    ensures i == j
  {
    var w := Run(Init(), actions);
    RunCarts(Init(), actions);
    var o, p := w.sends[i].order, w.sends[j].order;
    SameSessionSameOrder(w.db, o, p);
    Safety.AtMostOneSend(actions, i, j);
  }

  lemma SameSessionSameOrder(db: Db, o: Id, p: Id)
    requires CartsOk(db) && o in db.files && p in db.files
    requires db.files[o].order.session.Some? && db.files[o].order.session == db.files[p].order.session
    ensures o == p
  {
    var r, s := db.files[o].order.requisition.value, db.files[p].order.requisition.value;
    assert SameSession(db.requisitions[r], db.requisitions[s]);
    assert SameSource(db.files[o], db.files[p]);
  }

  /** A PunchOut order without a claim is a draft or cancelled: no manual change sends it. */
  lemma {:induction false} SentOnlyByClaim(actions: seq<Action>, o: Id)
    requires var files := Run(Init(), actions).db.files;
             o in files && files[o].order.session.Some? && files[o].claim.None?
    ensures var status := Run(Init(), actions).db.files[o].order.status; status == Draft || status == Cancelled
  {
    InitInv();
    RunCarts(Init(), actions);
    assert FromCart(Run(Init(), actions).db.requisitions, Run(Init(), actions).db.files[o]);
  }

  /** What came out of a PunchOut session is never rewritten, in the requisition or in the order, by whatever run. */
  lemma {:induction false} CartNeverRewritten(actions: seq<Action>, later: seq<Action>)
    ensures var db, db' := Run(Init(), actions).db, Run(Init(), actions + later).db;
            && (forall r :: r in db.requisitions && db.requisitions[r].session.Some? ==>
                  r in db'.requisitions && db'.requisitions[r].lines == db.requisitions[r].lines)
            && (forall o :: o in db.files && db.files[o].order.session.Some? ==>
                  o in db'.files && SameGoods(db.files[o].lines, db'.files[o].lines))
  {
    var w := Run(Init(), actions);
    Safety.Reached(actions);
    Safety.RunThen(Init(), actions, later);
    RunExtends(w, later);
    var w' := Run(w, later);
    forall r | r in w.db.requisitions && w.db.requisitions[r].session.Some?
      ensures r in w'.db.requisitions && w'.db.requisitions[r].lines == w.db.requisitions[r].lines
    {
      assert RequisitionStepped(w.db.requisitions[r], w'.db.requisitions[r]);
    }
    forall o | o in w.db.files && w.db.files[o].order.session.Some?
      ensures o in w'.db.files && SameGoods(w.db.files[o].lines, w'.db.files[o].lines)
    {
      assert FileStep(w.db.files[o], w'.db.files[o]);
      GoodsKept(w.db.files[o].lines, w'.db.files[o].lines);
    }
  }

  /** Line for line the same but for what was received. */
  predicate SameGoods(lines: seq<Line>, lines': seq<Line>) {
    |lines'| == |lines| && forall i :: 0 <= i < |lines| ==> lines'[i] == lines[i].(received := lines'[i].received)
  }

  lemma GoodsKept(lines: seq<Line>, lines': seq<Line>)
    requires CommercialLines(lines') == CommercialLines(lines)
    ensures SameGoods(lines, lines')
  {
    assert |lines'| == |CommercialLines(lines')| == |CommercialLines(lines)| == |lines|;
    forall i | 0 <= i < |lines|
      ensures lines'[i] == lines[i].(received := lines'[i].received)
    {
      assert CommercialLines(lines')[i] == CommercialLines(lines)[i];
      assert Commercial(lines'[i]) == Commercial(lines[i]);
    }
  }

  /** A rejected requisition stays rejected and keeps its lines, whatever is asked for later. */
  lemma {:induction false} RejectedIsFinal(actions: seq<Action>, later: seq<Action>, r: Id)
    requires r in Run(Init(), actions).db.requisitions
    requires Run(Init(), actions).db.requisitions[r].status == ReqRejected
    ensures var requisitions := Run(Init(), actions + later).db.requisitions;
            && r in requisitions && requisitions[r].status == ReqRejected
            && requisitions[r].lines == Run(Init(), actions).db.requisitions[r].lines
  {
    var w := Run(Init(), actions);
    Safety.Reached(actions);
    Safety.RunThen(Init(), actions, later);
    RunExtends(w, later);
    assert RequisitionStepped(w.db.requisitions[r], Run(w, later).db.requisitions[r]);
  }

  /** What a decision means: who decided, how, and what can be done with the requisition afterwards. */
  lemma DecisionMeans(db: Db, r: Id, user: Id, decision: Workflow.Decision, guided: bool, now: Time, later: Time)
    requires Workflow.DecideRequisition(db, r, user, decision, guided, now).Ok?
    ensures var db' := Workflow.DecideRequisition(db, r, user, decision, guided, now).value;
            && r in db.requisitions && r in db'.requisitions
            && var was, row := db.requisitions[r], db'.requisitions[r];
               && was.status == ReqSubmitted && (guided ==> was.requester != user)
               && row.approvedBy == Some(user) && row.decided && row.lines == was.lines
               && row.requester == was.requester
               && (decision == Workflow.Approve <==> row.status == ReqApproved)
               && (decision == Workflow.Reject <==> row.status == ReqRejected)
               && (Workflow.EditRequisition(db', r, None, later).Ok? <==>
                     && decision.Return? && was.session.None? && Workflow.ValidRequisitionLines(was.lines)
                     && ActiveRequisitionProducts(db.catalog, was.lines)
                     && ActivePreferredSuppliers(db.catalog, was.lines))
  {
  }
}
