/** Whole-run guarantees: what holds in every state of every interleaving, from the empty house on. */
module Safety {
  import opened Base
  import opened Schema
  import opened Triggers
  import opened Submission
  import opened World
  import opened Invariants
  import opened FileSteps
  import opened Protocol
  import opened Evolution
  import Confirmations
  import Conversion
  import Workflow

  /** Two runs one after the other are one run. */
  lemma {:induction false} RunThen(w: World, first: seq<Action>, second: seq<Action>)
    ensures Run(Run(w, first), second) == Run(w, first + second)
    decreases |first|
  {
    if first == [] {
      assert first + second == second;
    } else {
      assert (first + second)[0] == first[0] && (first + second)[1..] == first[1..] + second;
      RunThen(Step(w, first[0]), first[1..], second);
    }
  }

  lemma Reached(actions: seq<Action>)
    ensures Inv(Run(Init(), actions))
  {
    InitInv();
    RunKeeps(Init(), actions);
  }

  // ---------- at most one send ----------

  /**
   In every interleaving of native and guided requests, replays, crashes and reconciliations, an order is sent
   at most once, to one provider, and what was sent is its committed claim.
   */
  lemma AtMostOneSend(actions: seq<Action>, i: nat, j: nat)
    requires i < |Run(Init(), actions).sends| && j < |Run(Init(), actions).sends|
    requires Run(Init(), actions).sends[i].order == Run(Init(), actions).sends[j].order
    ensures i == j
    ensures SendOk(Run(Init(), actions).db.files, Run(Init(), actions).sends[i])
  {
    Reached(actions);
    assert SendsOk(Run(Init(), actions));
  }

  /** Nothing is sent before its claim is committed, and sending is no part of any transaction. */
  lemma SendNeedsCommittedClaim(actions: seq<Action>, a: Action)
    requires var w := Run(Init(), actions); Step(w, a).sends != w.sends
    ensures var w := Run(Init(), actions);
            var w' := Step(w, a);
            && a.SendOut? && a.process in w.processes && w'.db == w.db
            && var o := w.processes[a.process].order;
               && o in w.db.files && w.db.files[o].claim.Some? && w.db.files[o].claim.value.status == Pending
               && !WasSent(w.sends, o)
               && w'.sends == w.sends
                 + [Send(o, w.db.files[o].claim.value.provider, w.db.files[o].claim.value.payloadId,
                         w.db.files[o].claim.value.payload)]
  {
    Reached(actions);
    var w := Run(Init(), actions);
    if a.SendOut? {
      assert ProcessOk(w.db, w.sends, w.processes[a.process]);
    } else {
      OnlySendOutSends(w, a);
      assert false;
    }
  }

  lemma OnlySendOutSends(w: World, a: Action)
    requires !a.SendOut?
    ensures Step(w, a).sends == w.sends
  {
  }

  // ---------- what is sent is what was approved ----------

  /**
   Line for line the stored order, and line for line the order's own requisition as somebody other than its requester
   approved it, both from the same PunchOut session.
   */
  ghost predicate SentAsApproved(w: World, s: Send) {
    && s.order in w.db.files
    && var f := w.db.files[s.order];
       && s.payload == AmazonPayload(f.order.number, ToPayloadLines(f.lines))
       && f.order.requisition.Some? && f.order.requisition.value in w.db.requisitions
       && var source := w.db.requisitions[f.order.requisition.value];
          && f.order.session.Some? && source.session == f.order.session
          && exists i :: 0 <= i < |w.approvals| && ApprovesOwnCart(w.approvals[i], f, source)
  }

  /** The approval is of this source, by another user than its requester, with the order's lines. */
  predicate ApprovesOwnCart(a: Approval, f: OrderFile, source: Requisition) {
    && f.order.requisition == Some(a.requisition) && a.session == f.order.session
    && a.requester == source.requester && a.approver != source.requester
    && CartPayload(a.lines, ToPayloadLines(f.lines))
  }

  /**
   Everything Amazon was ever sent equals, at the end of the run and so in every later state, the stored order
   lines and the order's own requisition as it stood when a user other than its requester approved it.
   */
  lemma AmazonGetsTheApprovedCart(actions: seq<Action>, later: seq<Action>, i: nat)
    requires i < |Run(Init(), actions).sends| && Run(Init(), actions).sends[i].provider == Amazon
    ensures SentAsApproved(Run(Init(), actions), Run(Init(), actions).sends[i])
    ensures SentAsApproved(Run(Init(), actions + later), Run(Init(), actions).sends[i])
  {
    var w := Run(Init(), actions);
    var s := w.sends[i];
    Reached(actions);
    Reached(actions + later);
    RunThen(Init(), actions, later);
    RunExtends(w, later);
    SentMatchesClaim(w, i);
    var w' := Run(Init(), actions + later);
    assert w'.sends[i] == s;
    SentMatchesClaim(w', i);
  }

  lemma SentMatchesClaim(w: World, n: nat)
    requires Inv(w) && n < |w.sends| && w.sends[n].provider == Amazon
    ensures SentAsApproved(w, w.sends[n])
  {
    var s := w.sends[n];
    assert SendOk(w.db.files, s);
    assert Holds(w.db, w.approvals, s.order, w.db.files[s.order]);
    var f := w.db.files[s.order];
    var i :| 0 <= i < |w.approvals|
             && ApprovesCart(w.approvals[i], f.order.requisition, f.order.session, ToPayloadLines(f.lines));
    assert ApprovalKnown(w.db.requisitions, w.approvals[i]);
    assert ApprovesOwnCart(w.approvals[i], f, w.db.requisitions[f.order.requisition.value]);
  }

  // ---------- claims are forever ----------

  /** Everything but the answer. */
  predicate SameIdentity(c: Claim, d: Claim) {
    && d.provider == c.provider && d.user == c.user && d.payloadId == c.payloadId && d.payload == c.payload
    && d.createdAt == c.createdAt
  }

  /** A claim keeps its identity, its outcome is written once, and the claimed order never is a draft again. */
  lemma ClaimsAreForever(actions: seq<Action>, later: seq<Action>, o: Id)
    requires var f := Run(Init(), actions).db.files; o in f && f[o].claim.Some?
    ensures var f := Run(Init(), actions).db.files[o];
            var files := Run(Init(), actions + later).db.files;
            && o in files && files[o].claim.Some?
            && SameIdentity(f.claim.value, files[o].claim.value)
            && (f.claim.value.status != Pending ==> files[o].claim.value == f.claim.value)
            && files[o].order.status != Draft
            && CommercialLines(files[o].lines) == CommercialLines(f.lines)
            && files[o].order.supplier == f.order.supplier && files[o].order.totalCents == f.order.totalCents
  {
    var w := Run(Init(), actions);
    Reached(actions);
    RunThen(Init(), actions, later);
    RunExtends(w, later);
    assert Holds(w.db, w.approvals, o, w.db.files[o]);
    assert FileStep(w.db.files[o], Run(w, later).db.files[o]);
  }

  // ---------- versions ----------

  /**
   A version read once and accepted later proves that neither the order, nor a line, nor a confirmation of it was
   touched in between, whatever else happened; and an untouched order is accepted.
   */
  lemma OrderVersionIsFresh(actions: seq<Action>, later: seq<Action>, o: Id)
    requires o in Run(Init(), actions).db.files
    ensures o in Run(Init(), actions + later).db.files
    ensures var read := Run(Init(), actions).db.files[o];
            var found := Run(Init(), actions + later).db.files[o];
            VersionAccepted(found.order.version, Some(read.order.version), true) <==>
              (found.order == read.order && found.lines == read.lines && found.confirmations == read.confirmations)
  {
    var w := Run(Init(), actions);
    Reached(actions);
    RunThen(Init(), actions, later);
    RunExtends(w, later);
    assert FileStep(w.db.files[o], Run(w, later).db.files[o]);
  }

  /** The same for requisitions, whose lines are part of the row here. */
  lemma RequisitionVersionIsFresh(actions: seq<Action>, later: seq<Action>, r: Id)
    requires r in Run(Init(), actions).db.requisitions
    ensures r in Run(Init(), actions + later).db.requisitions
    ensures var read := Run(Init(), actions).db.requisitions[r];
            var found := Run(Init(), actions + later).db.requisitions[r];
            VersionAccepted(found.version, Some(read.version), true) <==> found == read
  {
    var w := Run(Init(), actions);
    Reached(actions);
    RunThen(Init(), actions, later);
    RunExtends(w, later);
    assert RequisitionStepped(w.db.requisitions[r], Run(w, later).db.requisitions[r]);
  }

  // ---------- statuses ----------

  function Moved(before: Db, after: Db, o: Id): nat {
    if o in before.files && o in after.files && before.files[o].order.status != after.files[o].order.status
    then 1 else 0
  }

  /** How often a run changes the status of an order. */
  ghost function Changes(w: World, actions: seq<Action>, o: Id): nat
    decreases |actions|
  {
    if actions == [] then 0
    else
      var next := Step(w, actions[0]);
      Moved(w.db, next.db, o) + Changes(next, actions[1..], o)
  }

  function RankOf(w: World, o: Id): nat {
    if o in w.db.files then Rank(w.db.files[o].order.status) else 0
  }

  /** Every status change of an order without a PunchOut session climbs the rank. */
  lemma {:induction false} StatusClimbs(w: World, actions: seq<Action>, o: Id)
    requires Inv(w) && o in w.db.files && w.db.files[o].order.session.None?
    ensures Changes(w, actions, o) + RankOf(w, o) <= RankOf(Run(w, actions), o)
    decreases |actions|
  {
    if actions != [] {
      var next := Step(w, actions[0]);
      StatusStepOf(w, actions[0], o);
      StepKeeps(w, actions[0]);
      assert Moved(w.db, next.db, o) + RankOf(w, o) <= RankOf(next, o);
      StatusClimbs(next, actions[1..], o);
    }
  }

  /** So there are at most six changes, and fewer from a later status. */
  lemma AtMostSixChanges(actions: seq<Action>, later: seq<Action>, o: Id)
    requires var files := Run(Init(), actions).db.files; o in files && files[o].order.session.None?
    ensures Changes(Run(Init(), actions), later, o) <= 6 - Rank(Run(Init(), actions).db.files[o].order.status)
  {
    Reached(actions);
    StatusClimbs(Run(Init(), actions), later, o);
  }

  lemma StatusStepOf(w: World, a: Action, o: Id)
    requires Inv(w) && o in w.db.files
    ensures o in Step(w, a).db.files
    ensures StatusStep(w.db.files[o].order, Step(w, a).db.files[o].order)
  {
    InvGuards(w);
    StepExtends(w, a);
    assert FileStep(w.db.files[o], Step(w, a).db.files[o]);
  }

  // ---------- lifecycle integrity ----------

  /** No reachable state has an active product in an archived category, or open work on archived records. */
  lemma LifecycleIntegrity(actions: seq<Action>)
    ensures var db := Run(Init(), actions).db;
            && (forall p :: p in db.catalog.products && db.catalog.products[p].active ==>
                  ActiveCategory(db.catalog, db.catalog.products[p].category))
            && (forall o :: o in db.files && !db.files[o].order.archived && !Closed(db.files[o].order.status) ==>
                  && ActiveSupplier(db.catalog, db.files[o].order.supplier)
                  && UnarchivedRequisition(db.requisitions, db.files[o].order.requisition)
                  && ActiveLineProducts(db.catalog, db.files[o].lines))
            && (forall r ::
                  r in db.requisitions && !db.requisitions[r].archived && LiveRequisition(db.requisitions[r].status) ==>
                    ActiveRequisitionProducts(db.catalog, db.requisitions[r].lines))
  {
    Reached(actions);
    var w := Run(Init(), actions);
    forall o | o in w.db.files
      ensures ReferencesOk(w.db.catalog, w.db.requisitions, w.db.files[o])
    {
      assert Holds(w.db, w.approvals, o, w.db.files[o]);
    }
    forall r | r in w.db.requisitions
      ensures RequisitionOk(w.db.catalog, w.db.requisitions[r])
    {
    }
  }

  /**
   The triggers alone are not enough: they let an unarchived closed order be reopened although a product of its
   lines was archived meanwhile. Exactly that update breaks the references; the handlers never ask for it.
   */
  lemma ReopeningIsTheGap(db: Db, o: Id, row: Order, now: Time)
    requires o in db.files && ReferencesOk(db.catalog, db.requisitions, db.files[o])
    requires UpdateOrder(db, o, row, now).Ok?
    ensures var f := db.files[o];
            ReferencesOk(db.catalog, db.requisitions, UpdateOrder(db, o, row, now).value.files[o]) <==>
              !(Closed(f.order.status) && !f.order.archived && !row.archived && !Closed(row.status)
                && !ActiveLineProducts(db.catalog, f.lines))
    ensures Closed(db.files[o].order.status) && !Closed(row.status) ==>
              && !Workflow.TransitionAllowed(db.files[o].order.status, row.status)
              && !Workflow.GuidedTransition(db.files[o].order.status, row.status)
  {
    assert UpdateOrder(db, o, row, now).value.files[o].lines == db.files[o].lines;
  }

  /** Such an update exists: every trigger accepts it. */
  lemma ReopeningPassesTriggers(order: Order, line: Line, product: Product, supplier: Supplier, now: Time)
    requires order.status == Received && !order.archived && order.supplier == 1 && order.requisition.None?
    requires line.product == Some(2) && !product.active && supplier.active
    ensures var db := Db(Catalog(map[], map[2 := product], map[1 := supplier], []), map[],
                         map[3 := OrderFile(order, [line], None, None, map[])], map[], [],
                         Warehouse(map[], map[], map[], map[], [], map[]), map[], 4);
            && ReferencesOk(db.catalog, db.requisitions, db.files[3])
            && UpdateOrder(db, 3, order.(status := Sent), now).Ok?
            && !ReferencesOk(db.catalog, db.requisitions,
                             UpdateOrder(db, 3, order.(status := Sent), now).value.files[3])
  {
    var db := Db(Catalog(map[], map[2 := product], map[1 := supplier], []), map[],
                 map[3 := OrderFile(order, [line], None, None, map[])], map[], [],
                 Warehouse(map[], map[], map[], map[], [], map[]), map[], 4);
    var f := UpdateOrder(db, 3, order.(status := Sent), now).value.files[3];
    assert f.lines[0] == line && !ActiveProduct(db.catalog, f.lines[0].product);
  }

  // ---------- receipts ----------

  /** Received quantities are the receipts', and the status says how much is outstanding. */
  lemma ReceivedMeans(actions: seq<Action>, o: Id, i: nat)
    requires var files := Run(Init(), actions).db.files; o in files && i < |files[o].lines|
    ensures var db := Run(Init(), actions).db;
            var f := db.files[o];
            && f.lines[i].received == ReceivedSum(db.receipts, o, f.lines[i].id)
            && (f.order.status == Received ==> f.lines[i].received >= f.lines[i].quantity)
            && (f.order.status == PartiallyReceived ==>
                  exists k :: 0 <= k < |f.lines| && f.lines[k].received < f.lines[k].quantity)
            && (ReceivedStatus(f.order.status) && f.order.session.Some?
                && Confirmations.LineKeys(f.confirmations, f.lines[i].id) != {} ==>
                  f.lines[i].received <= Confirmations.Accepted(f.confirmations, f.lines[i].id) + Confirmations.EPSILON)
            && (f.order.status == Draft ==> f.lines[i].received == 0.0)
            && Confirmations.Accepted(f.confirmations, f.lines[i].id)
              + Confirmations.Rejected(f.confirmations, f.lines[i].id)
                 <= f.lines[i].quantity + Confirmations.EPSILON
  {
    Reached(actions);
    var w := Run(Init(), actions);
    var f := w.db.files[o];
    assert Holds(w.db, w.approvals, o, f);
    assert ReceivedStatus(f.order.status) ==> WithinAccepted(f, f.lines[i]);
  }

  // ---------- conversion ----------

  /** No interleaving converts a requisition twice, and `ordered` is never left. */
  lemma ConvertedOnce(actions: seq<Action>, later: seq<Action>, i: nat, j: nat)
    requires i < |Run(Init(), actions).converted| && j < |Run(Init(), actions + later).converted|
    requires Run(Init(), actions).converted[i] == Run(Init(), actions + later).converted[j]
    ensures i == j
    ensures var r := Run(Init(), actions).converted[i];
            var before := Run(Init(), actions).db;
            var db := Run(Init(), actions + later).db;
            && r in before.requisitions && r in db.requisitions && db.requisitions[r].status == ReqOrdered
            && db.requisitions[r].lines == before.requisitions[r].lines
  {
    var w := Run(Init(), actions);
    Reached(actions);
    Reached(actions + later);
    RunThen(Init(), actions, later);
    RunExtends(w, later);
    var w' := Run(w, later);
    assert w'.converted[i] == w.converted[i];
    assert RequisitionStepped(w.db.requisitions[w.converted[i]], w'.db.requisitions[w.converted[i]]);
  }

  /** The new order carries one line per requisition line, priced as promised, and the total of exactly these lines. */
  lemma ConversionCreates(db: Db, r: Id, input: Workflow.OrderInput, now: Time)
    requires Workflow.ConvertRequisition(db, r, input, now).Ok?
    ensures var db' := Workflow.ConvertRequisition(db, r, input, now).value;
            && r in db.requisitions && r in db'.requisitions && db.serial in db'.files
            && db'.requisitions[r].status == ReqOrdered && db'.requisitions[r].lines == db.requisitions[r].lines
            && var f := db'.files[db.serial];
               && f.order.requisition == Some(r) && f.order.session == db.requisitions[r].session
               && f.order.status == Draft
               && |f.lines| == |db.requisitions[r].lines| && Numbered(f.lines)
               && (forall i :: 0 <= i < |f.lines| ==>
                     Conversion.LineConverts(db.catalog.offers, db.requisitions[r], input.supplier,
                                             db.requisitions[r].lines[i], f.lines[i]))
               && f.order.totalCents == Workflow.Total(f.lines)
  {
    var db' := Workflow.ConvertRequisition(db, r, input, now).value;
    var f := db'.files[db.serial];
    TotalIgnoresIds(input.lines, f.lines);
  }

  lemma {:induction false} TotalIgnoresIds(a: seq<Line>, b: seq<Line>)
    requires |a| == |b|
    requires forall i :: 0 <= i < |a| ==> a[i].quantity == b[i].quantity && a[i].priceCents == b[i].priceCents
    ensures Workflow.Total(a) == Workflow.Total(b)
  {
    if a != [] {
      TotalIgnoresIds(a[..|a| - 1], b[..|b| - 1]);
    }
  }
}
