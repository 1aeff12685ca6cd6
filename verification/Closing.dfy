/** How a submission that got stuck can still be brought to an end: by its replay, or by a human who looked it up. */
module Closing {
  import opened Base
  import opened Schema
  import opened Triggers
  import opened Submission
  import opened World
  import opened Invariants
  import opened FileSteps
  import opened Protocol
  import opened Evolution
  import Origins
  import Safety
  import Stranding

  // ---------- what an unsettled order cannot have ----------

  /** Reconciliation and confirmations belong to orders whose supplier side is known. */
  predicate SettledFile(f: OrderFile) {
    f.reconciliation.Some? || f.confirmations != map[] ==> Settled(f.order.status)
  }

  predicate SettledOk(files: map<Id, OrderFile>) {
    forall o :: o in files ==> SettledFile(files[o])
  }

  lemma SettledStep(w: World, a: Action)
    requires Inv(w) && Inv(Step(w, a)) && SettledOk(w.db.files)
    ensures SettledOk(Step(w, a).db.files)
  {
    InvGuards(w);
    StepExtends(w, a);
    var files := Step(w, a).db.files;
    forall o | o in files
      ensures SettledFile(files[o])
    {
      if o in w.db.files {
        assert FileStep(w.db.files[o], files[o]);
      } else {
        NewFile(w, a, o);
      }
    }
  }

  /** A file that appears carries neither. */
  lemma NewFile(w: World, a: Action, o: Id)
    requires Inv(Step(w, a)) && o !in w.db.files && o in Step(w, a).db.files
    ensures SettledFile(Step(w, a).db.files[o])
  {
    if Step(w, a).db.files[o].claim.Some? {
      Origins.StepOrigin(w, a, o);
      assert false;
    } else {
      assert Holds(Step(w, a).db, Step(w, a).approvals, o, Step(w, a).db.files[o]);
    }
  }

  lemma {:induction false} RunSettled(w: World, actions: seq<Action>)
    requires Inv(w) && SettledOk(w.db.files)
    ensures SettledOk(Run(w, actions).db.files)
    decreases |actions|
  {
    if actions != [] {
      StepKeeps(w, actions[0]);
      SettledStep(w, actions[0]);
      RunSettled(Step(w, actions[0]), actions[1..]);
    }
  }

  // ---------- reconciliation ----------

  /** A human reconciliation of this order ends it as never sent. */
  ghost predicate Closes(w: World, a: Action, o: Id) {
    && a.ReconcileOrder? && a.request.order == o
    && var files := Step(w, a).db.files; o in files && files[o].order.status == Cancelled
  }

  /** What a careful user asks for: nothing was sent, as of the rows just read. */
  function NeverSent(db: Db, o: Id): ReconcileRequest
    requires o in db.files && db.files[o].claim.Some?
  {
    var asked := ReconcileRequest(o, ConfirmedNotSent, "", "looked it up", true, Some(db.files[o].order.version), None,
                                  None);
    asked.(expectedContext := Some(Proposed(db, asked)), phrase := Some(Spoken(db, asked)))
  }

  lemma ReconcileRow(db: Db, approvals: seq<Approval>, o: Id, now: Time)
    requires o in db.files && Holds(db, approvals, o, db.files[o])
    requires db.files[o].order.status == Submitting || db.files[o].order.status == SubmissionUnknown
    requires db.files[o].claim.Some?
    ensures OrderUpdateAllowed(db, o, ReconciledOrder(db.files[o].order, NeverSent(db, o), now))
    ensures !db.files[o].order.archived && !HasReceipt(db.receipts, o)
  {
  }

  lemma ReadyToClose(db: Db, approvals: seq<Approval>, o: Id, now: Time)
    requires o in db.files && Holds(db, approvals, o, db.files[o]) && SettledFile(db.files[o])
    requires db.files[o].order.status == Submitting || db.files[o].order.status == SubmissionUnknown
    requires db.files[o].claim.Some? && db.files[o].claim.value.status != Accepted
    requires now >= db.files[o].claim.value.createdAt + SETTLE_TIME
    ensures ReconcileReady(db, NeverSent(db, o), now)
  {
    ReconcileRow(db, approvals, o, now);
  }

  lemma ReconcileSucceeds(db: Db, user: Id, token: string, o: Id, now: Time)
    requires o in db.files && db.files[o].claim.Some? && ReconcileReady(db, NeverSent(db, o), now)
    requires Key(user, ReconcileSubmission(o), token) !in db.records
    requires OrderUpdateAllowed(db, o, ReconciledOrder(db.files[o].order, NeverSent(db, o), now))
    ensures Reconcile(db, user, token, NeverSent(db, o), now).Ok?
    ensures var files := Reconcile(db, user, token, NeverSent(db, o), now).value.db.files;
            o in files && files[o].order.status == Cancelled
  {
    var req := NeverSent(db, o);
    var row := Reconciliation(user, req.resolution, req.supplierNumber, req.evidence);
    var noted := InsertReconciliation(db, o, row).value;
    assert OrderUpdateAllowed(noted, o, ReconciledOrder(db.files[o].order, req, now));
  }

  /** Nobody closes an order whose claim was accepted. */
  lemma AcceptedStaysOpen(w: World, a: Action, o: Id)
    requires o in w.db.files && w.db.files[o].claim.Some? && w.db.files[o].claim.value.status == Accepted
    requires w.db.files[o].order.status != Cancelled
    ensures !Closes(w, a, o)
  {
    if a.ReconcileOrder? && a.request.order == o && Reconcile(w.db, a.user, a.key, a.request, a.now).Ok? {
      if Key(a.user, ReconcileSubmission(o), a.key) !in w.db.records {
        ReconciledShape(w.db, a.user, a.key, a.request, a.now);
      }
    }
  }

  /**
   In every reachable state an unfinished submission can be closed by a human as never sent if and only if the supplier
   did not accept it: pending or unknown, with or without a record, with or without a process still under way.
   */
  lemma {:induction false} ClosableIffNotAccepted(actions: seq<Action>, o: Id)
    requires var files := Run(Init(), actions).db.files;
             o in files && (files[o].order.status == Submitting || files[o].order.status == SubmissionUnknown)
    ensures Run(Init(), actions).db.files[o].claim.Some?
    ensures (exists a :: Closes(Run(Init(), actions), a, o))
         <==> Run(Init(), actions).db.files[o].claim.value.status != Accepted
  {
    var w := Run(Init(), actions);
    Safety.Reached(actions);
    InitInv();
    RunSettled(Init(), actions);
    Stranding.RunRequests(Init(), actions);
    assert Holds(w.db, w.approvals, o, w.db.files[o]);
    if w.db.files[o].claim.value.status != Accepted {
      Unreconciled(w.db, o, 0, "key");
      ClosedBy(w, o);
    } else {
      forall a
        ensures !Closes(w, a, o)
      {
        AcceptedStaysOpen(w, a, o);
      }
    }
  }

  lemma Unreconciled(db: Db, o: Id, user: Id, token: string)
    requires o in db.files && SettledFile(db.files[o]) && !Settled(db.files[o].order.status) && Stranding.RequestsOk(db)
    ensures Key(user, ReconcileSubmission(o), token) !in db.records
  {
    var key := Key(user, ReconcileSubmission(o), token);
    assert key in db.records ==> Stranding.RequestOk(db.files, key, db.records[key]);
  }

  lemma ClosedBy(w: World, o: Id)
    requires o in w.db.files && Holds(w.db, w.approvals, o, w.db.files[o]) && SettledFile(w.db.files[o])
    requires w.db.files[o].order.status == Submitting || w.db.files[o].order.status == SubmissionUnknown
    requires w.db.files[o].claim.Some? && w.db.files[o].claim.value.status != Accepted
    requires Key(0, ReconcileSubmission(o), "key") !in w.db.records
    ensures exists a :: Closes(w, a, o)
  {
    var now := w.db.files[o].claim.value.createdAt + SETTLE_TIME;
    ReadyToClose(w.db, w.approvals, o, now);
    ReconcileRow(w.db, w.approvals, o, now);
    ReconcileSucceeds(w.db, 0, "key", o, now);
    ReconcileSteps(w, 0, "key", NeverSent(w.db, o), now);
    assert Closes(w, ReconcileOrder(0, "key", NeverSent(w.db, o), now), o);
  }

  lemma ReconcileSteps(w: World, user: Id, token: string, req: ReconcileRequest, now: Time)
    requires Reconcile(w.db, user, token, req, now).Ok?
    ensures Step(w, ReconcileOrder(user, token, req, now)) == w.(db := Reconcile(w.db, user, token, req, now).value.db)
  {
  }

  // ---------- every unfinished submission ----------

  /**
   An order left `submitting` with no process can be finished without a further word from the supplier if and only if
   the supplier did not accept it or its request was recorded.
   */
  lemma {:induction false} FinishableIff(actions: seq<Action>, o: Id)
    requires var w := Run(Init(), actions);
             o in w.db.files && w.db.files[o].order.status == Submitting && !Stranding.InFlight(w, o)
    ensures var w := Run(Init(), actions);
            && w.db.files[o].claim.Some?
            && ((exists more :: Stranding.Unconfirmed(more, o) && Stranding.Finishes(w, more, o))
                <==> w.db.files[o].claim.value.status != Accepted || Stranding.Recorded(w.db, o))
  {
    var w := Run(Init(), actions);
    ClosableIffNotAccepted(actions, o);
    if w.db.files[o].claim.value.status == Accepted {
      Stranding.RecoverableIffRecorded(actions, o);
    } else {
      var a :| Closes(w, a, o);
      Stranding.OneStep(w, a);
      assert Stranding.Unconfirmed([a], o) && Stranding.Finishes(w, [a], o);
    }
  }
}
