/** Once no process stands between claim and send, an order is never sent again, whatever is asked for later. */
module Resending {
  import opened Base
  import opened Schema
  import opened Submission
  import opened World
  import opened Invariants
  import opened FileSteps
  import opened Protocol
  import opened Evolution
  import opened Recovery
  import Safety
  import Stranding

  /** The order is claimed, and nobody who claimed it is still about to send. */
  predicate Quiet(w: World, o: Id) {
    && o in w.db.files && w.db.files[o].claim.Some?
    && forall p :: p in w.processes && w.processes[p].order == o ==> w.processes[p].stage != Sending
  }

  /** How often the order was sent. */
  function SendCount(sends: seq<Send>, o: Id): nat {
    if sends == [] then 0 else SendCount(sends[..|sends| - 1], o) + (if sends[|sends| - 1].order == o then 1 else 0)
  }

  /** A committed claim stays, so a new claim belongs to another order. */
  predicate ClaimsAnother(w: World, r: Result<Reply>, order: Id, o: Id) {
    r.Ok? && r.value.claimed ==> order != o
  }

  lemma AmazonClaimsAnother(w: World, user: Id, token: Option<string>, send: SendRequest, payloadId: string,
      configured: bool, now: Time, o: Id)
    requires o in w.db.files && w.db.files[o].claim.Some?
    ensures ClaimsAnother(w, AmazonReply(w.db, user, token, send, payloadId, configured, now), send.order, o)
  {
    if AmazonReply(w.db, user, token, send, payloadId, configured, now).Ok? {
      if token.None? {
        NativeAmazon(w.db, user, send, payloadId, configured, now);
        AmazonClaimShape(w.db, user, send.order, payloadId, now);
      } else if Key(user, SendAmazon(send.order), token.value) in w.db.records {
        ReplayedAmazon(w.db, user, token.value, send, payloadId, configured, now);
      } else {
        GuidedAmazon(w.db, user, token.value, send, payloadId, configured, now);
        AmazonClaimShape(w.db, user, send.order, payloadId, now);
      }
    }
  }

  lemma AdamHallClaimsAnother(w: World, user: Id, token: string, send: SendRequest, payloadId: string,
      configured: bool, now: Time, o: Id)
    requires o in w.db.files && w.db.files[o].claim.Some?
    ensures ClaimsAnother(w, AdamHallReply(w.db, user, token, send, payloadId, configured, now), send.order, o)
  {
    if AdamHallReply(w.db, user, token, send, payloadId, configured, now).Ok? {
      if Key(user, SendAdamHall(send.order), token) in w.db.records {
        ReplayedAdamHall(w.db, user, token, send, payloadId, configured, now);
      } else {
        FirstAdamHall(w.db, user, token, send, payloadId, configured, now);
        AdamHallClaimShape(w.db, user, send.order, send.checkout.value, payloadId, now);
      }
    }
  }

  /** No process of the order is about to send in `w'`, and it was not sent on the way. */
  predicate StaysQuiet(w: World, w': World, o: Id) {
    && (forall p :: p in w'.processes && w'.processes[p].order == o ==> w'.processes[p].stage != Sending)
    && SendCount(w'.sends, o) == SendCount(w.sends, o)
  }

  lemma BeginQuiet(w: World, p: nat, r: Result<Reply>, order: Id, key: Option<Key>, o: Id)
    requires Quiet(w, o) && ClaimsAnother(w, r, order, o)
    ensures StaysQuiet(w, Begin(w, p, r, order, key), o)
  {
  }

  lemma DispatchQuiet(w: World, p: nat, status: ClaimStatus, outcome: Outcome, o: Id)
    requires Quiet(w, o)
    ensures StaysQuiet(w, Dispatch(w, p, status, outcome), o)
  {
    var w' := Dispatch(w, p, status, outcome);
    if w'.sends != w.sends {
      assert w'.sends[..|w'.sends| - 1] == w.sends;
      assert w'.sends[|w'.sends| - 1].order == w.processes[p].order != o;
    }
  }

  lemma PhaseQuiet(w: World, a: Action, o: Id)
    requires Quiet(w, o) && Phase(a)
    ensures StaysQuiet(w, Step(w, a), o)
  {
    if a.SendOut? {
      DispatchQuiet(w, a.process, a.status, a.outcome, o);
    }
  }

  lemma RequestQuiet(w: World, a: Action, o: Id)
    requires Quiet(w, o) && (a.RequestAmazon? || a.RequestAdamHall?)
    ensures StaysQuiet(w, Step(w, a), o)
  {
    match a
    case RequestAmazon(p, user, token, send, payloadId, configured, now) =>
      AmazonClaimsAnother(w, user, token, send, payloadId, configured, now, o);
      BeginQuiet(w, p, AmazonReply(w.db, user, token, send, payloadId, configured, now), send.order,
                 AmazonKey(user, token, send.order), o);
    case RequestAdamHall(p, user, key, send, payloadId, configured, now) =>
      AdamHallClaimsAnother(w, user, key, send, payloadId, configured, now, o);
      BeginQuiet(w, p, AdamHallReply(w.db, user, key, send, payloadId, configured, now), send.order,
                 Some(Key(user, SendAdamHall(send.order), key)), o);
  }

  lemma StepQuiet(w: World, a: Action, o: Id)
    requires Quiet(w, o)
    ensures StaysQuiet(w, Step(w, a), o)
  {
    if Phase(a) {
      PhaseQuiet(w, a, o);
    } else if a.RequestAmazon? || a.RequestAdamHall? {
      RequestQuiet(w, a, o);
    } else {
      assert Step(w, a).processes == w.processes && Step(w, a).sends == w.sends;
    }
  }

  lemma QuietStep(w: World, a: Action, o: Id)
    requires Inv(w) && Quiet(w, o)
    ensures Quiet(Step(w, a), o) && SendCount(Step(w, a).sends, o) == SendCount(w.sends, o)
  {
    StepQuiet(w, a, o);
    InvGuards(w);
    StepExtends(w, a);
    assert FileStep(w.db.files[o], Step(w, a).db.files[o]);
  }

  lemma {:induction false} QuietForever(w: World, actions: seq<Action>, o: Id)
    requires Inv(w) && Quiet(w, o)
    ensures Quiet(Run(w, actions), o) && SendCount(Run(w, actions).sends, o) == SendCount(w.sends, o)
    decreases |actions|
  {
    if actions != [] {
      QuietStep(w, actions[0], o);
      StepKeeps(w, actions[0]);
      QuietForever(Step(w, actions[0]), actions[1..], o);
    }
  }

  /**
   Retries with the same or another key, native requests, reconciliations, crashes: none of them sends a claimed order
   once the claiming process has sent it or died. So a claim whose process died before sending is never sent at all.
   */
  lemma NeverSentAgain(actions: seq<Action>, later: seq<Action>, o: Id)
    requires Quiet(Run(Init(), actions), o)
    ensures SendCount(Run(Init(), actions + later).sends, o) == SendCount(Run(Init(), actions).sends, o)
  {
    Safety.Reached(actions);
    Safety.RunThen(Init(), actions, later);
    QuietForever(Run(Init(), actions), later, o);
  }

  /** Some continuation of the run sends the order once more. */
  ghost predicate MayBeSent(w: World, o: Id) {
    exists more :: SendCount(Run(w, more).sends, o) > SendCount(w.sends, o)
  }

  lemma SendingSends(w: World, p: nat)
    requires Inv(w) && p in w.processes && w.processes[p].stage == Sending
    ensures SendCount(Run(w, [SendOut(p, Unknown, Uncertain)]).sends, w.processes[p].order)
         == SendCount(w.sends, w.processes[p].order) + 1
  {
    assert ProcessOk(w.db, w.sends, w.processes[p]);
    ClaimedSends(w, p);
  }

  lemma ClaimedSends(w: World, p: nat)
    requires p in w.processes && w.processes[p].stage == Sending
    requires w.processes[p].order in w.db.files && w.db.files[w.processes[p].order].claim.Some?
    ensures SendCount(Run(w, [SendOut(p, Unknown, Uncertain)]).sends, w.processes[p].order)
         == SendCount(w.sends, w.processes[p].order) + 1
  {
    Stranding.OneStep(w, SendOut(p, Unknown, Uncertain));
    var w' := Dispatch(w, p, Unknown, Uncertain);
    assert w'.sends[..|w.sends|] == w.sends;
  }

  /**
   Whether a claimed order can still be sent depends on nothing but the process that claimed it: not on the order's
   status, so not on a human having recorded that it was never sent.
   */
  lemma SentAgainIff(actions: seq<Action>, o: Id)
    requires var files := Run(Init(), actions).db.files; o in files && files[o].claim.Some?
    ensures MayBeSent(Run(Init(), actions), o) <==> !Quiet(Run(Init(), actions), o)
  {
    var w := Run(Init(), actions);
    Safety.Reached(actions);
    if Quiet(w, o) {
      forall more
        ensures SendCount(Run(w, more).sends, o) == SendCount(w.sends, o)
      {
        QuietForever(w, more, o);
      }
    } else {
      var p :| p in w.processes && w.processes[p].order == o && w.processes[p].stage == Sending;
      SendingSends(w, p);
    }
  }

  /**
   A human reconciliation leaves the order as found (`sent` with its number) or as never sent (`cancelled`), for good
   reason recorded once.
   */
  lemma ReconciledMeans(w: World, user: Id, token: string, req: ReconcileRequest, now: Time)
    requires Inv(w) && Reconcile(w.db, user, token, req, now).Ok?
    requires Key(user, ReconcileSubmission(req.order), token) !in w.db.records
    ensures req.order in w.db.files && req.order in Reconcile(w.db, user, token, req, now).value.db.files
    ensures var f := w.db.files[req.order];
            var g := Reconcile(w.db, user, token, req, now).value.db.files[req.order];
            && (f.order.status == Submitting || f.order.status == SubmissionUnknown) && f.claim.Some?
            && !f.claim.value.outcome.Acknowledged?
            && (req.resolution == FoundOrder <==> g.order.status == Sent)
            && (req.resolution == ConfirmedNotSent <==> g.order.status == Cancelled)
            && (req.resolution == FoundOrder ==>
                  g.order.supplierNumber == req.supplierNumber != "" && g.order.orderDate == Some(now))
            && (req.resolution == ConfirmedNotSent ==>
                  g.order.supplierNumber == "" && g.order.orderDate == f.order.orderDate)
            && f.reconciliation.None?
            && g.reconciliation == Some(Reconciliation(user, req.resolution, req.supplierNumber, req.evidence))
            && g.claim == f.claim && g.lines == f.lines
  {
    ReconciledShape(w.db, user, token, req, now);
    assert Holds(w.db, w.approvals, req.order, w.db.files[req.order]);
  }
}
