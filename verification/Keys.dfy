/** What an idempotency key is worth over a run: one request per key, for ever, and one claim at most. */
module Keys {
  import opened Base
  import opened Schema
  import opened Submission
  import opened World
  import opened FileSteps
  import opened Protocol
  import opened Evolution
  import Origins
  import Recovery
  import Safety
  import Stranding

  /** The key a request is made under. */
  function KeyOf(a: Action): Option<Key> {
    match a
    case RequestAmazon(_, user, token, send, _, _, _) => AmazonKey(user, token, send.order)
    case RequestAdamHall(_, user, key, send, _, _, _) => Some(Key(user, SendAdamHall(send.order), key))
    case ReconcileOrder(user, key, request, _) => Some(Key(user, ReconcileSubmission(request.order), key))
    case _ => None
  }

  function BodyOf(a: Action): RequestBody
    requires KeyOf(a).Some?
  {
    match a
    case RequestAmazon(_, _, _, send, _, _, _) => SendBody(send)
    case RequestAdamHall(_, _, _, send, _, _, _) => SendBody(send)
    case ReconcileOrder(_, _, request, _) => ReconcileBody(request)
  }

  // ---------- records keep their request ----------

  predicate RequestsKept(records: map<Key, Record>, records': map<Key, Record>) {
    forall k :: k in records ==> k in records' && records'[k].request == records[k].request
  }

  lemma FinalizeKeeps(db: Db, o: Id, key: Option<Key>, now: Time)
    requires Finalize(db, o, key, now).Ok?
    ensures RequestsKept(db.records, Finalize(db, o, key, now).value.records)
  {
    FinalizeShape(db, o, key, now);
  }

  lemma ReplayKeeps(db: Db, key: Key, body: RequestBody, o: Id, now: Time)
    requires key in db.records && Replay(db, key, body, o, now).Ok?
    ensures RequestsKept(db.records, Replay(db, key, body, o, now).value.db.records)
    ensures !Replay(db, key, body, o, now).value.claimed
  {
    if Finalize(db, o, Some(key), now).Ok? {
      FinalizeKeeps(db, o, Some(key), now);
    }
  }

  lemma AmazonKeeps(w: World, a: Action)
    requires a.RequestAmazon?
    ensures RequestsKept(w.db.records, Step(w, a).db.records)
  {
    if AmazonReply(w.db, a.user, a.token, a.send, a.payloadId, a.configured, a.now).Ok? {
      if a.token.None? {
        Stranding.NativeRecord(w.db, a.user, a.send, a.payloadId, a.configured, a.now);
      } else {
        var key := Key(a.user, SendAmazon(a.send.order), a.token.value);
        if key in w.db.records {
          ReplayedAmazon(w.db, a.user, a.token.value, a.send, a.payloadId, a.configured, a.now);
          ReplayKeeps(w.db, key, SendBody(a.send), a.send.order, a.now);
        } else {
          Stranding.GuidedRecord(w.db, a.user, a.token.value, a.send, a.payloadId, a.configured, a.now);
        }
      }
    }
  }

  lemma AdamHallKeeps(w: World, a: Action)
    requires a.RequestAdamHall?
    ensures RequestsKept(w.db.records, Step(w, a).db.records)
  {
    if AdamHallReply(w.db, a.user, a.key, a.send, a.payloadId, a.configured, a.now).Ok? {
      var key := Key(a.user, SendAdamHall(a.send.order), a.key);
      if key in w.db.records {
        ReplayedAdamHall(w.db, a.user, a.key, a.send, a.payloadId, a.configured, a.now);
        ReplayKeeps(w.db, key, SendBody(a.send), a.send.order, a.now);
      } else {
        FirstAdamHall(w.db, a.user, a.key, a.send, a.payloadId, a.configured, a.now);
        AdamHallClaimShape(w.db, a.user, a.send.order, a.send.checkout.value, a.payloadId, a.now);
      }
    }
  }

  lemma PhaseKeeps(w: World, a: Action)
    requires Phase(a)
    ensures RequestsKept(w.db.records, Step(w, a).db.records)
  {
    if a.FinalizeOrder? && a.process in w.processes {
      var x := w.processes[a.process];
      if Finalize(w.db, x.order, x.key, a.now).Ok? {
        FinalizeKeeps(w.db, x.order, x.key, a.now);
      }
    }
  }

  lemma ReconcileKeeps(db: Db, user: Id, token: string, req: ReconcileRequest, now: Time)
    requires Reconcile(db, user, token, req, now).Ok?
    ensures RequestsKept(db.records, Reconcile(db, user, token, req, now).value.db.records)
  {
  }

  lemma HandlerKeeps(db: Db, a: Action)
    requires Transaction(db, a).Ok?
    ensures RequestsKept(db.records, Transaction(db, a).value.records)
  {
    if a.ReconcileOrder? {
      ReconcileKeeps(db, a.user, a.key, a.request, a.now);
    } else {
      Stranding.RecordsKept(db, a);
    }
  }

  lemma StepKeeps(w: World, a: Action)
    ensures RequestsKept(w.db.records, Step(w, a).db.records)
  {
    if Phase(a) {
      PhaseKeeps(w, a);
    } else if a.RequestAmazon? {
      AmazonKeeps(w, a);
    } else if a.RequestAdamHall? {
      AdamHallKeeps(w, a);
    } else if Transaction(w.db, a).Ok? {
      assert Step(w, a).db == Transaction(w.db, a).value;
      HandlerKeeps(w.db, a);
    }
  }

  lemma {:induction false} RunKeeps(w: World, actions: seq<Action>)
    ensures RequestsKept(w.db.records, Run(w, actions).db.records)
    decreases |actions|
  {
    if actions != [] {
      StepKeeps(w, actions[0]);
      RunKeeps(Step(w, actions[0]), actions[1..]);
    }
  }

  // ---------- a request under a used key ----------

  /** Another request under a used key changes nothing; the same one, once answered for good, changes nothing either. */
  lemma UsedKey(w: World, a: Action)
    requires KeyOf(a).Some? && KeyOf(a).value in w.db.records
    ensures Step(w, a).processes == w.processes && Step(w, a).sends == w.sends
    ensures var record := w.db.records[KeyOf(a).value];
            BodyOf(a) != record.request || !record.response.PendingResponse? ==> Step(w, a) == w
    ensures Origins.NoNewClaims(w.db.files, Step(w, a).db.files)
  {
    var key := KeyOf(a).value;
    if a.RequestAmazon? && a.send.expectedContext.Some? {
      ReplayedAmazon(w.db, a.user, a.token.value, a.send, a.payloadId, a.configured, a.now);
      ReplayChangesLittle(w, a.process, key, SendBody(a.send), a.send.order, a.now);
    } else if a.RequestAdamHall? && a.send.expectedContext.Some? {
      ReplayedAdamHall(w.db, a.user, a.key, a.send, a.payloadId, a.configured, a.now);
      ReplayChangesLittle(w, a.process, key, SendBody(a.send), a.send.order, a.now);
    }
  }

  lemma ReplayChangesLittle(w: World, p: nat, key: Key, body: RequestBody, o: Id, now: Time)
    requires key in w.db.records
    ensures var w' := Begin(w, p, Replay(w.db, key, body, o, now), o, Some(key));
            && w'.processes == w.processes && w'.sends == w.sends
            && (body != w.db.records[key].request || !w.db.records[key].response.PendingResponse? ==> w' == w)
            && Origins.NoNewClaims(w.db.files, w'.db.files)
  {
    if Replay(w.db, key, body, o, now).Ok? {
      Origins.ReplayClaims(w.db, key, body, o, now);
    }
  }

  /**
   Once a key is recorded, then after any later run: a request with another body under it leaves the whole system as it
   is, and no request under it, equal or not, claims an order or starts a process that could send.
   */
  lemma {:induction false} KeyIsSpent(w: World, later: seq<Action>, a: Action)
    requires KeyOf(a).Some? && KeyOf(a).value in w.db.records
    ensures var w' := Run(w, later);
            && KeyOf(a).value in w'.db.records
            && (BodyOf(a) != w.db.records[KeyOf(a).value].request ==> Step(w', a) == w')
            && Step(w', a).processes == w'.processes && Step(w', a).sends == w'.sends
            && Origins.NoNewClaims(w'.db.files, Step(w', a).db.files)
  {
    RunKeeps(w, later);
    UsedKey(Run(w, later), a);
  }

  // ---------- late answers ----------

  /** A finalizing process of the order, or a request for it under a used key. */
  predicate Answers(w: World, a: Action, o: Id) {
    match a
    case FinalizeOrder(p, _) => p in w.processes && w.processes[p].order == o
    case RequestAmazon(_, _, _, send, _, _, _) => send.order == o && KeyOf(a).Some? && KeyOf(a).value in w.db.records
    case RequestAdamHall(_, _, _, send, _, _, _) => send.order == o && KeyOf(a).value in w.db.records
    case _ => false
  }

  lemma ReplayLeavesFiles(w: World, p: nat, key: Key, body: RequestBody, o: Id, now: Time)
    requires key in w.db.records && o in w.db.files && w.db.files[o].order.status != Submitting
    ensures Begin(w, p, Replay(w.db, key, body, o, now), o, Some(key)).db.files == w.db.files
  {
    if Finalize(w.db, o, Some(key), now).Ok? {
      Recovery.FinalizeOverwritesNothing(w.db, o, Some(key), now);
    }
    if Replay(w.db, key, body, o, now).Ok? {
      Origins.ReplayClaims(w.db, key, body, o, now);
    }
  }

  lemma AnswerLeavesFiles(w: World, a: Action, o: Id)
    requires o in w.db.files && w.db.files[o].order.status != Submitting && Answers(w, a, o)
    ensures Step(w, a).db.files == w.db.files
  {
    if a.FinalizeOrder? {
      var x := w.processes[a.process];
      if Finalize(w.db, o, x.key, a.now).Ok? {
        Recovery.FinalizeOverwritesNothing(w.db, o, x.key, a.now);
      }
    } else if a.send.expectedContext.Some? {
      if a.RequestAmazon? {
        ReplayedAmazon(w.db, a.user, a.token.value, a.send, a.payloadId, a.configured, a.now);
      } else {
        ReplayedAdamHall(w.db, a.user, a.key, a.send, a.payloadId, a.configured, a.now);
      }
      ReplayLeavesFiles(w, a.process, KeyOf(a).value, BodyOf(a), o, a.now);
    }
  }

  /**
   Once a claimed order has left `submitting`, no finalizing process and no replay, however late, changes the row, the
   lines or anything else of any order: what a confirmation or a human set meanwhile stays.
   */
  lemma {:induction false} LateAnswersOverwriteNothing(actions: seq<Action>, later: seq<Action>, a: Action, o: Id)
    requires var files := Run(Init(), actions).db.files;
             o in files && files[o].claim.Some? && files[o].order.status != Submitting
    requires Answers(Run(Run(Init(), actions), later), a, o)
    ensures var w := Run(Run(Init(), actions), later); Step(w, a).db.files == w.db.files
  {
    var w := Run(Init(), actions);
    Safety.Reached(actions);
    RunExtends(w, later);
    assert Holds(w.db, w.approvals, o, w.db.files[o]);
    assert FileStep(w.db.files[o], Run(w, later).db.files[o]);
    AnswerLeavesFiles(Run(w, later), a, o);
  }
}
