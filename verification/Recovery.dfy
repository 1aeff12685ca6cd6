/**
 Finalization: idempotent, never overwriting, and reachable again after a crash exactly when the request had a key.
 */
module Recovery {
  import opened Base
  import opened Schema
  import opened Submission
  import opened World
  import opened Invariants
  import opened FileSteps
  import opened Protocol

  /** A claim whose outcome was saved. */
  predicate Answerable(db: Db, o: Id) {
    o in db.files && db.files[o].claim.Some? && db.files[o].claim.value.status != Pending
  }

  /** The same order but for the recorded date and the assigned version. */
  predicate SameButDates(a: Order, b: Order) {
    && a.(orderDate := None, version := 0) == b.(orderDate := None, version := 0)
    && (a.orderDate.Some? <==> b.orderDate.Some?)
  }

  // ---------- finalizers ----------

  /** A status that a confirmation or a human set meanwhile stays, and so does everything else of the order. */
  lemma FinalizeOverwritesNothing(db: Db, o: Id, key: Option<Key>, now: Time)
    requires o in db.files && db.files[o].order.status != Submitting && Finalize(db, o, key, now).Ok?
    ensures Finalize(db, o, key, now).value.files == db.files
  {
  }

  /**
   What finalizing means: the order says `sent` exactly when the supplier acknowledged it and `submission_unknown`
   exactly when the answer is uncertain, an Adam Hall order carries the acknowledged number, a date is set on a sent
   order, and nothing that was ordered changes.
   */
  lemma FinalizeMeans(db: Db, approvals: seq<Approval>, o: Id, key: Option<Key>, now: Time)
    requires Answerable(db, o) && Holds(db, approvals, o, db.files[o]) && db.files[o].order.status == Submitting
    requires key.Some? ==> key.value in db.records
    ensures Finalize(db, o, key, now).Ok? && o in Finalize(db, o, key, now).value.files
    ensures var f := db.files[o];
            var g := Finalize(db, o, key, now).value.files[o];
            && (g.order.status == Sent <==> f.claim.value.outcome.Acknowledged?)
            && (g.order.status == SubmissionUnknown <==> f.claim.value.outcome == Uncertain)
            && (g.order.status == Sent && f.claim.value.provider == AdamHall ==>
                  g.order.supplierNumber == f.claim.value.outcome.number && g.order.supplierNumber != "")
            && (g.order.status == Sent ==>
                  g.order.orderDate == if f.order.orderDate.Some? then f.order.orderDate else Some(now))
            && (g.order.status == Sent && f.claim.value.provider == Amazon ==>
                  g.order.supplierNumber == f.order.supplierNumber)
            && (g.order.status == SubmissionUnknown ==>
                  g.order.orderDate == f.order.orderDate && g.order.supplierNumber == f.order.supplierNumber)
            && g.lines == f.lines && g.claim == f.claim && g.order.totalCents == f.order.totalCents
            && g.order.payloadId == f.order.payloadId
            && g.order.version > f.order.version
  {
    FinalizeSucceeds(db, approvals, o, key, now);
    FinalizedFile(db, o, key, now);
  }

  /** Finalizing twice with the same key is finalizing once. */
  lemma FinalizeIdempotent(db: Db, o: Id, key: Option<Key>, now: Time, now': Time)
    requires Answerable(db, o) && Finalize(db, o, key, now).Ok?
    ensures Finalize(Finalize(db, o, key, now).value, o, key, now') == Finalize(db, o, key, now)
  {
    FinalizeShape(db, o, key, now);
    SettledLeaves(db, o, key, now);
    var once := Finalize(db, o, key, now).value;
    if key.Some? {
      assert once.records[key.value := Answered(once, o, key).records[key.value]] == once.records;
    }
  }

  lemma SettledLeaves(db: Db, o: Id, key: Option<Key>, now: Time)
    requires Answerable(db, o) && Finalize(db, o, key, now).Ok?
    ensures o in Finalize(db, o, key, now).value.files
    ensures Finalize(db, o, key, now).value.files[o].order.status != Submitting
    ensures Answerable(Finalize(db, o, key, now).value, o)
    ensures Finalize(db, o, key, now).value.records.Keys == db.records.Keys
  {
    FinalizeShape(db, o, key, now);
  }

  datatype Finalizer = Finalizer(key: Option<Key>, now: Time)

  /** Any number of finalizers, one after the other; a refused one commits nothing. */
  function FinalizeAll(db: Db, o: Id, list: seq<Finalizer>): Db
    decreases |list|
  {
    if list == [] then db
    else
      var next := match Finalize(db, o, list[0].key, list[0].now) case Ok(d) => d case Err(_) => db;
      FinalizeAll(next, o, list[1..])
  }

  /** Every finalizer knows a request that exists. */
  predicate Known(db: Db, list: seq<Finalizer>) {
    forall i :: 0 <= i < |list| ==> list[i].key.Some? ==> list[i].key.value in db.records
  }

  lemma {:induction false} LaterFinalizersOnlyAnswer(db: Db, o: Id, list: seq<Finalizer>)
    requires Answerable(db, o) && db.files[o].order.status != Submitting && Known(db, list)
    ensures FinalizeAll(db, o, list).files == db.files
    decreases |list|
  {
    if list != [] {
      assert Finalize(db, o, list[0].key, list[0].now).Ok?;
      FinalizeOverwritesNothing(db, o, list[0].key, list[0].now);
      SettledLeaves(db, o, list[0].key, list[0].now);
      LaterFinalizersOnlyAnswer(Finalize(db, o, list[0].key, list[0].now).value, o, list[1..]);
    }
  }

  /** Any number of finalizers in any order leave the order as one does. */
  lemma AnyFinalizersEqualOne(db: Db, approvals: seq<Approval>, o: Id, list: seq<Finalizer>, one: Finalizer)
    requires Answerable(db, o) && Holds(db, approvals, o, db.files[o])
    requires list != [] && Known(db, list) && Known(db, [one])
    ensures Finalize(db, o, one.key, one.now).Ok?
    ensures var many := FinalizeAll(db, o, list).files;
            var single := Finalize(db, o, one.key, one.now).value.files;
            && o in many && o in single && SameButDates(many[o].order, single[o].order)
            && many == single[o := many[o]] && many[o] == single[o].(order := many[o].order)
  {
    assert one == [one][0];
    FinalizeSucceeds(db, approvals, o, one.key, one.now);
    FinalizeSucceeds(db, approvals, o, list[0].key, list[0].now);
    FinalizeShape(db, o, one.key, one.now);
    FinalizeShape(db, o, list[0].key, list[0].now);
    var first := Finalize(db, o, list[0].key, list[0].now).value;
    SettledLeaves(db, o, list[0].key, list[0].now);
    assert Known(first, list[1..]);
    LaterFinalizersOnlyAnswer(first, o, list[1..]);
    SameOutcome(db, o, one, list[0]);
  }

  lemma SameOutcome(db: Db, o: Id, a: Finalizer, b: Finalizer)
    requires Answerable(db, o) && Finalize(db, o, a.key, a.now).Ok? && Finalize(db, o, b.key, b.now).Ok?
    ensures var x := Finalize(db, o, a.key, a.now).value.files;
            var y := Finalize(db, o, b.key, b.now).value.files;
            && o in x && o in y && SameButDates(x[o].order, y[o].order)
            && x == y[o := x[o]] && x[o] == y[o].(order := x[o].order)
  {
    FinalizedFile(db, o, a.key, a.now);
    FinalizedFile(db, o, b.key, b.now);
    var f := db.files[o];
    assert SameButDates(SettledOrder(f.claim.value, f.order, a.now), SettledOrder(f.claim.value, f.order, b.now));
  }

  /** The order row a finalizer leaves. */
  function FinalizedOrder(f: OrderFile, now: Time): Order
    requires f.claim.Some?
  {
    if f.order.status == Submitting
    then SettledOrder(f.claim.value, f.order, now).(version := Bump(f.order.version, now)) else f.order
  }

  lemma FinalizedFile(db: Db, o: Id, key: Option<Key>, now: Time)
    requires Answerable(db, o) && Finalize(db, o, key, now).Ok?
    ensures Finalize(db, o, key, now).value.files
         == db.files[o := db.files[o].(order := FinalizedOrder(db.files[o], now))]
  {
    if db.files[o].order.status != Submitting {
      assert db.files == db.files[o := db.files[o]];
    }
  }

  // ---------- crash and replay ----------

  /** A request of either provider that repeats a recorded, still pending one: same user, key, order and body. */
  predicate Repeats(db: Db, a: Action, key: Key) {
    && key in db.records && db.records[key].response.PendingResponse?
    && match a
       case RequestAmazon(_, user, token, send, payloadId, _, _) =>
         && payloadId != "" && send.expectedContext.Some? && db.records[key].request == SendBody(send)
         && token.Some? && key == Key(user, SendAmazon(send.order), token.value)
       case RequestAdamHall(_, user, token, send, payloadId, _, _) =>
         && payloadId != "" && send.expectedContext.Some? && db.records[key].request == SendBody(send)
         && key == Key(user, SendAdamHall(send.order), token)
       case _ => false
  }

  /**
   A process dies between saving the outcome and finalizing. The next replay of the same request, under the same
   key, leaves the order the crash-free run would have left, up to the recorded date, and sends nothing.
   */
  lemma ReplayRecovers(w: World, p: nat, key: Key, a: Action, now: Time)
    requires Inv(w) && p in w.processes && w.processes[p].stage == Finalizing && w.processes[p].key == Some(key)
    requires Repeats(w.db, a, key)
    ensures var o := w.processes[p].order;
            var free := Step(w, FinalizeOrder(p, now));
            var recovered := Step(Step(w, Crash(p)), a);
            && o in free.db.files && o in recovered.db.files
            && SameButDates(recovered.db.files[o].order, free.db.files[o].order)
            && free.db.files[o].order.status != Submitting
            && recovered.db.files == free.db.files[o := recovered.db.files[o]]
            && recovered.processes == free.processes && recovered.sends == free.sends == w.sends
            && recovered.db.records.Keys == free.db.records.Keys
  {
    Finalizable(w, p, now);
    Finalizable(w, p, a.now);
    assert a.send.order == w.processes[p].order by {
      assert ProcessOk(w.db, w.sends, w.processes[p]);
    }
    RecoversFrom(w, p, key, a, now);
  }

  lemma Finalizable(w: World, p: nat, now: Time)
    requires Inv(w) && p in w.processes && w.processes[p].stage == Finalizing
    ensures Answerable(w.db, w.processes[p].order)
    ensures Finalize(w.db, w.processes[p].order, w.processes[p].key, now).Ok?
  {
    var o := w.processes[p].order;
    assert ProcessOk(w.db, w.sends, w.processes[p]);
    assert Holds(w.db, w.approvals, o, w.db.files[o]);
    FinalizeSucceeds(w.db, w.approvals, o, w.processes[p].key, now);
  }

  lemma RecoversFrom(w: World, p: nat, key: Key, a: Action, now: Time)
    requires p in w.processes && w.processes[p] == Process(w.processes[p].order, Some(key), Finalizing)
    requires Repeats(w.db, a, key) && a.send.order == w.processes[p].order
    requires Answerable(w.db, w.processes[p].order)
    requires Finalize(w.db, w.processes[p].order, Some(key), now).Ok?
    requires Finalize(w.db, w.processes[p].order, Some(key), a.now).Ok?
    ensures var o := w.processes[p].order;
            var free := Step(w, FinalizeOrder(p, now));
            var recovered := Step(Step(w, Crash(p)), a);
            && o in free.db.files && o in recovered.db.files
            && SameButDates(recovered.db.files[o].order, free.db.files[o].order)
            && free.db.files[o].order.status != Submitting
            && recovered.db.files == free.db.files[o := recovered.db.files[o]]
            && recovered.processes == free.processes && recovered.sends == free.sends == w.sends
            && recovered.db.records.Keys == free.db.records.Keys
  {
    var o := w.processes[p].order;
    SameOutcome(w.db, o, Finalizer(Some(key), a.now), Finalizer(Some(key), now));
    SettledLeaves(w.db, o, Some(key), now);
    SettledLeaves(w.db, o, Some(key), a.now);
    ReplayStep(w.(processes := w.processes - {p}), a, key);
    SettleStep(w, p, now);
  }

  /** A replay of a request whose outcome is saved finalizes the order and starts nothing. */
  lemma ReplayStep(w: World, a: Action, key: Key)
    requires Repeats(w.db, a, key) && Answerable(w.db, a.send.order)
    requires Finalize(w.db, a.send.order, Some(key), a.now).Ok?
    ensures Step(w, a) == w.(db := Finalize(w.db, a.send.order, Some(key), a.now).value)
  {
    var finished := Finalize(w.db, a.send.order, Some(key), a.now).value;
    assert Replay(w.db, key, SendBody(a.send), a.send.order, a.now)
        == Ok(Reply(finished, finished.records[key].response, false));
    if a.RequestAmazon? {
      ReplayedAmazon(w.db, a.user, a.token.value, a.send, a.payloadId, a.configured, a.now);
    } else {
      ReplayedAdamHall(w.db, a.user, a.key, a.send, a.payloadId, a.configured, a.now);
    }
  }

  lemma SettleStep(w: World, p: nat, now: Time)
    requires p in w.processes && w.processes[p].stage == Finalizing
    requires Finalize(w.db, w.processes[p].order, w.processes[p].key, now).Ok?
    ensures Step(w, FinalizeOrder(p, now))
         == w.(db := Finalize(w.db, w.processes[p].order, w.processes[p].key, now).value,
               processes := w.processes - {p})
  {
  }
}
