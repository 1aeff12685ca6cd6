/** The phases of a supplier submission and of its reconciliation keep the invariant; so does every run. */
module Protocol {
  import opened Base
  import opened Schema
  import opened Triggers
  import opened Submission
  import opened World
  import opened Invariants
  import opened FileSteps
  import opened Preservation

  // ---------- claiming ----------

  /** Committing a claim: nothing in the system knew the order as submitted before. */
  lemma ClaimBegun(w: World, p: nat, o: Id, g: OrderFile, key: Option<Key>, records: map<Key, Record>)
    requires Inv(w) && p !in w.processes
    requires o in w.db.files && w.db.files[o].claim.None? && g.claim.Some? && g.claim.value.status == Pending
    requires Holds(w.db, w.approvals, o, g)
    requires match key
             case None => records == w.db.records
             case Some(k) => && k !in w.db.records && SentOrder(k.operation) == Some(o) && k in records
                             && records == w.db.records[k := records[k]]
                             && RecordOk(w.db.files[o := g], k, records[k])
    ensures Inv(w.(db := w.db.(files := w.db.files[o := g], records := records),
                   processes := w.processes[p := Process(o, key, Sending)]))
  {
    var db' := w.db.(files := w.db.files[o := g], records := records);
    var w' := w.(db := db', processes := w.processes[p := Process(o, key, Sending)]);
    ClaimBegunFiles(w, o, g, records);
    ClaimBegunRecords(w, o, g, key, records);
    ClaimBegunProcesses(w, p, o, g, key, records);
    ClaimBegunSends(w, o, g);
    assert SendsOk(w');
  }

  lemma ClaimBegunSends(w: World, o: Id, g: OrderFile)
    requires SendsOk(w) && o in w.db.files && w.db.files[o].claim.None?
    ensures forall i :: 0 <= i < |w.sends| ==> SendOk(w.db.files[o := g], w.sends[i])
  {
    forall i | 0 <= i < |w.sends|
      ensures SendOk(w.db.files[o := g], w.sends[i])
    {
      assert SendOk(w.db.files, w.sends[i]);
    }
  }

  lemma ClaimBegunFiles(w: World, o: Id, g: OrderFile, records: map<Key, Record>)
    requires FilesOk(w.db, w.approvals) && SerialOk(w.db) && RequisitionsOk(w.db)
    requires o in w.db.files && Holds(w.db, w.approvals, o, g)
    ensures var db' := w.db.(files := w.db.files[o := g], records := records);
            FilesOk(db', w.approvals) && SerialOk(db') && RequisitionsOk(db')
  {
  }

  lemma ClaimBegunRecords(w: World, o: Id, g: OrderFile, key: Option<Key>, records: map<Key, Record>)
    requires RecordsOk(w.db) && o in w.db.files && w.db.files[o].claim.None?
    requires match key
             case None => records == w.db.records
             case Some(k) => && k !in w.db.records && SentOrder(k.operation) == Some(o) && k in records
                             && records == w.db.records[k := records[k]]
                             && RecordOk(w.db.files[o := g], k, records[k])
    ensures RecordsOk(w.db.(files := w.db.files[o := g], records := records))
  {
    forall k | k in w.db.records
      ensures SentOrder(k.operation) != Some(o)
      ensures RecordOk(w.db.files[o := g], k, w.db.records[k])
    {
      assert RecordOk(w.db.files, k, w.db.records[k]);
    }
  }

  lemma ClaimBegunProcesses(w: World, p: nat, o: Id, g: OrderFile, key: Option<Key>, records: map<Key, Record>)
    requires ProcessesOk(w) && SendsOk(w) && p !in w.processes
    requires o in w.db.files && w.db.files[o].claim.None? && g.claim.Some? && g.claim.value.status == Pending
    requires forall k :: k in w.db.records ==> k in records
    requires key.Some? ==> key.value in records && SentOrder(key.value.operation) == Some(o)
    ensures ProcessesOk(w.(db := w.db.(files := w.db.files[o := g], records := records),
                           processes := w.processes[p := Process(o, key, Sending)]))
  {
    var w' := w.(db := w.db.(files := w.db.files[o := g], records := records),
                 processes := w.processes[p := Process(o, key, Sending)]);
    assert !WasSent(w.sends, o) by {
      forall i | 0 <= i < |w.sends|
        ensures w.sends[i].order != o
      {
        assert SendOk(w.db.files, w.sends[i]);
      }
    }
    forall q | q in w'.processes
      ensures ProcessOk(w'.db, w'.sends, w'.processes[q])
      ensures q != p ==> w'.processes[q].order != o
    {
      if q != p {
        assert ProcessOk(w.db, w.sends, w.processes[q]);
      }
    }
  }

  // ---------- records ----------

  /** A record rewritten in place, still fitting its claim. */
  lemma RecordRewritten(w: World, k: Key, record: Record)
    requires Inv(w) && RecordOk(w.db.files, k, record)
    requires k in w.db.records || SentOrder(k.operation).None?
    ensures Inv(w.(db := w.db.(records := w.db.records[k := record])))
  {
    var db' := w.db.(records := w.db.records[k := record]);
    var w' := w.(db := db');
    assert RecordsOk(db');
    assert ProcessesOk(w') by {
      forall q | q in w'.processes
        ensures ProcessOk(w'.db, w'.sends, w'.processes[q])
      {
        assert ProcessOk(w.db, w.sends, w.processes[q]);
      }
    }
    assert FilesOk(db', w.approvals);
    assert SendsOk(w');
  }

  // ---------- finalizing ----------

  lemma FinalizeShape(db: Db, o: Id, key: Option<Key>, now: Time)
    requires Finalize(db, o, key, now).Ok?
    ensures o in db.files && db.files[o].claim.Some?
    ensures var settled := db.(files := Finalize(db, o, key, now).value.files);
            && o in settled.files && settled.files == db.files[o := settled.files[o]]
            && settled.files[o].claim == db.files[o].claim
            && Finalize(db, o, key, now).value == Answered(settled, o, key)
  {
    if db.files[o].order.status != Submitting {
      assert db.files == db.files[o := db.files[o]];
    }
  }

  lemma FinalizeActionKeeps(w: World, o: Id, key: Option<Key>, now: Time)
    requires Inv(w) && o in w.db.files && w.db.files[o].claim.Some? && w.db.files[o].claim.value.status != Pending
    requires key.Some? ==> key.value in w.db.records && SentOrder(key.value.operation) == Some(o)
    requires Finalize(w.db, o, key, now).Ok?
    ensures Inv(w.(db := Finalize(w.db, o, key, now).value))
  {
    var db' := Finalize(w.db, o, key, now).value;
    FinalizeShape(w.db, o, key, now);
    var g := db'.files[o];
    var settled := w.db.(files := w.db.files[o := g]);
    assert Holds(w.db, w.approvals, o, g) by {
      assert Holds(w.db, w.approvals, o, w.db.files[o]);
      FinalizeKeeps(w.db, w.approvals, o, key, now);
    }
    ReplaceFile(w, o, g);
    if key.Some? {
      assert RecordOk(settled.files, key.value, settled.records[key.value]);
      RecordRewritten(w.(db := settled), key.value, db'.records[key.value]);
    }
  }

  lemma ReplayKeeps(w: World, key: Key, body: RequestBody, o: Id, now: Time)
    requires Inv(w) && key in w.db.records && SentOrder(key.operation) == Some(o)
    requires Replay(w.db, key, body, o, now).Ok?
    ensures !Replay(w.db, key, body, o, now).value.claimed
    ensures Inv(w.(db := Replay(w.db, key, body, o, now).value.db))
  {
    if && w.db.records[key].response.PendingResponse? && o in w.db.files && w.db.files[o].claim.Some?
       && w.db.files[o].claim.value.status != Pending
    {
      FinalizeActionKeeps(w, o, Some(key), now);
    }
  }

  // ---------- the first transaction ----------

  /** A first native request: what was checked, and what is committed. */
  lemma NativeAmazon(db: Db, user: Id, send: SendRequest, payloadId: string, configured: bool, now: Time)
    requires SubmitAmazon(db, user, None, send, payloadId, configured, now).Ok?
    ensures AmazonReady(db, send.(expectedVersion := None, expectedContext := None), false, configured)
    ensures CommitAmazonClaim(db, user, send.order, payloadId, now).Ok?
    ensures var r := SubmitAmazon(db, user, None, send, payloadId, configured, now).value;
            && r.claimed && r.db == CommitAmazonClaim(db, user, send.order, payloadId, now).value
            && r.db.records == db.records
  {
  }

  /** A first guided request. */
  lemma GuidedAmazon(db: Db, user: Id, token: string, send: SendRequest, payloadId: string, configured: bool, now: Time)
    requires SubmitAmazon(db, user, Some(token), send, payloadId, configured, now).Ok?
    requires Key(user, SendAmazon(send.order), token) !in db.records
    ensures AmazonReady(db, send, true, configured)
    ensures CommitAmazonClaim(db, user, send.order, payloadId, now).Ok?
    ensures var key := Key(user, SendAmazon(send.order), token);
            SubmitAmazon(db, user, Some(token), send, payloadId, configured, now).value
              == Recorded(CommitAmazonClaim(db, user, send.order, payloadId, now).value, key, SendBody(send),
                          send.order)
  {
  }

  /** A request whose key exists is a replay. */
  lemma ReplayedAmazon(db: Db, user: Id, token: string, send: SendRequest, payloadId: string, configured: bool,
      now: Time)
    requires Key(user, SendAmazon(send.order), token) in db.records && send.expectedContext.Some?
    ensures SubmitAmazon(db, user, Some(token), send, payloadId, configured, now)
         == Replay(db, Key(user, SendAmazon(send.order), token), SendBody(send), send.order, now)
  {
  }

  lemma RequestAmazonKeeps(w: World, p: nat, user: Id, token: Option<string>, send: SendRequest, payloadId: string,
      configured: bool, now: Time)
    requires Inv(w)
    ensures Inv(Begin(w, p, AmazonReply(w.db, user, token, send, payloadId, configured, now), send.order,
                      AmazonKey(user, token, send.order)))
  {
    if AmazonReply(w.db, user, token, send, payloadId, configured, now).Ok? {
      if token.None? {
        NativeRequestKeeps(w, p, user, send, payloadId, configured, now);
      } else if Key(user, SendAmazon(send.order), token.value) in w.db.records {
        ReplayedAmazon(w.db, user, token.value, send, payloadId, configured, now);
        ReplayKeeps(w, Key(user, SendAmazon(send.order), token.value), SendBody(send), send.order, now);
      } else {
        GuidedRequestKeeps(w, p, user, token.value, send, payloadId, configured, now);
      }
    }
  }

  lemma NativeRequestKeeps(w: World, p: nat, user: Id, send: SendRequest, payloadId: string, configured: bool,
      now: Time)
    requires Inv(w) && payloadId != ""
    requires SubmitAmazon(w.db, user, None, send, payloadId, configured, now).Ok?
    ensures Inv(Begin(w, p, SubmitAmazon(w.db, user, None, send, payloadId, configured, now), send.order, None))
  {
    NativeAmazon(w.db, user, send, payloadId, configured, now);
    if p !in w.processes {
      AmazonClaimed(w, p, user, send.(expectedVersion := None, expectedContext := None), false, configured, payloadId,
                    now, None, w.db.records);
    }
  }

  lemma GuidedRequestKeeps(w: World, p: nat, user: Id, token: string, send: SendRequest, payloadId: string,
      configured: bool, now: Time)
    requires Inv(w) && payloadId != ""
    requires SubmitAmazon(w.db, user, Some(token), send, payloadId, configured, now).Ok?
    requires Key(user, SendAmazon(send.order), token) !in w.db.records
    ensures Inv(Begin(w, p, SubmitAmazon(w.db, user, Some(token), send, payloadId, configured, now), send.order,
                      Some(Key(user, SendAmazon(send.order), token))))
  {
    var key := Key(user, SendAmazon(send.order), token);
    GuidedAmazon(w.db, user, token, send, payloadId, configured, now);
    var claimed := CommitAmazonClaim(w.db, user, send.order, payloadId, now).value;
    AmazonClaimShape(w.db, user, send.order, payloadId, now);
    if p !in w.processes {
      AmazonClaimed(w, p, user, send, true, configured, payloadId, now, Some(key),
                    Recorded(claimed, key, SendBody(send), send.order).db.records);
    }
  }

  lemma AmazonClaimed(w: World, p: nat, user: Id, send: SendRequest, exact: bool, configured: bool,
      payloadId: string, now: Time, key: Option<Key>, records: map<Key, Record>)
    requires Inv(w) && p !in w.processes && payloadId != ""
    requires AmazonReady(w.db, send, exact, configured) && CommitAmazonClaim(w.db, user, send.order, payloadId, now).Ok?
    requires match key
             case None => records == w.db.records
             case Some(k) => && k !in w.db.records && k.operation == SendAmazon(send.order) && k in records
                             && records == w.db.records[k := records[k]]
                             && records[k].response.PendingResponse? && records[k].response.order == send.order
    ensures Inv(w.(db := CommitAmazonClaim(w.db, user, send.order, payloadId, now).value.(records := records),
                   processes := w.processes[p := Process(send.order, key, Sending)]))
  {
    var o := send.order;
    var g := CommitAmazonClaim(w.db, user, o, payloadId, now).value.files[o];
    AmazonClaimShape(w.db, user, o, payloadId, now);
    assert Holds(w.db, w.approvals, o, g) by {
      assert Holds(w.db, w.approvals, o, w.db.files[o]);
      AmazonClaimKeeps(w.db, w.approvals, user, send, exact, configured, payloadId, now);
    }
    ClaimBegun(w, p, o, g, key, records);
  }

  lemma AmazonClaimShape(db: Db, user: Id, o: Id, payloadId: string, now: Time)
    requires o in db.files && CommitAmazonClaim(db, user, o, payloadId, now).Ok?
    ensures var db' := CommitAmazonClaim(db, user, o, payloadId, now).value;
            && db.files[o].claim.None? && o in db'.files && db' == db.(files := db.files[o := db'.files[o]])
            && db'.files[o].claim.Some? && db'.files[o].claim.value.status == Pending
            && db'.files[o].claim.value.provider == Amazon
  {
  }

  lemma AdamHallClaimShape(db: Db, user: Id, o: Id, checkout: Checkout, payloadId: string, now: Time)
    requires o in db.files && CommitAdamHallClaim(db, user, o, checkout, payloadId, now).Ok?
    ensures var db' := CommitAdamHallClaim(db, user, o, checkout, payloadId, now).value;
            && db.files[o].claim.None? && o in db'.files && db' == db.(files := db.files[o := db'.files[o]])
            && db'.files[o].claim.Some? && db'.files[o].claim.value.status == Pending
            && db'.files[o].claim.value.provider == AdamHall
  {
  }

  /** A first Adam Hall request: what was checked, and what is committed. */
  lemma FirstAdamHall(db: Db, user: Id, token: string, send: SendRequest, payloadId: string, configured: bool,
      now: Time)
    requires SubmitAdamHall(db, user, token, send, payloadId, configured, now).Ok?
    requires Key(user, SendAdamHall(send.order), token) !in db.records
    ensures AdamHallReady(db, send, configured, now)
    ensures CommitAdamHallClaim(db, user, send.order, send.checkout.value, payloadId, now).Ok?
    ensures var key := Key(user, SendAdamHall(send.order), token);
            SubmitAdamHall(db, user, token, send, payloadId, configured, now).value
              == Recorded(CommitAdamHallClaim(db, user, send.order, send.checkout.value, payloadId, now).value, key,
                          SendBody(send), send.order)
  {
  }

  lemma ReplayedAdamHall(db: Db, user: Id, token: string, send: SendRequest, payloadId: string, configured: bool,
      now: Time)
    requires Key(user, SendAdamHall(send.order), token) in db.records && send.expectedContext.Some?
    ensures SubmitAdamHall(db, user, token, send, payloadId, configured, now)
         == Replay(db, Key(user, SendAdamHall(send.order), token), SendBody(send), send.order, now)
  {
  }

  lemma RequestAdamHallKeeps(w: World, p: nat, user: Id, token: string, send: SendRequest, payloadId: string,
      configured: bool, now: Time)
    requires Inv(w)
    ensures Inv(Begin(w, p, AdamHallReply(w.db, user, token, send, payloadId, configured, now), send.order,
                      Some(Key(user, SendAdamHall(send.order), token))))
  {
    var key := Key(user, SendAdamHall(send.order), token);
    if AdamHallReply(w.db, user, token, send, payloadId, configured, now).Ok? {
      if key in w.db.records {
        ReplayedAdamHall(w.db, user, token, send, payloadId, configured, now);
        ReplayKeeps(w, key, SendBody(send), send.order, now);
      } else {
        FirstAdamHallKeeps(w, p, user, token, send, payloadId, configured, now);
      }
    }
  }

  lemma FirstAdamHallKeeps(w: World, p: nat, user: Id, token: string, send: SendRequest, payloadId: string,
      configured: bool, now: Time)
    requires Inv(w) && payloadId != ""
    requires SubmitAdamHall(w.db, user, token, send, payloadId, configured, now).Ok?
    requires Key(user, SendAdamHall(send.order), token) !in w.db.records
    ensures Inv(Begin(w, p, SubmitAdamHall(w.db, user, token, send, payloadId, configured, now), send.order,
                      Some(Key(user, SendAdamHall(send.order), token))))
  {
    var key := Key(user, SendAdamHall(send.order), token);
    FirstAdamHall(w.db, user, token, send, payloadId, configured, now);
    var claimed := CommitAdamHallClaim(w.db, user, send.order, send.checkout.value, payloadId, now).value;
    AdamHallClaimShape(w.db, user, send.order, send.checkout.value, payloadId, now);
    if p !in w.processes {
      AdamHallClaimed(w, p, user, send, configured, payloadId, now, key,
                      Recorded(claimed, key, SendBody(send), send.order).db.records);
    }
  }

  lemma AdamHallClaimed(w: World, p: nat, user: Id, send: SendRequest, configured: bool, payloadId: string,
      now: Time, key: Key, records: map<Key, Record>)
    requires Inv(w) && p !in w.processes && payloadId != ""
    requires AdamHallReady(w.db, send, configured, now)
    requires CommitAdamHallClaim(w.db, user, send.order, send.checkout.value, payloadId, now).Ok?
    requires key !in w.db.records && key.operation == SendAdamHall(send.order) && key in records
    requires records == w.db.records[key := records[key]]
    requires records[key].response.PendingResponse? && records[key].response.order == send.order
    ensures Inv(w.(db := CommitAdamHallClaim(w.db, user, send.order, send.checkout.value, payloadId,
                                             now).value.(records := records),
                   processes := w.processes[p := Process(send.order, Some(key), Sending)]))
  {
    var o := send.order;
    var g := CommitAdamHallClaim(w.db, user, o, send.checkout.value, payloadId, now).value.files[o];
    AdamHallClaimShape(w.db, user, o, send.checkout.value, payloadId, now);
    assert Holds(w.db, w.approvals, o, g) by {
      assert Holds(w.db, w.approvals, o, w.db.files[o]);
      AdamHallClaimKeeps(w.db, w.approvals, user, send, configured, payloadId, now);
    }
    ClaimBegun(w, p, o, g, Some(key), records);
  }

  // ---------- the later phases ----------

  lemma SendOutKeeps(w: World, p: nat, status: ClaimStatus, outcome: Outcome)
    requires Inv(w)
    ensures Inv(Dispatch(w, p, status, outcome))
  {
    if Dispatch(w, p, status, outcome) != w {
      var process := w.processes[p];
      assert ProcessOk(w.db, w.sends, process);
      var c := w.db.files[process.order].claim.value;
      SentSends(w, Send(process.order, c.provider, c.payloadId, c.payload));
      SentProcesses(w, p, Responded(status, outcome), Send(process.order, c.provider, c.payloadId, c.payload));
    }
  }

  lemma SentSends(w: World, s: Send)
    requires SendsOk(w) && SendOk(w.db.files, s) && !WasSent(w.sends, s.order)
    ensures SendsOk(w.(sends := w.sends + [s]))
  {
    var sends := w.sends + [s];
    forall i | 0 <= i < |sends|
      ensures SendOk(w.db.files, sends[i])
    {
      assert i < |w.sends| ==> SendOk(w.db.files, w.sends[i]);
    }
  }

  lemma SentProcesses(w: World, p: nat, stage: Stage, s: Send)
    requires ProcessesOk(w) && p in w.processes && s.order == w.processes[p].order
    requires ProcessOk(w.db, w.sends + [s], w.processes[p].(stage := stage))
    ensures ProcessesOk(w.(sends := w.sends + [s], processes := w.processes[p := w.processes[p].(stage := stage)]))
  {
    var sends := w.sends + [s];
    forall q | q in w.processes && q != p
      ensures ProcessOk(w.db, sends, w.processes[q])
    {
      assert ProcessOk(w.db, w.sends, w.processes[q]);
      assert w.processes[q].order != s.order;
      assert WasSent(sends, w.processes[q].order) ==> WasSent(w.sends, w.processes[q].order);
    }
  }

  lemma ProcessEnds(w: World, p: nat)
    requires Inv(w)
    ensures Inv(w.(processes := w.processes - {p}))
  {
    var w' := w.(processes := w.processes - {p});
    forall q | q in w'.processes
      ensures ProcessOk(w'.db, w'.sends, w'.processes[q])
    {
      assert ProcessOk(w.db, w.sends, w.processes[q]);
    }
  }

  lemma SaveOutcomeKeeps(w: World, p: nat)
    requires Inv(w)
    ensures Inv(Save(w, p))
  {
    if p in w.processes && w.processes[p].stage.Responded? {
      var process := w.processes[p];
      var o := process.order;
      assert ProcessOk(w.db, w.sends, process);
      assert Holds(w.db, w.approvals, o, w.db.files[o]);
      OutcomeKeeps(w.db, w.approvals, o, process.stage.status, process.stage.outcome);
      var db' := RecordOutcome(w.db, o, process.stage.status, process.stage.outcome).value;
      var g := db'.files[o];
      assert g.claim == Some(w.db.files[o].claim.value.(status := process.stage.status,
                                                        outcome := process.stage.outcome));
      OutcomeSaved(w, p, g);
    }
  }

  /** The claim of order `o` after its outcome was saved: everything but status and outcome as before. */
  predicate Answers(w: World, o: Id, g: OrderFile) {
    && o in w.db.files && w.db.files[o].claim.Some? && w.db.files[o].claim.value.status == Pending
    && g.claim.Some? && g.claim.value.status != Pending
    && g.claim.value == w.db.files[o].claim.value.(status := g.claim.value.status, outcome := g.claim.value.outcome)
  }

  /** The claim of the process's order leaves `pending`. */
  lemma OutcomeSaved(w: World, p: nat, g: OrderFile)
    requires Inv(w) && p in w.processes && w.processes[p].stage.Responded?
    requires Answers(w, w.processes[p].order, g) && Holds(w.db, w.approvals, w.processes[p].order, g)
    ensures Inv(w.(db := w.db.(files := w.db.files[w.processes[p].order := g]),
                   processes := w.processes[p := w.processes[p].(stage := Finalizing)]))
  {
    var o := w.processes[p].order;
    ClaimBegunFiles(w, o, g, w.db.records);
    OutcomeSavedRecords(w, o, g);
    OutcomeSavedProcesses(w, p, g);
  }

  lemma OutcomeSavedRecords(w: World, o: Id, g: OrderFile)
    requires RecordsOk(w.db) && SendsOk(w) && Answers(w, o, g)
    ensures var db' := w.db.(files := w.db.files[o := g]);
            RecordsOk(db') && SendsOk(w.(db := db'))
  {
    var db' := w.db.(files := w.db.files[o := g]);
    forall k | k in db'.records
      ensures RecordOk(db'.files, k, db'.records[k])
    {
      assert RecordOk(w.db.files, k, w.db.records[k]);
    }
    forall i | 0 <= i < |w.sends|
      ensures SendOk(db'.files, w.sends[i])
    {
      assert SendOk(w.db.files, w.sends[i]);
    }
  }

  lemma OutcomeSavedProcesses(w: World, p: nat, g: OrderFile)
    requires ProcessesOk(w) && p in w.processes && w.processes[p].stage.Responded?
    requires Answers(w, w.processes[p].order, g)
    ensures ProcessesOk(w.(db := w.db.(files := w.db.files[w.processes[p].order := g]),
                           processes := w.processes[p := w.processes[p].(stage := Finalizing)]))
  {
    var db' := w.db.(files := w.db.files[w.processes[p].order := g]);
    var processes := w.processes[p := w.processes[p].(stage := Finalizing)];
    forall q | q in processes
      ensures ProcessOk(db', w.sends, processes[q])
    {
      assert ProcessOk(w.db, w.sends, w.processes[q]);
    }
  }

  lemma SettleKeeps(w: World, p: nat, now: Time)
    requires Inv(w)
    ensures Inv(Settle(w, p, now))
  {
    if p in w.processes && w.processes[p].stage == Finalizing {
      var process := w.processes[p];
      assert ProcessOk(w.db, w.sends, process);
      if Finalize(w.db, process.order, process.key, now).Ok? {
        FinalizeActionKeeps(w, process.order, process.key, now);
        ProcessEnds(w.(db := Finalize(w.db, process.order, process.key, now).value), p);
      } else {
        ProcessEnds(w, p);
      }
    }
  }

  // ---------- reconciliation ----------

  lemma ReconcileKeeps(w: World, user: Id, token: string, req: ReconcileRequest, now: Time)
    requires Inv(w) && Reconcile(w.db, user, token, req, now).Ok?
    ensures Inv(w.(db := Reconcile(w.db, user, token, req, now).value.db))
  {
    var o := req.order;
    var key := Key(user, ReconcileSubmission(o), token);
    if key !in w.db.records {
      var f := w.db.files[o];
      var noted := InsertReconciliation(w.db, o,
                                        Reconciliation(user, req.resolution, req.supplierNumber, req.evidence)).value;
      assert Holds(w.db, w.approvals, o, f);
      NotedKeeps(w.db, w.approvals, o, noted.files[o]);
      ReplaceFile(w, o, noted.files[o]);
      var middle := w.(db := noted);
      HeaderUpdateKeeps(middle, o, ReconciledOrder(f.order, req, now), now);
      var settled := UpdateOrder(noted, o, ReconciledOrder(f.order, req, now), now).value;
      RecordRewritten(w.(db := settled), key, Reconcile(w.db, user, token, req, now).value.db.records[key]);
    }
  }

  lemma NotedKeeps(db: Db, approvals: seq<Approval>, o: Id, g: OrderFile)
    requires o in db.files && Holds(db, approvals, o, db.files[o]) && db.files[o].claim.Some?
    requires g == db.files[o].(reconciliation := g.reconciliation)
    ensures Holds(db, approvals, o, g)
  {
    var f := db.files[o];
    assert ReceiptsOk(db.receipts, o, g) by {
      assert forall i :: 0 <= i < |f.lines| ==> WithinAccepted(f, f.lines[i]) == WithinAccepted(g, g.lines[i]);
    }
  }

  // ---------- every step, every run ----------

  /** The transactions that are not phases of a submission. */
  lemma OrderKeeps(w: World, a: Action)
    requires a.NewOrder? || a.EditDraft? || a.SetStatus? || a.ApproveOrder? || a.ArchiveOrder?
    requires Inv(w) && Transaction(w.db, a).Ok?
    ensures Inv(w.(db := Transaction(w.db, a).value))
  {
    match a
    case NewOrder(input, now) => NewOrderKeeps(w, input, now);
    case EditDraft(id, input, lines, _, now) => EditDraftKeeps(w, id, input, lines, now);
    case SetStatus(id, to, number, notes, check, now) => SetStatusKeeps(w, id, to, number, notes, check.guided, now);
    case ApproveOrder(id, to, reason, _, now) => ApproveOrderKeeps(w, id, to, reason, now);
    case ArchiveOrder(id, archive, _, now) => ArchiveOrderKeeps(w, id, archive, now);
  }

  lemma TransactionKeeps(w: World, a: Action)
    requires Inv(w) && Transaction(w.db, a).Ok? && !a.DecideRequisition? && !a.ConvertRequisition? && !a.MoveStock?
    ensures Inv(w.(db := Transaction(w.db, a).value))
  {
    match a
    case NewCategory(_, _) => InsertsKeep(w, a);
    case NewSupplier(_, _) => InsertsKeep(w, a);
    case NewProduct(_, _) => InsertsKeep(w, a);
    case NewOffer(_, _) => OffersKeep(w, a);
    case PutOffer(_, _, _) => OffersKeep(w, a);
    case PutCategory(id, row, now) => PutCategoryKeeps(w, id, row, now);
    case PutSupplier(id, row, now) => PutSupplierKeeps(w, id, row, now);
    case PutProduct(id, row, now) => PutProductKeeps(w, id, row, now);
    case NewRequisition(requester, session, demand, now) => NewRequisitionKeeps(w, requester, session, demand, now);
    case EditRequisition(id, edited, _, now) => EditRequisitionKeeps(w, id, edited, now);
    case SubmitRequisition(id, _, now) => SubmitRequisitionKeeps(w, id, now);
    case ArchiveRequisition(id, archive, _, now) => ArchiveRequisitionKeeps(w, id, archive, now);
    case NewOrder(_, _) => OrderKeeps(w, a);
    case EditDraft(_, _, _, _, _) => OrderKeeps(w, a);
    case SetStatus(_, _, _, _, _, _) => OrderKeeps(w, a);
    case ApproveOrder(_, _, _, _, _) => OrderKeeps(w, a);
    case ArchiveOrder(_, _, _, _) => OrderKeeps(w, a);
    case ReconcileOrder(user, key, request, now) => ReconcileKeeps(w, user, key, request, now);
    case Confirm(id, message, text, now) => ConfirmActionKeeps(w, id, message, text, now);
    case Receive(id, receipt, guided, user, now) => ReceiveKeeps(w, id, receipt, guided, user, now);
    case CloseTask(id) => WarehouseFrame(w, Transaction(w.db, a).value.warehouse, w.db.serial);
    case PutWarehouse(_, _, _) => WarehouseFrame(w, Transaction(w.db, a).value.warehouse, w.db.serial);
    case _ =>
  }

  predicate Phase(a: Action) {
    a.SendOut? || a.SaveOutcome? || a.FinalizeOrder? || a.Crash?
  }

  lemma PhaseKeeps(w: World, a: Action)
    requires Inv(w) && Phase(a)
    ensures Inv(Step(w, a))
  {
    match a
    case SendOut(p, status, outcome) => SendOutKeeps(w, p, status, outcome);
    case SaveOutcome(p) => SaveOutcomeKeeps(w, p);
    case FinalizeOrder(p, now) => SettleKeeps(w, p, now);
    case Crash(p) => ProcessEnds(w, p);
  }

  lemma RequestKeeps(w: World, a: Action)
    requires Inv(w) && (a.RequestAmazon? || a.RequestAdamHall?)
    ensures Inv(Step(w, a))
  {
    match a
    case RequestAmazon(_, _, _, _, _, _, _) => AmazonActionKeeps(w, a);
    case RequestAdamHall(_, _, _, _, _, _, _) => AdamHallActionKeeps(w, a);
  }

  lemma AmazonActionKeeps(w: World, a: Action)
    requires Inv(w) && a.RequestAmazon?
    ensures Inv(Step(w, a))
  {
    RequestAmazonKeeps(w, a.process, a.user, a.token, a.send, a.payloadId, a.configured, a.now);
  }

  lemma AdamHallActionKeeps(w: World, a: Action)
    requires Inv(w) && a.RequestAdamHall?
    ensures Inv(Step(w, a))
  {
    RequestAdamHallKeeps(w, a.process, a.user, a.key, a.send, a.payloadId, a.configured, a.now);
  }

  /** The warehouse may do to its tables what it likes. */
  lemma MoveKeeps(w: World, a: Action)
    requires Inv(w) && a.MoveStock?
    ensures Inv(Step(w, a))
  {
    var noted := w.(moves := Step(w, a).moves);
    NotedMoveKeeps(w, noted.moves);
    WarehouseFrame(noted, Step(w, a).db.warehouse, w.db.serial);
    assert Step(w, a) == noted.(db := noted.db.(warehouse := Step(w, a).db.warehouse, serial := w.db.serial));
  }

  lemma NotedMoveKeeps(w: World, moves: seq<Move>)
    requires Inv(w)
    ensures Inv(w.(moves := moves))
  {
    var w' := w.(moves := moves);
    assert ProcessesOk(w') && SendsOk(w');
  }

  /** One step, whatever it is, from a good state leads to a good state. */
  lemma StepKeeps(w: World, a: Action)
    requires Inv(w)
    ensures Inv(Step(w, a))
  {
    if Phase(a) {
      PhaseKeeps(w, a);
    } else if a.RequestAmazon? || a.RequestAdamHall? {
      RequestKeeps(w, a);
    } else if Transaction(w.db, a).Err? {
      assert Step(w, a) == w;
    } else if a.DecideRequisition? {
      DecideRequisitionKeeps(w, a);
    } else if a.ConvertRequisition? {
      ConvertRequisitionKeeps(w, a);
    } else if a.MoveStock? {
      MoveKeeps(w, a);
    } else {
      assert Step(w, a) == w.(db := Transaction(w.db, a).value);
      TransactionKeeps(w, a);
    }
  }

  /** Every state of every run satisfies the invariant. */
  lemma {:induction false} RunKeeps(w: World, actions: seq<Action>)
    requires Inv(w)
    ensures Inv(Run(w, actions))
    decreases |actions|
  {
    if actions != [] {
      StepKeeps(w, actions[0]);
      RunKeeps(Step(w, actions[0]), actions[1..]);
    }
  }
}
