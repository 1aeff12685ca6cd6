/**
 Where a claim comes from: the one request of a run that committed it, what that request read, and whether it had a key.
 */
module Origins {
  import opened Base
  import opened Schema
  import opened Submission
  import opened World
  import opened Invariants
  import opened Preservation
  import opened Protocol
  import opened Evolution
  import Cart
  import Confirmations
  import GoodsReceipts
  import Safety
  import Stranding

  // ---------- only requests claim ----------

  /** Every claim was there before. */
  predicate NoNewClaims(files: map<Id, OrderFile>, files': map<Id, OrderFile>) {
    forall o :: o in files' && files'[o].claim.Some? ==> o in files && files[o].claim.Some?
  }

  lemma OrderClaims(db: Db, a: Action)
    requires OrderAction(a) && Transaction(db, a).Ok?
    ensures NoNewClaims(db.files, Transaction(db, a).value.files)
  {
    if a.EditDraft? {
      EditDraftClaims(db, a);
    } else if !a.NewOrder? {
      StatusClaims(db, a);
    }
  }

  lemma StatusClaims(db: Db, a: Action)
    requires (a.SetStatus? || a.ApproveOrder? || a.ArchiveOrder?) && Transaction(db, a).Ok?
    ensures NoNewClaims(db.files, Transaction(db, a).value.files)
  {
  }

  lemma EditDraftClaims(db: Db, a: Action)
    requires a.EditDraft? && Transaction(db, a).Ok?
    ensures NoNewClaims(db.files, Transaction(db, a).value.files)
  {
  }

  lemma SupplierClaims(db: Db, a: Action)
    requires SupplierAction(a) && Transaction(db, a).Ok?
    ensures NoNewClaims(db.files, Transaction(db, a).value.files)
  {
    match a
    case ReconcileOrder(user, key, request, now) => ReconcileClaims(db, user, key, request, now);
    case Confirm(id, message, text, now) => ConfirmClaims(db, id, message, text, now);
    case Receive(id, receipt, guided, user, now) => ReceiveClaims(db, id, receipt, guided, user, now);
  }

  lemma ReconcileClaims(db: Db, user: Id, token: string, req: ReconcileRequest, now: Time)
    requires Reconcile(db, user, token, req, now).Ok?
    ensures NoNewClaims(db.files, Reconcile(db, user, token, req, now).value.db.files)
  {
    if Key(user, ReconcileSubmission(req.order), token) !in db.records {
      ReconciledShape(db, user, token, req, now);
    }
  }

  lemma ConfirmClaims(db: Db, o: Id, m: Confirmations.Message, text: string, now: Time)
    requires Confirmations.Apply(db, o, m, text, now).Ok?
    ensures NoNewClaims(db.files, Confirmations.Apply(db, o, m, text, now).value.files)
  {
    ApplyShape(db, o, m, text, now);
  }

  lemma ReceiveClaims(db: Db, o: Id, input: GoodsReceipts.ReceiptInput, guided: bool, user: Id, now: Time)
    requires GoodsReceipts.Receive(db, o, input, guided, user, now).Ok?
    ensures NoNewClaims(db.files, GoodsReceipts.Receive(db, o, input, guided, user, now).value.files)
  {
    Stranding.ReceiveKeepsRecords(db, o, input, guided, user, now);
  }

  lemma DemandClaims(db: Db, a: Action)
    requires !OrderAction(a) && !SupplierAction(a) && Transaction(db, a).Ok?
    ensures NoNewClaims(db.files, Transaction(db, a).value.files)
  {
    if a.ConvertRequisition? {
      ConversionClaims(db, a);
    } else if a.NewRequisition? || a.EditRequisition? || a.SubmitRequisition? || a.DecideRequisition? {
      RequisitionClaims(db, a);
    }
  }

  lemma ConversionClaims(db: Db, a: Action)
    requires a.ConvertRequisition? && Transaction(db, a).Ok?
    ensures NoNewClaims(db.files, Transaction(db, a).value.files)
  {
  }

  lemma RequisitionClaims(db: Db, a: Action)
    requires a.NewRequisition? || a.EditRequisition? || a.SubmitRequisition? || a.DecideRequisition?
    requires Transaction(db, a).Ok?
    ensures Transaction(db, a).value.files == db.files
  {
  }

  lemma FinalizeClaims(db: Db, o: Id, key: Option<Key>, now: Time)
    requires Finalize(db, o, key, now).Ok?
    ensures NoNewClaims(db.files, Finalize(db, o, key, now).value.files)
  {
    FinalizeShape(db, o, key, now);
  }

  lemma ReplayClaims(db: Db, key: Key, body: RequestBody, o: Id, now: Time)
    requires key in db.records && Replay(db, key, body, o, now).Ok?
    ensures NoNewClaims(db.files, Replay(db, key, body, o, now).value.db.files)
    ensures !Replay(db, key, body, o, now).value.claimed
  {
    if Finalize(db, o, Some(key), now).Ok? {
      FinalizeClaims(db, o, Some(key), now);
    }
  }

  lemma PhaseClaims(w: World, a: Action)
    requires Phase(a)
    ensures NoNewClaims(w.db.files, Step(w, a).db.files)
  {
    if a.FinalizeOrder? && a.process in w.processes {
      var x := w.processes[a.process];
      if Finalize(w.db, x.order, x.key, a.now).Ok? {
        FinalizeClaims(w.db, x.order, x.key, a.now);
      }
    }
  }

  lemma HandlerClaims(w: World, a: Action)
    requires !a.RequestAmazon? && !a.RequestAdamHall?
    ensures NoNewClaims(w.db.files, Step(w, a).db.files)
  {
    if Phase(a) {
      PhaseClaims(w, a);
    } else if Transaction(w.db, a).Ok? {
      assert Step(w, a).db == Transaction(w.db, a).value;
      if OrderAction(a) {
        OrderClaims(w.db, a);
      } else if SupplierAction(a) {
        SupplierClaims(w.db, a);
      } else {
        DemandClaims(w.db, a);
      }
    }
  }

  // ---------- what a claiming request commits ----------

  /** The request commits the claim of its order; a request with a key commits its record with it. */
  ghost predicate Claims(w: World, a: Action) {
    match a
    case RequestAmazon(p, user, token, send, payloadId, configured, now) =>
      && p !in w.processes && send.order in w.db.files
      && AmazonReply(w.db, user, token, send, payloadId, configured, now).Ok?
      && AmazonReply(w.db, user, token, send, payloadId, configured, now).value.claimed
    case RequestAdamHall(p, user, key, send, payloadId, configured, now) =>
      && p !in w.processes && send.order in w.db.files
      && AdamHallReply(w.db, user, key, send, payloadId, configured, now).Ok?
      && AdamHallReply(w.db, user, key, send, payloadId, configured, now).value.claimed
    case _ => false
  }

  /** The request has an idempotency key: every Adam Hall request, and the guided Amazon request. */
  predicate HasKey(a: Action) {
    a.RequestAdamHall? || (a.RequestAmazon? && a.token.Some?)
  }

  lemma AmazonOrigin(w: World, a: Action, o: Id)
    requires a.RequestAmazon? && o in Step(w, a).db.files && Step(w, a).db.files[o].claim.Some?
    ensures (o in w.db.files && w.db.files[o].claim.Some?)
            || (Claims(w, a) && a.send.order == o && w.db.files[o].claim.None?)
  {
    var r := AmazonReply(w.db, a.user, a.token, a.send, a.payloadId, a.configured, a.now);
    if r.Ok? {
      if a.token.None? {
        NativeAmazon(w.db, a.user, a.send, a.payloadId, a.configured, a.now);
        AmazonClaimShape(w.db, a.user, a.send.order, a.payloadId, a.now);
      } else {
        var key := Key(a.user, SendAmazon(a.send.order), a.token.value);
        if key in w.db.records {
          ReplayedAmazon(w.db, a.user, a.token.value, a.send, a.payloadId, a.configured, a.now);
          ReplayClaims(w.db, key, SendBody(a.send), a.send.order, a.now);
        } else {
          GuidedAmazon(w.db, a.user, a.token.value, a.send, a.payloadId, a.configured, a.now);
          AmazonClaimShape(w.db, a.user, a.send.order, a.payloadId, a.now);
        }
      }
    }
  }

  lemma AdamHallOrigin(w: World, a: Action, o: Id)
    requires a.RequestAdamHall? && o in Step(w, a).db.files && Step(w, a).db.files[o].claim.Some?
    ensures (o in w.db.files && w.db.files[o].claim.Some?)
            || (Claims(w, a) && a.send.order == o && w.db.files[o].claim.None?)
  {
    var r := AdamHallReply(w.db, a.user, a.key, a.send, a.payloadId, a.configured, a.now);
    if r.Ok? {
      var key := Key(a.user, SendAdamHall(a.send.order), a.key);
      if key in w.db.records {
        ReplayedAdamHall(w.db, a.user, a.key, a.send, a.payloadId, a.configured, a.now);
        ReplayClaims(w.db, key, SendBody(a.send), a.send.order, a.now);
      } else {
        FirstAdamHall(w.db, a.user, a.key, a.send, a.payloadId, a.configured, a.now);
        AdamHallClaimShape(w.db, a.user, a.send.order, a.send.checkout.value, a.payloadId, a.now);
      }
    }
  }

  lemma StepOrigin(w: World, a: Action, o: Id)
    requires o in Step(w, a).db.files && Step(w, a).db.files[o].claim.Some?
    ensures (o in w.db.files && w.db.files[o].claim.Some?)
         || (Claims(w, a) && a.send.order == o && w.db.files[o].claim.None?)
  {
    if a.RequestAmazon? {
      AmazonOrigin(w, a, o);
    } else if a.RequestAdamHall? {
      AdamHallOrigin(w, a, o);
    } else {
      HandlerClaims(w, a);
    }
  }

  /** Action k of the run committed the claim of the order. */
  ghost predicate Origin(actions: seq<Action>, k: nat, o: Id) {
    && k < |actions| && Claims(Run(Init(), actions[..k]), actions[k]) && actions[k].send.order == o
    && Run(Init(), actions[..k]).db.files[o].claim.None?
  }

  lemma {:induction false} LastStep(actions: seq<Action>)
    requires actions != []
    ensures var n := |actions| - 1; Run(Init(), actions) == Step(Run(Init(), actions[..n]), actions[n])
  {
    var n := |actions| - 1;
    assert actions == actions[..n] + [actions[n]];
    Safety.RunThen(Init(), actions[..n], [actions[n]]);
    Stranding.OneStep(Run(Init(), actions[..n]), actions[n]);
  }

  lemma {:induction false} OriginLater(actions: seq<Action>, k: nat, o: Id)
    requires actions != [] && Origin(actions[..|actions| - 1], k, o)
    ensures Origin(actions, k, o)
  {
    assert actions[..|actions| - 1][..k] == actions[..k];
  }

  /** Every claim of every run was committed by some request of the run. */
  lemma {:induction false} ClaimHasOrigin(actions: seq<Action>, o: Id)
    requires o in Run(Init(), actions).db.files && Run(Init(), actions).db.files[o].claim.Some?
    ensures exists k: nat :: Origin(actions, k, o)
    decreases |actions|
  {
    if actions != [] {
      var n := |actions| - 1;
      LastStep(actions);
      var w := Run(Init(), actions[..n]);
      StepOrigin(w, actions[n], o);
      if o in w.db.files && w.db.files[o].claim.Some? {
        ClaimHasOrigin(actions[..n], o);
        var k: nat :| Origin(actions[..n], k, o);
        OriginLater(actions, k, o);
      } else {
        assert Origin(actions, n, o);
      }
    }
  }

  // ---------- the commit itself ----------

  lemma AmazonCommits(w: World, a: Action)
    requires a.RequestAmazon? && Claims(w, a)
    ensures var db' := Step(w, a).db;
            && a.send.order in db'.files && db'.files[a.send.order].claim.Some?
            && db'.files[a.send.order].claim.value.provider == Amazon
            && (a.token.None? ==> db'.records == w.db.records)
            && (a.token.Some? ==> Key(a.user, SendAmazon(a.send.order), a.token.value) in db'.records)
  {
    if a.token.None? {
      NativeAmazon(w.db, a.user, a.send, a.payloadId, a.configured, a.now);
      AmazonClaimShape(w.db, a.user, a.send.order, a.payloadId, a.now);
    } else {
      var key := Key(a.user, SendAmazon(a.send.order), a.token.value);
      if key in w.db.records {
        ReplayedAmazon(w.db, a.user, a.token.value, a.send, a.payloadId, a.configured, a.now);
        ReplayClaims(w.db, key, SendBody(a.send), a.send.order, a.now);
      } else {
        GuidedAmazon(w.db, a.user, a.token.value, a.send, a.payloadId, a.configured, a.now);
        AmazonClaimShape(w.db, a.user, a.send.order, a.payloadId, a.now);
      }
    }
  }

  /** The stored lines with the reviewed prices, and the claim over them. */
  predicate AdamHallClaimed(db: Db, f: OrderFile, g: OrderFile) {
    && g.claim.Some? && g.claim.value.provider == AdamHall
    && g.claim.value.payload == AdamHallPayload(f.order.number,
                                                Cart.Quantities(CartItems(db.catalog, f.order.supplier, f.lines)))
    && g.order.number == f.order.number && g.order.supplier == f.order.supplier
    && SameGoods(f.lines, g.lines)
  }

  /** The same products in the same quantities, line by line. */
  predicate SameGoods(lines: seq<Line>, lines': seq<Line>) {
    |lines'| == |lines| && forall i :: 0 <= i < |lines| ==>
      lines'[i].product == lines[i].product && lines'[i].quantity == lines[i].quantity
  }

  lemma AdamHallCommits(w: World, a: Action)
    requires a.RequestAdamHall? && Claims(w, a)
    ensures var o := a.send.order;
            var db' := Step(w, a).db;
            && o in db'.files && AdamHallClaimed(w.db, w.db.files[o], db'.files[o])
            && AdamHallReady(w.db, a.send, a.configured, a.now)
            && Key(a.user, SendAdamHall(o), a.key) in db'.records
  {
    var key := Key(a.user, SendAdamHall(a.send.order), a.key);
    if key in w.db.records {
      ReplayedAdamHall(w.db, a.user, a.key, a.send, a.payloadId, a.configured, a.now);
      ReplayClaims(w.db, key, SendBody(a.send), a.send.order, a.now);
    } else {
      FirstAdamHall(w.db, a.user, a.key, a.send, a.payloadId, a.configured, a.now);
      AdamHallFile(w.db, a.user, a.send.order, a.send.checkout.value, a.payloadId, a.now);
    }
  }

  lemma AdamHallFile(db: Db, user: Id, o: Id, checkout: Checkout, payloadId: string, now: Time)
    requires o in db.files && CommitAdamHallClaim(db, user, o, checkout, payloadId, now).Ok?
    ensures var files := CommitAdamHallClaim(db, user, o, checkout, payloadId, now).value.files;
            o in files && AdamHallClaimed(db, db.files[o], files[o])
  {
  }

  lemma ClaimCommitted(w: World, a: Action)
    requires Claims(w, a)
    ensures a.send.order in Step(w, a).db.files && Step(w, a).db.files[a.send.order].claim.Some?
    ensures Step(w, a).db.files[a.send.order].claim.value.provider == AdamHall <==> a.RequestAdamHall?
  {
    if a.RequestAmazon? {
      AmazonCommits(w, a);
    } else {
      AdamHallCommits(w, a);
    }
  }

  lemma {:induction false} SplitRun(actions: seq<Action>, k: nat)
    requires k < |actions|
    ensures Run(Init(), actions) == Run(Step(Run(Init(), actions[..k]), actions[k]), actions[k + 1..])
  {
    var w := Run(Init(), actions[..k]);
    assert actions == actions[..k] + actions[k..];
    Safety.RunThen(Init(), actions[..k], actions[k..]);
    assert actions[k..][1..] == actions[k + 1..];
    assert Run(w, actions[k..]) == Run(Step(w, actions[k]), actions[k + 1..]);
  }

  /** The state after the claiming request, and the rest of the run from there. */
  lemma {:induction false} FromOrigin(actions: seq<Action>, k: nat, o: Id)
    requires Origin(actions, k, o)
    ensures var w := Run(Init(), actions[..k]);
            && Inv(w) && Inv(Step(w, actions[k]))
            && Run(Init(), actions) == Run(Step(w, actions[k]), actions[k + 1..])
            && Extends(Step(w, actions[k]), Run(Init(), actions))
  {
    var w := Run(Init(), actions[..k]);
    Safety.Reached(actions[..k]);
    StepKeeps(w, actions[k]);
    SplitRun(actions, k);
    RunExtends(Step(w, actions[k]), actions[k + 1..]);
  }

  lemma {:induction false} StaysClaimed(actions: seq<Action>, k: nat, o: Id)
    requires Origin(actions, k, o)
    ensures o in Run(Init(), actions).db.files && Run(Init(), actions).db.files[o].claim.Some?
  {
    FromOrigin(actions, k, o);
    ClaimCommitted(Run(Init(), actions[..k]), actions[k]);
    assert FileStep(Step(Run(Init(), actions[..k]), actions[k]).db.files[o], Run(Init(), actions).db.files[o]);
  }

  lemma {:induction false} OriginEarlier(actions: seq<Action>, j: nat, k: nat, o: Id)
    requires j < k <= |actions| && Origin(actions, j, o)
    ensures Origin(actions[..k], j, o)
  {
    assert actions[..k][..j] == actions[..j];
  }

  /** There is one such request only: a claim is committed once. */
  lemma {:induction false} OriginUnique(actions: seq<Action>, j: nat, k: nat, o: Id)
    requires Origin(actions, j, o) && Origin(actions, k, o)
    ensures j == k
  {
    if j < k {
      OriginEarlier(actions, j, k, o);
      StaysClaimed(actions[..k], j, o);
    } else if k < j {
      OriginEarlier(actions, k, j, o);
      StaysClaimed(actions[..j], k, o);
    }
  }

  // ---------- Adam Hall ----------

  /** The claim asks, per article number of `catalog`, for the sum of the order's line quantities. */
  predicate AsksForSums(catalog: Catalog, f: OrderFile) {
    && f.claim.Some?
    && f.claim.value.payload == AdamHallPayload(f.order.number,
                                                Cart.Quantities(CartItems(catalog, f.order.supplier, f.lines)))
  }

  lemma {:induction false} SameItems(catalog: Catalog, supplier: Id, lines: seq<Line>, lines': seq<Line>)
    requires SameGoods(lines, lines')
    ensures CartItems(catalog, supplier, lines) == CartItems(catalog, supplier, lines')
  {
    forall i | 0 <= i < |lines|
      ensures SkuOf(catalog, supplier, lines[i]) == SkuOf(catalog, supplier, lines'[i])
    {
    }
  }

  lemma {:induction false} SumsFrozen(db: Db, f: OrderFile, g: OrderFile, h: OrderFile)
    requires AdamHallClaimed(db, f, g) && FileStep(g, h)
    ensures AsksForSums(db.catalog, h)
  {
    assert CommercialLines(h.lines) == CommercialLines(g.lines);
    forall i | 0 <= i < |g.lines|
      ensures h.lines[i].product == g.lines[i].product && h.lines[i].quantity == g.lines[i].quantity
    {
      assert CommercialLines(h.lines)[i] == CommercialLines(g.lines)[i];
    }
    assert |h.lines| == |CommercialLines(h.lines)| == |CommercialLines(g.lines)| == |g.lines|;
    SameItems(db.catalog, f.order.supplier, f.lines, h.lines);
  }

  /**
   In every state of every run, whatever happened since: what Adam Hall was or will be sent for an order is, per article
   number in the catalog of the claiming request, the sum of the quantities of the order's lines as they are stored now.
   */
  lemma {:induction false} AdamHallAsksForSums(actions: seq<Action>, o: Id)
    requires var files := Run(Init(), actions).db.files;
             o in files && files[o].claim.Some? && files[o].claim.value.provider == AdamHall
    ensures exists k: nat ::
              && Origin(actions, k, o) && actions[k].RequestAdamHall?
              && AsksForSums(Run(Init(), actions[..k]).db.catalog, Run(Init(), actions).db.files[o])
  {
    ClaimHasOrigin(actions, o);
    var k: nat :| Origin(actions, k, o);
    var w := Run(Init(), actions[..k]);
    FromOrigin(actions, k, o);
    ClaimCommitted(w, actions[k]);
    var next := Step(w, actions[k]);
    assert FileStep(next.db.files[o], Run(Init(), actions).db.files[o]);
    AdamHallCommits(w, actions[k]);
    SumsFrozen(w.db, w.db.files[o], next.db.files[o], Run(Init(), actions).db.files[o]);
  }

  /** So every Adam Hall send names exactly the articles of the order's lines, each with its total. */
  lemma {:induction false} AdamHallGetsTheSums(actions: seq<Action>, i: nat, article: string)
    requires i < |Run(Init(), actions).sends| && Run(Init(), actions).sends[i].provider == AdamHall
    ensures var w := Run(Init(), actions);
            var s := w.sends[i];
            && s.order in w.db.files && s.payload.AdamHallPayload?
            && s.payload.number == w.db.files[s.order].order.number
            && exists k: nat ::
                 && Origin(actions, k, s.order) && actions[k].RequestAdamHall?
                 && var f := w.db.files[s.order];
                    var items := CartItems(Run(Init(), actions[..k]).db.catalog, f.order.supplier, f.lines);
                    && (article in s.payload.items <==> article != "" && Cart.Mentions(items, article))
                    && (article in s.payload.items ==> s.payload.items[article] == Cart.Sum(items, article))
  {
    var w := Run(Init(), actions);
    Safety.Reached(actions);
    assert SendOk(w.db.files, w.sends[i]);
    var o := w.sends[i].order;
    AdamHallAsksForSums(actions, o);
    var k: nat :| && Origin(actions, k, o) && actions[k].RequestAdamHall?
                  && AsksForSums(Run(Init(), actions[..k]).db.catalog, w.db.files[o]);
    Cart.QuantitiesAreSums(CartItems(Run(Init(), actions[..k]).db.catalog, w.db.files[o].order.supplier,
                                     w.db.files[o].lines), article);
  }

  // ---------- records ----------

  /** The order has a submission record in both or in neither. */
  ghost predicate SameRecorded(records: map<Key, Record>, records': map<Key, Record>, o: Id) {
    forall k: Key :: SentOrder(k.operation) == Some(o) ==> (k in records' <==> k in records)
  }

  lemma BeginRecords(w: World, p: nat, r: Result<Reply>, o: Id, key: Option<Key>)
    ensures Begin(w, p, r, o, key).db == w.db || (r.Ok? && Begin(w, p, r, o, key).db == r.value.db)
  {
  }

  lemma AmazonRecords(w: World, a: Action, o: Id)
    requires a.RequestAmazon? && o in w.db.files && w.db.files[o].claim.Some?
    ensures SameRecorded(w.db.records, Step(w, a).db.records, o)
  {
    var r := AmazonReply(w.db, a.user, a.token, a.send, a.payloadId, a.configured, a.now);
    BeginRecords(w, a.process, r, a.send.order, AmazonKey(a.user, a.token, a.send.order));
    if r.Ok? {
      if a.token.None? {
        Stranding.NativeRecord(w.db, a.user, a.send, a.payloadId, a.configured, a.now);
      } else if Key(a.user, SendAmazon(a.send.order), a.token.value) in w.db.records {
        ReplayedAmazon(w.db, a.user, a.token.value, a.send, a.payloadId, a.configured, a.now);
        ReplayRecords(w.db, Key(a.user, SendAmazon(a.send.order), a.token.value), SendBody(a.send), a.send.order,
                      a.now);
      } else {
        FirstAmazonRecords(w.db, a.user, a.token.value, a.send, a.payloadId, a.configured, a.now, o);
      }
    }
  }

  /** A first request writes the record of its own, so far unclaimed order. */
  lemma FirstAmazonRecords(db: Db, user: Id, token: string, send: SendRequest, payloadId: string, configured: bool,
      now: Time, o: Id)
    requires SubmitAmazon(db, user, Some(token), send, payloadId, configured, now).Ok?
    requires Key(user, SendAmazon(send.order), token) !in db.records && o in db.files && db.files[o].claim.Some?
    ensures SameRecorded(db.records,
                         SubmitAmazon(db, user, Some(token), send, payloadId, configured, now).value.db.records, o)
  {
    GuidedAmazon(db, user, token, send, payloadId, configured, now);
    AmazonClaimShape(db, user, send.order, payloadId, now);
  }

  lemma ReplayRecords(db: Db, key: Key, body: RequestBody, o: Id, now: Time)
    requires key in db.records && Replay(db, key, body, o, now).Ok?
    ensures Replay(db, key, body, o, now).value.db.records.Keys == db.records.Keys
  {
    if Finalize(db, o, Some(key), now).Ok? {
      FinalizeRecords(db, o, Some(key), now);
    }
  }

  lemma FinalizeRecords(db: Db, o: Id, key: Option<Key>, now: Time)
    requires Finalize(db, o, key, now).Ok?
    ensures Finalize(db, o, key, now).value.records.Keys == db.records.Keys
  {
    FinalizeShape(db, o, key, now);
  }

  lemma AdamHallRecords(w: World, a: Action, o: Id)
    requires a.RequestAdamHall? && o in w.db.files && w.db.files[o].claim.Some?
    ensures SameRecorded(w.db.records, Step(w, a).db.records, o)
  {
    if AdamHallReply(w.db, a.user, a.key, a.send, a.payloadId, a.configured, a.now).Ok? {
      var key := Key(a.user, SendAdamHall(a.send.order), a.key);
      if key in w.db.records {
        ReplayedAdamHall(w.db, a.user, a.key, a.send, a.payloadId, a.configured, a.now);
        ReplayRecords(w.db, key, SendBody(a.send), a.send.order, a.now);
      } else {
        FirstAdamHall(w.db, a.user, a.key, a.send, a.payloadId, a.configured, a.now);
        AdamHallClaimShape(w.db, a.user, a.send.order, a.send.checkout.value, a.payloadId, a.now);
      }
    }
  }

  lemma PhaseRecords(w: World, a: Action)
    requires Phase(a)
    ensures Step(w, a).db.records.Keys == w.db.records.Keys
  {
    if a.FinalizeOrder? && a.process in w.processes {
      var x := w.processes[a.process];
      if Finalize(w.db, x.order, x.key, a.now).Ok? {
        FinalizeRecords(w.db, x.order, x.key, a.now);
      }
    }
  }

  lemma TransactionRecords(db: Db, a: Action, o: Id)
    requires Transaction(db, a).Ok?
    ensures SameRecorded(db.records, Transaction(db, a).value.records, o)
  {
    if a.ReconcileOrder? {
      Stranding.ReconcileRecords(db, a.user, a.key, a.request, a.now);
    } else {
      Stranding.RecordsKept(db, a);
    }
  }

  lemma HandlerRecords(w: World, a: Action, o: Id)
    requires !a.RequestAmazon? && !a.RequestAdamHall?
    ensures SameRecorded(w.db.records, Step(w, a).db.records, o)
  {
    if Phase(a) {
      PhaseRecords(w, a);
    } else if Transaction(w.db, a).Ok? {
      assert Step(w, a).db == Transaction(w.db, a).value;
      TransactionRecords(w.db, a, o);
    }
  }

  lemma StepRecorded(w: World, a: Action, o: Id)
    requires o in w.db.files && w.db.files[o].claim.Some?
    ensures Stranding.Recorded(Step(w, a).db, o) <==> Stranding.Recorded(w.db, o)
  {
    if a.RequestAmazon? {
      AmazonRecords(w, a, o);
    } else if a.RequestAdamHall? {
      AdamHallRecords(w, a, o);
    } else {
      HandlerRecords(w, a, o);
    }
    SameMeans(w.db, Step(w, a).db, o);
  }

  lemma SameMeans(db: Db, db': Db, o: Id)
    requires SameRecorded(db.records, db'.records, o)
    ensures Stranding.Recorded(db', o) <==> Stranding.Recorded(db, o)
  {
  }

  lemma {:induction false} RunRecorded(w: World, actions: seq<Action>, o: Id)
    requires Inv(w) && o in w.db.files && w.db.files[o].claim.Some?
    ensures Stranding.Recorded(Run(w, actions).db, o) <==> Stranding.Recorded(w.db, o)
    decreases |actions|
  {
    if actions != [] {
      StepRecorded(w, actions[0], o);
      InvGuards(w);
      StepExtends(w, actions[0]);
      StepKeeps(w, actions[0]);
      assert FileStep(w.db.files[o], Step(w, actions[0]).db.files[o]);
      RunRecorded(Step(w, actions[0]), actions[1..], o);
    }
  }

  /** Before its claim no order has a record. */
  lemma UnclaimedUnrecorded(w: World, o: Id)
    requires Inv(w) && o in w.db.files && w.db.files[o].claim.None?
    ensures !Stranding.Recorded(w.db, o)
  {
    forall k | k in w.db.records
      ensures SentOrder(k.operation) != Some(o)
    {
      assert RecordOk(w.db.files, k, w.db.records[k]);
    }
  }

  /** The claiming request leaves a record exactly if it has a key. */
  lemma ClaimRecorded(w: World, a: Action)
    requires Claims(w, a) && !Stranding.Recorded(w.db, a.send.order)
    ensures Stranding.Recorded(Step(w, a).db, a.send.order) <==> HasKey(a)
  {
    if a.RequestAmazon? {
      AmazonCommits(w, a);
      assert a.token.Some? ==> SentOrder(SendAmazon(a.send.order)) == Some(a.send.order);
    } else {
      AdamHallCommits(w, a);
      assert SentOrder(SendAdamHall(a.send.order)) == Some(a.send.order);
    }
  }

  /** In every run an order has a submission record if and only if the request that claimed it had a key. */
  lemma {:induction false} RecordedIffKeyed(actions: seq<Action>, k: nat, o: Id)
    requires Origin(actions, k, o)
    ensures Stranding.Recorded(Run(Init(), actions).db, o) <==> HasKey(actions[k])
  {
    var w := Run(Init(), actions[..k]);
    FromOrigin(actions, k, o);
    UnclaimedUnrecorded(w, o);
    ClaimRecorded(w, actions[k]);
    ClaimCommitted(w, actions[k]);
    RunRecorded(Step(w, actions[k]), actions[k + 1..], o);
  }

  /**
   An accepted order left in `submitting` by a crash can be finished without a further word from the supplier if and
   only if the one request of the run that claimed it had an idempotency key.
   */
  lemma {:induction false} RecoverableIffKeyed(actions: seq<Action>, o: Id)
    requires Stranding.Abandoned(Run(Init(), actions), o)
    ensures exists k: nat :: Origin(actions, k, o)
    ensures forall k: nat :: Origin(actions, k, o) ==>
              (HasKey(actions[k])
               <==> exists more :: Stranding.Unconfirmed(more, o) && Stranding.Finishes(Run(Init(), actions), more, o))
  {
    ClaimHasOrigin(actions, o);
    Stranding.RecoverableIffRecorded(actions, o);
    forall k: nat | Origin(actions, k, o)
      ensures Stranding.Recorded(Run(Init(), actions).db, o) <==> HasKey(actions[k])
    {
      RecordedIffKeyed(actions, k, o);
    }
  }
}
