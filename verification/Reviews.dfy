/**
 What a person reviewed is what was done: rows, amounts, prices and the waiting time behind a claim or a reconciliation.
 */
module Reviews {
  import opened Base
  import opened Schema
  import opened Submission
  import opened World
  import opened Protocol
  import opened Evolution
  import Origins
  import Safety
  import Text
  import Workflow

  /** Fifteen minutes in microseconds. */
  const QUARTER_HOUR: int := 15 * 60 * 1_000_000

  // ---------- the reviewed rows ----------

  /** Both tables have the same row under an id, or neither has one. */
  predicate SameRow<T(==)>(a: map<Id, T>, b: map<Id, T>, id: Id) {
    (id in a <==> id in b) && (id in a ==> a[id] == b[id])
  }

  /** An offer of this supplier for a product of the order. */
  predicate Concerns(offer: Offer, f: OrderFile) {
    && offer.supplier == f.order.supplier
    && exists i :: 0 <= i < |f.lines| && f.lines[i].product == Some(offer.product)
  }

  /** Order, supplier, products and requisition are as they were. */
  predicate SameRows(read: Db, db: Db, o: Id)
    requires o in read.files && o in db.files
  {
    var f := read.files[o];
    && db.files[o] == f
    && SameRow(read.catalog.suppliers, db.catalog.suppliers, f.order.supplier)
    && (forall i :: 0 <= i < |f.lines| && f.lines[i].product.Some? ==>
          SameRow(read.catalog.products, db.catalog.products, f.lines[i].product.value))
    && (f.order.requisition.Some? ==> SameRow(read.requisitions, db.requisitions, f.order.requisition.value))
  }

  /** And so are the offers that concern it. */
  predicate SameOffers(offers: seq<Offer>, offers': seq<Offer>, f: OrderFile) {
    && (forall k :: 0 <= k < |offers'| && Concerns(offers'[k], f) ==> k < |offers| && offers[k] == offers'[k])
    && (forall k :: 0 <= k < |offers| && Concerns(offers[k], f) ==> k < |offers'| && offers'[k] == offers[k])
  }

  /** Everything a preview of the order shows is as it was; offers concern orders that are not from a PunchOut cart. */
  predicate SameReview(read: Db, db: Db, o: Id)
    requires o in read.files && o in db.files
  {
    && SameRows(read, db, o)
    && (read.files[o].order.session.None? ==> SameOffers(read.catalog.offers, db.catalog.offers, read.files[o]))
  }

  lemma SameContext(read: Db, db: Db, o: Id)
    requires o in read.files && o in db.files
    ensures CurrentContext(read, o) == CurrentContext(db, o) <==> SameReview(read, db, o)
  {
    if CurrentContext(read, o).(offers := map[]) == CurrentContext(db, o).(offers := map[]) {
      RowsTell(read, db, o);
      OffersTell(read, db, o);
    }
    if SameRows(read, db, o) {
      RowsAreShown(read, db, o);
      OffersTell(read, db, o);
    }
  }

  lemma RowsTell(read: Db, db: Db, o: Id)
    requires o in read.files && o in db.files
    requires CurrentContext(read, o).(offers := map[]) == CurrentContext(db, o).(offers := map[])
    ensures SameRows(read, db, o)
  {
    var c, d := CurrentContext(read, o).(offers := map[]), CurrentContext(db, o).(offers := map[]);
    var f := read.files[o];
    assert c.file == d.file && c.supplier == d.supplier && c.requisition == d.requisition && c.products == d.products;
    forall i | 0 <= i < |f.lines| && f.lines[i].product.Some?
      ensures SameRow(read.catalog.products, db.catalog.products, f.lines[i].product.value)
    {
      var p := f.lines[i].product.value;
      assert p in c.products <==> p in read.catalog.products;
      assert p in d.products <==> p in db.catalog.products;
    }
  }

  lemma RowsAreShown(read: Db, db: Db, o: Id)
    requires o in read.files && o in db.files && SameRows(read, db, o)
    ensures CurrentContext(read, o).(offers := map[]) == CurrentContext(db, o).(offers := map[])
  {
    var c, d := CurrentContext(read, o), CurrentContext(db, o);
    var f := read.files[o];
    forall p
      ensures p in c.products <==> p in d.products
      ensures p in c.products ==> c.products[p] == d.products[p]
    {
      if Bought(f.lines, p) {
        var i :| 0 <= i < |f.lines| && f.lines[i].product == Some(p);
        assert SameRow(read.catalog.products, db.catalog.products, f.lines[i].product.value);
      }
    }
    assert c.products == d.products;
  }

  lemma OffersTell(read: Db, db: Db, o: Id)
    requires o in read.files && o in db.files && db.files[o] == read.files[o]
    ensures CurrentContext(read, o).offers == CurrentContext(db, o).offers <==>
              (read.files[o].order.session.None? ==> SameOffers(read.catalog.offers, db.catalog.offers, read.files[o]))
  {
    var c, d := CurrentContext(read, o).offers, CurrentContext(db, o).offers;
    var f := read.files[o];
    forall k: nat
      ensures k in c <==> k < |read.catalog.offers| && f.order.session.None? && Concerns(read.catalog.offers[k], f)
      ensures k in d <==> k < |db.catalog.offers| && f.order.session.None? && Concerns(db.catalog.offers[k], f)
    {
    }
    if f.order.session.None? && SameOffers(read.catalog.offers, db.catalog.offers, f) {
      assert c == d;
    } else if f.order.session.None? && c == d {
      forall k | 0 <= k < |db.catalog.offers| && Concerns(db.catalog.offers[k], f)
        ensures k < |read.catalog.offers| && read.catalog.offers[k] == db.catalog.offers[k]
      {
        assert k in d;
      }
      forall k | 0 <= k < |read.catalog.offers| && Concerns(read.catalog.offers[k], f)
        ensures k < |db.catalog.offers| && db.catalog.offers[k] == read.catalog.offers[k]
      {
        assert k in c;
      }
    }
  }

  // ---------- the claim ----------

  /** The confirmation sentence was copied for this order, this amount and this context. */
  predicate Confirmed(send: SendRequest, o: Id, cents: int) {
    && send.phrase.Some? && send.phrase.value.order == o && send.phrase.value.cents == cents
    && send.expectedContext == Some(send.phrase.value.context)
  }

  lemma AmazonReviewed(w: World, a: Action)
    requires a.RequestAmazon? && a.token.Some? && Origins.Claims(w, a)
    ensures var o := a.send.order;
            && o in Step(w, a).db.files && a.send.expectedContext == Some(CurrentContext(w.db, o))
            && Confirmed(a.send, o, Step(w, a).db.files[o].order.totalCents)
  {
    var o := a.send.order;
    var key := Key(a.user, SendAmazon(o), a.token.value);
    if key in w.db.records {
      ReplayedAmazon(w.db, a.user, a.token.value, a.send, a.payloadId, a.configured, a.now);
      Origins.ReplayClaims(w.db, key, SendBody(a.send), o, a.now);
      assert false;
    } else {
      GuidedAmazon(w.db, a.user, a.token.value, a.send, a.payloadId, a.configured, a.now);
      AmazonTotalKept(w.db, a.user, o, a.payloadId, a.now);
    }
  }

  lemma AmazonTotalKept(db: Db, user: Id, o: Id, payloadId: string, now: Time)
    requires o in db.files && CommitAmazonClaim(db, user, o, payloadId, now).Ok?
    ensures var files := CommitAmazonClaim(db, user, o, payloadId, now).value.files;
            && o in files && files[o].order.totalCents == db.files[o].order.totalCents
            && files[o].lines == db.files[o].lines
  {
  }

  /** The order as the reviewed cart left it: its price per article, its currency, its total. */
  predicate AtReviewedPrices(catalog: Catalog, f: OrderFile, checkout: Checkout) {
    && f.order.currency == checkout.currency && f.order.totalCents == checkout.totalCents
    && forall i :: 0 <= i < |f.lines| ==>
         PricedAs(checkout.prices, SkuOf(catalog, f.order.supplier, f.lines[i]), f.lines[i])
  }

  predicate PricedAs(prices: map<string, int>, article: string, l: Line) {
    article in prices && l.priceCents == prices[article]
  }

  lemma AdamHallPrices(db: Db, user: Id, o: Id, checkout: Checkout, payloadId: string, now: Time)
    requires o in db.files && CommitAdamHallClaim(db, user, o, checkout, payloadId, now).Ok?
    requires var f := db.files[o];
             forall i :: 0 <= i < |f.lines| ==> SkuOf(db.catalog, f.order.supplier, f.lines[i]) in checkout.prices
    ensures var files := CommitAdamHallClaim(db, user, o, checkout, payloadId, now).value.files;
            o in files && AtReviewedPrices(db.catalog, files[o], checkout)
  {
    var g := CommitAdamHallClaim(db, user, o, checkout, payloadId, now).value.files[o];
    forall i | 0 <= i < |g.lines|
      ensures PricedAs(checkout.prices, SkuOf(db.catalog, g.order.supplier, g.lines[i]), g.lines[i])
    {
      assert g.lines[i].product == db.files[o].lines[i].product;
    }
  }

  /** A checkout that was reviewed for these rows, at most a quarter of an hour ago. */
  predicate FreshCheckout(checkout: Checkout, o: Id, context: Context, now: Time) {
    checkout.order == o && checkout.context == context && now - checkout.createdAt <= QUARTER_HOUR
  }

  lemma AdamHallReviewed(w: World, a: Action)
    requires a.RequestAdamHall? && Origins.Claims(w, a)
    ensures var o := a.send.order;
            && o in Step(w, a).db.files && a.send.expectedContext == Some(CurrentContext(w.db, o))
            && Confirmed(a.send, o, Step(w, a).db.files[o].order.totalCents)
            && a.send.checkout.Some? && FreshCheckout(a.send.checkout.value, o, CurrentContext(w.db, o), a.now)
            && AtReviewedPrices(w.db.catalog, Step(w, a).db.files[o], a.send.checkout.value)
  {
    var o := a.send.order;
    var key := Key(a.user, SendAdamHall(o), a.key);
    if key in w.db.records {
      ReplayedAdamHall(w.db, a.user, a.key, a.send, a.payloadId, a.configured, a.now);
      Origins.ReplayClaims(w.db, key, SendBody(a.send), o, a.now);
      assert false;
    } else {
      FirstAdamHall(w.db, a.user, a.key, a.send, a.payloadId, a.configured, a.now);
      AdamHallPrices(w.db, a.user, o, a.send.checkout.value, a.payloadId, a.now);
    }
  }

  /**
   A claim with an idempotency key needs the copied sentence for the amount the claimed order then has, and the context
   of a preview: everything that preview showed, whenever it was taken, is as it was at the moment of the claim.
   */
  lemma ClaimedAsReviewed(w: World, a: Action, read: Db)
    requires Origins.Claims(w, a) && Origins.HasKey(a)
    ensures a.send.order in Step(w, a).db.files
    ensures Confirmed(a.send, a.send.order, Step(w, a).db.files[a.send.order].order.totalCents)
    ensures a.send.order in read.files && a.send.expectedContext == Some(CurrentContext(read, a.send.order)) ==>
              SameReview(read, w.db, a.send.order)
  {
    if a.RequestAmazon? {
      AmazonReviewed(w, a);
    } else {
      AdamHallReviewed(w, a);
    }
    if a.send.order in read.files {
      SameContext(read, w.db, a.send.order);
    }
  }

  // ---------- every run ----------

  lemma PricesFrozen(catalog: Catalog, f: OrderFile, g: OrderFile, checkout: Checkout)
    requires AtReviewedPrices(catalog, f, checkout) && f.claim.Some? && FileStep(f, g)
    ensures AtReviewedPrices(catalog, g, checkout)
  {
    assert |g.lines| == |CommercialLines(g.lines)| == |CommercialLines(f.lines)| == |f.lines|;
    forall i | 0 <= i < |g.lines|
      ensures PricedAs(checkout.prices, SkuOf(catalog, g.order.supplier, g.lines[i]), g.lines[i])
    {
      assert CommercialLines(g.lines)[i] == CommercialLines(f.lines)[i];
      assert PricedAs(checkout.prices, SkuOf(catalog, f.order.supplier, f.lines[i]), f.lines[i]);
    }
  }

  /**
   In every state of every run an Adam Hall order stands at the prices, the currency and the total of the checkout its
   claiming request named, article by article of the catalog that request read; and that checkout was fresh.
   */
  lemma {:induction false} AdamHallKeepsReviewedPrices(actions: seq<Action>, o: Id)
    requires var files := Run(Init(), actions).db.files;
             o in files && files[o].claim.Some? && files[o].claim.value.provider == AdamHall
    ensures exists k: nat ::
              && Origins.Origin(actions, k, o) && actions[k].RequestAdamHall? && actions[k].send.checkout.Some?
              && var db := Run(Init(), actions[..k]).db;
                 && AtReviewedPrices(db.catalog, Run(Init(), actions).db.files[o], actions[k].send.checkout.value)
                 && o in db.files
                 && FreshCheckout(actions[k].send.checkout.value, o, CurrentContext(db, o), actions[k].now)
  {
    Origins.ClaimHasOrigin(actions, o);
    var k: nat :| Origins.Origin(actions, k, o);
    var w := Run(Init(), actions[..k]);
    var next := Step(w, actions[k]);
    Origins.FromOrigin(actions, k, o);
    Origins.ClaimCommitted(w, actions[k]);
    assert FileStep(next.db.files[o], Run(Init(), actions).db.files[o]);
    AdamHallReviewed(w, actions[k]);
    PricesFrozen(w.db.catalog, next.db.files[o], Run(Init(), actions).db.files[o], actions[k].send.checkout.value);
  }

  // ---------- Amazon amounts ----------

  /** Whole pieces lose nothing to truncation: the payload costs what the order lines cost. */
  lemma {:induction false} PayloadCosts(lines: seq<Line>)
    requires forall i :: 0 <= i < |lines| ==> Whole(lines[i].quantity)
    ensures PayloadTotal(ToPayloadLines(lines)) == Workflow.Total(lines)
  {
    if lines != [] {
      var n := |lines| - 1;
      PayloadCosts(lines[..n]);
      assert ToPayloadLines(lines)[..n] == ToPayloadLines(lines[..n]);
      WholeCents(lines[n]);
    }
  }

  lemma WholeCents(l: Line)
    requires Whole(l.quantity)
    ensures Workflow.LineCents(l) == l.quantity.Floor * l.priceCents
  {
    assert l.quantity * (l.priceCents as real) == (l.quantity.Floor * l.priceCents) as real;
  }

  /** A line amount is the exact product without its fraction of a cent. */
  lemma LineCentsTruncate(l: Line)
    ensures Workflow.LineCents(l) as real <= l.quantity * (l.priceCents as real) < Workflow.LineCents(l) as real + 1.0
  {
  }

  /** A total is the sum of its lines' amounts, however the lines are divided. */
  lemma {:induction false} TotalSplits(a: seq<Line>, b: seq<Line>)
    ensures Workflow.Total(a + b) == Workflow.Total(a) + Workflow.Total(b)
    ensures |b| == 1 ==> Workflow.Total(b) == Workflow.LineCents(b[0])
  {
    if b == [] {
      assert a + b == a;
    } else {
      var n := |b| - 1;
      TotalSplits(a, b[..n]);
      assert (a + b)[..|a + b| - 1] == a + b[..n];
    }
  }

  /** At most fifty lines of one to 999 whole pieces, and the order's total is theirs. */
  predicate AmazonSized(f: OrderFile) {
    && 1 <= |f.lines| <= 50 && Workflow.Total(f.lines) == f.order.totalCents && Text.Upper(f.order.currency) == "EUR"
    && forall i :: 0 <= i < |f.lines| ==> Sized(f.lines[i])
  }

  predicate Sized(l: Line) {
    l.quantity == l.quantity.Floor as real && 1 <= l.quantity.Floor <= 999
  }

  lemma ReadySized(db: Db, send: SendRequest, exact: bool, configured: bool)
    requires AmazonReady(db, send, exact, configured)
    ensures AmazonSized(db.files[send.order])
  {
    var f := db.files[send.order];
    forall i | 0 <= i < |f.lines|
      ensures Whole(f.lines[i].quantity) && Sized(f.lines[i])
    {
      assert AmazonLine(f.lines[i]);
    }
    PayloadCosts(f.lines);
  }

  lemma CommitSized(db: Db, user: Id, o: Id, payloadId: string, now: Time)
    requires o in db.files && CommitAmazonClaim(db, user, o, payloadId, now).Ok? && AmazonSized(db.files[o])
    ensures var files := CommitAmazonClaim(db, user, o, payloadId, now).value.files; o in files && AmazonSized(files[o])
  {
    var g := CommitAmazonClaim(db, user, o, payloadId, now).value.files[o];
    assert g.lines == db.files[o].lines && g.order.totalCents == db.files[o].order.totalCents;
    assert g.order.currency == db.files[o].order.currency;
  }

  lemma AmazonClaimSized(w: World, a: Action)
    requires a.RequestAmazon? && Origins.Claims(w, a)
    ensures a.send.order in Step(w, a).db.files && AmazonSized(Step(w, a).db.files[a.send.order])
  {
    if a.token.None? {
      NativeAmazon(w.db, a.user, a.send, a.payloadId, a.configured, a.now);
      ReadySized(w.db, a.send.(expectedVersion := None, expectedContext := None), false, a.configured);
    } else if Key(a.user, SendAmazon(a.send.order), a.token.value) in w.db.records {
      ReplayedAmazon(w.db, a.user, a.token.value, a.send, a.payloadId, a.configured, a.now);
      Origins.ReplayClaims(w.db, Key(a.user, SendAmazon(a.send.order), a.token.value), SendBody(a.send), a.send.order,
                           a.now);
      assert false;
    } else {
      GuidedAmazon(w.db, a.user, a.token.value, a.send, a.payloadId, a.configured, a.now);
      ReadySized(w.db, a.send, true, a.configured);
    }
    CommitSized(w.db, a.user, a.send.order, a.payloadId, a.now);
  }

  lemma {:induction false} SameTotal(a: seq<Line>, b: seq<Line>)
    requires CommercialLines(a) == CommercialLines(b)
    ensures Workflow.Total(a) == Workflow.Total(b)
  {
    assert |a| == |CommercialLines(a)| == |CommercialLines(b)| == |b|;
    forall i | 0 <= i < |a|
      ensures a[i].quantity == b[i].quantity && a[i].priceCents == b[i].priceCents
    {
      assert CommercialLines(a)[i] == CommercialLines(b)[i];
    }
    Safety.TotalIgnoresIds(a, b);
  }

  lemma SizeFrozen(f: OrderFile, g: OrderFile)
    requires AmazonSized(f) && f.claim.Some? && FileStep(f, g)
    ensures AmazonSized(g)
  {
    SameTotal(g.lines, f.lines);
    assert |g.lines| == |CommercialLines(g.lines)| == |CommercialLines(f.lines)| == |f.lines|;
    forall i | 0 <= i < |g.lines|
      ensures Sized(g.lines[i])
    {
      assert CommercialLines(g.lines)[i] == CommercialLines(f.lines)[i];
      assert Sized(f.lines[i]);
    }
  }

  /** In every state of every run: what Amazon was or will be sent fits its limits and costs what the order says. */
  lemma {:induction false} AmazonAmountIsTheOrders(actions: seq<Action>, o: Id)
    requires var files := Run(Init(), actions).db.files;
             o in files && files[o].claim.Some? && files[o].claim.value.provider == Amazon
    ensures AmazonSized(Run(Init(), actions).db.files[o])
  {
    Origins.ClaimHasOrigin(actions, o);
    var k: nat :| Origins.Origin(actions, k, o);
    var w := Run(Init(), actions[..k]);
    Origins.FromOrigin(actions, k, o);
    Origins.ClaimCommitted(w, actions[k]);
    assert FileStep(Step(w, actions[k]).db.files[o], Run(Init(), actions).db.files[o]);
    AmazonClaimSized(w, actions[k]);
    SizeFrozen(Step(w, actions[k]).db.files[o], Run(Init(), actions).db.files[o]);
  }

  // ---------- who claimed, and when ----------

  /** The claim as its request committed it. */
  predicate ClaimedBy(c: Claim, a: Action)
    requires a.RequestAmazon? || a.RequestAdamHall?
  {
    && c.provider == (if a.RequestAmazon? then Amazon else AdamHall)
    && c.user == a.user && c.payloadId == a.payloadId && c.createdAt == a.now
  }

  /** The order has the pending claim of the request. */
  predicate NotedIn(files: map<Id, OrderFile>, a: Action)
    requires a.RequestAmazon? || a.RequestAdamHall?
  {
    && a.send.order in files && files[a.send.order].claim.Some?
    && ClaimedBy(files[a.send.order].claim.value, a) && files[a.send.order].claim.value.status == Pending
  }

  lemma AdamHallNoted(w: World, a: Action)
    requires Origins.Claims(w, a) && a.RequestAdamHall?
    ensures NotedIn(Step(w, a).db.files, a)
  {
    AdamHallReviewed(w, a);
    FirstAdamHall(w.db, a.user, a.key, a.send, a.payloadId, a.configured, a.now);
  }

  lemma AmazonNoted(w: World, a: Action)
    requires Origins.Claims(w, a) && a.RequestAmazon?
    ensures NotedIn(Step(w, a).db.files, a)
  {
    if a.token.None? {
      NativeAmazon(w.db, a.user, a.send, a.payloadId, a.configured, a.now);
    } else {
      AmazonReviewed(w, a);
      GuidedAmazon(w.db, a.user, a.token.value, a.send, a.payloadId, a.configured, a.now);
    }
  }

  lemma ClaimNoted(w: World, a: Action)
    requires Origins.Claims(w, a)
    ensures NotedIn(Step(w, a).db.files, a)
  {
    if a.RequestAdamHall? {
      AdamHallNoted(w, a);
    } else {
      AmazonNoted(w, a);
    }
  }

  /** In every state of every run a claim names the user, the payload id and the moment of the request it came from. */
  lemma {:induction false} ClaimNamesItsRequest(actions: seq<Action>, o: Id)
    requires var files := Run(Init(), actions).db.files; o in files && files[o].claim.Some?
    ensures exists k: nat ::
              Origins.Origin(actions, k, o) && ClaimedBy(Run(Init(), actions).db.files[o].claim.value, actions[k])
  {
    Origins.ClaimHasOrigin(actions, o);
    var k: nat :| Origins.Origin(actions, k, o);
    var w := Run(Init(), actions[..k]);
    Origins.FromOrigin(actions, k, o);
    ClaimNoted(w, actions[k]);
    assert FileStep(Step(w, actions[k]).db.files[o], Run(Init(), actions).db.files[o]);
    assert ClaimedBy(Run(Init(), actions).db.files[o].claim.value, actions[k]);
  }

  // ---------- reconciliation ----------

  /** Another order of the supplier has this number, ignoring case and blanks around it. */
  predicate NumberElsewhere(files: map<Id, OrderFile>, o: Id, number: string)
    requires o in files
  {
    exists p :: p in files && p != o && files[p].order.supplier == files[o].order.supplier
                && Text.Lower(Text.Trim(files[p].order.supplierNumber)) == Text.Lower(Text.Trim(number))
  }

  /** What a human reconciliation rests on. */
  predicate CarefullyReconciled(db: Db, req: ReconcileRequest, now: Time)
    requires req.order in db.files && db.files[req.order].claim.Some?
  {
    && now - db.files[req.order].claim.value.createdAt >= QUARTER_HOUR
    && req.humanVerified && |req.evidence| >= 10
    && req.phrase.Some? && req.phrase.value.order == req.order && req.phrase.value.resolution == req.resolution
    && req.phrase.value.provider == db.files[req.order].claim.value.provider
    && req.expectedContext == Some(req.phrase.value.proposal)
    && req.expectedVersion == Some(db.files[req.order].order.version)
    && !HasReceipt(db.receipts, req.order) && db.files[req.order].confirmations == map[]
    && (req.resolution == FoundOrder ==>
          req.supplierNumber != "" && !NumberElsewhere(db.files, req.order, req.supplierNumber))
    && (req.resolution == ConfirmedNotSent ==> req.supplierNumber == "")
  }

  /**
   A first reconciliation commits only a quarter of an hour after the claim, verified with evidence, with the copied
   sentence, for the rows and the proposal a preview showed, before any receipt or confirmation, and with a number no
   other order has.
   */
  lemma ReconciledAsReviewed(db: Db, user: Id, token: string, req: ReconcileRequest, now: Time, read: Db,
      shown: ReconcileRequest)
    requires Reconcile(db, user, token, req, now).Ok? && Key(user, ReconcileSubmission(req.order), token) !in db.records
    ensures req.order in db.files && db.files[req.order].claim.Some? && CarefullyReconciled(db, req, now)
    ensures shown.order == req.order && req.order in read.files
            && req.expectedContext == Some(Proposed(read, shown)) ==>
              
              && SameRows(read, db, req.order)
              && shown.resolution == req.resolution && shown.supplierNumber == req.supplierNumber
              && shown.evidence == req.evidence && shown.humanVerified
  {
    ReconciledShape(db, user, token, req, now);
    NumberFree(db, req);
    if && shown.order == req.order && req.order in read.files && req.expectedContext == Some(Proposed(read, shown)) {
      assert Proposed(read, shown) == Proposed(db, req);
      RowsTell(read, db, req.order);
    }
  }

  lemma NumberFree(db: Db, req: ReconcileRequest)
    requires req.order in db.files
    ensures req.supplierNumber != "" && !DuplicateNumber(db, req.order, req.supplierNumber) ==>
              !NumberElsewhere(db.files, req.order, req.supplierNumber)
  {
    forall p | p in db.files
      ensures CarriesNumber(db.files, req.order, req.supplierNumber, p) <==>
                && p != req.order && db.files[p].order.supplier == db.files[req.order].order.supplier
                && Text.Lower(Text.Trim(db.files[p].order.supplierNumber)) == Text.Lower(Text.Trim(req.supplierNumber))
    {
    }
  }
}
