/** The Adam Hall checkout handler: aggregation by article number, reviewed prices, claim. */
module AdamHallHandler {
  import opened Base
  import opened Schema
  import opened Storage
  import opened Submission
  import opened AmazonHandler
  import Cart
  import Offers
  import Text

  // ---------- the line loop ----------

  /** What the line loop accumulates: missing fields, quantities by article number, article number by line. */
  datatype Collected = Collected(required: seq<string>, combined: map<string, int>, numbers: seq<string>)

  predicate Orderable(catalog: Catalog, supplier: Id, lines: seq<Line>, now: Time) {
    forall i :: 0 <= i < |lines| ==> AdamHallLine(catalog, supplier, lines[i], now)
  }

  /** One more line adds its item to the accumulator. */
  lemma ItemsStep(catalog: Catalog, supplier: Id, lines: seq<Line>, i: nat)
    requires i < |lines|
    ensures Cart.Quantities(CartItems(catalog, supplier, lines[..i + 1]))
         == Cart.Add(Cart.Quantities(CartItems(catalog, supplier, lines[..i])),
                     Cart.Item(SkuOf(catalog, supplier, lines[i]), lines[i].quantity.Floor))
  {
    assert CartItems(catalog, supplier, lines[..i + 1])[..i] == CartItems(catalog, supplier, lines[..i]);
  }

  /** The supplier's article number of a line: the cheapest active offer's own number, or else the product's. */
  method ArticleNumber(catalog: Catalog, supplier: Id, line: Line) returns (sku: string)
    ensures sku == SkuOf(catalog, supplier, line)
  {
    if line.product.None? || line.product.value !in catalog.products {
      return "";
    }
    sku := Text.Trim(catalog.products[line.product.value].sku);
    var offer := Offers.FindCheapest(catalog.offers, line.product.value, supplier);
    if offer.Some? && Text.Trim(catalog.offers[offer.value].supplierSku) != "" {
      sku := Text.Trim(catalog.offers[offer.value].supplierSku);
    }
    sku := Text.Upper(sku);
  }

  /** The check on the line's cheapest active offer. */
  method CheckOffer(catalog: Catalog, supplier: Id, product: Id, quantity: real, now: Time) returns (ok: bool)
    ensures ok <==> OfferFits(catalog, supplier, product, quantity, now)
  {
    var offer := Offers.FindCheapest(catalog.offers, product, supplier);
    if offer.None? {
      return true;
    }
    var found := catalog.offers[offer.value];
    ok := Offers.Euro(found.currency) && !Offers.Expired(found, now) && found.minimum <= quantity
          && Offers.PackFits(quantity, found.pack, 0.00000001);
  }

  /** The checks on one line; a line without a usable product, quantity or article number is skipped. */
  method CheckLine(catalog: Catalog, supplier: Id, line: Line, sku: string,
      now: Time) returns (required: seq<string>, skipped: bool)
    requires sku == SkuOf(catalog, supplier, line)
    ensures required == [] <==> AdamHallLine(catalog, supplier, line, now)
    ensures skipped ==> required != []
    ensures !skipped ==> sku != ""
  {
    if || line.product.None?
       || !Whole(line.quantity) || line.quantity < 1.0 || line.quantity > 999.0 || line.received != 0.0
    {
      return ["exact_active_product_integer_quantity"], true;
    }
    required := [];
    if !(line.product.value in catalog.products && catalog.products[line.product.value].active) {
      required := ["active_products"];
    }
    var fits := CheckOffer(catalog, supplier, line.product.value, line.quantity, now);
    if !fits {
      required := required + ["compatible_active_supplier_offer"];
    }
    skipped := sku == "" || |sku| > 120;
    if skipped {
      required := required + ["bounded_supplier_product_number"];
    }
  }

  /** The line loop before line i. */
  ghost predicate Collecting(catalog: Catalog, supplier: Id, lines: seq<Line>, now: Time, i: nat,
      required: seq<string>, combined: map<string, int>)
    requires i <= |lines|
  {
    && (required == [] <==> forall k :: 0 <= k < i ==> AdamHallLine(catalog, supplier, lines[k], now))
    && (required == [] ==> combined == Cart.Quantities(CartItems(catalog, supplier, lines[..i])))
  }

  lemma CollectingStep(catalog: Catalog, supplier: Id, lines: seq<Line>, now: Time, i: nat, required: seq<string>,
      combined: map<string, int>, problems: seq<string>, combined': map<string, int>)
    requires i < |lines| && Collecting(catalog, supplier, lines, now, i, required, combined)
    requires problems == [] <==> AdamHallLine(catalog, supplier, lines[i], now)
    requires problems == [] ==>
              combined' == Cart.Add(combined, Cart.Item(SkuOf(catalog, supplier, lines[i]), lines[i].quantity.Floor))
    ensures Collecting(catalog, supplier, lines, now, i + 1, required + problems, combined')
  {
    if required + problems == [] {
      assert required == [] && problems == [];
      ItemsStep(catalog, supplier, lines, i);
    }
  }

  /** combined[sku] += quantity, line by line. */
  method CollectItems(catalog: Catalog, supplier: Id, lines: seq<Line>, now: Time) returns (c: Collected)
    ensures c.required == [] <==> Orderable(catalog, supplier, lines, now)
    ensures c.required == [] ==> c.combined == Cart.Quantities(CartItems(catalog, supplier, lines))
    ensures |c.numbers| == |lines|
    ensures forall i :: 0 <= i < |lines| ==> c.numbers[i] == SkuOf(catalog, supplier, lines[i])
  {
    var required: seq<string> := [];
    var combined: map<string, int> := map[];
    var numbers: seq<string> := [];
    for i := 0 to |lines|
      invariant Collecting(catalog, supplier, lines, now, i, required, combined)
      invariant |numbers| == i && forall k :: 0 <= k < i ==> numbers[k] == SkuOf(catalog, supplier, lines[k])
    {
      var sku := ArticleNumber(catalog, supplier, lines[i]);
      var problems, skipped := CheckLine(catalog, supplier, lines[i], sku, now);
      var next := combined;
      if !skipped {
        next := Cart.Add(combined, Cart.Item(sku, lines[i].quantity.Floor));
      }
      CollectingStep(catalog, supplier, lines, now, i, required, combined, problems, next);
      required, combined, numbers := required + problems, next, numbers + [sku];
    }
    assert lines[..|lines|] == lines;
    c := Collected(required, combined, numbers);
  }

  predicate Bounded(combined: map<string, int>) {
    forall sku :: sku in combined ==> combined[sku] <= 999
  }

  /** No article may be ordered more than 999 times, in whatever order the accumulator is read. */
  method BoundedQuantities(combined: map<string, int>) returns (ok: bool)
    ensures ok <==> Bounded(combined)
  {
    ok := true;
    var rest := combined.Keys;
    while rest != {}
      invariant rest <= combined.Keys
      invariant ok <==> forall sku :: sku in combined && sku !in rest ==> combined[sku] <= 999
      decreases |rest|
    {
      var sku :| sku in rest;
      rest := rest - {sku};
      if combined[sku] > 999 {
        ok := false;
      }
    }
  }

  /** The articles of the lines are the articles of the accumulator. */
  lemma ArticleOfLine(catalog: Catalog, supplier: Id, lines: seq<Line>, now: Time, i: nat)
    requires Orderable(catalog, supplier, lines, now) && i < |lines|
    ensures var items := CartItems(catalog, supplier, lines);
            var sku := SkuOf(catalog, supplier, lines[i]);
            sku in Cart.Quantities(items) && Cart.Quantities(items)[sku] == Cart.Sum(items, sku)
  {
    var items := CartItems(catalog, supplier, lines);
    assert AdamHallLine(catalog, supplier, lines[i], now);
    assert items[i].article == SkuOf(catalog, supplier, lines[i]);
    Cart.QuantitiesAreSums(items, SkuOf(catalog, supplier, lines[i]));
  }

  lemma LineOfArticle(catalog: Catalog, supplier: Id, lines: seq<Line>, sku: string) returns (i: nat)
    requires sku in Cart.Quantities(CartItems(catalog, supplier, lines))
    ensures i < |lines| && SkuOf(catalog, supplier, lines[i]) == sku
  {
    var items := CartItems(catalog, supplier, lines);
    Cart.QuantitiesAreSums(items, sku);
    i :| 0 <= i < |items| && items[i].article == sku;
  }

  predicate LinesBounded(catalog: Catalog, supplier: Id, lines: seq<Line>) {
    forall i ::
      0 <= i < |lines| ==> Cart.Sum(CartItems(catalog, supplier, lines), SkuOf(catalog, supplier, lines[i])) <= 999
  }

  /** The accumulator is bounded exactly when every line's article sum is. */
  lemma BoundedMeansLines(catalog: Catalog, supplier: Id, lines: seq<Line>, now: Time)
    requires Orderable(catalog, supplier, lines, now)
    ensures Bounded(Cart.Quantities(CartItems(catalog, supplier, lines))) <==> LinesBounded(catalog, supplier, lines)
  {
    var items := CartItems(catalog, supplier, lines);
    var combined := Cart.Quantities(items);
    forall i | 0 <= i < |lines| && Bounded(combined)
      ensures Cart.Sum(items, SkuOf(catalog, supplier, lines[i])) <= 999
    {
      ArticleOfLine(catalog, supplier, lines, now, i);
    }
    forall sku | sku in combined && LinesBounded(catalog, supplier, lines)
      ensures combined[sku] <= 999
    {
      var i := LineOfArticle(catalog, supplier, lines, sku);
      ArticleOfLine(catalog, supplier, lines, now, i);
      assert Cart.Sum(items, SkuOf(catalog, supplier, lines[i])) <= 999;
      assert combined[SkuOf(catalog, supplier, lines[i])] <= 999;
    }
  }

  /** The price loop: every line takes the reviewed price of its article; a missing one is reported. */
  method ReviewedLines(catalog: Catalog, supplier: Id, lines: seq<Line>, numbers: seq<string>,
      prices: map<string, int>) returns (priced: seq<Line>, complete: bool)
    requires |numbers| == |lines| && forall i :: 0 <= i < |lines| ==> numbers[i] == SkuOf(catalog, supplier, lines[i])
    ensures priced == PricedLines(catalog, supplier, lines, prices)
    ensures complete <==> forall i :: 0 <= i < |lines| ==> SkuOf(catalog, supplier, lines[i]) in prices
  {
    priced, complete := lines, true;
    for i := 0 to |lines|
      invariant |priced| == |lines|
      invariant forall k :: 0 <= k < i ==>
                priced[k] == lines[k].(priceCents := if numbers[k] in prices then prices[numbers[k]] else 0)
      invariant forall k :: i <= k < |lines| ==> priced[k] == lines[k]
      invariant complete <==> forall k :: 0 <= k < i ==> numbers[k] in prices
    {
      var price := if numbers[i] in prices then prices[numbers[i]] else 0;
      if numbers[i] !in prices {
        complete := false;
      }
      priced := priced[i := priced[i].(priceCents := price)];
    }
  }

  // ---------- readiness ----------

  datatype Reviewed = Reviewed(required: seq<string>, priced: seq<Line>)

  predicate SupplierReady(db: Db, f: OrderFile) {
    && ActiveSupplier(db.catalog, f.order.supplier) && db.catalog.suppliers[f.order.supplier].adamHall
    && (f.order.requisition.Some? ==>
          f.order.requisition.value in db.requisitions
          && DistinctlyApproved(db.requisitions[f.order.requisition.value]))
  }

  /** The checks on order row and history. */
  method HeaderRequirements(store: Store, send: SendRequest) returns (required: seq<string>)
    requires send.order in store.files
    ensures required == [] <==>
      (Untouched(store.Contents(), send.order) && store.files[send.order].order.session.None?
       && VersionAccepted(store.files[send.order].order.version, send.expectedVersion, true))
  {
    var f := store.files[send.order];
    required := [];
    if || f.order.archived
       || f.order.status != Draft || f.order.supplierNumber != "" || f.order.payloadId != "" || f.order.session.Some?
    {
      required := required + ["active_unsubmitted_adam_hall_draft"];
    }
    if send.expectedVersion.None? || send.expectedVersion.value != f.order.version {
      required := required + ["expected_updated_at"];
    }
    if HasReceipt(store.receipts, send.order) || f.confirmations != map[] || f.claim.Some? {
      required := required + ["no_previous_receipt_confirmation_or_supplier_claim"];
    }
  }

  /** The checks on supplier and source requisition. */
  method SupplierRequirements(store: Store, f: OrderFile) returns (required: seq<string>)
    ensures required == [] <==> SupplierReady(store.Contents(), f)
  {
    required := [];
    if f.order.supplier !in store.catalog.suppliers || !store.catalog.suppliers[f.order.supplier].active {
      required := required + ["active_supplier"];
    } else if !store.catalog.suppliers[f.order.supplier].adamHall {
      required := required + ["adam_hall_supplier"];
    }
    if f.order.requisition.Some? {
      if f.order.requisition.value !in store.requisitions {
        required := required + ["distinctly_approved_source_requisition"];
      } else {
        var source := store.requisitions[f.order.requisition.value];
        if || source.archived
           || source.status != ReqOrdered || source.approvedBy.None? || source.approvedBy.value == source.requester
           || !source.decided
        {
          required := required + ["distinctly_approved_source_requisition"];
        }
      }
    }
  }

  predicate CheckoutReady(db: Db, send: SendRequest, now: Time)
    requires send.order in db.files
  {
    && send.checkout.Some?
    && send.checkout.value.order == send.order && send.checkout.value.context == CurrentContext(db, send.order)
    && now <= send.checkout.value.createdAt + SETTLE_TIME
    && forall i :: 0 <= i < |db.files[send.order].lines| ==>
         SkuOf(db.catalog, db.files[send.order].order.supplier,
               db.files[send.order].lines[i]) in send.checkout.value.prices
  }

  /** The checks on the reviewed checkout, and the lines at its prices. */
  method CheckoutRequirements(store: Store, send: SendRequest, numbers: seq<string>,
      now: Time) returns (required: seq<string>, priced: seq<Line>)
    requires send.order in store.files && |numbers| == |store.files[send.order].lines|
    requires forall i :: 0 <= i < |numbers| ==>
              numbers[i] == SkuOf(store.catalog, store.files[send.order].order.supplier,
                                  store.files[send.order].lines[i])
    ensures required == [] <==> CheckoutReady(store.Contents(), send, now)
    ensures required == [] ==>
              priced == PricedLines(store.catalog, store.files[send.order].order.supplier,
                                    store.files[send.order].lines, send.checkout.value.prices)
  {
    var lines := store.files[send.order].lines;
    if send.checkout.None? || send.checkout.value.order != send.order {
      return ["ready_reviewed_checkout"], lines;
    }
    required := [];
    var checkout := send.checkout.value;
    if checkout.context != CurrentContext(store.Contents(), send.order) {
      required := required + ["unchanged_order_catalog_and_supplier_account"];
    }
    if now > checkout.createdAt + SETTLE_TIME {
      required := required + ["fresh_supplier_checkout"];
    }
    var complete;
    priced, complete := ReviewedLines(store.catalog, store.files[send.order].order.supplier, lines, numbers,
                                      checkout.prices);
    if !complete {
      required := required + ["complete_reviewed_supplier_prices"];
    }
  }

  predicate LinesReady(catalog: Catalog, supplier: Id, lines: seq<Line>, now: Time) {
    1 <= |lines| <= 100 && Orderable(catalog, supplier, lines, now) && LinesBounded(catalog, supplier, lines)
  }

  /** The checks on the lines and their combined quantities. */
  method LineRequirements(catalog: Catalog, supplier: Id, lines: seq<Line>,
      now: Time) returns (required: seq<string>, numbers: seq<string>)
    ensures required == [] <==> LinesReady(catalog, supplier, lines, now)
    ensures |numbers| == |lines| && forall i :: 0 <= i < |lines| ==> numbers[i] == SkuOf(catalog, supplier, lines[i])
  {
    var items := CollectItems(catalog, supplier, lines, now);
    required, numbers := items.required, items.numbers;
    if |lines| < 1 || |lines| > 100 {
      required := required + ["bounded_order_lines"];
    }
    var bounded := BoundedQuantities(items.combined);
    if !bounded {
      required := required + ["bounded_combined_supplier_quantity"];
    }
    if items.required == [] {
      BoundedMeansLines(catalog, supplier, lines, now);
    }
  }

  /** prepareAdamHallOwner("send") of an existing order. */
  method Prepare(store: Store, send: SendRequest, configured: bool, now: Time) returns (p: Reviewed)
    requires send.order in store.files
    ensures p.required == [] <==> AdamHallReady(store.Contents(), send, configured, now)
    ensures p.required == [] ==>
              && send.checkout.Some?
              && p.priced == PricedLines(store.catalog, store.files[send.order].order.supplier,
                                         store.files[send.order].lines, send.checkout.value.prices)
  {
    var f := store.files[send.order];
    var ofOrder := HeaderRequirements(store, send);
    var ofSupplier := SupplierRequirements(store, f);
    var ofLines, numbers := LineRequirements(store.catalog, f.order.supplier, f.lines, now);
    var ofCheckout, priced := CheckoutRequirements(store, send, numbers, now);
    var required := ofOrder + ofSupplier + ofLines + ofCheckout;
    if !configured {
      required := required + ["configured_adam_hall_account"];
    }
    if send.expectedContext.Some? && send.expectedContext.value != CurrentContext(store.Contents(), send.order) {
      required := required + ["expected_context"];
    }
    p := Reviewed(required, priced);
  }

  // ---------- transactions ----------

  /** Prices, order row and claim of the first transaction; the caller rolls back a refusal. */
  method WriteClaim(store: Store, user: Id, o: Id, checkout: Checkout, priced: seq<Line>, payloadId: string,
      now: Time) returns (refusal: Option<Refusal>)
    requires o in store.files
    requires priced == PricedLines(store.catalog, store.files[o].order.supplier, store.files[o].lines, checkout.prices)
    modifies store
    ensures match CommitAdamHallClaim(old(store.Contents()), user, o, checkout, payloadId, now)
            case Ok(db) => refusal.None? && store.Contents() == db
            case Err(e) => refusal == Some(e)
  {
    var f := store.files[o];
    var payload := AdamHallPayload(f.order.number,
                                   Cart.Quantities(CartItems(store.catalog, f.order.supplier, f.lines)));
    refusal := store.SaveLines(o, priced, now);
    if refusal.Some? {
      return;
    }
    refusal := store.SaveOrder(o, store.files[o].order.(status := Submitting, currency := checkout.currency,
                                                        totalCents := checkout.totalCents), now);
    if refusal.Some? {
      return;
    }
    refusal := store.CreateClaim(o, Claim(AdamHall, user, payloadId, payload, Pending, NoOutcome, now));
  }

  /** runAdamHallCheckout("send") up to the commit of its first transaction. */
  method Submit(store: Store, user: Id, token: string, send: SendRequest, payloadId: string, configured: bool,
      now: Time) returns (r: Result<Reply>)
    modifies store
    ensures r == SubmitAdamHall(old(store.Contents()), user, token, send, payloadId, configured, now)
    ensures store.Contents() == if r.Ok? then r.value.db else old(store.Contents())
  {
    if send.expectedContext.None? {
      return Err(ContextRequired);
    }
    var key := Key(user, SendAdamHall(send.order), token);
    if key in store.records {
      r := ReplayMutation(store, key, SendBody(send), send.order, now);
      return;
    }
    var before := store.Contents();
    if send.order !in store.files {
      return Err(NotFound);
    }
    var p := Prepare(store, send, configured, now);
    if p.required != [] {
      return Err(NotReady);
    }
    if send.phrase != Some(Phrase(send.order, send.checkout.value.totalCents, CurrentContext(before, send.order))) {
      return Err(PhraseRequired);
    }
    var refusal := WriteClaim(store, user, send.order, send.checkout.value, p.priced, payloadId, now);
    if refusal.Some? {
      store.Rollback(before);
      return Err(refusal.value);
    }
    var response := PendingResponse(send.order, store.files[send.order].order);
    CompleteMutation(store, key, SendBody(send), response, 202);
    return Ok(Reply(store.Contents(), response, true));
  }
}
