/** What the offers of a committed conversion or Adam Hall submission said, on their own fields. */
module OfferTerms {
  import opened Base
  import opened Schema
  import opened Submission
  import Conversion
  import Offers
  import Protocol
  import Text
  import Workflow

  /** An active offer of this supplier for this product. */
  predicate Offered(offers: seq<Offer>, id: nat, product: Id, supplier: Id) {
    id < |offers| && offers[id].active && offers[id].product == product && offers[id].supplier == supplier
  }

  /** No other such offer costs less, and none of the same price was entered before. */
  predicate Applies(offers: seq<Offer>, id: nat, product: Id, supplier: Id) {
    && Offered(offers, id, product, supplier)
    && forall other :: 0 <= other < |offers| && Offered(offers, other, product, supplier) ==>
         || offers[id].priceCents < offers[other].priceCents
         || (offers[id].priceCents == offers[other].priceCents && id <= other)
  }

  /** The quantity is a whole number of packs, up to a tolerance in packs; a pack size of zero asks for nothing. */
  ghost predicate WholePacks(quantity: real, pack: real, tolerance: real) {
    pack > 0.0 ==> exists n: int :: Packs(quantity, pack, n, tolerance)
  }

  predicate Packs(quantity: real, pack: real, n: int, tolerance: real)
    requires pack > 0.0
  {
    -tolerance <= quantity / pack - n as real <= tolerance
  }

  /** The offer has not ended, its minimum is reached, and the packs come out. */
  ghost predicate TermsMet(offer: Offer, quantity: real, now: Time, tolerance: real) {
    && (offer.validUntil.Some? ==> now <= offer.validUntil.value)
    && offer.minimum <= quantity
    && WholePacks(quantity, offer.pack, tolerance)
  }

  // ---------- the tests of the handlers ----------

  lemma AppliesMeans(offers: seq<Offer>, id: nat, product: Id, supplier: Id)
    ensures Applies(offers, id, product, supplier) <==> Offers.CheapestOffer(offers, product, supplier) == Some(id)
  {
    Offers.CheapestOfferMeans(offers, product, supplier);
    assert forall k: nat :: Offered(offers, k, product, supplier) <==> Offers.Candidate(offers, k, product, supplier);
    assert Applies(offers, id, product, supplier) <==> Offers.Cheapest(offers, id, product, supplier);
  }

  /** A number is near some whole number exactly if it is near the one below or the one above. */
  lemma NearestWhole(packs: real, n: int, tolerance: real)
    requires 0.0 <= tolerance < 0.5
    ensures -tolerance <= packs - n as real <= tolerance ==>
              packs - packs.Floor as real <= tolerance || packs.Floor as real + 1.0 - packs <= tolerance
    ensures packs - packs.Floor as real <= tolerance ==> -tolerance <= packs - packs.Floor as real <= tolerance
    ensures packs.Floor as real + 1.0 - packs <= tolerance ==>
              -tolerance <= packs - (packs.Floor + 1) as real <= tolerance
  {
    var below := packs.Floor;
    assert below as real <= packs < below as real + 1.0;
    if -tolerance <= packs - n as real <= tolerance {
      assert n as real < below as real + 1.5 && n as real > below as real - 0.5;
      assert n == below || n == below + 1;
    }
  }

  lemma PacksMean(quantity: real, pack: real, tolerance: real)
    requires 0.0 <= tolerance < 0.5
    ensures Offers.PackFits(quantity, pack, tolerance) <==> WholePacks(quantity, pack, tolerance)
  {
    if pack > 0.0 {
      var packs := quantity / pack;
      NearestWhole(packs, 0, tolerance);
      if WholePacks(quantity, pack, tolerance) {
        var n: int :| Packs(quantity, pack, n, tolerance);
        NearestWhole(packs, n, tolerance);
      }
      assert Packs(quantity, pack, packs.Floor, tolerance) <==> packs - packs.Floor as real <= tolerance;
      assert packs.Floor as real + 1.0 - packs <= tolerance ==> Packs(quantity, pack, packs.Floor + 1, tolerance);
    }
  }

  lemma TermsMean(offer: Offer, quantity: real, now: Time, tolerance: real)
    requires 0.0 <= tolerance < 0.5
    ensures TermsMet(offer, quantity, now, tolerance) <==>
              && !Offers.Expired(offer, now) && quantity >= offer.minimum
              && Offers.PackFits(quantity, offer.pack, tolerance)
  {
    PacksMean(quantity, offer.pack, tolerance);
  }

  // ---------- conversion ----------

  const CONVERSION_TOLERANCE: real := 0.000000001

  /** Every applying offer of the line meets the terms, in euro unless the line prefers this supplier anyway. */
  ghost predicate LineTerms(offers: seq<Offer>, session: Option<Id>, line: RequisitionLine, supplier: Id, now: Time) {
    line.product.Some? && session.None? ==>
      forall id: nat {:trigger Applies(offers, id, line.product.value, supplier)} ::
        Applies(offers, id, line.product.value, supplier) ==>
          && TermsMet(offers[id], line.quantity, now, CONVERSION_TOLERANCE)
          && (line.preferredSupplier != Some(supplier) ==> Text.Upper(offers[id].currency) == "EUR")
  }

  ghost predicate RequisitionTerms(offers: seq<Offer>, req: Requisition, supplier: Id, now: Time) {
    forall i :: 0 <= i < |req.lines| ==> LineTerms(offers, req.session, req.lines[i], supplier, now)
  }

  lemma LineTermsMean(offers: seq<Offer>, req: Requisition, line: RequisitionLine, supplier: Id, now: Time)
    ensures LineTerms(offers, req.session, line, supplier, now)
         <==> Conversion.LineFits(offers, req, line, supplier, now)
  {
    if line.product.Some? && req.session.None? {
      var product := line.product.value;
      Offers.CheapestOfferMeans(offers, product, supplier);
      forall id: nat
        ensures Applies(offers, id, product, supplier) <==> Offers.Cheapest(offers, id, product, supplier)
      {
        AppliesMeans(offers, id, product, supplier);
      }
      forall id: nat | id < |offers|
        ensures TermsMet(offers[id], line.quantity, now, CONVERSION_TOLERANCE) <==>
                  && !Offers.Expired(offers[id], now) && line.quantity >= offers[id].minimum
                  && Offers.PackFits(line.quantity, offers[id].pack, CONVERSION_TOLERANCE)
      {
        TermsMean(offers[id], line.quantity, now, CONVERSION_TOLERANCE);
      }
    }
  }

  lemma RequisitionTermsMean(offers: seq<Offer>, req: Requisition, supplier: Id, now: Time)
    ensures RequisitionTerms(offers, req, supplier, now) <==> Conversion.OffersFit(offers, req, supplier, now)
  {
    forall i | 0 <= i < |req.lines|
      ensures LineTerms(offers, req.session, req.lines[i], supplier, now) <==>
                Conversion.LineFits(offers, req, req.lines[i], supplier, now)
    {
      LineTermsMean(offers, req, req.lines[i], supplier, now);
    }
  }

  /** Everything else a conversion asks for. */
  predicate Convertible(db: Db, r: Id, input: Workflow.OrderInput) {
    && r in db.requisitions
    && var req := db.requisitions[r];
       && !req.archived && req.status == ReqApproved
       && (forall o :: o in db.files ==> db.files[o].order.requisition != Some(r))
       && input.supplier in db.catalog.suppliers && db.catalog.suppliers[input.supplier].active
       && (req.session.Some? ==> db.catalog.suppliers[input.supplier].code == "AMAZON-BUSINESS")
       && ActiveRequisitionProducts(db.catalog, req.lines) && ActivePreferredSuppliers(db.catalog, req.lines)
       && |req.lines| <= 100
       && Workflow.ValidLines(input.lines)
       && Conversion.Converts(db.catalog.offers, req, input.supplier, input.lines)
  }

  lemma ConvertedProducts(catalog: Catalog, req: Requisition, supplier: Id, lines: seq<Line>)
    requires Conversion.Converts(catalog.offers, req, supplier, lines) && ActiveRequisitionProducts(catalog, req.lines)
    ensures ActiveLineProducts(catalog, lines)
  {
    forall i | 0 <= i < |lines|
      ensures ActiveProduct(catalog, lines[i].product)
    {
      assert Conversion.LineConverts(catalog.offers, req, supplier, req.lines[i], lines[i]);
      assert ActiveProduct(catalog, req.lines[i].product);
    }
  }

  lemma ConvertibleCommits(db: Db, r: Id, input: Workflow.OrderInput, now: Time)
    requires Convertible(db, r, input)
    ensures Workflow.ConvertRequisition(db, r, input, now).Ok? <==>
              Conversion.OffersFit(db.catalog.offers, db.requisitions[r], input.supplier, now)
  {
    ConvertedProducts(db.catalog, db.requisitions[r], input.supplier, input.lines);
  }

  /**
   A conversion commits if and only if the requisition can be converted at all and every applying offer of its lines
   meets its terms: an offer that ended before `now`, asks for more, or does not come out in packs refuses it, and an
   offer that meets its terms never does.
   */
  lemma ConversionCommitsIff(db: Db, r: Id, input: Workflow.OrderInput, now: Time)
    ensures Workflow.ConvertRequisition(db, r, input, now).Ok? <==>
              Convertible(db, r, input) && RequisitionTerms(db.catalog.offers, db.requisitions[r], input.supplier, now)
  {
    if Workflow.ConvertRequisition(db, r, input, now).Ok? {
      assert Convertible(db, r, input);
    }
    if Convertible(db, r, input) {
      ConvertibleCommits(db, r, input, now);
      RequisitionTermsMean(db.catalog.offers, db.requisitions[r], input.supplier, now);
    }
  }

  /** The applying offer of a line, if one is asked for. */
  predicate Priced(offers: seq<Offer>, session: Option<Id>, from: RequisitionLine, supplier: Id, id: nat) {
    from.product.Some? && session.None? && Applies(offers, id, from.product.value, supplier)
  }

  /** Price and link: the estimate and the requested link, unless an offer applies. */
  ghost predicate PricedAt(offers: seq<Offer>, session: Option<Id>, from: RequisitionLine, supplier: Id, to: Line) {
    if exists id: nat :: Priced(offers, session, from, supplier, id) then
      exists id: nat ::
        && Priced(offers, session, from, supplier, id)
        && to.priceCents == (if from.preferredSupplier == Some(supplier) then from.priceCents
                             else offers[id].priceCents)
        && to.url == (if from.url == "" then offers[id].url else from.url)
    else to.priceCents == from.priceCents && to.url == from.url
  }

  /** The goods of the requisition line, nothing received, at the price of the applying offer or the estimate. */
  ghost predicate Promised(offers: seq<Offer>, session: Option<Id>, from: RequisitionLine, supplier: Id, to: Line) {
    && to.product == from.product && to.part == from.part && to.auxiliary == from.auxiliary
    && to.description == from.description && to.quantity == from.quantity && to.unit == from.unit && to.received == 0.0
    && PricedAt(offers, session, from, supplier, to)
  }

  lemma PromiseMeans(offers: seq<Offer>, req: Requisition, supplier: Id, from: RequisitionLine, to: Line)
    requires Conversion.LineConverts(offers, req, supplier, from, to)
    ensures Promised(offers, req.session, from, supplier, to)
  {
    if Conversion.Asked(req, from) {
      var product := from.product.value;
      Offers.CheapestOfferMeans(offers, product, supplier);
      forall id: nat
        ensures Applies(offers, id, product, supplier) <==> Offers.CheapestOffer(offers, product, supplier) == Some(id)
        ensures Applies(offers, id, product, supplier) <==> Offers.Cheapest(offers, id, product, supplier)
      {
        AppliesMeans(offers, id, product, supplier);
      }
      var best := Offers.CheapestOffer(offers, product, supplier);
      if best.Some? {
        assert Priced(offers, req.session, from, supplier, best.value);
      }
    }
  }

  /**
   What a conversion leaves: the requisition ordered, and one draft of it with the header asked for, no number of the
   supplier yet, and line by line the goods requested at the price promised.
   */
  lemma ConversionLeaves(db: Db, r: Id, input: Workflow.OrderInput, now: Time)
    requires Workflow.ConvertRequisition(db, r, input, now).Ok?
    ensures var db' := Workflow.ConvertRequisition(db, r, input, now).value;
            && r in db.requisitions && r in db'.requisitions && db.serial in db'.files
            && var was, row, f := db.requisitions[r], db'.requisitions[r], db'.files[db.serial];
               && row == was.(status := ReqOrdered, version := row.version) && row.version > was.version
               && f.claim.None? && f.reconciliation.None? && f.confirmations == map[]
               && f.order.number == input.number && f.order.supplier == input.supplier
               && f.order.requisition == Some(r) && f.order.session == was.session && f.order.status == Draft
               && f.order.currency == "EUR" && f.order.payloadId == "" && f.order.supplierNumber == ""
               && f.order.amazonNumbers == {} && f.order.orderDate.None? && f.order.notes == "" && !f.order.archived
               && |f.lines| == |was.lines|
               && forall i :: 0 <= i < |f.lines| ==>
                    Promised(db.catalog.offers, was.session, was.lines[i], input.supplier, f.lines[i])
  {
    var req := db.requisitions[r];
    forall i | 0 <= i < |req.lines|
      ensures Promised(db.catalog.offers, req.session, req.lines[i], input.supplier, input.lines[i])
    {
      PromiseMeans(db.catalog.offers, req, input.supplier, req.lines[i], input.lines[i]);
    }
  }

  // ---------- Adam Hall ----------

  const CHECKOUT_TOLERANCE: real := 0.00000001

  /** Every applying offer of the product meets the terms, in euro. */
  ghost predicate ProductTerms(offers: seq<Offer>, product: Id, supplier: Id, quantity: real, now: Time) {
    forall id: nat {:trigger Applies(offers, id, product, supplier)} :: Applies(offers, id, product, supplier) ==>
      TermsMet(offers[id], quantity, now, CHECKOUT_TOLERANCE) && Text.Upper(offers[id].currency) == "EUR"
  }

  lemma ProductTermsMean(catalog: Catalog, product: Id, supplier: Id, quantity: real, now: Time)
    ensures ProductTerms(catalog.offers, product, supplier, quantity, now) <==>
              OfferFits(catalog, supplier, product, quantity, now)
  {
    var offer := Offers.CheapestOffer(catalog.offers, product, supplier);
    forall id: nat
      ensures Applies(catalog.offers, id, product, supplier) <==> offer == Some(id)
    {
      AppliesMeans(catalog.offers, id, product, supplier);
    }
    if offer.Some? {
      assert Applies(catalog.offers, offer.value, product, supplier);
      TermsMean(catalog.offers[offer.value], quantity, now, CHECKOUT_TOLERANCE);
    }
  }

  predicate Pieces(quantity: real, n: int) {
    quantity == n as real
  }

  /** Everything else an Adam Hall line must be. */
  predicate Orderable(catalog: Catalog, supplier: Id, l: Line) {
    && l.product.Some? && l.product.value in catalog.products && catalog.products[l.product.value].active
    && (exists n: int :: 1 <= n <= 999 && Pieces(l.quantity, n)) && l.received == 0.0
    && 1 <= |SkuOf(catalog, supplier, l)| <= 120
  }

  /** A line is fit for Adam Hall if and only if it is orderable and every applying offer meets its terms at `now`. */
  lemma AdamHallLineIff(catalog: Catalog, supplier: Id, l: Line, now: Time)
    ensures AdamHallLine(catalog, supplier, l, now) <==>
              && Orderable(catalog, supplier, l)
              && ProductTerms(catalog.offers, l.product.value, supplier, l.quantity, now)
  {
    if l.product.Some? {
      ProductTermsMean(catalog, l.product.value, supplier, l.quantity, now);
    }
    if Whole(l.quantity) && 1.0 <= l.quantity <= 999.0 {
      assert 1 <= l.quantity.Floor <= 999 && Pieces(l.quantity, l.quantity.Floor);
    }
  }

  /** What a first Adam Hall request committed was bought at offers that met their terms. */
  lemma SubmittedTerms(db: Db, user: Id, token: string, send: SendRequest, payloadId: string, configured: bool,
      now: Time, i: nat)
    requires SubmitAdamHall(db, user, token, send, payloadId, configured, now).Ok?
    requires SubmitAdamHall(db, user, token, send, payloadId, configured, now).value.claimed
    requires Key(user, SendAdamHall(send.order), token) !in db.records
    ensures send.order in db.files
    ensures i < |db.files[send.order].lines| ==>
              var f := db.files[send.order];
              && Orderable(db.catalog, f.order.supplier, f.lines[i])
              && ProductTerms(db.catalog.offers, f.lines[i].product.value, f.order.supplier, f.lines[i].quantity, now)
  {
    Protocol.FirstAdamHall(db, user, token, send, payloadId, configured, now);
    var f := db.files[send.order];
    if i < |f.lines| {
      AdamHallLineIff(db.catalog, f.order.supplier, f.lines[i], now);
    }
  }
}
