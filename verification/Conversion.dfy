/** Converting an approved requisition into a draft order: one line each, priced by estimate or cheapest offer. */
module Conversion {
  import opened Base
  import opened Schema
  import opened Offers

  /** The offer query applies to a requisition line: not to free-text lines, not to PunchOut carts. */
  predicate Asked(req: Requisition, line: RequisitionLine) {
    line.product.Some? && req.session.None?
  }

  /** The offer fits currency, validity, minimum quantity and pack size. */
  predicate Compatible(offer: Offer, line: RequisitionLine, supplier: Id, now: Time) {
    && (line.preferredSupplier != Some(supplier) ==> Euro(offer.currency))
    && !Expired(offer, now)
    && line.quantity >= offer.minimum
    && PackFits(line.quantity, offer.pack, 0.000000001)
  }

  /** The cheapest offer of the line, if the query applies and finds one, fits it. */
  predicate LineFits(offers: seq<Offer>, req: Requisition, line: RequisitionLine, supplier: Id, now: Time) {
    Asked(req, line) ==> forall id :: 0 <= id < |offers| && Cheapest(offers, id, line.product.value, supplier) ==>
      Compatible(offers[id], line, supplier, now)
  }

  predicate OffersFit(offers: seq<Offer>, req: Requisition, supplier: Id, now: Time) {
    forall i :: 0 <= i < |req.lines| ==> LineFits(offers, req, req.lines[i], supplier, now)
  }

  /** The order line made of a requisition line and its offer. */
  function OrderLine(offers: seq<Offer>, line: RequisitionLine, supplier: Id, offer: Option<nat>): Line {
    var found := offer.Some? && offer.value < |offers|;
    Line(0, line.product, line.part, line.auxiliary, line.description, line.quantity, 0.0, line.unit,
         if found && line.preferredSupplier != Some(supplier) then offers[offer.value].priceCents else line.priceCents,
         if line.url == "" && found then offers[offer.value].url else line.url)
  }

  /** What the created order promises about each requisition line. */
  predicate Converts(offers: seq<Offer>, req: Requisition, supplier: Id, lines: seq<Line>) {
    && |lines| == |req.lines|
    && forall i :: 0 <= i < |lines| ==> LineConverts(offers, req, supplier, req.lines[i], lines[i])
  }

  /** Same goods, quantity and part identity; the first active offer in (price, id) order, or else the estimate. */
  predicate LineConverts(offers: seq<Offer>, req: Requisition, supplier: Id, from: RequisitionLine, to: Line) {
    && to.product == from.product && to.part == from.part && to.auxiliary == from.auxiliary
    && to.description == from.description && to.quantity == from.quantity && to.unit == from.unit && to.received == 0.0
    && (from.url != "" ==> to.url == from.url)
    && (Asked(req, from) && from.preferredSupplier != Some(supplier) ==>
          forall id ::
            0 <= id < |offers| && Cheapest(offers, id, from.product.value, supplier) ==>
              to.priceCents == offers[id].priceCents)
    && (Asked(req, from) && from.url == "" ==>
          forall id ::
            0 <= id < |offers| && Cheapest(offers, id, from.product.value, supplier) ==> to.url == offers[id].url)
    && ((!Asked(req, from) || from.preferredSupplier == Some(supplier)
         || forall id :: 0 <= id < |offers| ==> !Candidate(offers, id, from.product.value, supplier)) ==>
              to.priceCents == from.priceCents)
    && (from.url == ""
        && (!Asked(req, from)
            || forall id :: 0 <= id < |offers| ==> !Candidate(offers, id, from.product.value, supplier)) ==>
          to.url == "")
  }

  /** One line with its offer keeps the promise, and fits exactly when its offer is compatible. */
  lemma OneLine(offers: seq<Offer>, req: Requisition, line: RequisitionLine, supplier: Id, offer: Option<nat>,
      now: Time)
    requires offer == if Asked(req, line) then CheapestOffer(offers, line.product.value, supplier) else None
    ensures LineConverts(offers, req, supplier, line, OrderLine(offers, line, supplier, offer))
    ensures LineFits(offers, req, line, supplier, now)
         <==> (offer.Some? ==> Compatible(offers[offer.value], line, supplier, now))
  {
    if Asked(req, line) {
      CheapestOfferMeans(offers, line.product.value, supplier);
    }
  }

  /** The line loop of prepareRequisitionOrder; `ready` is false exactly when an offer does not fit. */
  method BuildLines(offers: seq<Offer>, req: Requisition, supplier: Id, now: Time) returns (lines: seq<Line>,
      ready: bool)
    ensures Converts(offers, req, supplier, lines)
    ensures ready <==> OffersFit(offers, req, supplier, now)
  {
    lines := [];
    ready := true;
    for i := 0 to |req.lines|
      invariant |lines| == i
      invariant forall k :: 0 <= k < i ==> LineConverts(offers, req, supplier, req.lines[k], lines[k])
      invariant ready <==> forall k :: 0 <= k < i ==> LineFits(offers, req, req.lines[k], supplier, now)
    {
      var line := req.lines[i];
      var price, link := line.priceCents, line.url;
      var offer: Option<nat> := None;
      if line.product.Some? && req.session.None? {
        offer := FindCheapest(offers, line.product.value, supplier);
        if offer.Some? {
          var found := offers[offer.value];
          if line.preferredSupplier != Some(supplier) {
            price := found.priceCents;
            if !Euro(found.currency) {
              ready := false;
            }
          }
          if link == "" {
            link := found.url;
          }
          if Expired(found, now) || line.quantity < found.minimum || !PackFits(line.quantity, found.pack, 0.000000001) {
            ready := false;
          }
        }
      }
      OneLine(offers, req, line, supplier, offer, now);
      var built := Line(0, line.product, line.part, line.auxiliary, line.description, line.quantity, 0.0, line.unit,
                        price, link);
      assert built == OrderLine(offers, line, supplier, offer);
      lines := lines + [built];
    }
  }
}
