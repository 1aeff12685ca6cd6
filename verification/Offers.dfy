/** Supplier offers: the first active one in (price, id) order, and whether it fits a quantity. */
module Offers {
  import opened Base
  import opened Schema
  import Text

  predicate Candidate(offers: seq<Offer>, id: nat, product: Id, supplier: Id) {
    id < |offers| && offers[id].active && offers[id].product == product && offers[id].supplier == supplier
  }

  /** ORDER BY price_cents,id. */
  predicate Cheaper(offers: seq<Offer>, a: nat, b: nat)
    requires a < |offers| && b < |offers|
  {
    offers[a].priceCents < offers[b].priceCents || (offers[a].priceCents == offers[b].priceCents && a <= b)
  }

  /** `id` is the first candidate in (price, id) order. */
  predicate Cheapest(offers: seq<Offer>, id: nat, product: Id, supplier: Id) {
    && Candidate(offers, id, product, supplier)
    && forall other :: 0 <= other < |offers| && Candidate(offers, other, product, supplier) ==>
         Cheaper(offers, id, other)
  }

  /** The best of the first n offers. */
  function Best(offers: seq<Offer>, n: nat, product: Id, supplier: Id): (r: Option<nat>)
    requires n <= |offers|
    ensures r.Some? ==> r.value < n
  {
    if n == 0 then None
    else
      var before := Best(offers, n - 1, product, supplier);
      if !Candidate(offers, n - 1, product, supplier) then before
      else if before.None? || offers[n - 1].priceCents < offers[before.value].priceCents then Some(n - 1)
      else before
  }

  function CheapestOffer(offers: seq<Offer>, product: Id, supplier: Id): (r: Option<nat>)
    ensures r.Some? ==> r.value < |offers|
  {
    Best(offers, |offers|, product, supplier)
  }

  lemma {:induction false} BestIsLeast(offers: seq<Offer>, n: nat, product: Id, supplier: Id)
    requires n <= |offers|
    ensures var r := Best(offers, n, product, supplier);
            && (r.None? ==> forall k :: 0 <= k < n ==> !Candidate(offers, k, product, supplier))
            && (r.Some? ==> Candidate(offers, r.value, product, supplier)
                            && forall k :: 0 <= k < n && Candidate(offers, k, product, supplier) ==>
                                 Cheaper(offers, r.value, k))
  {
    if n > 0 {
      BestIsLeast(offers, n - 1, product, supplier);
    }
  }

  /** The query's answer is the one cheapest candidate, or none when there is no candidate. */
  lemma CheapestOfferMeans(offers: seq<Offer>, product: Id, supplier: Id)
    ensures forall id: nat ::
              Cheapest(offers, id, product, supplier) <==> CheapestOffer(offers, product, supplier) == Some(id)
    ensures CheapestOffer(offers, product, supplier).None?
         <==> forall id :: 0 <= id < |offers| ==> !Candidate(offers, id, product, supplier)
  {
    BestIsLeast(offers, |offers|, product, supplier);
    forall id: nat | Cheapest(offers, id, product, supplier)
      ensures CheapestOffer(offers, product, supplier) == Some(id)
    {
      var r := CheapestOffer(offers, product, supplier);
      assert r.Some?;
      assert Cheaper(offers, r.value, id) && Cheaper(offers, id, r.value);
    }
  }

  /** SELECT ... WHERE active ORDER BY price_cents,id LIMIT 1. */
  method FindCheapest(offers: seq<Offer>, product: Id, supplier: Id) returns (r: Option<nat>)
    ensures r == CheapestOffer(offers, product, supplier)
    ensures r.Some? ==> Cheapest(offers, r.value, product, supplier)
    ensures r.None? ==> forall id :: 0 <= id < |offers| ==> !Candidate(offers, id, product, supplier)
  {
    r := None;
    for id := 0 to |offers|
      invariant r == Best(offers, id, product, supplier)
    {
      if Candidate(offers, id, product, supplier) && (r.None? || offers[id].priceCents < offers[r.value].priceCents) {
        r := Some(id);
      }
    }
    CheapestOfferMeans(offers, product, supplier);
  }

  predicate Euro(currency: string) {
    Text.Upper(currency) == "EUR"
  }

  predicate Expired(offer: Offer, now: Time) {
    offer.validUntil.Some? && offer.validUntil.value < now
  }

  /** |quantity / pack - round(quantity / pack)| stays within the tolerance; a pack size of zero asks for nothing. */
  predicate PackFits(quantity: real, pack: real, tolerance: real) {
    pack > 0.0 ==>
      var packs := quantity / pack;
      var below := packs.Floor as real;
      packs - below <= tolerance || below + 1.0 - packs <= tolerance
  }
}
