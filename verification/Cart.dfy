/** Adam Hall carts: aggregation of order lines by article number and the exact comparison with the remote cart. */
module Cart {
  import opened Base
  import Text

  /** An article number and a quantity; used for requested items and for remote cart lines alike. */
  datatype Item = Item(article: string, quantity: int)

  /** The items with their article numbers trimmed and in upper case. */
  function Keyed(items: seq<Item>): (r: seq<Item>)
    ensures |r| == |items|
    ensures forall i :: 0 <= i < |items| ==> r[i] == Item(Text.Article(items[i].article), items[i].quantity)
  {
    seq(|items|, i requires 0 <= i < |items| => Item(Text.Article(items[i].article), items[i].quantity))
  }

  /** Total quantity of one article number. */
  function Sum(items: seq<Item>, article: string): int {
    if items == [] then 0
    else
      Sum(items[..|items| - 1], article)
        + (if items[|items| - 1].article == article then items[|items| - 1].quantity else 0)
  }

  predicate Mentions(items: seq<Item>, article: string) {
    exists i :: 0 <= i < |items| && items[i].article == article
  }

  /** The distinct article numbers in first-seen order. */
  function FirstSeen(items: seq<Item>): seq<string> {
    if items == [] then []
    else
      var before := FirstSeen(items[..|items| - 1]);
      var article := items[|items| - 1].article;
      if article in before then before else before + [article]
  }

  /** The accumulator `combined[article] += quantity`, blank article numbers skipped. */
  function Quantities(items: seq<Item>): map<string, int> {
    if items == [] then map[]
    else Add(Quantities(items[..|items| - 1]), items[|items| - 1])
  }

  function Add(m: map<string, int>, item: Item): map<string, int> {
    if item.article == "" then m
    else m[item.article := (if item.article in m then m[item.article] else 0) + item.quantity]
  }

  /** Every item names an article and asks for at least one piece. */
  predicate Orderable(items: seq<Item>) {
    items != [] && forall i :: 0 <= i < |items| ==> items[i].article != "" && items[i].quantity > 0
  }

  /** Non-blank, distinct articles with positive quantities. */
  predicate Distinct(items: seq<Item>) {
    && (forall i :: 0 <= i < |items| ==> items[i].article != "" && items[i].quantity > 0)
    && (forall i, j :: 0 <= i < j < |items| ==> items[i].article != items[j].article)
  }

  /** The same non-blank articles on both sides, each with the same total. */
  ghost predicate SameArticles(items: seq<Item>, lines: seq<Item>) {
    forall article: string :: article != "" ==>
      (Mentions(items, article) <==> Mentions(lines, article)) && Sum(items, article) == Sum(lines, article)
  }

  /** The total of an article is the sum of the quantities of its items, however the items are divided. */
  lemma {:induction false} SumSplits(a: seq<Item>, b: seq<Item>, article: string)
    ensures Sum(a + b, article) == Sum(a, article) + Sum(b, article)
    ensures |b| == 1 ==> Sum(b, article) == if b[0].article == article then b[0].quantity else 0
  {
    if b == [] {
      assert a + b == a;
    } else {
      var n := |b| - 1;
      SumSplits(a, b[..n], article);
      assert (a + b)[..|a + b| - 1] == a + b[..n];
    }
  }

  lemma MentionsPrefix(items: seq<Item>, article: string)
    requires items != []
    ensures Mentions(items, article)
         <==> Mentions(items[..|items| - 1], article) || items[|items| - 1].article == article
  {
    var n := |items| - 1;
    if Mentions(items, article) {
      var i :| 0 <= i < |items| && items[i].article == article;
      if i < n { assert items[..n][i] == items[i]; }
    }
    if Mentions(items[..n], article) {
      var i :| 0 <= i < n && items[..n][i].article == article;
      assert items[i] == items[..n][i];
    }
  }

  /** The accumulator holds exactly the mentioned articles with their totals. */
  lemma {:induction false} QuantitiesAreSums(items: seq<Item>, article: string)
    ensures article in Quantities(items) <==> article != "" && Mentions(items, article)
    ensures article in Quantities(items) ==> Quantities(items)[article] == Sum(items, article)
    ensures !Mentions(items, article) ==> Sum(items, article) == 0
  {
    if items != [] {
      QuantitiesAreSums(items[..|items| - 1], article);
      MentionsPrefix(items, article);
    }
  }

  lemma {:induction false} FirstSeenMembers(items: seq<Item>, article: string)
    ensures article in FirstSeen(items) <==> Mentions(items, article)
  {
    if items != [] {
      FirstSeenMembers(items[..|items| - 1], article);
      MentionsPrefix(items, article);
    }
  }

  /** Each article stands before every article that is first mentioned later. */
  lemma {:induction false} FirstSeenOrder(items: seq<Item>, a: nat, b: nat, k: nat)
    requires a < b < |FirstSeen(items)|
    ensures FirstSeen(items)[a] != FirstSeen(items)[b]
    ensures k < |items| && items[k].article == FirstSeen(items)[b] ==> Mentions(items[..k], FirstSeen(items)[a])
  {
    var n := |items| - 1;
    var prefix := items[..n];
    var before := FirstSeen(prefix);
    if b < |before| {
      FirstSeenOrder(prefix, a, b, k);
      FirstSeenMembers(prefix, before[a]);
      assert k < n ==> prefix[..k] == items[..k] && prefix[k] == items[k];
      assert items[..n] == prefix;
    } else {
      FirstSeenMembers(prefix, before[a]);
      FirstSeenMembers(prefix, items[n].article);
      assert k < n ==> prefix[k] == items[k];
    }
  }

  /** Sums of a list without repeated articles are its own quantities. */
  lemma {:induction false} DistinctSum(items: seq<Item>, k: nat)
    requires Distinct(items) && k < |items|
    ensures Sum(items, items[k].article) == items[k].quantity
  {
    var n := |items| - 1;
    if k < n {
      DistinctSum(items[..n], k);
    } else {
      QuantitiesAreSums(items[..n], items[k].article);
    }
  }

  lemma {:induction false} PositiveSum(items: seq<Item>, article: string)
    requires forall i :: 0 <= i < |items| ==> items[i].quantity > 0
    ensures Sum(items, article) >= 0
    ensures Mentions(items, article) ==> Sum(items, article) > 0
  {
    if items != [] {
      PositiveSum(items[..|items| - 1], article);
      MentionsPrefix(items, article);
    }
  }

  /** The loops of normalizeAdamHallItems over items whose article numbers are already trimmed and in upper case. */
  method Aggregate(items: seq<Item>) returns (r: Option<seq<Item>>)
    ensures r.Some? <==> Orderable(items)
    ensures r.Some? ==> Distinct(r.value) && SameArticles(r.value, items)
    ensures r.Some? ==> |r.value| == |FirstSeen(items)|
    ensures r.Some? ==> forall k :: 0 <= k < |r.value| ==> r.value[k].article == FirstSeen(items)[k]
  {
    var combined: map<string, int> := map[];
    var order: seq<string> := [];
    for i := 0 to |items|
      invariant forall k :: 0 <= k < i ==> items[k].article != "" && items[k].quantity > 0
      invariant combined == Quantities(items[..i]) && order == FirstSeen(items[..i])
    {
      var article := items[i].article;
      if article == "" || items[i].quantity <= 0 {
        return None;
      }
      assert items[..i + 1][..i] == items[..i];
      FirstSeenMembers(items[..i], article);
      QuantitiesAreSums(items[..i], article);
      if article !in combined {
        order := order + [article];
        combined := combined[article := items[i].quantity];
      } else {
        combined := combined[article := combined[article] + items[i].quantity];
      }
    }
    assert items[..|items|] == items;
    if items != [] {
      FirstSeenMembers(items, items[0].article);
    }
    if |order| == 0 {
      return None;
    }
    forall k | 0 <= k < |order|
      ensures order[k] in combined && combined[order[k]] == Sum(items, order[k])
    {
      FirstSeenMembers(items, order[k]);
      QuantitiesAreSums(items, order[k]);
    }
    var result: seq<Item> := [];
    for i := 0 to |order|
      invariant |result| == i
      invariant forall k :: 0 <= k < i ==> result[k] == Item(order[k], combined[order[k]])
    {
      result := result + [Item(order[i], combined[order[i]])];
    }
    NormalizedResult(items, result);
    return Some(result);
  }

  lemma NormalizedResult(items: seq<Item>, result: seq<Item>)
    requires Orderable(items)
    requires |result| == |FirstSeen(items)|
    requires forall k :: 0 <= k < |result| ==> result[k] == Item(FirstSeen(items)[k], Sum(items, FirstSeen(items)[k]))
    ensures Distinct(result) && SameArticles(result, items)
  {
    var seen := FirstSeen(items);
    forall k | 0 <= k < |result|
      ensures result[k].article != "" && result[k].quantity > 0
    {
      assert seen[k] in seen;
      FirstSeenMembers(items, seen[k]);
      PositiveSum(items, seen[k]);
    }
    forall i, j | 0 <= i < j < |result|
      ensures result[i].article != result[j].article
    {
      FirstSeenOrder(items, i, j, 0);
    }
    forall article: string | article != ""
      ensures (Mentions(result, article) <==> Mentions(items, article)) && Sum(result, article) == Sum(items, article)
    {
      FirstSeenMembers(items, article);
      if article in seen {
        var k :| 0 <= k < |seen| && seen[k] == article;
        DistinctSum(result, k);
        assert result[k].article == article;
      } else {
        assert !Mentions(result, article);
        QuantitiesAreSums(items, article);
        QuantitiesAreSums(result, article);
      }
    }
  }

  /** What is left in the remote cart for item i: its article's total, unless an earlier item took it already. */
  function Due(items: seq<Item>, lines: seq<Item>, i: nat): int
    requires i < |items|
  {
    if items[i].article == "" || Mentions(items[..i], items[i].article) then 0 else Sum(lines, items[i].article)
  }

  /** Every item asks for exactly what is left for it, and no article of the remote cart goes unasked. */
  ghost predicate Matches(items: seq<Item>, lines: seq<Item>) {
    && (forall i :: 0 <= i < |items| ==> items[i].quantity == Due(items, lines, i))
    && (forall article: string :: article != "" && Mentions(lines, article) ==> Mentions(items, article))
  }

  /** For distinct items that is the same articles with the same totals on both sides. */
  lemma MatchesMeans(items: seq<Item>, lines: seq<Item>)
    requires Distinct(items)
    ensures Matches(items, lines) <==> SameArticles(items, lines)
  {
    forall k | 0 <= k < |items|
      ensures Sum(items, items[k].article) == items[k].quantity
      ensures Due(items, lines, k) == Sum(lines, items[k].article)
    {
      DistinctSum(items, k);
      assert !Mentions(items[..k], items[k].article);
    }
    forall article: string | article != ""
      ensures !Mentions(items, article) ==> Sum(items, article) == 0
      ensures !Mentions(lines, article) ==> Sum(lines, article) == 0
    {
      QuantitiesAreSums(lines, article);
      QuantitiesAreSums(items, article);
    }
    if Matches(items, lines) {
      MatchedArticles(items, lines);
    } else if SameArticles(items, lines) {
      forall k | 0 <= k < |items|
        ensures items[k].quantity == Due(items, lines, k)
      {
        assert Mentions(items, items[k].article);
      }
      assert false;
    }
  }

  lemma MatchedArticles(items: seq<Item>, lines: seq<Item>)
    requires Distinct(items) && Matches(items, lines)
    requires forall k :: 0 <= k < |items| ==> Sum(items, items[k].article) == items[k].quantity
    requires forall k :: 0 <= k < |items| ==> Due(items, lines, k) == Sum(lines, items[k].article)
    requires forall article: string :: article != "" ==>
               && (!Mentions(items, article) ==> Sum(items, article) == 0)
               && (!Mentions(lines, article) ==> Sum(lines, article) == 0)
    ensures SameArticles(items, lines)
  {
    forall article: string | article != "" && Mentions(items, article)
      ensures Mentions(lines, article) && Sum(items, article) == Sum(lines, article)
    {
      var k :| 0 <= k < |items| && items[k].article == article;
      assert items[k].quantity == Due(items, lines, k);
    }
  }

  /** The loops of validateAdamHallCart: take the items out of the remote quantities; nothing may be left over. */
  method Match(items: seq<Item>, lines: seq<Item>) returns (ok: bool)
    ensures ok <==> Matches(items, lines)
  {
    var quantities: map<string, int> := map[];
    for i := 0 to |lines|
      invariant quantities == Quantities(lines[..i])
    {
      assert lines[..i + 1][..i] == lines[..i];
      var article := lines[i].article;
      if article != "" {
        quantities := quantities[article := (if article in quantities then quantities[article] else 0)
                                 + lines[i].quantity];
      }
    }
    assert lines[..|lines|] == lines;
    ghost var all := quantities;
    for i := 0 to |items|
      invariant forall a :: a in quantities <==> a in all && !Mentions(items[..i], a)
      invariant forall a :: a in quantities ==> quantities[a] == all[a]
      invariant forall k :: 0 <= k < i ==> items[k].quantity == Due(items, lines, k)
    {
      var article := items[i].article;
      assert items[..i + 1][..i] == items[..i];
      forall a
        ensures Mentions(items[..i + 1], a) <==> Mentions(items[..i], a) || article == a
      {
        MentionsPrefix(items[..i + 1], a);
      }
      QuantitiesAreSums(lines, article);
      var actual := if article in quantities then quantities[article] else 0;
      assert actual == Due(items, lines, i);
      if actual != items[i].quantity {
        return false;
      }
      quantities := quantities - {article};
    }
    assert items[..|items|] == items;
    ok := |quantities| == 0;
    Leftover(items, lines, quantities.Keys);
  }

  /** Nothing is left exactly when every article of the remote cart was asked for. */
  lemma Leftover(items: seq<Item>, lines: seq<Item>, left: set<string>)
    requires forall a :: a in left <==> a in Quantities(lines) && !Mentions(items, a)
    ensures |left| == 0
         <==> forall article: string :: article != "" && Mentions(lines, article) ==> Mentions(items, article)
  {
    forall article: string
      ensures article in Quantities(lines) <==> article != "" && Mentions(lines, article)
    {
      QuantitiesAreSums(lines, article);
    }
    assert |left| == 0 <==> left == {};
  }

  /** normalizeAdamHallItems. */
  method NormalizeItems(raw: seq<Item>) returns (r: Option<seq<Item>>)
    ensures r.Some? <==> Orderable(Keyed(raw))
    ensures r.Some? ==> Distinct(r.value) && SameArticles(r.value, Keyed(raw))
    ensures r.Some? ==> |r.value| == |FirstSeen(Keyed(raw))|
    ensures r.Some? ==> forall k :: 0 <= k < |r.value| ==> r.value[k].article == FirstSeen(Keyed(raw))[k]
  {
    r := Aggregate(Keyed(raw));
  }

  /** validateAdamHallCart. */
  method ValidateCart(items: seq<Item>, remote: seq<Item>) returns (ok: bool)
    ensures ok <==> Matches(items, Keyed(remote))
  {
    ok := Match(items, Keyed(remote));
  }

  /** Normalizing and then validating: an accepted remote cart holds, per article, the sum of the requested lines. */
  method ReviewCart(requested: seq<Item>, remote: seq<Item>) returns (ok: bool)
    ensures ok <==> Orderable(Keyed(requested)) && SameArticles(Keyed(requested), Keyed(remote))
  {
    var normalized := NormalizeItems(requested);
    if normalized.None? {
      return false;
    }
    ok := ValidateCart(normalized.value, remote);
    MatchesMeans(normalized.value, Keyed(remote));
  }
}
