/** The Amazon submission handler: readiness, claim, outcome and finalization, transaction by transaction. */
module AmazonHandler {
  import opened Base
  import opened Schema
  import opened Storage
  import opened Submission
  import Offers
  import Text

  // ---------- idempotency ----------

  /** What beginIdempotentMutation finds for a key. */
  datatype Found = Fresh | Replayed(record: Record) | Conflicting

  /** beginIdempotentMutation: an equal payload gets the stored record, a different one is refused. */
  method BeginMutation(store: Store, key: Key, body: RequestBody) returns (found: Found)
    ensures found == if key !in store.records then Fresh
                     else if store.records[key].request == body then Replayed(store.records[key]) else Conflicting
  {
    if key !in store.records {
      return Fresh;
    }
    var record := store.records[key];
    if record.request != body {
      return Conflicting;
    }
    return Replayed(record);
  }

  /** completeIdempotentMutation: the response is stored under the key. */
  method CompleteMutation(store: Store, key: Key, body: RequestBody, response: Response, statusCode: int)
    modifies store`records
    ensures store.records == old(store.records)[key := Record(body, response, statusCode)]
  {
    store.records := store.records[key := Record(body, response, statusCode)];
  }

  // ---------- readiness ----------

  /** The preview of a submission: what is still required, what would be sent, and its total. */
  datatype Prepared = Prepared(required: seq<string>, remote: seq<PayloadLine>, total: int)

  /** The order still carries the approved cart, line by line. */
  method CompareCart(approved: seq<RequisitionLine>, lines: seq<Line>) returns (same: bool)
    ensures same <==> SameCart(approved, lines)
  {
    if |approved| != |lines| {
      return false;
    }
    for i := 0 to |lines|
      invariant forall k :: 0 <= k < i ==> SameLine(approved[k], lines[k])
    {
      var l := approved[i];
      var p := lines[i];
      if || l.part != p.part
         || l.auxiliary != p.auxiliary || l.quantity != p.quantity || l.priceCents != p.priceCents || l.unit != p.unit
         || l.description != p.description
      {
        assert !SameLine(approved[i], lines[i]);
        return false;
      }
    }
    return true;
  }

  /** The line loop: remote lines and the running total; a line Amazon cannot take is skipped and reported. */
  method RemoteLines(lines: seq<Line>) returns (required: seq<string>, remote: seq<PayloadLine>, total: int)
    ensures required == [] <==> forall i :: 0 <= i < |lines| ==> AmazonLine(lines[i])
    ensures required == [] ==> remote == ToPayloadLines(lines)
    ensures total == PayloadTotal(remote)
  {
    required, remote, total := [], [], 0;
    for i := 0 to |lines|
      invariant required == [] <==> forall k :: 0 <= k < i ==> AmazonLine(lines[k])
      invariant required == [] ==> remote == ToPayloadLines(lines[..i])
      invariant total == PayloadTotal(remote)
    {
      var l := lines[i];
      if !Whole(l.quantity) || l.quantity < 1.0 || l.quantity > 999.0 || Text.Blank(l.part) || Text.Blank(l.auxiliary)
      || Text.Blank(l.description)
         || Text.Blank(l.unit) || l.priceCents < 0 || l.priceCents > 1_000_000_000 || l.received != 0.0
      {
        required := required + ["lines.amazon_line"];
      } else {
        assert AmazonLine(lines[i]);
        var line := PayloadLine(l.part, l.auxiliary, l.description, l.quantity.Floor, l.unit, l.priceCents);
        assert (remote + [line])[..|remote|] == remote;
        remote := remote + [line];
        total := total + l.quantity.Floor * l.priceCents;
      }
    }
    assert lines[..|lines|] == lines;
  }

  /** The checks on the order row and its history. */
  method OrderRequirements(store: Store, send: SendRequest, exact: bool) returns (required: seq<string>)
    requires send.order in store.files
    ensures required == [] <==>
      (Untouched(store.Contents(), send.order) && store.files[send.order].order.session.Some?
       && VersionAccepted(store.files[send.order].order.version, send.expectedVersion, exact))
  {
    var f := store.files[send.order];
    required := [];
    if f.order.archived {
      required := required + ["active_order"];
    }
    if f.order.status != Draft || f.order.supplierNumber != "" || f.order.payloadId != "" {
      required := required + ["unsubmitted_draft"];
    }
    if f.order.session.None? {
      required := required + ["original_amazon_punchout"];
    }
    if || (send.expectedVersion.Some? && send.expectedVersion.value != f.order.version)
       || (exact && send.expectedVersion.None?)
    {
      required := required + ["expected_updated_at"];
    }
    var received := false;
    for i := 0 to |store.receipts|
      invariant received <==> exists k :: 0 <= k < i && store.receipts[k].order == send.order
    {
      if store.receipts[i].order == send.order {
        received := true;
      }
    }
    assert received <==> HasReceipt(store.receipts, send.order);
    if received {
      required := required + ["unreceived_order"];
    }
    if f.confirmations != map[] {
      required := required + ["unconfirmed_order"];
    }
    if f.claim.Some? {
      required := required + ["no_previous_supplier_claim"];
    }
  }

  predicate CatalogReady(db: Db, f: OrderFile) {
    && ActiveSupplier(db.catalog, f.order.supplier) && db.catalog.suppliers[f.order.supplier].code == "AMAZON-BUSINESS"
    && ActiveLineProducts(db.catalog, f.lines)
    && f.order.requisition.Some? && f.order.requisition.value in db.requisitions
    && ApprovedSource(db.requisitions[f.order.requisition.value], f)
  }

  /** The checks on supplier, products and the approved requisition. */
  method SourceRequirements(store: Store, f: OrderFile) returns (required: seq<string>)
    ensures required == [] <==> CatalogReady(store.Contents(), f)
  {
    required := [];
    if || !(f.order.supplier in store.catalog.suppliers)
       || !store.catalog.suppliers[f.order.supplier].active
       || store.catalog.suppliers[f.order.supplier].code != "AMAZON-BUSINESS"
    {
      required := required + ["active_amazon_supplier"];
    }
    var active := store.ProductsActive(f.lines);
    if !active {
      required := required + ["active_products"];
    }
    if f.order.requisition.None? || f.order.requisition.value !in store.requisitions {
      required := required + ["original_approved_requisition"];
    } else {
      var source := store.requisitions[f.order.requisition.value];
      var same := CompareCart(source.lines, f.lines);
      if !same {
        required := required + ["unchanged_approved_cart"];
      }
      if || source.archived
         || source.approvedBy.None? || source.approvedBy.value == source.requester || !source.decided
         || source.status != ReqOrdered || source.session != f.order.session
      {
        required := required + ["original_approved_requisition"];
      }
    }
  }

  /** prepareAmazonSubmission of an existing order. */
  method Prepare(store: Store, send: SendRequest, exact: bool, configured: bool) returns (p: Prepared)
    requires send.order in store.files
    ensures p.required == [] <==> AmazonReady(store.Contents(), send, exact, configured)
    ensures p.required == [] ==> p.remote == ToPayloadLines(store.files[send.order].lines)
    ensures p.total == PayloadTotal(p.remote)
  {
    var f := store.files[send.order];
    var ofOrder := OrderRequirements(store, send, exact);
    var ofSource := SourceRequirements(store, f);
    var ofLines, remote, total := RemoteLines(f.lines);
    var required := ofOrder + ofSource + ofLines;
    if |f.lines| < 1 || |f.lines| > 50 {
      required := required + ["bounded_amazon_lines"];
    }
    if !Offers.Euro(f.order.currency) || total != f.order.totalCents {
      required := required + ["exact_eur_total"];
    }
    if !configured {
      required := required + ["configured_amazon_ordering"];
    }
    if send.expectedContext.Some? && send.expectedContext.value != CurrentContext(store.Contents(), send.order) {
      required := required + ["expected_context"];
    }
    p := Prepared(required, remote, total);
  }

  // ---------- transactions ----------

  /** The claim and the order row of the first transaction; the caller rolls back a refusal. */
  method WriteClaim(store: Store, user: Id, o: Id, remote: seq<PayloadLine>, payloadId: string,
      now: Time) returns (refusal: Option<Refusal>)
    requires o in store.files && remote == ToPayloadLines(store.files[o].lines)
    modifies store
    ensures match CommitAmazonClaim(old(store.Contents()), user, o, payloadId, now)
            case Ok(db) => refusal.None? && store.Contents() == db
            case Err(e) => refusal == Some(e)
  {
    var claim := Claim(Amazon, user, payloadId, AmazonPayload(store.files[o].order.number, remote), Pending, NoOutcome,
                       now);
    refusal := store.CreateClaim(o, claim);
    if refusal.None? {
      refusal := store.SaveOrder(o, store.files[o].order.(status := Submitting, payloadId := payloadId), now);
    }
  }

  /** finalizeAmazonSubmission. */
  method FinalizeSubmission(store: Store, o: Id, key: Option<Key>, now: Time) returns (refusal: Option<Refusal>)
    modifies store
    ensures Did(old(store.Contents()), store.Contents(), Finalize(old(store.Contents()), o, key, now), refusal)
  {
    if key.Some? && key.value !in store.records {
      return Some(NotFound);
    }
    if o !in store.files || store.files[o].claim.None? {
      return Some(NotFound);
    }
    var submission := store.files[o].claim.value;
    var order := store.files[o].order;
    var status := if submission.status != Accepted then SubmissionUnknown else Sent;
    if order.status == Submitting {
      var updated := order.(status := status);
      if status == Sent && order.orderDate.None? {
        updated := updated.(orderDate := Some(now));
      }
      if status == Sent && submission.provider == AdamHall {
        if !submission.outcome.Acknowledged? || submission.outcome.number == "" {
          return Some(NotFound);
        }
        updated := updated.(supplierNumber := submission.outcome.number);
      }
      assert updated == SettledOrder(submission, order, now);
      refusal := store.SaveOrder(o, updated, now);
      if refusal.Some? {
        return;
      }
    }
    if key.Some? {
      var response := FinishedResponse(o, store.files[o].order, status, submission.status);
      CompleteMutation(store, key.value, store.records[key.value].request, response, 200);
    }
    return None;
  }

  /** The outcome transaction. */
  method SaveOutcome(store: Store, o: Id, status: ClaimStatus, outcome: Outcome) returns (refusal: Option<Refusal>)
    modifies store
    ensures Did(old(store.Contents()), store.Contents(), RecordOutcome(old(store.Contents()), o, status, outcome),
                refusal)
  {
    if o !in store.files || store.files[o].claim.None? {
      return Some(NotFound);
    }
    refusal := store.SaveClaim(o, store.files[o].claim.value.(status := status, outcome := outcome));
  }

  /** The replay branch both suppliers share. */
  method ReplayMutation(store: Store, key: Key, body: RequestBody, o: Id, now: Time) returns (r: Result<Reply>)
    requires key in store.records
    modifies store
    ensures r == Replay(old(store.Contents()), key, body, o, now)
    ensures store.Contents() == if r.Ok? then r.value.db else old(store.Contents())
  {
    ghost var before := store.Contents();
    var found := BeginMutation(store, key, body);
    if found == Conflicting {
      return Err(PayloadConflict);
    }
    var record := store.records[key];
    if !record.response.PendingResponse? {
      return Ok(Reply(store.Contents(), record.response, false));
    }
    if o !in store.files || store.files[o].claim.None? {
      return Err(NotFound);
    }
    if store.files[o].claim.value.status == Pending {
      return Ok(Reply(store.Contents(), record.response, false));
    }
    var refusal := FinalizeSubmission(store, o, Some(key), now);
    if refusal.Some? {
      return Err(refusal.value);
    }
    assert key in store.records;
    return Ok(Reply(store.Contents(), store.records[key].response, false));
  }

  /** runAmazonSubmission up to the commit of its first transaction. */
  method Submit(store: Store, user: Id, token: Option<string>, send: SendRequest, payloadId: string,
      configured: bool, now: Time) returns (r: Result<Reply>)
    modifies store
    ensures r == SubmitAmazon(old(store.Contents()), user, token, send, payloadId, configured, now)
    ensures store.Contents() == if r.Ok? then r.value.db else old(store.Contents())
  {
    if token.None? {
      r := SubmitNative(store, user, send, payloadId, configured, now);
    } else {
      if send.expectedContext.None? {
        return Err(ContextRequired);
      }
      var key := Key(user, SendAmazon(send.order), token.value);
      if key in store.records {
        r := ReplayMutation(store, key, SendBody(send), send.order, now);
      } else {
        r := SubmitGuided(store, user, key, send, payloadId, configured, now);
      }
    }
  }

  method SubmitNative(store: Store, user: Id, send: SendRequest, payloadId: string, configured: bool,
      now: Time) returns (r: Result<Reply>)
    modifies store
    ensures r == SubmitAmazon(old(store.Contents()), user, None, send, payloadId, configured, now)
    ensures store.Contents() == if r.Ok? then r.value.db else old(store.Contents())
  {
    var before := store.Contents();
    if send.order !in store.files {
      return Err(NotFound);
    }
    var p := Prepare(store, send.(expectedVersion := None, expectedContext := None), false, configured);
    if p.required != [] {
      return Err(NotReady);
    }
    var refusal := WriteClaim(store, user, send.order, p.remote, payloadId, now);
    if refusal.Some? {
      store.Rollback(before);
      return Err(refusal.value);
    }
    return Ok(Reply(store.Contents(), PendingResponse(send.order, store.files[send.order].order), true));
  }

  method SubmitGuided(store: Store, user: Id, key: Key, send: SendRequest, payloadId: string, configured: bool,
      now: Time) returns (r: Result<Reply>)
    requires key.user == user && key.operation == SendAmazon(send.order) && key !in store.records
    requires send.expectedContext.Some?
    modifies store
    ensures r == SubmitAmazon(old(store.Contents()), user, Some(key.token), send, payloadId, configured, now)
    ensures store.Contents() == if r.Ok? then r.value.db else old(store.Contents())
  {
    var before := store.Contents();
    if send.order !in store.files {
      return Err(NotFound);
    }
    var p := Prepare(store, send, true, configured);
    if p.required != [] {
      return Err(NotReady);
    }
    if send.phrase != Some(Phrase(send.order, p.total, CurrentContext(before, send.order))) {
      return Err(PhraseRequired);
    }
    var refusal := WriteClaim(store, user, send.order, p.remote, payloadId, now);
    if refusal.Some? {
      store.Rollback(before);
      return Err(refusal.value);
    }
    var response := PendingResponse(send.order, store.files[send.order].order);
    CompleteMutation(store, key, SendBody(send), response, 202);
    return Ok(Reply(store.Contents(), response, true));
  }
}
