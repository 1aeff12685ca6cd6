/** How single order writes keep the per-order invariant. */
module FileSteps {
  import opened Base
  import opened Schema
  import opened Triggers
  import opened Submission
  import opened World
  import opened Invariants
  import Confirmations
  import GoodsReceipts

  /** FileOk against the tables of one database. */
  ghost predicate Holds(db: Db, approvals: seq<Approval>, o: Id, f: OrderFile) {
    FileOk(db.catalog, db.requisitions, db.receipts, approvals, o, f)
  }

  /** What every handler guarantees when it rewrites an order row: identity kept, closed orders stay closed. */
  predicate HeaderStep(f: OrderFile, row: Order) {
    && row.number == f.order.number && row.session == f.order.session && row.payloadId == f.order.payloadId
    && (|| row.status == f.order.status
        || row.status == Cancelled
        || (!ReceivedStatus(f.order.status) && f.order.status != Cancelled && !ReceivedStatus(row.status)
            && row.status != Submitting))
    && (row.status == SubmissionUnknown ==>
          f.order.status == SubmissionUnknown || (f.claim.Some? && f.claim.value.status == Unknown))
  }

  lemma HeaderKeeps(db: Db, approvals: seq<Approval>, o: Id, row: Order, now: Time)
    requires o in db.files && Holds(db, approvals, o, db.files[o])
    requires UpdateOrder(db, o, row, now).Ok? && HeaderStep(db.files[o], row)
    ensures Holds(db, approvals, o, UpdateOrder(db, o, row, now).value.files[o])
  {
    var f := db.files[o];
    var g := UpdateOrder(db, o, row, now).value.files[o];
    assert g == f.(order := g.order);
    assert ReferencesOk(db.catalog, db.requisitions, g);
    assert ClaimOk(approvals, g);
    assert ConfirmationsOk(g);
    assert ReceiptsOk(db.receipts, o, g) by {
      assert forall i :: 0 <= i < |f.lines| ==> WithinAccepted(f, f.lines[i]) == WithinAccepted(g, g.lines[i]);
    }
  }

  /** Replacing the lines of a draft. */
  lemma DraftLinesKeep(db: Db, approvals: seq<Approval>, o: Id, lines: seq<Line>, now: Time)
    requires o in db.files && Holds(db, approvals, o, db.files[o])
    requires db.files[o].order.status == Draft
    requires ChangeLines(db, o, lines, now).Ok?
    requires LinesOk(lines) && ActiveLineProducts(db.catalog, lines)
    requires forall i :: 0 <= i < |lines| ==> lines[i].received == 0.0
    ensures Holds(db, approvals, o, ChangeLines(db, o, lines, now).value.files[o])
  {
    var f := db.files[o];
    var g := ChangeLines(db, o, lines, now).value.files[o];
    assert f.claim.None?;
    assert ConfirmationsOk(g) by {
      NoConfirmations(g);
    }
    forall i | 0 <= i < |lines|
      ensures lines[i].received == ReceivedSum(db.receipts, o, lines[i].id)
    {
      NoReceipts(db.receipts, o, lines[i].id);
    }
  }

  lemma NoConfirmations(f: OrderFile)
    requires f.confirmations == map[] && LinesOk(f.lines)
    ensures ConfirmationsOk(f)
  {
    forall i | 0 <= i < |f.lines|
      ensures Confirmations.Accepted(f.confirmations, f.lines[i].id)
           + Confirmations.Rejected(f.confirmations, f.lines[i].id) <= f.lines[i].quantity + Confirmations.EPSILON
    {
      assert Confirmations.LineKeys(f.confirmations, f.lines[i].id) == {};
    }
  }

  lemma {:induction false} NoReceipts(receipts: seq<Receipt>, o: Id, line: Id)
    requires !HasReceipt(receipts, o)
    ensures ReceivedSum(receipts, o, line) == 0.0
  {
    if receipts != [] {
      var rest := receipts[..|receipts| - 1];
      forall i | 0 <= i < |rest|
        ensures rest[i].order != o
      {
        assert rest[i] == receipts[i];
      }
      NoReceipts(rest, o, line);
    }
  }

  lemma ReceivedSumAppend(receipts: seq<Receipt>, row: Receipt, o: Id, line: Id)
    ensures ReceivedSum(receipts + [row], o, line)
         == ReceivedSum(receipts, o, line) + (if row.order == o && row.line == line then row.quantity else 0.0)
  {
    assert (receipts + [row])[..|receipts|] == receipts;
  }

  /** A receipt of another order changes nothing here. */
  lemma ForeignReceipt(db: Db, approvals: seq<Approval>, row: Receipt, o: Id, f: OrderFile)
    requires Holds(db, approvals, o, f) && row.order != o
    ensures Holds(db.(receipts := db.receipts + [row]), approvals, o, f)
  {
    forall i | 0 <= i < |f.lines|
      ensures ReceivedSum(db.receipts + [row], o, f.lines[i].id) == f.lines[i].received
    {
      ReceivedSumAppend(db.receipts, row, o, f.lines[i].id);
    }
    if HasReceipt(db.receipts + [row], o) {
      var i :| 0 <= i < |db.receipts + [row]| && (db.receipts + [row])[i].order == o;
      assert db.receipts[i].order == o;
    }
  }

  /** A freshly inserted order. */
  lemma InsertedOk(db: Db, approvals: seq<Approval>, row: Order, lines: seq<Line>, now: Time)
    requires InsertOrder(db, row, lines, now).Ok?
    requires SerialOk(db)
    requires row.payloadId == "" && (row.status == Draft || row.status == Sent || row.status == Confirmed)
    requires forall i :: 0 <= i < |lines| ==> lines[i].quantity > 0.0 && lines[i].received == 0.0
    ensures Holds(db, approvals, db.serial, InsertOrder(db, row, lines, now).value.files[db.serial])
  {
    var f := InsertOrder(db, row, lines, now).value.files[db.serial];
    NoConfirmations(f);
    assert !HasReceipt(db.receipts, db.serial);
    forall i | 0 <= i < |f.lines|
      ensures f.lines[i].received == ReceivedSum(db.receipts, db.serial, f.lines[i].id)
    {
      NoReceipts(db.receipts, db.serial, f.lines[i].id);
    }
  }

  /** History only grows. */
  lemma MoreApprovals(db: Db, approvals: seq<Approval>, a: Approval, o: Id, f: OrderFile)
    requires Holds(db, approvals, o, f)
    ensures Holds(db, approvals + [a], o, f)
  {
    if f.claim.Some? && f.claim.value.provider == Amazon {
      var lines := ToPayloadLines(f.lines);
      var i :| 0 <= i < |approvals| && ApprovesCart(approvals[i], f.order.requisition, f.order.session, lines);
      assert (approvals + [a])[i] == approvals[i];
    }
  }

  // ---------- submission ----------

  /** The Amazon claim: the payload is the distinctly approved cart. */
  lemma AmazonClaimKeeps(db: Db, approvals: seq<Approval>, user: Id, send: SendRequest, exact: bool,
      configured: bool, payloadId: string, now: Time)
    requires AmazonReady(db, send, exact, configured) && payloadId != ""
    requires Holds(db, approvals, send.order, db.files[send.order])
    requires ApprovalsOk(db.requisitions, approvals)
    requires CommitAmazonClaim(db, user, send.order, payloadId, now).Ok?
    ensures Holds(db, approvals, send.order,
                  CommitAmazonClaim(db, user, send.order, payloadId, now).value.files[send.order])
  {
    var o := send.order;
    var f := db.files[o];
    var g := CommitAmazonClaim(db, user, o, payloadId, now).value.files[o];
    var r := db.requisitions[f.order.requisition.value];
    var lines := ToPayloadLines(f.lines);
    assert ApprovedCart(approvals, f.order.requisition, f.order.session, lines) by {
      var a := Approved(f.order.requisition.value, r, r.approvedBy.value);
      assert WasApproved(approvals, a);
      var i :| 0 <= i < |approvals| && approvals[i] == a;
      assert ApprovesCart(approvals[i], f.order.requisition, f.order.session, lines);
    }
    assert g.lines == f.lines && g.confirmations == f.confirmations;
    assert ReferencesOk(db.catalog, db.requisitions, g);
    assert ClaimOk(approvals, g);
    assert ReceiptsOk(db.receipts, o, g);
  }

  /** Reviewed prices change prices only. */
  lemma PricedKeep(catalog: Catalog, supplier: Id, lines: seq<Line>, prices: map<string, int>)
    requires LinesOk(lines) && ActiveLineProducts(catalog, lines)
    requires forall i :: 0 <= i < |lines| ==> lines[i].received == 0.0
    ensures var priced := PricedLines(catalog, supplier, lines, prices);
            && LinesOk(priced) && ActiveLineProducts(catalog, priced)
            && forall i :: 0 <= i < |priced| ==> priced[i].received == 0.0
  {
    var priced := PricedLines(catalog, supplier, lines, prices);
    assert forall i :: 0 <= i < |priced| ==> priced[i].id == lines[i].id && priced[i].quantity == lines[i].quantity;
    assert forall i :: 0 <= i < |priced| ==>
             priced[i].received == lines[i].received && priced[i].product == lines[i].product;
  }

  lemma ReadyLines(db: Db, send: SendRequest, configured: bool, now: Time)
    requires AdamHallReady(db, send, configured, now)
    ensures var f := db.files[send.order];
            && f.order.status == Draft && f.order.session.None? && f.order.payloadId == "" && f.confirmations == map[]
            && f.claim.None?
            && ActiveLineProducts(db.catalog, f.lines) && forall i :: 0 <= i < |f.lines| ==> f.lines[i].received == 0.0
  {
    var f := db.files[send.order];
    assert forall i :: 0 <= i < |f.lines| ==> AdamHallLine(db.catalog, f.order.supplier, f.lines[i], now);
  }

  /** The Adam Hall claim: reviewed prices on an untouched draft. */
  lemma AdamHallClaimKeeps(db: Db, approvals: seq<Approval>, user: Id, send: SendRequest, configured: bool,
      payloadId: string, now: Time)
    requires AdamHallReady(db, send, configured, now) && payloadId != ""
    requires Holds(db, approvals, send.order, db.files[send.order])
    requires CommitAdamHallClaim(db, user, send.order, send.checkout.value, payloadId, now).Ok?
    ensures Holds(db, approvals, send.order,
                  CommitAdamHallClaim(db, user, send.order, send.checkout.value, payloadId, now).value
                  .files[send.order])
  {
    ReadyLines(db, send, configured, now);
    PricedClaimKeeps(db, approvals, user, send.order, send.checkout.value, payloadId, now);
  }

  lemma PricedClaimKeeps(db: Db, approvals: seq<Approval>, user: Id, o: Id, checkout: Checkout, payloadId: string,
      now: Time)
    requires o in db.files && Holds(db, approvals, o, db.files[o]) && payloadId != ""
    requires var f := db.files[o];
             && f.order.status == Draft && f.order.session.None? && f.order.payloadId == "" && f.confirmations == map[]
             && ActiveLineProducts(db.catalog, f.lines) && forall i :: 0 <= i < |f.lines| ==> f.lines[i].received == 0.0
    requires CommitAdamHallClaim(db, user, o, checkout, payloadId, now).Ok?
    ensures Holds(db, approvals, o, CommitAdamHallClaim(db, user, o, checkout, payloadId, now).value.files[o])
  {
    var f := db.files[o];
    var lines := PricedLines(db.catalog, f.order.supplier, f.lines, checkout.prices);
    PricedKeep(db.catalog, f.order.supplier, f.lines, checkout.prices);
    DraftLinesKeep(db, approvals, o, lines, now);
    var g := CommitAdamHallClaim(db, user, o, checkout, payloadId, now).value.files[o];
    assert g.lines == lines;
    assert ReferencesOk(db.catalog, db.requisitions, g);
    assert ClaimOk(approvals, g);
    NoConfirmations(g);
  }

  /** Saving the outcome touches the claim only. */
  lemma OutcomeKeeps(db: Db, approvals: seq<Approval>, o: Id, status: ClaimStatus, outcome: Outcome)
    requires o in db.files && Holds(db, approvals, o, db.files[o])
    requires db.files[o].claim.Some? && db.files[o].claim.value.status == Pending
    requires PossibleOutcome(db.files[o].claim.value.provider, status, outcome)
    ensures RecordOutcome(db, o, status, outcome).Ok?
    ensures Holds(db, approvals, o, RecordOutcome(db, o, status, outcome).value.files[o])
  {
    var f := db.files[o];
    var g := RecordOutcome(db, o, status, outcome).value.files[o];
    assert g == f.(claim := g.claim);
    assert ReceiptsOk(db.receipts, o, g) by {
      assert forall i :: 0 <= i < |f.lines| ==> WithinAccepted(f, f.lines[i]) == WithinAccepted(g, g.lines[i]);
    }
  }

  /** In a reachable state finalization of a saved outcome always succeeds. */
  lemma FinalizeSucceeds(db: Db, approvals: seq<Approval>, o: Id, key: Option<Key>, now: Time)
    requires o in db.files && Holds(db, approvals, o, db.files[o])
    requires db.files[o].claim.Some? && db.files[o].claim.value.status != Pending
    requires key.Some? ==> key.value in db.records
    ensures Finalize(db, o, key, now).Ok?
  {
  }

  lemma FinalizeKeeps(db: Db, approvals: seq<Approval>, o: Id, key: Option<Key>, now: Time)
    requires o in db.files && Holds(db, approvals, o, db.files[o])
    requires db.files[o].claim.Some? && db.files[o].claim.value.status != Pending
    requires Finalize(db, o, key, now).Ok?
    ensures Holds(db, approvals, o, Finalize(db, o, key, now).value.files[o])
    ensures Finalize(db, o, key, now).value.files[o].claim == db.files[o].claim
  {
    var f := db.files[o];
    if f.order.status == Submitting {
      HeaderKeeps(db, approvals, o, SettledOrder(f.claim.value, f.order, now), now);
    }
  }

  // ---------- confirmations ----------

  /** New confirmation rows on a claimed PunchOut order that has received nothing countable yet. */
  lemma RowsReplaced(db: Db, approvals: seq<Approval>, o: Id, f: OrderFile, rows: map<ConfirmationKey, ConfirmationRow>)
    requires Holds(db, approvals, o, f)
    requires f.order.payloadId != "" && !ReceivedStatus(f.order.status)
    requires Confirmations.NonNegative(rows) && Confirmations.WithinQuantities(rows, f.lines)
    ensures Holds(db, approvals, o, f.(confirmations := rows))
  {
    var g := f.(confirmations := rows);
    assert ReferencesOk(db.catalog, db.requisitions, g);
    assert ClaimOk(approvals, g);
    assert ReceiptsOk(db.receipts, o, g);
  }

  lemma ConfirmedStep(f: OrderFile, status: OrderStatus, numbers: set<string>, text: string)
    requires !ReceivedStatus(f.order.status) && (f.order.status == Cancelled ==> status == Cancelled)
    requires status == Cancelled || status == Confirmed || status == PartiallyConfirmed || status == Sent
    ensures HeaderStep(f, Confirmations.ConfirmedOrder(f.order, status, numbers, text))
  {
  }

  lemma ConfirmKeeps(db: Db, approvals: seq<Approval>, o: Id, m: Confirmations.Message, text: string, now: Time)
    requires Confirmations.Parsed(m) && Confirmations.Apply(db, o, m, text, now).Ok?
    requires o in db.files && Holds(db, approvals, o, db.files[o])
    ensures Holds(db, approvals, o, Confirmations.Apply(db, o, m, text, now).value.files[o])
    ensures Confirmations.Apply(db, o, m, text, now).value.files[o].claim == db.files[o].claim
  {
    if Confirmations.Precheck(db, o, m).None? {
      var f := db.files[o];
      Confirmations.NextRowsNonNegative(f, m);
      var rows := Confirmations.NextRows(f, m).value;
      var status := Confirmations.StatusAfter(f.order, rows, f.lines);
      RowsReplaced(db, approvals, o, f, rows);
      CommitKeeps(db, approvals, o, m, rows, status, text, now);
    }
  }

  lemma CommitKeeps(db: Db, approvals: seq<Approval>, o: Id, m: Confirmations.Message,
      rows: map<ConfirmationKey, ConfirmationRow>, status: OrderStatus, text: string, now: Time)
    requires o in db.files && Holds(db, approvals, o, db.files[o].(confirmations := rows))
    requires !ReceivedStatus(db.files[o].order.status)
    requires status == Cancelled || status == Confirmed || status == PartiallyConfirmed || status == Sent
    requires Confirmations.Commit(db, o, m, rows, status, text, now).Ok?
    ensures Holds(db, approvals, o, Confirmations.Commit(db, o, m, rows, status, text, now).value.files[o])
    ensures Confirmations.Commit(db, o, m, rows, status, text, now).value.files[o].claim == db.files[o].claim
  {
    var f := db.files[o];
    var merged := db.(files := db.files[o := f.(confirmations := rows)]);
    var numbers := Confirmations.AcceptedNumbers(rows, f.lines);
    ConfirmedStep(merged.files[o], status, numbers, text);
    HeaderKeeps(merged, approvals, o, Confirmations.ConfirmedOrder(f.order, status, numbers, text), now);
  }

  // ---------- goods receipts ----------

  lemma PositionUnique(lines: seq<Line>, p: nat)
    requires Numbered(lines) && p < |lines|
    ensures forall i :: 0 <= i < |lines| && i != p ==> lines[i].id != lines[p].id
  {
    forall i | 0 <= i < |lines| && i != p
      ensures lines[i].id != lines[p].id
    {
      if i < p { assert lines[i].id < lines[p].id; } else { assert lines[p].id < lines[i].id; }
    }
  }

  /** The booked line within what Amazon accepted, and the other lines as before. */
  lemma BookedWithin(f: OrderFile, g: OrderFile, p: nat, quantity: real)
    requires p < |f.lines| && LinesOk(f.lines) && ConfirmationsOk(f)
    requires g.lines == f.lines[p := f.lines[p].(received := f.lines[p].received + quantity)]
    requires g.confirmations == f.confirmations && g.order.session == f.order.session
    requires !GoodsReceipts.BeyondConfirmed(f, f.lines[p].id, f.lines[p].received + quantity)
    requires forall i :: 0 <= i < |f.lines| ==> f.lines[i].received == 0.0 || WithinAccepted(f, f.lines[i])
    ensures forall i :: 0 <= i < |g.lines| ==> WithinAccepted(g, g.lines[i])
    ensures ConfirmationsOk(g) && LinesOk(f.lines)
  {
    forall i | 0 <= i < |g.lines|
      ensures WithinAccepted(g, g.lines[i])
    {
      if i != p && f.lines[i].received == 0.0 {
        Confirmations.SumCellsNonNegative(f.confirmations, Confirmations.LineKeys(f.confirmations, f.lines[i].id),
                                          Confirmations.AcceptedColumn);
      } else if i != p {
        assert WithinAccepted(f, f.lines[i]);
      }
    }
  }

  lemma BookedSums(receipts: seq<Receipt>, row: Receipt, o: Id, lines: seq<Line>, p: nat)
    requires p < |lines| && Numbered(lines) && row.order == o && row.line == lines[p].id
    requires forall i :: 0 <= i < |lines| ==> lines[i].received == ReceivedSum(receipts, o, lines[i].id)
    ensures forall i :: 0 <= i < |lines| ==>
              ReceivedSum(receipts + [row], o, lines[i].id)
                == lines[i].received + (if i == p then row.quantity else 0.0)
  {
    PositionUnique(lines, p);
    forall i | 0 <= i < |lines|
      ensures ReceivedSum(receipts + [row], o, lines[i].id)
           == lines[i].received + (if i == p then row.quantity else 0.0)
    {
      ReceivedSumAppend(receipts, row, o, lines[i].id);
    }
  }

  /** The receipt's commercial effect on the file. */
  function Booked(f: OrderFile, p: nat, quantity: real, order: Order): OrderFile
    requires p < |f.lines|
  {
    f.(lines := f.lines[p := f.lines[p].(received := f.lines[p].received + quantity)], order := order)
  }

  /** Line, receipt row and status together. */
  lemma BookOrderKeeps(db: Db, approvals: seq<Approval>, o: Id, p: nat, quantity: real, row: Receipt, now: Time)
    requires o in db.files && Holds(db, approvals, o, db.files[o])
    requires GoodsReceipts.Receivable(db.files[o].order.status)
    requires p < |db.files[o].lines| && quantity > 0.0
    requires row.order == o && row.line == db.files[o].lines[p].id && row.quantity == quantity
    requires !GoodsReceipts.BeyondConfirmed(db.files[o], row.line, db.files[o].lines[p].received + quantity)
    requires GoodsReceipts.BookOrder(db, o, p, quantity, row, now).Ok?
    ensures Holds(db.(receipts := db.receipts + [row]), approvals, o,
                  GoodsReceipts.BookOrder(db, o, p, quantity, row, now).value.files[o])
    ensures GoodsReceipts.BookOrder(db, o, p, quantity, row, now).value.files[o].claim == db.files[o].claim
  {
    BookedShape(db, o, p, quantity, row, now);
    BookedOk(db, approvals, o, p, quantity, row, GoodsReceipts.BookOrder(db, o, p, quantity, row, now).value.files[o]);
  }

  lemma BookedOk(db: Db, approvals: seq<Approval>, o: Id, p: nat, quantity: real, row: Receipt, g: OrderFile)
    requires BookedFrom(db, o, p, quantity, g) && Holds(db, approvals, o, db.files[o])
    requires row.order == o && row.line == db.files[o].lines[p].id && row.quantity == quantity
    requires !GoodsReceipts.BeyondConfirmed(db.files[o], row.line, db.files[o].lines[p].received + quantity)
    ensures Holds(db.(receipts := db.receipts + [row]), approvals, o, g)
  {
    var f := db.files[o];
    assert forall i :: 0 <= i < |g.lines| ==> WithinAccepted(g, g.lines[i]) by {
      BookedWithin(f, g, p, quantity);
    }
    assert ConfirmationsOk(g) by {
      BookedWithin(f, g, p, quantity);
    }
    BookedSums(db.receipts, row, o, f.lines, p);
    BookedHolds(db, approvals, o, p, quantity, row, g);
  }

  /** What BookOrder leaves: one line raised, the header kept but for status and version. */
  lemma BookedShape(db: Db, o: Id, p: nat, quantity: real, row: Receipt, now: Time)
    requires o in db.files && p < |db.files[o].lines|
    requires GoodsReceipts.BookOrder(db, o, p, quantity, row, now).Ok?
    ensures var g := GoodsReceipts.BookOrder(db, o, p, quantity, row, now).value.files[o];
            var f := db.files[o];
            && g == Booked(f, p, quantity, g.order)
            && g.order == f.order.(status := g.order.status, version := g.order.version)
            && g.order.version > f.order.version
            && g.order.status == (if GoodsReceipts.Short(g.lines) then PartiallyReceived else Received)
            && !f.order.archived
            && (g.order.status == PartiallyReceived ==>
                  ActiveSupplier(db.catalog, g.order.supplier)
                  && UnarchivedRequisition(db.requisitions, g.order.requisition))
    ensures GoodsReceipts.BookOrder(db, o, p, quantity, row, now).value
         == db.(receipts := db.receipts + [row],
                files := db.files[o := GoodsReceipts.BookOrder(db, o, p, quantity, row, now).value.files[o]])
  {
  }

  /** The order row, its line and the status after booking, given the receipts with the new row. */
  predicate BookedFrom(db: Db, o: Id, p: nat, quantity: real, g: OrderFile) {
    && o in db.files && p < |db.files[o].lines| && quantity > 0.0
    && var f := db.files[o];
       && GoodsReceipts.Receivable(f.order.status) && !f.order.archived
       && g == Booked(f, p, quantity, g.order)
       && g.order == f.order.(status := g.order.status, version := g.order.version)
       && g.order.status == (if GoodsReceipts.Short(g.lines) then PartiallyReceived else Received)
  }

  lemma BookedClaim(db: Db, approvals: seq<Approval>, o: Id, p: nat, quantity: real, g: OrderFile)
    requires BookedFrom(db, o, p, quantity, g) && ClaimOk(approvals, db.files[o])
    ensures ClaimOk(approvals, g)
  {
    assert ToPayloadLines(g.lines) == ToPayloadLines(db.files[o].lines);
  }

  lemma BookedReferences(db: Db, o: Id, p: nat, quantity: real, g: OrderFile)
    requires BookedFrom(db, o, p, quantity, g) && ReferencesOk(db.catalog, db.requisitions, db.files[o])
    requires LinesOk(db.files[o].lines)
    ensures ReferencesOk(db.catalog, db.requisitions, g) && LinesOk(g.lines) && ArchiveOk(g)
  {
  }

  lemma BookedHolds(db: Db, approvals: seq<Approval>, o: Id, p: nat, quantity: real, row: Receipt, g: OrderFile)
    requires BookedFrom(db, o, p, quantity, g) && Holds(db, approvals, o, db.files[o])
    requires forall i :: 0 <= i < |g.lines| ==> WithinAccepted(g, g.lines[i])
    requires forall i :: 0 <= i < |g.lines| ==>
              g.lines[i].received == ReceivedSum(db.receipts + [row], o, g.lines[i].id)
    requires ConfirmationsOk(g)
    ensures Holds(db.(receipts := db.receipts + [row]), approvals, o, g)
  {
    BookedClaim(db, approvals, o, p, quantity, g);
    BookedReferences(db, o, p, quantity, g);
    assert ReceiptsOk(db.receipts + [row], o, g);
  }
}
