/** When a goods receipt is booked, on the fields of the rows it reads, and what the preview asks for beyond that. */
module Booking {
  import opened Base
  import opened Schema
  import opened FileSteps
  import opened GoodsReceipts
  import Confirmations
  import Preservation
  import OfferTerms
  import Preview
  import Safety
  import Serials
  import Text
  import World

  // ---------- the serial numbers ----------

  /** Native receipts may give none; given ones are counted, non-blank, pairwise different and new to the house. */
  predicate SerialsFit(devices: seq<Device>, serials: seq<string>, count: int, guided: bool) {
    || (serials == [] && !guided)
    || (&& |serials| == count && Serials.AllNew(devices, serials)
        && forall i :: 0 <= i < |serials| ==> Text.Trim(serials[i]) != "")
  }

  lemma ValidMeans(serials: seq<string>)
    ensures ValidSerials(serials) <==>
              && (forall i :: 0 <= i < |serials| ==> Text.Trim(serials[i]) != "")
              && (forall i, j :: 0 <= i < j < |serials| ==> !Serials.Same(serials[i], serials[j]))
  {
    forall i | 0 <= i < |serials|
      ensures Fold(serials[i]) != "" <==> Text.Trim(serials[i]) != ""
    {
      assert |Fold(serials[i])| == |Text.Trim(serials[i])|;
    }
  }

  lemma NewDevicesIff(devices: seq<Device>, product: Id, input: ReceiptInput, guided: bool)
    requires input.quantity > 0.0 && input.quantity == input.quantity.Floor as real
    ensures NewDevices(devices, Individual, product, input, guided).Ok? <==>
              SerialsFit(devices, input.serials, input.quantity.Floor, guided)
  {
    ValidMeans(input.serials);
    var count := input.quantity.Floor;
    if input.serials == [] && !guided {
      NoSerials(devices, product, count);
    } else if |input.serials| == count && ValidSerials(input.serials) {
      GivenSerials(devices, product, input.serials);
    }
  }

  lemma {:induction false} NoSerials(devices: seq<Device>, product: Id, n: nat)
    ensures AddDevices(devices, product, [], n).Ok?
  {
    if n > 0 {
      NoSerials(devices, product, n - 1);
    }
  }

  lemma {:induction false} GivenSerials(devices: seq<Device>, product: Id, serials: seq<string>)
    requires ValidSerials(serials)
    ensures AddDevices(devices, product, Serials.TrimmedAll(serials), |serials|).Ok?
         <==> Serials.AllNew(devices, serials)
  {
    var trimmed := Serials.TrimmedAll(serials);
    ValidMeans(serials);
    if Serials.AllNew(devices, serials) {
      forall i | 0 <= i < |serials|
        ensures !SerialUsed(devices, serials[i])
      {
        Serials.SerialUsedMeans(devices, serials[i]);
      }
      Preview.DevicesAccepted(devices, product, serials, trimmed, |serials|);
    }
    if AddDevices(devices, product, trimmed, |serials|).Ok? {
      Serials.AddedDevices(devices, product, trimmed, |serials|);
      Serials.BookedAllNew(devices, AddDevices(devices, product, trimmed, |serials|).value, product, serials);
    }
  }

  // ---------- the warehouse ----------

  /** The target zone exists, is active, storable and free. */
  predicate ZoneFree(warehouse: Warehouse, zone: Option<Id>) {
    zone.Some? ==>
      && zone.value in warehouse.zones
      && warehouse.zones[zone.value].active && warehouse.zones[zone.value].storable
      && warehouse.zones[zone.value].available
  }

  /**
   The product is linked to an active warehouse product with a tracking mode, and pieces and serials fit that mode.
   */
  predicate StockFits(warehouse: Warehouse, product: Id, input: ReceiptInput, guided: bool) {
    && product in warehouse.links && warehouse.links[product] in warehouse.products
    && var row := warehouse.products[warehouse.links[product]];
       && row.active && (row.mode == Quantity || row.mode == Individual || row.mode == Untracked)
       && (row.mode == Individual ==>
             && input.quantity == input.quantity.Floor as real
             && SerialsFit(warehouse.devices, input.serials, input.quantity.Floor, guided))
       && ZoneFree(warehouse, input.zone)
  }

  lemma StockedIff(db: Db, line: Line, input: ReceiptInput, guided: bool)
    requires input.quantity > 0.0
    ensures Stocked(db, line, input, guided).Ok? <==>
              (line.product.Some? ==> StockFits(db.warehouse, line.product.value, input, guided))
  {
    if line.product.Some? && LinkedProduct(db.warehouse, line.product.value).Some? {
      var w := LinkedProduct(db.warehouse, line.product.value).value;
      assert db.warehouse.products[w].mode == Individual && Whole(input.quantity) ==>
          (NewDevices(db.warehouse.devices, Individual, w, input, guided).Ok? <==>
             SerialsFit(db.warehouse.devices, input.serials, input.quantity.Floor, guided)) by {
        if Whole(input.quantity) {
          NewDevicesIff(db.warehouse.devices, w, input, guided);
        }
      }
    }
  }

  // ---------- the receipt ----------

  /** The order awaits goods, the version is right, and the line may take this much. */
  ghost predicate LineFits(f: OrderFile, p: nat, input: ReceiptInput, guided: bool)
    requires p < |f.lines|
  {
    var total := f.lines[p].received + input.quantity;
    && (|| f.order.status == Sent || f.order.status == Confirmed || f.order.status == PartiallyConfirmed
        || f.order.status == PartiallyReceived)
    && (input.expectedVersion.Some? ==> input.expectedVersion.value == f.order.version)
    && (guided ==> input.expectedVersion.Some?)
    && f.lines[p].id == input.line
    && (total <= f.lines[p].quantity || input.allowOverdelivery)
    && (f.order.session.Some? && (exists k :: k in f.confirmations && k.line == input.line) ==>
          total <= Confirmations.Accepted(f.confirmations, input.line) + Confirmations.EPSILON)
  }

  /** Everything a booked receipt rests on. */
  ghost predicate Bookable(db: Db, o: Id, input: ReceiptInput, guided: bool) {
    && o in db.files
    && var f := db.files[o];
       var p := Confirmations.Position(f.lines, input.line);
       && p < |f.lines| && LineFits(f, p, input, guided)
       && (f.lines[p].product.Some? ==> StockFits(db.warehouse, f.lines[p].product.value, input, guided))
  }

  lemma ConfirmedMeans(f: OrderFile, line: Id, total: real)
    ensures BeyondConfirmed(f, line, total) <==>
              && f.order.session.Some? && (exists k :: k in f.confirmations && k.line == line)
              && total > Confirmations.Accepted(f.confirmations, line) + Confirmations.EPSILON
  {
    if exists k :: k in f.confirmations && k.line == line {
      var k :| k in f.confirmations && k.line == line;
      assert k in Confirmations.LineKeys(f.confirmations, line);
    }
    if Confirmations.LineKeys(f.confirmations, line) != {} {
      var k :| k in Confirmations.LineKeys(f.confirmations, line);
      assert k in f.confirmations && k.line == line;
    }
  }

  lemma BookableRests(db: Db, o: Id, input: ReceiptInput, guided: bool, user: Id, now: Time)
    requires input.quantity > 0.0 && Receive(db, o, input, guided, user, now).Ok?
    ensures Bookable(db, o, input, guided)
  {
    var f := db.files[o];
    var p := Confirmations.Position(f.lines, input.line);
    ConfirmedMeans(f, input.line, f.lines[p].received + input.quantity);
    StockedIff(db, f.lines[p], input, guided);
  }

  lemma BookableBooks(db: Db, approvals: seq<World.Approval>, o: Id, input: ReceiptInput, guided: bool, user: Id,
      now: Time)
    requires input.quantity > 0.0 && Bookable(db, o, input, guided) && Holds(db, approvals, o, db.files[o])
    ensures Receive(db, o, input, guided, user, now).Ok?
  {
    var f := db.files[o];
    var p := Confirmations.Position(f.lines, input.line);
    ConfirmedMeans(f, input.line, f.lines[p].received + input.quantity);
    StockedIff(db, f.lines[p], input, guided);
    var stocked := Stocked(db, f.lines[p], input, guided).value;
    Preservation.StockedShape(db, f.lines[p], input, guided);
    assert Holds(stocked, approvals, o, f);
    assert ActiveProduct(db.catalog, f.lines[p].product);
    Preview.BooksWhenReady(stocked, approvals, o, p, input.quantity, ReceiptRow(db, o, f.lines[p], input, user), now);
  }

  /** In every reachable state a receipt is booked if and only if order, line, confirmations and warehouse allow it. */
  lemma {:induction false} BookedIff(actions: seq<World.Action>, o: Id, input: ReceiptInput, guided: bool, user: Id,
      now: Time)
    requires input.quantity > 0.0
    ensures Receive(World.Run(World.Init(), actions).db, o, input, guided, user, now).Ok? <==>
              Bookable(World.Run(World.Init(), actions).db, o, input, guided)
  {
    var w := World.Run(World.Init(), actions);
    Safety.Reached(actions);
    if Receive(w.db, o, input, guided, user, now).Ok? {
      BookableRests(w.db, o, input, guided, user, now);
    } else if Bookable(w.db, o, input, guided) {
      assert Holds(w.db, w.approvals, o, w.db.files[o]);
      BookableBooks(w.db, w.approvals, o, input, guided, user, now);
    }
  }

  lemma ReceiveTransacts(db: Db, a: World.Action)
    requires a.Receive?
    ensures 0.0 < a.receipt.quantity <= 1_000_000_000.0 ==>
              World.Transaction(db, a) == Receive(db, a.id, a.receipt, a.guided, a.user, a.now)
    ensures World.Transaction(db, a).Ok? ==> 0.0 < a.receipt.quantity <= 1_000_000_000.0
  {
  }

  /** As a request of the whole system: of a positive quantity up to a limit, and bookable. */
  lemma {:induction false} ReceivesIff(actions: seq<World.Action>, a: World.Action)
    requires a.Receive?
    ensures World.Transaction(World.Run(World.Init(), actions).db, a).Ok? <==>
              && 0.0 < a.receipt.quantity && a.receipt.quantity <= 1_000_000_000.0
              && Bookable(World.Run(World.Init(), actions).db, a.id, a.receipt, a.guided)
  {
    ReceiveTransacts(World.Run(World.Init(), actions).db, a);
    if a.receipt.quantity > 0.0 {
      BookedIff(actions, a.id, a.receipt, a.guided, a.user, a.now);
    }
  }

  // ---------- what it leaves ----------

  /** One line received more; nothing else of the order but its status and version is different. */
  predicate LineBooked(f: OrderFile, g: OrderFile, p: nat, quantity: real)
    requires p < |f.lines|
  {
    && g.lines == f.lines[p := f.lines[p].(received := f.lines[p].received + quantity)]
    && g == f.(order := f.order.(status := g.order.status, version := g.order.version), lines := g.lines)
    && g.order.version > f.order.version
    && (g.order.status == Received <==> forall i :: 0 <= i < |g.lines| ==> g.lines[i].received >= g.lines[i].quantity)
    && (g.order.status != Received ==> g.order.status == PartiallyReceived)
  }

  /** The receipt row of what was asked for, by the user who asked. */
  predicate Noted(row: Receipt, o: Id, input: ReceiptInput, user: Id) {
    row.order == o && row.line == input.line && row.quantity == input.quantity && row.receivedBy == user
  }

  /** A line without a product leaves the warehouse alone. */
  predicate NothingStored(db: Db, db': Db, row: Receipt) {
    && db'.warehouse == db.warehouse && db'.serial == db.serial
    && row.warehouse.None? && row.zone.None? && row.task.None? && row.applied == 0.0
  }

  function Amount(stock: map<Location, real>, at: Location): real {
    if at in stock then stock[at] else 0.0
  }

  /** One putaway task of the quantity; stock grows at one place, and only of products counted by quantity. */
  ghost predicate Stored(db: Db, db': Db, row: Receipt, product: Id, input: ReceiptInput)
    requires product in db.warehouse.products
  {
    var place := Location(product, input.zone);
    var mode := db.warehouse.products[product].mode;
    && row.warehouse == Some(product) && row.mode == mode && row.zone == input.zone && row.task == Some(db.serial)
    && row.applied == (if mode == Untracked then 0.0 else input.quantity)
    && db'.warehouse.tasks == db.warehouse.tasks[db.serial := Task(product, input.quantity, input.zone, false)]
    && db'.serial == db.serial + 1
    && (forall at :: Amount(db'.warehouse.stock, at) ==
                       Amount(db.warehouse.stock, at)
                       + (if mode == Quantity && at == place then input.quantity else 0.0))
    && (mode != Individual ==> db'.warehouse.devices == db.warehouse.devices)
    && db'.warehouse.links == db.warehouse.links && db'.warehouse.products == db.warehouse.products
    && db'.warehouse.zones == db.warehouse.zones
  }

  lemma StockLeaves(db: Db, o: Id, line: Line, input: ReceiptInput, guided: bool, user: Id)
    requires Stocked(db, line, input, guided).Ok? && input.quantity > 0.0
    ensures var db' := Stocked(db, line, input, guided).value;
            var row := ReceiptRow(db, o, line, input, user);
            if line.product.None? then NothingStored(db, db', row)
            else
              && line.product.value in db.warehouse.links
              && db.warehouse.links[line.product.value] in db.warehouse.products
              && Stored(db, db', row, db.warehouse.links[line.product.value], input)
  {
  }

  /**
   What a booked receipt leaves: the line's quantity, the order's status by what is still missing, one receipt row, and
   for a line with a product one putaway task, the stock of one place, or devices.
   */
  lemma ReceiptLeaves(db: Db, o: Id, input: ReceiptInput, guided: bool, user: Id, now: Time)
    requires input.quantity > 0.0 && Receive(db, o, input, guided, user, now).Ok?
    ensures o in db.files && Confirmations.Position(db.files[o].lines, input.line) < |db.files[o].lines|
    ensures var db' := Receive(db, o, input, guided, user, now).value;
            var p := Confirmations.Position(db.files[o].lines, input.line);
            var line := db.files[o].lines[p];
            && o in db'.files && db'.files == db.files[o := db'.files[o]]
            && LineBooked(db.files[o], db'.files[o], p, input.quantity)
            && |db'.receipts| == |db.receipts| + 1 && db.receipts <= db'.receipts
            && var row := db'.receipts[|db.receipts|];
               && Noted(row, o, input, user)
               && (if line.product.None? then NothingStored(db, db', row)
                   else
                     && line.product.value in db.warehouse.links
                     && db.warehouse.links[line.product.value] in db.warehouse.products
                     && Stored(db, db', row, db.warehouse.links[line.product.value], input))
  {
    var p := Confirmations.Position(db.files[o].lines, input.line);
    var line := db.files[o].lines[p];
    var stocked := Stocked(db, line, input, guided).value;
    var row := ReceiptRow(db, o, line, input, user);
    StockLeaves(db, o, line, input, guided, user);
    Preservation.StockedShape(db, line, input, guided);
    LineLeaves(stocked, o, p, input.quantity, row, now);
  }

  lemma LineLeaves(db: Db, o: Id, p: nat, quantity: real, row: Receipt, now: Time)
    requires o in db.files && p < |db.files[o].lines| && BookOrder(db, o, p, quantity, row, now).Ok?
    ensures var db' := BookOrder(db, o, p, quantity, row, now).value;
            && o in db'.files && LineBooked(db.files[o], db'.files[o], p, quantity)
            && db' == db.(receipts := db.receipts + [row], files := db.files[o := db'.files[o]])
  {
    BookedShape(db, o, p, quantity, row, now);
  }

  // ---------- the preview ----------

  /**
   What the preview asks for beyond booking: storable thousandths, short serials, no serials or zone where none apply.
   */
  ghost predicate PreviewLimits(db: Db, line: Line, input: ReceiptInput) {
    && (line.product.Some? ==>
          input.quantity <= 999999999.999 && exists n: int :: NearThousandths(input.quantity, n))
    && (forall i :: 0 <= i < |input.serials| ==> |Text.Trim(input.serials[i])| <= 255)
    && (if ByPiece(db.warehouse, line) then input.quantity <= 1000.0 else input.serials == [])
    && (line.product.None? ==> input.zone.None?)
  }

  /** The quantity is `n` thousandths up to the tolerance. */
  predicate NearThousandths(quantity: real, n: int) {
    -0.000001 <= quantity * 1000.0 - n as real <= 0.000001
  }

  /** The line's product is linked to an active warehouse product tracked piece by piece. */
  predicate ByPiece(warehouse: Warehouse, line: Line) {
    && line.product.Some? && line.product.value in warehouse.links
    && warehouse.links[line.product.value] in warehouse.products
    && warehouse.products[warehouse.links[line.product.value]] == WarehouseProduct(true, Individual)
  }

  lemma StorableMeans(q: real)
    ensures StorablePrecision(q) <==> q <= 999999999.999 && exists n: int :: NearThousandths(q, n)
  {
    var packs := q * 1000.0;
    OfferTerms.NearestWhole(packs, 0, 0.000001);
    if exists n: int :: NearThousandths(q, n) {
      var n: int :| NearThousandths(q, n);
      OfferTerms.NearestWhole(packs, n, 0.000001);
    }
    assert packs - packs.Floor as real <= 0.000001 ==> NearThousandths(q, packs.Floor);
    assert packs.Floor as real + 1.0 - packs <= 0.000001 ==> NearThousandths(q, packs.Floor + 1);
  }

  lemma ReadyRests(db: Db, approvals: seq<World.Approval>, o: Id, input: ReceiptInput)
    requires Bookable(db, o, input, true) && Holds(db, approvals, o, db.files[o]) && input.quantity > 0.0
    requires PreviewLimits(db, db.files[o].lines[Confirmations.Position(db.files[o].lines, input.line)], input)
    ensures PreviewReady(db, o, input)
  {
    var f := db.files[o];
    var p := Confirmations.Position(f.lines, input.line);
    ConfirmedMeans(f, input.line, f.lines[p].received + input.quantity);
    ValidMeans(input.serials);
    StorableMeans(input.quantity);
    assert ActiveProduct(db.catalog, f.lines[p].product);
    forall i | 0 <= i < |input.serials|
      ensures !SerialUsed(db.warehouse.devices, input.serials[i])
    {
      Serials.SerialUsedMeans(db.warehouse.devices, input.serials[i]);
    }
  }

  /** In every reachable state: ready in the preview, with a tracking mode, is the same as booked within its limits. */
  lemma {:induction false} ReadyIff(actions: seq<World.Action>, o: Id, input: ReceiptInput, user: Id, now: Time)
    requires input.quantity > 0.0
    ensures var db := World.Run(World.Init(), actions).db;
            var p := if o in db.files then Confirmations.Position(db.files[o].lines, input.line) else 0;
            (PreviewReady(db, o, input) && !ModeMissing(db, db.files[o].lines[p])) <==>
              && Receive(db, o, input, true, user, now).Ok?
              && PreviewLimits(db, db.files[o].lines[p], input)
  {
    var w := World.Run(World.Init(), actions);
    Safety.Reached(actions);
    StorableMeans(input.quantity);
    if PreviewReady(w.db, o, input) {
      Preview.PreviewIsSound(actions, o, input, user, now);
    } else if Receive(w.db, o, input, true, user, now).Ok? {
      BookableRests(w.db, o, input, true, user, now);
      assert Holds(w.db, w.approvals, o, w.db.files[o]);
      var p := Confirmations.Position(w.db.files[o].lines, input.line);
      if PreviewLimits(w.db, w.db.files[o].lines[p], input) {
        ReadyRests(w.db, w.approvals, o, input);
      }
    }
  }
}
