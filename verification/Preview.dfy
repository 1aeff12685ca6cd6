/** The goods-receipt preview keeps its word: what it calls ready is booked, with exactly the announced effects. */
module Preview {
  import opened Base
  import opened Schema
  import opened Triggers
  import opened Invariants
  import opened FileSteps
  import opened GoodsReceipts
  import opened Stock
  import Confirmations
  import Preservation
  import Safety
  import Text
  import World

  // ---------- serial numbers ----------

  lemma FoldTrim(serial: string)
    ensures Fold(Text.Trim(serial)) == Fold(serial)
  {
    Text.TrimMeaning(serial);
  }

  predicate Unused(devices: seq<Device>, serials: seq<string>) {
    forall i :: 0 <= i < |serials| ==> !SerialUsed(devices, serials[i])
  }

  function Trimmed(serials: seq<string>): (r: seq<string>)
    ensures |r| == |serials|
    ensures forall i :: 0 <= i < |serials| ==> r[i] == Text.Trim(serials[i])
  {
    seq(|serials|, i requires 0 <= i < |serials| => Text.Trim(serials[i]))
  }

  /** The devices before the receipt, and one per serial number behind them. */
  predicate DevicesAdded(devices: seq<Device>, product: Id, serials: seq<string>, n: nat, r: seq<Device>)
    requires n <= |serials|
  {
    && |r| == |devices| + n
    && (forall d :: 0 <= d < |devices| ==> r[d] == devices[d])
    && (forall d :: 0 <= d < n ==> r[|devices| + d] == Device(product, Some(Text.Trim(serials[d]))))
  }

  /** The next serial number is not among the devices so far. */
  lemma NextUnused(devices: seq<Device>, product: Id, serials: seq<string>, n: nat, before: seq<Device>)
    requires n < |serials| && ValidSerials(serials) && Unused(devices, serials)
    requires DevicesAdded(devices, product, serials, n, before)
    ensures !SerialUsed(before, Text.Trim(serials[n]))
  {
    FoldTrim(serials[n]);
    forall d | 0 <= d < |before| && before[d].serial.Some?
      ensures Fold(before[d].serial.value) != Fold(Text.Trim(serials[n]))
    {
      if d < |devices| {
        assert !SerialUsed(devices, serials[n]);
      } else {
        FoldTrim(serials[d - |devices|]);
        assert before[d] == Device(product, Some(Text.Trim(serials[d - |devices|])));
        assert Fold(serials[d - |devices|]) != Fold(serials[n]);
      }
    }
  }

  lemma OneMoreDevice(devices: seq<Device>, product: Id, serials: seq<string>, n: nat, before: seq<Device>)
    requires n < |serials| && DevicesAdded(devices, product, serials, n, before)
    ensures DevicesAdded(devices, product, serials, n + 1, before + [Device(product, Some(Text.Trim(serials[n])))])
  {
  }

  /** Distinct unused serial numbers are all accepted, one device each, in order. */
  lemma {:induction false} DevicesAccepted(devices: seq<Device>, product: Id, serials: seq<string>,
      trimmed: seq<string>, n: nat)
    requires n <= |serials| == |trimmed| && ValidSerials(serials) && Unused(devices, serials)
    requires forall i :: 0 <= i < |serials| ==> trimmed[i] == Text.Trim(serials[i])
    ensures AddDevices(devices, product, trimmed, n).Ok?
    ensures DevicesAdded(devices, product, serials, n, AddDevices(devices, product, trimmed, n).value)
  {
    if n > 0 {
      DevicesAccepted(devices, product, serials, trimmed, n - 1);
      var before := AddDevices(devices, product, trimmed, n - 1).value;
      NextUnused(devices, product, serials, n - 1, before);
      OneMoreDevice(devices, product, serials, n - 1, before);
    }
  }

  lemma SerialsNormalized(serials: seq<string>, quantity: int)
    requires ValidSerials(serials) && |serials| == quantity && quantity > 0
    ensures NormalizeSerials(serials, quantity, true) == Ok(Trimmed(serials))
  {
  }

  // ---------- warehouse ----------

  /** A ready receipt is stocked unless the mapped product has no tracking mode. */
  lemma StockedWhenReady(db: Db, f: OrderFile, input: ReceiptInput, p: nat)
    requires p <= |f.lines| && PreviewReadyFile(db, f, input, p)
    ensures Stocked(db, f.lines[p], input, true).Ok? <==> !ModeMissing(db, f.lines[p])
    ensures Stocked(db, f.lines[p], input, true).Err? ==> Stocked(db, f.lines[p], input, true).error == TrackingInvalid
  {
    if PreviewMode(db.warehouse, f.lines[p]) == Individual {
      SerialsNormalized(input.serials, input.quantity.Floor);
      DevicesAccepted(db.warehouse.devices, PreviewWarehouse(db.warehouse, f.lines[p]).value, input.serials,
                      Trimmed(input.serials), input.quantity.Floor);
    }
  }

  // ---------- order, line and status ----------

  /** Raising one received quantity is a line change every trigger allows. */
  lemma RaisingAllowed(db: Db, o: Id, p: nat, quantity: real)
    requires o in db.files && p < |db.files[o].lines| && !db.files[o].order.archived
    requires ActiveProduct(db.catalog, db.files[o].lines[p].product)
    ensures var lines := db.files[o].lines;
            LinesAllowed(db, o, lines[p := lines[p].(received := lines[p].received + quantity)])
  {
    var f := db.files[o];
    var lines := f.lines[p := f.lines[p].(received := f.lines[p].received + quantity)];
    assert CommercialLines(lines) == CommercialLines(f.lines);
    forall i | 0 <= i < |lines|
      ensures HasLine(f.lines, lines[i]) || ActiveProduct(db.catalog, lines[i].product)
    {
      assert i != p ==> f.lines[i] == lines[i];
    }
    forall i | 0 <= i < |f.lines|
      ensures HasLineId(lines, f.lines[i].id)
    {
      assert lines[i].id == f.lines[i].id;
    }
  }

  /** What the invariant says of an order that may receive goods. */
  lemma ReceivableOk(db: Db, approvals: seq<World.Approval>, o: Id)
    requires o in db.files && Holds(db, approvals, o, db.files[o]) && Receivable(db.files[o].order.status)
    ensures var f := db.files[o];
            && !f.order.archived && ActiveSupplier(db.catalog, f.order.supplier)
            && UnarchivedRequisition(db.requisitions, f.order.requisition)
            && (f.claim.Some? && f.claim.value.provider == Amazon ==> f.order.payloadId == f.claim.value.payloadId)
  {
  }

  /** In a reachable state the order rows of a ready receipt pass every trigger, twice. */
  lemma BooksWhenReady(db: Db, approvals: seq<World.Approval>, o: Id, p: nat, quantity: real, row: Receipt, now: Time)
    requires o in db.files && p < |db.files[o].lines|
    requires Holds(db, approvals, o, db.files[o])
    requires Receivable(db.files[o].order.status) && ActiveProduct(db.catalog, db.files[o].lines[p].product)
    ensures BookOrder(db, o, p, quantity, row, now).Ok?
  {
    ReceivableOk(db, approvals, o);
    RaisingAllowed(db, o, p, quantity);
    RowsPass(db, o, p, quantity, row, now);
  }

  lemma RowsPass(db: Db, o: Id, p: nat, quantity: real, row: Receipt, now: Time)
    requires o in db.files && p < |db.files[o].lines| && Receivable(db.files[o].order.status)
    requires var f := db.files[o];
             && !f.order.archived && ActiveSupplier(db.catalog, f.order.supplier)
             && UnarchivedRequisition(db.requisitions, f.order.requisition)
             && (f.claim.Some? && f.claim.value.provider == Amazon ==> f.order.payloadId == f.claim.value.payloadId)
             && LinesAllowed(db, o, f.lines[p := f.lines[p].(received := f.lines[p].received + quantity)])
    ensures BookOrder(db, o, p, quantity, row, now).Ok?
  {
  }

  // ---------- the theorem ----------

  /** The announced effects, and nothing else, are found in the database. */
  ghost predicate Carried(db: Db, db': Db, o: Id, p: nat, input: ReceiptInput, effects: Effects)
    requires o in db.files && p < |db.files[o].lines|
  {
    var line := db.files[o].lines[p];
    && o in db'.files && |db'.files[o].lines| == |db.files[o].lines|
    && db'.files[o].lines == db.files[o].lines[p := line.(received := effects.receivedAfter)]
    && (effects.overdelivery <==> effects.receivedAfter > line.quantity)
    && |db'.receipts| == |db.receipts| + 1 && db'.receipts[..|db.receipts|] == db.receipts
    && db'.receipts[|db.receipts|].quantity == input.quantity && db'.receipts[|db.receipts|].line == input.line
    && db'.receipts[|db.receipts|].warehouse == effects.warehouse && db'.receipts[|db.receipts|].mode == effects.mode
    && (forall product: Id :: DeviceCount(db'.warehouse.devices, product)
          == DeviceCount(db.warehouse.devices, product)
            + (if effects.warehouse == Some(product) then effects.devicesCreated else 0))
    && (forall at :: StockAt(db'.warehouse, at)
          == StockAt(db.warehouse, at)
            + (if effects.warehouse == Some(at.product) && at.zone == input.zone then effects.stockDelta else 0.0))
    && (if effects.putawayTask && effects.warehouse.Some?
        then
          var task := Task(effects.warehouse.value, input.quantity, input.zone, false);
          db'.warehouse.tasks == db.warehouse.tasks[db.serial := task]
        else db'.warehouse.tasks == db.warehouse.tasks)
  }

  lemma EffectsCarried(db: Db, o: Id, input: ReceiptInput, user: Id, now: Time)
    requires PreviewReady(db, o, input) && Receive(db, o, input, true, user, now).Ok?
    ensures var p := Confirmations.Position(db.files[o].lines, input.line);
            p < |db.files[o].lines|
            && Carried(db, Receive(db, o, input, true, user, now).value, o, p, input,
                       PreviewEffects(db.warehouse, db.files[o].lines[p], input))
  {
    var f := db.files[o];
    var p := Confirmations.Position(f.lines, input.line);
    ReceiveShape(db, o, input, true, user, now);
    LinesCarried(db, o, input, user, now);
    assert input.quantity > 0.0 && (f.lines[p].product.None? ==> input.zone.None?);
    CarriedBy(db, Receive(db, o, input, true, user, now).value, o, p, input, user);
  }

  /** A database of the receipt's shape carries the previewed effects. */
  lemma CarriedBy(db: Db, db': Db, o: Id, p: nat, input: ReceiptInput, user: Id)
    requires o in db.files && p < |db.files[o].lines| && db.files[o].lines[p].id == input.line && input.quantity > 0.0
    requires Stocked(db, db.files[o].lines[p], input, true).Ok?
    requires var row := ReceiptRow(db, o, db.files[o].lines[p], input, user);
             var stocked := Stocked(db, db.files[o].lines[p], input, true).value;
             db' == stocked.(receipts := db.receipts + [row], files := db'.files)
    requires o in db'.files
    requires db'.files[o].lines
         == db.files[o].lines[p := db.files[o].lines[p].(received := db.files[o].lines[p].received + input.quantity)]
    ensures Carried(db, db', o, p, input, PreviewEffects(db.warehouse, db.files[o].lines[p], input))
  {
    var line := db.files[o].lines[p];
    var effects := PreviewEffects(db.warehouse, line, input);
    forall product: Id
      ensures DeviceCount(db'.warehouse.devices, product)
           == DeviceCount(db.warehouse.devices, product)
             + (if effects.warehouse == Some(product) then effects.devicesCreated else 0)
    {
      StockedAdds(db, o, line, input, true, user, Location(0, None), product);
    }
    forall at
      ensures StockAt(db'.warehouse, at)
           == StockAt(db.warehouse, at)
             + (if effects.warehouse == Some(at.product) && at.zone == input.zone then effects.stockDelta else 0.0)
    {
      StockedAdds(db, o, line, input, true, user, at, 0);
    }
    assert db'.receipts[..|db.receipts|] == db.receipts;
  }

  lemma LinesCarried(db: Db, o: Id, input: ReceiptInput, user: Id, now: Time)
    requires Receive(db, o, input, true, user, now).Ok?
    ensures o in db.files && o in Receive(db, o, input, true, user, now).value.files
    ensures var f := db.files[o];
            var p := Confirmations.Position(f.lines, input.line);
            p < |f.lines|
            && Receive(db, o, input, true, user, now).value.files[o].lines
              == f.lines[p := f.lines[p].(received := f.lines[p].received + input.quantity)]
  {
    var f := db.files[o];
    var p := Confirmations.Position(f.lines, input.line);
    Preservation.StockedShape(db, f.lines[p], input, true);
    var stocked := Stocked(db, f.lines[p], input, true).value;
    BookedShape(stocked, o, p, input.quantity, ReceiptRow(db, o, f.lines[p], input, user), now);
  }

  /**
   In every reachable state a receipt the preview calls ready is booked, with the announced effects, if and only if
   the line's warehouse product has a tracking mode; without one the booking refuses it as an invalid tracking mode.
   */
  lemma PreviewIsSound(actions: seq<World.Action>, o: Id, input: ReceiptInput, user: Id, now: Time)
    requires PreviewReady(World.Run(World.Init(), actions).db, o, input)
    ensures var db := World.Run(World.Init(), actions).db;
            var p := Confirmations.Position(db.files[o].lines, input.line);
            p < |db.files[o].lines|
            && (Receive(db, o, input, true, user, now).Ok? <==> !ModeMissing(db, db.files[o].lines[p]))
            && (Receive(db, o, input, true, user, now).Err? ==>
                  Receive(db, o, input, true, user, now).error == TrackingInvalid)
            && (Receive(db, o, input, true, user, now).Ok? ==>
                  Carried(db, Receive(db, o, input, true, user, now).value, o, p, input,
                          PreviewEffects(db.warehouse, db.files[o].lines[p], input)))
  {
    var w := World.Run(World.Init(), actions);
    Safety.Reached(actions);
    ReadyIsBooked(w, o, input, user, now);
    if Receive(w.db, o, input, true, user, now).Ok? {
      EffectsCarried(w.db, o, input, user, now);
    }
  }

  lemma ReadyIsBooked(w: World.World, o: Id, input: ReceiptInput, user: Id, now: Time)
    requires Inv(w) && PreviewReady(w.db, o, input)
    ensures var p := Confirmations.Position(w.db.files[o].lines, input.line);
            p < |w.db.files[o].lines|
            && (Receive(w.db, o, input, true, user, now).Ok? <==> !ModeMissing(w.db, w.db.files[o].lines[p]))
            && (Receive(w.db, o, input, true, user, now).Err? ==>
                  Receive(w.db, o, input, true, user, now).error == TrackingInvalid)
  {
    assert Holds(w.db, w.approvals, o, w.db.files[o]);
    ReadyIsBookedIn(w.db, w.approvals, o, input, user, now);
  }

  lemma ReadyIsBookedIn(db: Db, approvals: seq<World.Approval>, o: Id, input: ReceiptInput, user: Id, now: Time)
    requires PreviewReady(db, o, input) && Holds(db, approvals, o, db.files[o])
    ensures var p := Confirmations.Position(db.files[o].lines, input.line);
            p < |db.files[o].lines|
            && (Receive(db, o, input, true, user, now).Ok? <==> !ModeMissing(db, db.files[o].lines[p]))
            && (Receive(db, o, input, true, user, now).Err? ==>
                  Receive(db, o, input, true, user, now).error == TrackingInvalid)
  {
    var f := db.files[o];
    var p := Confirmations.Position(f.lines, input.line);
    StockedWhenReady(db, f, input, p);
    if !ModeMissing(db, f.lines[p]) {
      var stocked := Stocked(db, f.lines[p], input, true).value;
      Preservation.StockedShape(db, f.lines[p], input, true);
      var row := ReceiptRow(db, o, f.lines[p], input, user);
      assert Holds(stocked, approvals, o, f);
      BooksWhenReady(stocked, approvals, o, p, input.quantity, row, now);
    }
  }
}
