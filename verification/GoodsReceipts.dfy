/** Booking a goods receipt and the separate preview that must agree with it. */
module GoodsReceipts {
  import opened Base
  import opened Schema
  import opened Triggers
  import Confirmations
  import Text

  datatype ReceiptInput = ReceiptInput(
    line: Id, quantity: real, serials: seq<string>, zone: Option<Id>, allowOverdelivery: bool,
    expectedVersion: Option<Time>)

  predicate Receivable(s: OrderStatus) {
    s == Sent || s == Confirmed || s == PartiallyConfirmed || s == PartiallyReceived
  }

  /** The order comes from Amazon and the line has confirmations: their accepted sum bounds what may arrive. */
  ghost predicate BeyondConfirmed(f: OrderFile, line: Id, total: real) {
    f.order.session.Some? && Confirmations.LineKeys(f.confirmations, line) != {}
    && total > Confirmations.Accepted(f.confirmations, line) + Confirmations.EPSILON
  }

  predicate ZoneUsable(warehouse: Warehouse, zone: Option<Id>) {
    zone.Some? ==> zone.value in warehouse.zones && warehouse.zones[zone.value] == Zone(true, true, true)
  }

  /** The warehouse product a procurement product is linked to and may be booked on. */
  function LinkedProduct(warehouse: Warehouse, product: Id): Option<Id> {
    if && product in warehouse.links && warehouse.links[product] in warehouse.products
       && warehouse.products[warehouse.links[product]].active
    then Some(warehouse.links[product])
    else None
  }

  // ---------- serial numbers ----------

  function Fold(serial: string): string {
    Text.Lower(Text.Trim(serial))
  }

  predicate ValidSerials(serials: seq<string>) {
    && (forall i :: 0 <= i < |serials| ==> Fold(serials[i]) != "")
    && (forall i, j :: 0 <= i < j < |serials| ==> Fold(serials[i]) != Fold(serials[j]))
  }

  /** normalizeReceiptSerials. */
  function NormalizeSerials(serials: seq<string>, quantity: int, required: bool): Result<seq<string>> {
    if serials == [] && !required then Ok([])
    else if quantity <= 0 || |serials| != quantity then Err(SerialCount)
    else if !ValidSerials(serials) then Err(SerialInvalid)
    else Ok(seq(|serials|, i requires 0 <= i < |serials| => Text.Trim(serials[i])))
  }

  predicate SerialUsed(devices: seq<Device>, serial: string) {
    exists d :: 0 <= d < |devices| && devices[d].serial.Some? && Fold(devices[d].serial.value) == Fold(serial)
  }

  /** The first `n` devices of the receipt, inserted one by one; each serial is checked against the devices so far. */
  function AddDevices(devices: seq<Device>, product: Id, serials: seq<string>, n: nat): Result<seq<Device>> {
    if n == 0 then Ok(devices)
    else
      var before :- AddDevices(devices, product, serials, n - 1);
      if n - 1 < |serials| then
        if SerialUsed(before, serials[n - 1]) then Err(SerialConflict)
        else Ok(before + [Device(product, Some(serials[n - 1]))])
      else Ok(before + [Device(product, None)])
  }

  // ---------- booking ----------

  function StockAt(warehouse: Warehouse, location: Location): real {
    if location in warehouse.stock then warehouse.stock[location] else 0.0
  }

  /** Stock, devices and putaway task of one receipt on a linked product. */
  function BookWarehouse(db: Db, product: Id, input: ReceiptInput, guided: bool): Result<Db> {
    var w := LinkedProduct(db.warehouse, product);
    if w.None? then Err(WarehouseProductRequired)
    else
      var mode := db.warehouse.products[w.value].mode;
      if mode == Unset || mode == Unsupported then Err(TrackingInvalid)
      else if mode == Individual && !Whole(input.quantity) then Err(FractionalDevices)
      else if !ZoneUsable(db.warehouse, input.zone) then Err(ZoneUnavailable)
      else
        var location := Location(w.value, input.zone);
        var total := StockAt(db.warehouse, location) + input.quantity;
        var stock := if mode == Quantity then db.warehouse.stock[location := total] else db.warehouse.stock;
        var devices :- NewDevices(db.warehouse.devices, mode, w.value, input, guided);
        var tasks := db.warehouse.tasks[db.serial := Task(w.value, input.quantity, input.zone, false)];
        Ok(db.(warehouse := db.warehouse.(stock := stock, devices := devices, tasks := tasks), serial := db.serial + 1))
  }

  function NewDevices(devices: seq<Device>, mode: Mode, product: Id, input: ReceiptInput,
      guided: bool): Result<seq<Device>> {
    if mode != Individual then Ok(devices)
    else
      var serials :- NormalizeSerials(input.serials, input.quantity.Floor, guided);
      AddDevices(devices, product, serials, if input.quantity.Floor > 0 then input.quantity.Floor else 0)
  }

  function ReceiptRow(db: Db, o: Id, line: Line, input: ReceiptInput, user: Id): Receipt {
    var w := if line.product.Some? then LinkedProduct(db.warehouse, line.product.value) else None;
    var mode := if w.Some? && w.value in db.warehouse.products then db.warehouse.products[w.value].mode else Unset;
    Receipt(o, line.id, input.quantity, user, w, mode,
            if mode == Quantity || mode == Individual then input.quantity else 0.0,
            if w.Some? then input.zone else None, if w.Some? then Some(db.serial) else None)
  }

  /** Warehouse booking of a line; a line without a product books nothing. */
  function Stocked(db: Db, line: Line, input: ReceiptInput, guided: bool): Result<Db> {
    if line.product.Some? then BookWarehouse(db, line.product.value, input, guided) else Ok(db)
  }

  predicate Short(lines: seq<Line>) {
    exists i :: 0 <= i < |lines| && lines[i].received < lines[i].quantity
  }

  /** applyGoodsReceipt: order, line and confirmation checks, then warehouse, line, receipt row and order status. */
  ghost function Receive(db: Db, o: Id, input: ReceiptInput, guided: bool, user: Id, now: Time): Result<Db> {
    if o !in db.files then Err(NotFound)
    else
      var f := db.files[o];
      var p := Confirmations.Position(f.lines, input.line);
      if !Receivable(f.order.status) then Err(NotReceivable)
      else if !VersionAccepted(f.order.version, input.expectedVersion, guided) then Err(StaleVersion)
      else if p == |f.lines| then Err(NotFound)
      else if f.lines[p].received + input.quantity > f.lines[p].quantity && !input.allowOverdelivery
      then Err(OverDelivery)
      else if BeyondConfirmed(f, input.line, f.lines[p].received + input.quantity) then Err(ConfirmedExceeded)
      else
        var stocked :- Stocked(db, f.lines[p], input, guided);
        BookOrder(stocked, o, p, input.quantity, ReceiptRow(db, o, f.lines[p], input, user), now)
  }

  /** The received quantity, the receipt row, then the status by what is still outstanding. */
  function BookOrder(db: Db, o: Id, p: nat, quantity: real, row: Receipt, now: Time): Result<Db>
    requires o in db.files && p < |db.files[o].lines|
  {
    var f := db.files[o];
    var lines := f.lines[p := f.lines[p].(received := f.lines[p].received + quantity)];
    var booked :- ChangeLines(db, o, lines, now);
    var noted := booked.(receipts := booked.receipts + [row]);
    UpdateOrder(noted, o, noted.files[o].order.(status := if Short(lines) then PartiallyReceived else Received), now)
  }

  // ---------- preview ----------

  datatype Effects = Effects(
    overdelivery: bool, receivedAfter: real, mode: Mode, warehouse: Option<Id>, devicesCreated: int,
    stockDelta: real, putawayTask: bool)

  /** The tracking mode the preview shows: empty unless the line's product is mapped to an active warehouse product. */
  function PreviewMode(warehouse: Warehouse, line: Line): Mode {
    var w := PreviewWarehouse(warehouse, line);
    if w.Some? && w.value in warehouse.products then warehouse.products[w.value].mode else Unset
  }

  function PreviewWarehouse(warehouse: Warehouse, line: Line): Option<Id> {
    if line.product.Some? then LinkedProduct(warehouse, line.product.value) else None
  }

  /** Quantities the warehouse stores: three decimals up to the tolerance, and below one thousand million. */
  predicate StorablePrecision(q: real) {
    var thousandths := q * 1000.0;
    var below := thousandths.Floor as real;
    && q <= 999999999.999
    && (thousandths - below <= Confirmations.EPSILON || below + 1.0 - thousandths <= Confirmations.EPSILON)
  }

  /** prepareGoodsReceiptOwner of a confirmed request: no required field is left. */
  ghost predicate PreviewReady(db: Db, o: Id, input: ReceiptInput) {
    && o in db.files
    && PreviewReadyFile(db, db.files[o], input, Confirmations.Position(db.files[o].lines, input.line))
  }

  ghost predicate PreviewReadyFile(db: Db, f: OrderFile, input: ReceiptInput, p: nat)
    requires p <= |f.lines|
  {
    && p < |f.lines|
    && Receivable(f.order.status)
    && ActiveSupplier(db.catalog, f.order.supplier)
    && input.quantity > 0.0
    && (input.quantity > f.lines[p].quantity - f.lines[p].received ==> input.allowOverdelivery)
    && VersionAccepted(f.order.version, input.expectedVersion, true)
    && !BeyondConfirmed(f, input.line, f.lines[p].received + input.quantity)
    && (f.lines[p].product.Some? ==>
          && ActiveProduct(db.catalog, f.lines[p].product)
          && PreviewWarehouse(db.warehouse, f.lines[p]).Some?
          && PreviewMode(db.warehouse, f.lines[p]) != Unsupported
          && StorablePrecision(input.quantity))
    && PreviewSerials(db, f.lines[p], input)
    && ZoneUsable(db.warehouse, input.zone)
    && (input.zone.Some? ==> PreviewWarehouse(db.warehouse, f.lines[p]).Some?)
  }

  predicate PreviewSerials(db: Db, line: Line, input: ReceiptInput) {
    && ValidSerials(input.serials)
    && (forall i :: 0 <= i < |input.serials| ==>
          |Text.Trim(input.serials[i])| <= 255 && !SerialUsed(db.warehouse.devices, input.serials[i]))
    && (if PreviewMode(db.warehouse, line) == Individual
        then Whole(input.quantity) && input.quantity <= 1000.0 && |input.serials| == input.quantity.Floor
        else input.serials == [])
  }

  /** The effects the preview announces. */
  function PreviewEffects(warehouse: Warehouse, line: Line, input: ReceiptInput): Effects {
    var mode := PreviewMode(warehouse, line);
    Effects(
      input.quantity > line.quantity - line.received,
      line.received + input.quantity,
      mode,
      PreviewWarehouse(warehouse, line),
      if mode == Individual then input.quantity.Floor else 0,
      if mode == Quantity then input.quantity else 0.0,
      PreviewWarehouse(warehouse, line).Some?)
  }

  /** The one gap between preview and booking: a mapped product whose tracking mode is the empty string. */
  predicate ModeMissing(db: Db, line: Line) {
    line.product.Some? && PreviewMode(db.warehouse, line) == Unset
  }
}
