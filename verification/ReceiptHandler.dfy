/** The goods-receipt handlers: booking with its device loop, and the preview that lists what is missing. */
module ReceiptHandler {
  import opened Base
  import opened Schema
  import opened Storage
  import opened GoodsReceipts
  import Confirmations
  import ConfirmationHandler
  import Text

  // ---------- serial numbers ----------

  /** The `seen` loop: every serial number is non-blank and new, compared without case and surrounding blanks. */
  method TrimSerials(values: seq<string>) returns (result: seq<string>, ok: bool)
    ensures ok <==> ValidSerials(values)
    ensures ok ==> |result| == |values| && forall i :: 0 <= i < |values| ==> result[i] == Text.Trim(values[i])
  {
    result, ok := [], true;
    var seen: set<string> := {};
    for i := 0 to |values|
      invariant ok
      invariant |result| == i && forall k :: 0 <= k < i ==> result[k] == Text.Trim(values[k])
      invariant seen == set k | 0 <= k < i :: Fold(values[k])
      invariant forall k :: 0 <= k < i ==> Fold(values[k]) != ""
      invariant forall j, k :: 0 <= j < k < i ==> Fold(values[j]) != Fold(values[k])
    {
      var value := Text.Trim(values[i]);
      var key := Text.Lower(value);
      assert key == Fold(values[i]);
      if value == "" || key in seen {
        return result, false;
      }
      seen := seen + {key};
      result := result + [value];
    }
  }

  /** normalizeReceiptSerials. */
  method Normalize(values: seq<string>, quantity: int, required: bool) returns (r: Result<seq<string>>)
    ensures r == NormalizeSerials(values, quantity, required)
  {
    if |values| == 0 && !required {
      return Ok([]);
    }
    if quantity <= 0 || |values| != quantity {
      return Err(SerialCount);
    }
    var result, ok := TrimSerials(values);
    if !ok {
      return Err(SerialInvalid);
    }
    assert result == seq(|values|, i requires 0 <= i < |values| => Text.Trim(values[i]));
    return Ok(result);
  }

  /** lockAndValidateReceiptSerial: SELECT EXISTS over the devices. */
  method SerialExists(devices: seq<Device>, serial: string) returns (found: bool)
    ensures found <==> SerialUsed(devices, serial)
  {
    for i := 0 to |devices|
      invariant forall k :: 0 <= k < i ==> !(devices[k].serial.Some? && Fold(devices[k].serial.value) == Fold(serial))
    {
      if devices[i].serial.Some? && Fold(devices[i].serial.value) == Fold(serial) {
        return true;
      }
    }
    return false;
  }

  /** The device loop of one receipt; devices inserted before a conflict are the caller's to roll back. */
  method InsertDevices(store: Store, product: Id, serials: seq<string>, count: nat) returns (refusal: Option<Refusal>)
    modifies store`warehouse
    ensures match AddDevices(old(store.warehouse.devices), product, serials, count)
            case Ok(devices) => refusal.None? && store.warehouse == old(store.warehouse).(devices := devices)
            case Err(e) => refusal == Some(e)
  {
    var index := 0;
    while index < count
      invariant 0 <= index <= count
      invariant AddDevices(old(store.warehouse.devices), product, serials, index).Ok?
      invariant store.warehouse
           == old(store.warehouse).(devices := AddDevices(old(store.warehouse.devices), product, serials, index).value)
    {
      var serial: Option<string> := None;
      if index < |serials| {
        serial := Some(serials[index]);
        var exists' := SerialExists(store.warehouse.devices, serials[index]);
        if exists' {
          DevicesRefused(old(store.warehouse.devices), product, serials, index + 1, count);
          return Some(SerialConflict);
        }
      }
      store.warehouse := store.warehouse.(devices := store.warehouse.devices + [Device(product, serial)]);
      index := index + 1;
    }
    return None;
  }

  /** A conflict at one device refuses the whole receipt. */
  lemma {:induction false} DevicesRefused(devices: seq<Device>, product: Id, serials: seq<string>, at: nat, count: nat)
    requires at <= count && AddDevices(devices, product, serials, at).Err?
    ensures AddDevices(devices, product, serials, count) == AddDevices(devices, product, serials, at)
    decreases count
  {
    if at < count {
      DevicesRefused(devices, product, serials, at, count - 1);
    }
  }

  // ---------- booking ----------

  /** The warehouse part of applyGoodsReceipt for a line with a product; the caller rolls back a refusal. */
  method StockProduct(store: Store, product: Id, input: ReceiptInput, guided: bool) returns (refusal: Option<Refusal>)
    modifies store
    ensures match BookWarehouse(old(store.Contents()), product, input, guided)
            case Ok(db) => refusal.None? && store.Contents() == db
            case Err(e) => refusal == Some(e)
  {
    var linked := LinkedProduct(store.warehouse, product);
    if linked.None? {
      return Some(WarehouseProductRequired);
    }
    var mode := store.warehouse.products[linked.value].mode;
    if mode != Quantity && mode != Untracked && mode != Individual {
      return Some(TrackingInvalid);
    }
    if mode == Individual && !Whole(input.quantity) {
      return Some(FractionalDevices);
    }
    if && input.zone.Some?
       && !(input.zone.value in store.warehouse.zones
            && store.warehouse.zones[input.zone.value] == Zone(true, true, true))
    {
      return Some(ZoneUnavailable);
    }
    if mode == Quantity {
      var location := Location(linked.value, input.zone);
      var total := StockAt(store.warehouse, location) + input.quantity;
      store.warehouse := store.warehouse.(stock := store.warehouse.stock[location := total]);
    } else if mode == Individual {
      var serials := Normalize(input.serials, input.quantity.Floor, guided);
      if serials.Err? {
        return Some(serials.error);
      }
      var pieces := if input.quantity.Floor > 0 then input.quantity.Floor else 0;
      refusal := InsertDevices(store, linked.value, serials.value, pieces);
      if refusal.Some? {
        return;
      }
    }
    var task := Task(linked.value, input.quantity, input.zone, false);
    store.warehouse := store.warehouse.(tasks := store.warehouse.tasks[store.serial := task]);
    store.serial := store.serial + 1;
    return None;
  }

  /** SELECT COUNT(*) ... WHERE received_quantity < quantity. */
  method CountRemaining(lines: seq<Line>) returns (remaining: nat)
    ensures remaining > 0 <==> Short(lines)
  {
    remaining := 0;
    for i := 0 to |lines|
      invariant remaining > 0 <==> exists k :: 0 <= k < i && lines[k].received < lines[k].quantity
    {
      if lines[i].received < lines[i].quantity {
        remaining := remaining + 1;
      }
    }
  }

  /** Line, receipt row and order status; the caller rolls back a refusal. */
  method SaveReceipt(store: Store, o: Id, p: nat, quantity: real, row: Receipt,
      now: Time) returns (refusal: Option<Refusal>)
    requires o in store.files && p < |store.files[o].lines|
    modifies store
    ensures match BookOrder(old(store.Contents()), o, p, quantity, row, now)
            case Ok(db) => refusal.None? && store.Contents() == db
            case Err(e) => refusal == Some(e)
  {
    var lines := store.files[o].lines;
    lines := lines[p := lines[p].(received := lines[p].received + quantity)];
    refusal := store.SaveLines(o, lines, now);
    if refusal.Some? {
      return;
    }
    store.receipts := store.receipts + [row];
    var remaining := CountRemaining(lines);
    var status := Received;
    if remaining > 0 {
      status := PartiallyReceived;
    }
    refusal := store.SaveOrder(o, store.files[o].order.(status := status), now);
  }

  /** Index of the line with an id, or the number of lines. */
  method FindLine(lines: seq<Line>, id: Id) returns (p: nat)
    ensures p == Confirmations.Position(lines, id)
  {
    p := 0;
    while p < |lines| && lines[p].id != id
      invariant p <= |lines|
      invariant Confirmations.Position(lines, id) == Confirmations.PositionFrom(lines, id, p)
    {
      p := p + 1;
    }
  }

  /** The accepted sum of a line's confirmations, and whether there are any. */
  method ConfirmedQuantity(f: OrderFile, line: Id) returns (count: nat, accepted: real)
    ensures count == |Confirmations.LineKeys(f.confirmations, line)|
    ensures accepted == Confirmations.Accepted(f.confirmations, line)
  {
    count := |Confirmations.LineKeys(f.confirmations, line)|;
    var rejected;
    accepted, rejected := ConfirmationHandler.SumLine(f.confirmations, line);
  }

  /** The checks before anything is booked; they find the line. */
  method CheckReceipt(f: OrderFile, input: ReceiptInput, guided: bool) returns (refusal: Option<Refusal>, p: nat)
    ensures p == Confirmations.Position(f.lines, input.line)
    ensures refusal == if !Receivable(f.order.status) then Some(NotReceivable)
                       else if !VersionAccepted(f.order.version, input.expectedVersion, guided) then Some(StaleVersion)
                       else if p == |f.lines| then Some(NotFound)
                       else if f.lines[p].received + input.quantity > f.lines[p].quantity && !input.allowOverdelivery
                       then Some(OverDelivery)
                       else if BeyondConfirmed(f, input.line, f.lines[p].received + input.quantity)
                       then Some(ConfirmedExceeded)
                       else None
  {
    p := FindLine(f.lines, input.line);
    if && f.order.status != Sent
       && f.order.status != Confirmed && f.order.status != PartiallyConfirmed && f.order.status != PartiallyReceived
    {
      return Some(NotReceivable), p;
    }
    if !VersionAccepted(f.order.version, input.expectedVersion, guided) {
      return Some(StaleVersion), p;
    }
    if p == |f.lines| {
      return Some(NotFound), p;
    }
    var line := f.lines[p];
    if line.received + input.quantity > line.quantity && !input.allowOverdelivery {
      return Some(OverDelivery), p;
    }
    var beyond := ExceedsConfirmed(f, input.line, line.received + input.quantity);
    refusal := if beyond then Some(ConfirmedExceeded) else None;
  }

  /** Warehouse, line, receipt and status of a checked receipt; the caller rolls back a refusal. */
  method BookReceipt(store: Store, o: Id, p: nat, input: ReceiptInput, guided: bool, user: Id,
      now: Time) returns (refusal: Option<Refusal>)
    requires o in store.files && p < |store.files[o].lines|
    modifies store
    ensures var before := old(store.Contents());
            var line := before.files[o].lines[p];
            match Stocked(before, line, input, guided)
            case Err(e) => refusal == Some(e)
            case Ok(stocked) =>
              o in stocked.files && p < |stocked.files[o].lines|
              && match BookOrder(stocked, o, p, input.quantity, ReceiptRow(before, o, line, input, user), now)
                 case Ok(db) => refusal.None? && store.Contents() == db
                 case Err(e) => refusal == Some(e)
  {
    var line := store.files[o].lines[p];
    var row := ReceiptRow(store.Contents(), o, line, input, user);
    if line.product.Some? {
      refusal := StockProduct(store, line.product.value, input, guided);
      if refusal.Some? {
        return;
      }
    }
    refusal := SaveReceipt(store, o, p, input.quantity, row, now);
  }

  /** applyGoodsReceipt inside its transaction: a refusal at any point leaves the database as it was. */
  method ApplyReceipt(store: Store, o: Id, input: ReceiptInput, guided: bool, user: Id,
      now: Time) returns (refusal: Option<Refusal>)
    modifies store
    ensures Did(old(store.Contents()), store.Contents(), Receive(old(store.Contents()), o, input, guided, user, now),
                refusal)
  {
    var before := store.Contents();
    if o !in store.files {
      return Some(NotFound);
    }
    var p;
    refusal, p := CheckReceipt(store.files[o], input, guided);
    if refusal.Some? {
      return;
    }
    refusal := BookReceipt(store, o, p, input, guided, user, now);
    if refusal.Some? {
      store.Rollback(before);
    }
  }

  method ExceedsConfirmed(f: OrderFile, line: Id, total: real) returns (beyond: bool)
    ensures beyond <==> BeyondConfirmed(f, line, total)
  {
    if f.order.session.None? {
      return false;
    }
    var count, accepted := ConfirmedQuantity(f, line);
    beyond := count > 0 && total > accepted + Confirmations.EPSILON;
  }

  // ---------- preview ----------

  /** The checks on order, supplier, quantity, version and confirmations. */
  method CommercialRequirements(store: Store, f: OrderFile, p: nat, input: ReceiptInput) returns (required: seq<string>)
    requires p < |f.lines| && f.lines[p].id == input.line
    ensures required == [] <==>
      (Receivable(f.order.status) && ActiveSupplier(store.catalog, f.order.supplier) && input.quantity > 0.0
       && (input.quantity > f.lines[p].quantity - f.lines[p].received ==> input.allowOverdelivery)
       && VersionAccepted(f.order.version, input.expectedVersion, true)
       && !BeyondConfirmed(f, input.line, f.lines[p].received + input.quantity))
  {
    required := [];
    var line := f.lines[p];
    if && f.order.status != Sent
       && f.order.status != Confirmed && f.order.status != PartiallyConfirmed && f.order.status != PartiallyReceived
    {
      required := required + ["receivable_order_status"];
    }
    if !(f.order.supplier in store.catalog.suppliers && store.catalog.suppliers[f.order.supplier].active) {
      required := required + ["active_supplier"];
    }
    if input.quantity <= 0.0 {
      required := required + ["positive_quantity"];
    }
    var outstanding := line.quantity - line.received;
    var overdelivery := input.quantity > outstanding;
    if overdelivery && !input.allowOverdelivery {
      required := required + ["allow_overdelivery"];
    }
    if input.expectedVersion.None? || input.expectedVersion.value != f.order.version {
      required := required + ["expected_updated_at"];
    }
    var beyond := ExceedsConfirmed(f, input.line, line.received + input.quantity);
    if beyond {
      required := required + ["amazon_confirmed_quantity"];
    }
  }

  predicate MappingReady(db: Db, line: Line, input: ReceiptInput) {
    line.product.Some? ==>
      && ActiveProduct(db.catalog, line.product)
      && PreviewWarehouse(db.warehouse, line).Some?
      && PreviewMode(db.warehouse, line) != Unsupported
      && StorablePrecision(input.quantity)
  }

  /** The checks on the product and its warehouse mapping; they find the tracking mode and the warehouse product. */
  method MappingRequirements(store: Store, line: Line, input: ReceiptInput) returns (required: seq<string>,
      mode: Mode, warehouse: Option<Id>)
    ensures required == [] <==> MappingReady(store.Contents(), line, input)
    ensures mode == PreviewMode(store.warehouse, line) && warehouse == PreviewWarehouse(store.warehouse, line)
  {
    required, mode, warehouse := [], Unset, None;
    if line.product.Some? {
      var product := line.product.value;
      if !(product in store.catalog.products && store.catalog.products[product].active) {
        required := required + ["active_procurement_product"];
      }
      if !(&& product in store.warehouse.links && store.warehouse.links[product] in store.warehouse.products
           && store.warehouse.products[store.warehouse.links[product]].active)
      {
        required := required + ["active_warehouse_mapping"];
      } else {
        warehouse := Some(store.warehouse.links[product]);
        mode := store.warehouse.products[store.warehouse.links[product]].mode;
      }
      if mode == Unsupported {
        required := required + ["supported_tracking_mode"];
      }
      if !StorablePrecision(input.quantity) {
        required := required + ["warehouse_quantity_precision"];
      }
    }
  }

  /** The serial-number loop of the preview, and the query for devices that already carry one of them. */
  method SerialRequirements(store: Store, line: Line, input: ReceiptInput, mode: Mode) returns (required: seq<string>)
    requires mode == PreviewMode(store.warehouse, line)
    ensures required == [] <==> PreviewSerials(store.Contents(), line, input)
  {
    required := [];
    var trimmed, valid := TrimSerials(input.serials);
    if !valid {
      required := required + ["unique_valid_serial_numbers"];
    }
    var bounded, unused := true, true;
    for i := 0 to |input.serials|
      invariant bounded <==> forall k :: 0 <= k < i ==> |Text.Trim(input.serials[k])| <= 255
      invariant unused <==> forall k :: 0 <= k < i ==> !SerialUsed(store.warehouse.devices, input.serials[k])
    {
      if |Text.Trim(input.serials[i])| > 255 {
        bounded := false;
      }
      var found := SerialExists(store.warehouse.devices, input.serials[i]);
      if found {
        unused := false;
      }
    }
    if !bounded {
      required := required + ["unique_valid_serial_numbers"];
    }
    if && mode == Individual
       && (!Whole(input.quantity) || input.quantity > 1000.0 || |input.serials| != input.quantity.Floor)
    {
      required := required + ["exact_bounded_device_serials"];
    }
    if mode != Individual && |input.serials| > 0 {
      required := required + ["serials_only_for_individual_tracking"];
    }
    if !unused {
      required := required + ["unused_serial_numbers"];
    }
  }

  /** The checks on the target zone. */
  method ZoneRequirements(store: Store, zone: Option<Id>, warehouse: Option<Id>) returns (required: seq<string>)
    ensures required == [] <==> ZoneUsable(store.warehouse, zone) && (zone.Some? ==> warehouse.Some?)
  {
    required := [];
    if zone.Some? {
      if !(zone.value in store.warehouse.zones && store.warehouse.zones[zone.value] == Zone(true, true, true)) {
        required := required + ["available_storable_target_zone"];
      }
      if warehouse.None? {
        required := required + ["target_zone_requires_stock_mapping"];
      }
    }
  }

  /** The announced effects, mode by mode. */
  method Announce(line: Line, input: ReceiptInput, mode: Mode, warehouse: Option<Id>) returns (effects: Effects)
    ensures effects == Effects(
                         input.quantity > line.quantity - line.received,
                         line.received + input.quantity,
                         mode,
                         warehouse,
                         if mode == Individual then input.quantity.Floor else 0,
                         if mode == Quantity then input.quantity else 0.0,
                         warehouse.Some?)
  {
    effects := Effects(input.quantity > line.quantity - line.received, line.received + input.quantity, mode, warehouse,
                       0, 0.0, warehouse.Some?);
    if mode == Individual {
      effects := effects.(devicesCreated := input.quantity.Floor);
    }
    if mode == Quantity {
      effects := effects.(stockDelta := input.quantity);
    }
  }

  datatype Prepared = Prepared(required: seq<string>, effects: Effects)

  /** prepareGoodsReceiptOwner for an existing order and line. */
  method Prepare(store: Store, o: Id, input: ReceiptInput) returns (r: Option<Prepared>)
    ensures r.None?
         <==> o !in store.files || Confirmations.Position(store.files[o].lines, input.line) == |store.files[o].lines|
    ensures r.Some? ==> (r.value.required == [] <==> PreviewReady(store.Contents(), o, input))
    ensures r.Some? ==>
              var lines := store.files[o].lines;
              r.value.effects
                == PreviewEffects(store.warehouse, lines[Confirmations.Position(lines, input.line)], input)
  {
    if o !in store.files {
      return None;
    }
    var f := store.files[o];
    var p := FindLine(f.lines, input.line);
    if p == |f.lines| {
      return None;
    }
    var required, effects := PrepareLine(store, f, p, input);
    return Some(Prepared(required, effects));
  }

  method PrepareLine(store: Store, f: OrderFile, p: nat, input: ReceiptInput) returns (required: seq<string>,
      effects: Effects)
    requires p < |f.lines| && f.lines[p].id == input.line
    ensures required == [] <==> PreviewReadyFile(store.Contents(), f, input, p)
    ensures effects == PreviewEffects(store.warehouse, f.lines[p], input)
  {
    var commercial := CommercialRequirements(store, f, p, input);
    var mapping, mode, warehouse := MappingRequirements(store, f.lines[p], input);
    var serials := SerialRequirements(store, f.lines[p], input, mode);
    var zones := ZoneRequirements(store, input.zone, warehouse);
    required := commercial + mapping + serials + zones;
    effects := Announce(f.lines[p], input, mode, warehouse);
  }
}
