/** Serial numbers of booked devices: one already in the house is refused, and no two new ones are the same. */
module Serials {
  import opened Base
  import opened Schema
  import opened GoodsReceipts
  import Confirmations
  import Protocol
  import Stock
  import Text
  import World

  /** The same serial number, ignoring case and blanks around it. */
  predicate Same(a: string, b: string) {
    Text.Lower(Text.Trim(a)) == Text.Lower(Text.Trim(b))
  }

  /** Some device of the house carries the serial number. */
  predicate Carried(devices: seq<Device>, serial: string) {
    exists d :: 0 <= d < |devices| && CarriedBy(devices[d], serial)
  }

  predicate CarriedBy(device: Device, serial: string) {
    device.serial.Some? && Same(device.serial.value, serial)
  }

  /** No two devices carry one serial number. */
  predicate Unique(devices: seq<Device>) {
    forall i, j :: 0 <= i < j < |devices| && devices[j].serial.Some? ==> !CarriedBy(devices[i], devices[j].serial.value)
  }

  // ---------- the device loop ----------

  /** The devices before, then one per piece with its serial number, each new to the house. */
  predicate Booked(devices: seq<Device>, after: seq<Device>, product: Id, serials: seq<string>, n: nat) {
    && |after| == |devices| + n
    && (forall d :: 0 <= d < |devices| ==> after[d] == devices[d])
    && (forall k :: 0 <= k < n ==> PieceAt(|devices|, after, product, serials, k))
  }

  /** Piece `k` behind the `m` devices of before. */
  predicate PieceAt(m: nat, after: seq<Device>, product: Id, serials: seq<string>, k: nat) {
    NewAt(after, m + k, product, if k < |serials| then Some(serials[k]) else None)
  }

  /** The device at `d` is of the product and carries this serial number, and no device before it does. */
  predicate NewAt(after: seq<Device>, d: nat, product: Id, serial: Option<string>) {
    && d < |after| && after[d] == Device(product, serial)
    && (serial.Some? ==> forall e :: 0 <= e < d ==> !CarriedBy(after[e], serial.value))
  }

  lemma SerialUsedMeans(devices: seq<Device>, serial: string)
    ensures SerialUsed(devices, serial) <==> Carried(devices, serial)
  {
    if SerialUsed(devices, serial) {
      var d :| 0 <= d < |devices| && devices[d].serial.Some? && Fold(devices[d].serial.value) == Fold(serial);
      assert CarriedBy(devices[d], serial);
    }
  }

  lemma {:induction false} AddedDevices(devices: seq<Device>, product: Id, serials: seq<string>, n: nat)
    requires AddDevices(devices, product, serials, n).Ok?
    ensures Booked(devices, AddDevices(devices, product, serials, n).value, product, serials, n)
  {
    if n > 0 {
      AddedDevices(devices, product, serials, n - 1);
      var before := AddDevices(devices, product, serials, n - 1).value;
      if n - 1 < |serials| {
        SerialUsedMeans(before, serials[n - 1]);
      }
      var after := AddDevices(devices, product, serials, n).value;
      forall k | 0 <= k < n
        ensures PieceAt(|devices|, after, product, serials, k)
      {
        if k < n - 1 {
          assert PieceAt(|devices|, before, product, serials, k);
        }
      }
    }
  }

  // ---------- the receipt ----------

  /** The line's product is linked to an active warehouse product that is tracked piece by piece. */
  predicate TrackedBy(warehouse: Warehouse, line: Line, product: Id) {
    && line.product.Some? && line.product.value in warehouse.links && warehouse.links[line.product.value] == product
    && product in warehouse.products && warehouse.products[product] == WarehouseProduct(true, Individual)
  }

  /** What the stock booking of an individually tracked line leaves. */
  lemma StockedDevices(db: Db, line: Line, input: ReceiptInput, guided: bool, product: Id)
    requires Stocked(db, line, input, guided).Ok? && TrackedBy(db.warehouse, line, product) && input.quantity > 0.0
    ensures var devices, after := db.warehouse.devices, Stocked(db, line, input, guided).value.warehouse.devices;
            && input.quantity == input.quantity.Floor as real
            && (input.serials == [] || |input.serials| == input.quantity.Floor)
            && Booked(devices, after, product, TrimmedAll(input.serials), input.quantity.Floor)
  {
    var serials := NormalizeSerials(input.serials, input.quantity.Floor, guided).value;
    assert serials == TrimmedAll(input.serials);
    assert input.quantity.Floor > 0;
    AddedDevices(db.warehouse.devices, product, serials, input.quantity.Floor);
  }

  function TrimmedAll(serials: seq<string>): (r: seq<string>)
    ensures |r| == |serials|
    ensures forall k :: 0 <= k < |serials| ==> r[k] == Text.Trim(serials[k])
  {
    seq(|serials|, k requires 0 <= k < |serials| => Text.Trim(serials[k]))
  }

  lemma SameTrimmed(a: string, b: string)
    ensures Same(a, Text.Trim(b)) <==> Same(a, b)
    ensures Same(Text.Trim(a), b) <==> Same(a, b)
  {
    Text.TrimMeaning(a);
    Text.TrimMeaning(b);
  }

  /** No given serial number was in the house, and no two of them are the same. */
  predicate AllNew(devices: seq<Device>, serials: seq<string>) {
    && (forall k :: 0 <= k < |serials| ==> !Carried(devices, serials[k]))
    && (forall j, k :: 0 <= j < k < |serials| ==> !Same(serials[j], serials[k]))
  }

  lemma BookedAllNew(devices: seq<Device>, after: seq<Device>, product: Id, serials: seq<string>)
    requires Booked(devices, after, product, TrimmedAll(serials), |serials|)
    ensures AllNew(devices, serials)
  {
    forall k | 0 <= k < |serials|
      ensures NewAt(after, |devices| + k, product, Some(Text.Trim(serials[k])))
    {
      assert PieceAt(|devices|, after, product, TrimmedAll(serials), k);
    }
    forall k, d | 0 <= k < |serials| && 0 <= d < |devices|
      ensures !CarriedBy(devices[d], serials[k])
    {
      assert NewAt(after, |devices| + k, product, Some(Text.Trim(serials[k])));
      assert !CarriedBy(after[d], Text.Trim(serials[k]));
      SameTrimmed(if devices[d].serial.Some? then devices[d].serial.value else "", serials[k]);
    }
    forall j, k | 0 <= j < k < |serials|
      ensures !Same(serials[j], serials[k])
    {
      assert NewAt(after, |devices| + j, product, Some(Text.Trim(serials[j])));
      assert NewAt(after, |devices| + k, product, Some(Text.Trim(serials[k])));
      assert !CarriedBy(after[|devices| + j], Text.Trim(serials[k]));
      SameTrimmed(Text.Trim(serials[j]), serials[k]);
      SameTrimmed(serials[j], serials[k]);
    }
  }

  lemma BookedStaysUnique(devices: seq<Device>, after: seq<Device>, product: Id, serials: seq<string>, n: nat)
    requires Unique(devices) && Booked(devices, after, product, serials, n)
    ensures Unique(after)
  {
    forall i, j | 0 <= i < j < |after| && after[j].serial.Some?
      ensures !CarriedBy(after[i], after[j].serial.value)
    {
      if j >= |devices| {
        var k := j - |devices|;
        assert PieceAt(|devices|, after, product, serials, k);
      }
    }
  }

  /**
   A receipt that is booked on an individually tracked line, native or guided: a whole number of pieces, one device
   each; no given serial number was on a device before and no two of them are the same; the devices carry them trimmed.
   */
  lemma BookedSerialsAreNew(db: Db, o: Id, input: ReceiptInput, guided: bool, user: Id, now: Time, line: Line,
      product: Id)
    requires Receive(db, o, input, guided, user, now).Ok? && input.quantity > 0.0
    requires o in db.files && line in db.files[o].lines && TrackedBy(db.warehouse, line, product)
    requires Confirmations.Position(db.files[o].lines, input.line) < |db.files[o].lines|
    requires line == db.files[o].lines[Confirmations.Position(db.files[o].lines, input.line)]
    ensures AllNew(db.warehouse.devices, input.serials)
    ensures var after := Receive(db, o, input, guided, user, now).value.warehouse.devices;
            && input.quantity == input.quantity.Floor as real
            && (input.serials != [] ==> |input.serials| == input.quantity.Floor)
            && Booked(db.warehouse.devices, after, product, TrimmedAll(input.serials), input.quantity.Floor)
            && (Unique(db.warehouse.devices) ==> Unique(after))
  {
    Stock.ReceiveShape(db, o, input, guided, user, now);
    StockedDevices(db, line, input, guided, product);
    var devices := db.warehouse.devices;
    var after := Receive(db, o, input, guided, user, now).value.warehouse.devices;
    if input.serials != [] {
      BookedAllNew(devices, after, product, input.serials);
    }
    if Unique(devices) {
      BookedStaysUnique(devices, after, product, TrimmedAll(input.serials), input.quantity.Floor);
    }
  }

  /** A serial number that is already in the house is refused, and the refused receipt changes nothing at all. */
  lemma UsedSerialIsRefused(w: World.World, o: Id, input: ReceiptInput, guided: bool, user: Id, now: Time, p: nat,
      product: Id,
      k: nat)
    requires o in w.db.files && p < |w.db.files[o].lines| && TrackedBy(w.db.warehouse, w.db.files[o].lines[p], product)
    requires Confirmations.Position(w.db.files[o].lines, input.line) == p
    requires k < |input.serials| && Carried(w.db.warehouse.devices, input.serials[k])
    ensures World.Step(w, World.Action.Receive(o, input, guided, user, now)) == w
  {
    if 0.0 < input.quantity && Receive(w.db, o, input, guided, user, now).Ok? {
      BookedSerialsAreNew(w.db, o, input, guided, user, now, w.db.files[o].lines[p], product);
      assert false;
    }
  }

  // ---------- every run ----------

  /** On a line that is not individually tracked no device is created. */
  lemma UntrackedDevices(db: Db, line: Line, input: ReceiptInput, guided: bool)
    requires Stocked(db, line, input, guided).Ok? && !(exists product :: TrackedBy(db.warehouse, line, product))
    ensures Stocked(db, line, input, guided).value.warehouse.devices == db.warehouse.devices
  {
    if line.product.Some? {
      var product := LinkedProduct(db.warehouse, line.product.value).value;
      assert !TrackedBy(db.warehouse, line, product);
    }
  }

  lemma ReceiptUnique(db: Db, o: Id, input: ReceiptInput, guided: bool, user: Id, now: Time)
    requires Receive(db, o, input, guided, user, now).Ok? && input.quantity > 0.0 && Unique(db.warehouse.devices)
    ensures Unique(Receive(db, o, input, guided, user, now).value.warehouse.devices)
  {
    Stock.ReceiveShape(db, o, input, guided, user, now);
    var line := db.files[o].lines[Confirmations.Position(db.files[o].lines, input.line)];
    if product :| TrackedBy(db.warehouse, line, product) {
      BookedSerialsAreNew(db, o, input, guided, user, now, line, product);
    } else {
      UntrackedDevices(db, line, input, guided);
    }
  }

  lemma StepUnique(w: World.World, a: World.Action)
    requires Unique(w.db.warehouse.devices) && (a.MoveStock? ==> Unique(a.devices))
    ensures Unique(World.Step(w, a).db.warehouse.devices)
  {
    if Protocol.Phase(a) {
      Stock.PhaseKeepsWarehouse(w, a);
    } else if a.RequestAmazon? || a.RequestAdamHall? {
      Stock.RequestKeepsWarehouse(w, a);
    } else if World.Transaction(w.db, a).Ok? {
      assert World.Step(w, a).db == World.Transaction(w.db, a).value;
      if a.Receive? {
        ReceiptUnique(w.db, a.id, a.receipt, a.guided, a.user, a.now);
      } else if !a.MoveStock? {
        Stock.TransactionKeepsWarehouse(w.db, a);
      }
    }
  }

  /** Unless the warehouse itself brings a serial number in twice, no run leaves two devices with one. */
  lemma {:induction false} SerialsStayUnique(w: World.World, actions: seq<World.Action>)
    requires Unique(w.db.warehouse.devices)
    requires forall i :: 0 <= i < |actions| && actions[i].MoveStock? ==> Unique(actions[i].devices)
    ensures Unique(World.Run(w, actions).db.warehouse.devices)
    decreases |actions|
  {
    if actions != [] {
      assert actions[0].MoveStock? ==> Unique(actions[0].devices);
      StepUnique(w, actions[0]);
      SerialsStayUnique(World.Step(w, actions[0]), actions[1..]);
    }
  }
}
