/** Conservation between goods receipts and the warehouse: stock, devices and putaway tasks. */
module Stock {
  import opened Base
  import opened Schema
  import opened Submission
  import opened World
  import opened FileSteps
  import opened Preservation
  import opened Protocol
  import opened Evolution
  import opened GoodsReceipts
  import Confirmations

  /** What the receipts booked at a stock location. */
  function BookedStock(receipts: seq<Receipt>, at: Location): real {
    if receipts == [] then 0.0
    else BookedStock(receipts[..|receipts| - 1], at) + StockOf(receipts[|receipts| - 1], at)
  }

  function StockOf(r: Receipt, at: Location): real {
    if r.mode == Quantity && r.warehouse == Some(at.product) && r.zone == at.zone then r.applied else 0.0
  }

  /** How many devices the receipts of a warehouse product stand for. */
  function BookedDevices(receipts: seq<Receipt>, product: Id): int {
    if receipts == [] then 0
    else BookedDevices(receipts[..|receipts| - 1], product) + DevicesOf(receipts[|receipts| - 1], product)
  }

  function DevicesOf(r: Receipt, product: Id): int {
    if r.mode == Individual && r.warehouse == Some(product) then r.applied.Floor else 0
  }

  function DeviceCount(devices: seq<Device>, product: Id): int {
    if devices == [] then 0
    else DeviceCount(devices[..|devices| - 1], product) + (if devices[|devices| - 1].product == product then 1 else 0)
  }

  lemma {:induction false} AddDevicesCount(devices: seq<Device>, product: Id, serials: seq<string>, n: nat, other: Id)
    requires AddDevices(devices, product, serials, n).Ok?
    ensures DeviceCount(AddDevices(devices, product, serials, n).value, other)
         == DeviceCount(devices, other) + (if other == product then n else 0)
  {
    if n > 0 {
      AddDevicesCount(devices, product, serials, n - 1, other);
      var before := AddDevices(devices, product, serials, n - 1).value;
      var after := AddDevices(devices, product, serials, n).value;
      assert after[..|after| - 1] == before;
    }
  }

  /** Every booked receipt has its own putaway task, for the same product, quantity and zone. */
  predicate TasksOk(db: Db) {
    && (forall t :: t in db.warehouse.tasks ==> t < db.serial)
    && (forall i :: 0 <= i < |db.receipts| ==> TaskOk(db.warehouse.tasks, db.receipts[i]))
    && (forall i, j :: 0 <= i < j < |db.receipts| && db.receipts[i].task.Some? ==>
          db.receipts[i].task != db.receipts[j].task)
  }

  predicate TaskOk(tasks: map<Id, Task>, r: Receipt) {
    && (r.task.Some? <==> r.warehouse.Some?)
    && (r.task.Some? ==>
          && r.task.value in tasks
          && tasks[r.task.value] == Task(r.warehouse.value, r.quantity, r.zone, tasks[r.task.value].closed))
  }

  function StockIn(stock: map<Location, real>, at: Location): real {
    if at in stock then stock[at] else 0.0
  }

  /** What the warehouse itself moved at a location, over all its moves. */
  function MovedStock(moves: seq<Move>, at: Location): real {
    if moves == [] then 0.0
    else
      var last := moves[|moves| - 1];
      MovedStock(moves[..|moves| - 1], at) + StockIn(last.stockAfter, at) - StockIn(last.stock, at)
  }

  /** How many devices of a product the warehouse itself added, net of what it removed. */
  function MovedDevices(moves: seq<Move>, product: Id): int {
    if moves == [] then 0
    else
      var last := moves[|moves| - 1];
      MovedDevices(moves[..|moves| - 1], product) + DeviceCount(last.devicesAfter, product)
        - DeviceCount(last.devices, product)
  }

  /** The warehouse holds what its own moves and the receipts say. */
  ghost predicate Balanced(db: Db, moves: seq<Move>) {
    && (forall at :: StockAt(db.warehouse, at) == MovedStock(moves, at) + BookedStock(db.receipts, at))
    && (forall p :: DeviceCount(db.warehouse.devices, p) == MovedDevices(moves, p) + BookedDevices(db.receipts, p))
    && TasksOk(db)
  }

  lemma BookedAppend(receipts: seq<Receipt>, row: Receipt, at: Location, product: Id)
    ensures BookedStock(receipts + [row], at) == BookedStock(receipts, at) + StockOf(row, at)
    ensures BookedDevices(receipts + [row], product) == BookedDevices(receipts, product) + DevicesOf(row, product)
  {
    assert (receipts + [row])[..|receipts|] == receipts;
  }

  /** What one receipt adds to the warehouse is what its row says. */
  lemma StockedAdds(db: Db, o: Id, line: Line, input: ReceiptInput, guided: bool, user: Id, at: Location, product: Id)
    requires Stocked(db, line, input, guided).Ok? && input.quantity > 0.0
    ensures var db' := Stocked(db, line, input, guided).value;
            var row := ReceiptRow(db, o, line, input, user);
            && StockAt(db'.warehouse, at) == StockAt(db.warehouse, at) + StockOf(row, at)
            && DeviceCount(db'.warehouse.devices, product)
              == DeviceCount(db.warehouse.devices, product) + DevicesOf(row, product)
  {
    if line.product.Some? {
      var w := LinkedProduct(db.warehouse, line.product.value);
      if db.warehouse.products[w.value].mode == Individual {
        var serials := NormalizeSerials(input.serials, input.quantity.Floor, guided).value;
        AddDevicesCount(db.warehouse.devices, w.value, serials, input.quantity.Floor, product);
      }
    }
  }

  lemma StockedTasks(db: Db, o: Id, line: Line, input: ReceiptInput, guided: bool, user: Id)
    requires Stocked(db, line, input, guided).Ok? && TasksOk(db)
    ensures var db' := Stocked(db, line, input, guided).value;
            var row := ReceiptRow(db, o, line, input, user);
            TasksOk(db'.(receipts := db.receipts + [row]))
  {
    var db' := Stocked(db, line, input, guided).value;
    var row := ReceiptRow(db, o, line, input, user);
    StockedShape(db, line, input, guided);
    var receipts := db.receipts + [row];
    forall i | 0 <= i < |receipts|
      ensures TaskOk(db'.warehouse.tasks, receipts[i])
    {
      assert i < |db.receipts| ==> TaskOk(db.warehouse.tasks, db.receipts[i]);
    }
    forall i, j | 0 <= i < j < |receipts| && receipts[i].task.Some?
      ensures receipts[i].task != receipts[j].task
    {
      assert TaskOk(db.warehouse.tasks, db.receipts[i]);
    }
  }

  /** The shape of a receipt: warehouse, ids and one receipt row, and the order's own file. */
  lemma ReceiveShape(db: Db, o: Id, input: ReceiptInput, guided: bool, user: Id, now: Time)
    requires GoodsReceipts.Receive(db, o, input, guided, user, now).Ok?
    ensures o in db.files && Confirmations.Position(db.files[o].lines, input.line) < |db.files[o].lines|
    ensures var line := db.files[o].lines[Confirmations.Position(db.files[o].lines, input.line)];
            && Stocked(db, line, input, guided).Ok?
            && var db' := GoodsReceipts.Receive(db, o, input, guided, user, now).value;
               var row := ReceiptRow(db, o, line, input, user);
               db' == Stocked(db, line, input, guided).value.(receipts := db.receipts + [row], files := db'.files)
  {
    var f := db.files[o];
    var p := Confirmations.Position(f.lines, input.line);
    StockedShape(db, f.lines[p], input, guided);
    var stocked := Stocked(db, f.lines[p], input, guided).value;
    BookedShape(stocked, o, p, input.quantity, ReceiptRow(db, o, f.lines[p], input, user), now);
  }

  lemma ReceiveBalances(db: Db, moves: seq<Move>, o: Id, input: ReceiptInput, guided: bool, user: Id, now: Time)
    requires Balanced(db, moves) && input.quantity > 0.0 && GoodsReceipts.Receive(db, o, input, guided, user, now).Ok?
    ensures Balanced(GoodsReceipts.Receive(db, o, input, guided, user, now).value, moves)
  {
    var db' := GoodsReceipts.Receive(db, o, input, guided, user, now).value;
    ReceiveShape(db, o, input, guided, user, now);
    var line := db.files[o].lines[Confirmations.Position(db.files[o].lines, input.line)];
    var row := ReceiptRow(db, o, line, input, user);
    forall at
      ensures StockAt(db'.warehouse, at) == MovedStock(moves, at) + BookedStock(db'.receipts, at)
    {
      StockedAdds(db, o, line, input, guided, user, at, 0);
      BookedAppend(db.receipts, row, at, 0);
    }
    forall p
      ensures DeviceCount(db'.warehouse.devices, p) == MovedDevices(moves, p) + BookedDevices(db'.receipts, p)
    {
      StockedAdds(db, o, line, input, guided, user, Location(0, None), p);
      BookedAppend(db.receipts, row, Location(0, None), p);
    }
    StockedTasks(db, o, line, input, guided, user);
    var stocked := Stocked(db, line, input, guided).value;
    assert TasksOk(stocked.(receipts := db.receipts + [row]));
  }

  /** Neither a receipt nor a move: stock, devices and receipts stay, tasks are at most closed. */
  predicate WarehouseKept(db: Db, db': Db) {
    && db'.warehouse.stock == db.warehouse.stock && db'.warehouse.devices == db.warehouse.devices
    && db'.receipts == db.receipts && db'.serial >= db.serial
    && db'.warehouse.tasks.Keys == db.warehouse.tasks.Keys
    && forall t :: t in db.warehouse.tasks ==>
         db'.warehouse.tasks[t] == db.warehouse.tasks[t].(closed := db'.warehouse.tasks[t].closed)
  }

  lemma KeptBalances(db: Db, db': Db, moves: seq<Move>)
    requires Balanced(db, moves) && WarehouseKept(db, db')
    ensures Balanced(db', moves)
  {
    forall i | 0 <= i < |db'.receipts|
      ensures TaskOk(db'.warehouse.tasks, db'.receipts[i])
    {
      assert TaskOk(db.warehouse.tasks, db.receipts[i]);
    }
    forall at
      ensures StockAt(db'.warehouse, at) == MovedStock(moves, at) + BookedStock(db'.receipts, at)
    {
      assert StockAt(db.warehouse, at) == MovedStock(moves, at) + BookedStock(db.receipts, at);
    }
    forall p
      ensures DeviceCount(db'.warehouse.devices, p) == MovedDevices(moves, p) + BookedDevices(db'.receipts, p)
    {
      assert DeviceCount(db.warehouse.devices, p) == MovedDevices(moves, p) + BookedDevices(db.receipts, p);
    }
  }

  /** A move is noted as what it changed. */
  lemma MoveBalances(w: World, a: Action)
    requires Balanced(w.db, w.moves) && a.MoveStock?
    ensures Balanced(Step(w, a).db, Step(w, a).moves)
  {
    var w' := Step(w, a);
    assert w'.moves[..|w.moves|] == w.moves;
    forall at
      ensures StockAt(w'.db.warehouse, at) == MovedStock(w'.moves, at) + BookedStock(w'.db.receipts, at)
    {
      assert StockAt(w.db.warehouse, at) == MovedStock(w.moves, at) + BookedStock(w.db.receipts, at);
    }
    forall p
      ensures DeviceCount(w'.db.warehouse.devices, p) == MovedDevices(w'.moves, p) + BookedDevices(w'.db.receipts, p)
    {
      assert DeviceCount(w.db.warehouse.devices, p) == MovedDevices(w.moves, p) + BookedDevices(w.db.receipts, p);
    }
  }

  lemma TransactionKeepsWarehouse(db: Db, a: Action)
    requires Transaction(db, a).Ok? && !a.Receive? && !a.MoveStock?
    ensures WarehouseKept(db, Transaction(db, a).value)
    ensures !a.Confirm? ==> Transaction(db, a).value.events == db.events
  {
    if OrderAction(a) {
      OrderKeepsWarehouse(db, a);
    } else if a.Confirm? {
      ApplyShape(db, a.id, a.message, a.text, a.now);
    } else if a.ReconcileOrder? {
      ReconcileKeepsWarehouse(db, a.user, a.key, a.request, a.now);
    } else {
      DemandKeepsWarehouse(db, a);
    }
  }

  lemma OrderKeepsWarehouse(db: Db, a: Action)
    requires OrderAction(a) && Transaction(db, a).Ok?
    ensures WarehouseKept(db, Transaction(db, a).value)
    ensures Transaction(db, a).value.events == db.events
  {
    if a.EditDraft? {
      EditDraftKeepsWarehouse(db, a);
    }
  }

  lemma EditDraftKeepsWarehouse(db: Db, a: Action)
    requires a.EditDraft? && Transaction(db, a).Ok?
    ensures WarehouseKept(db, Transaction(db, a).value)
    ensures Transaction(db, a).value.events == db.events
  {
  }

  lemma ReconcileKeepsWarehouse(db: Db, user: Id, token: string, req: ReconcileRequest, now: Time)
    requires Reconcile(db, user, token, req, now).Ok?
    ensures WarehouseKept(db, Reconcile(db, user, token, req, now).value.db)
    ensures Reconcile(db, user, token, req, now).value.db.events == db.events
  {
  }

  lemma DemandKeepsWarehouse(db: Db, a: Action)
    requires !OrderAction(a) && !SupplierAction(a) && !a.MoveStock? && Transaction(db, a).Ok?
    ensures WarehouseKept(db, Transaction(db, a).value)
    ensures Transaction(db, a).value.events == db.events
  {
    if a.ConvertRequisition? {
      ConversionKeepsWarehouse(db, a);
    } else if RequisitionAction(a) {
      RequisitionKeepsWarehouse(db, a);
    }
  }

  predicate RequisitionAction(a: Action) {
    a.NewRequisition? || a.EditRequisition? || a.SubmitRequisition? || a.DecideRequisition? || a.ArchiveRequisition?
  }

  lemma RequisitionKeepsWarehouse(db: Db, a: Action)
    requires RequisitionAction(a) && Transaction(db, a).Ok?
    ensures WarehouseKept(db, Transaction(db, a).value)
    ensures Transaction(db, a).value.events == db.events
  {
  }

  lemma ConversionKeepsWarehouse(db: Db, a: Action)
    requires a.ConvertRequisition? && Transaction(db, a).Ok?
    ensures WarehouseKept(db, Transaction(db, a).value)
    ensures Transaction(db, a).value.events == db.events
  {
  }

  lemma FinalizeKeepsWarehouse(db: Db, o: Id, key: Option<Key>, now: Time)
    requires Finalize(db, o, key, now).Ok?
    ensures WarehouseKept(db, Finalize(db, o, key, now).value)
    ensures Finalize(db, o, key, now).value.events == db.events
  {
    FinalizeShape(db, o, key, now);
  }

  lemma AmazonKeepsWarehouse(db: Db, user: Id, token: Option<string>, send: SendRequest, payloadId: string,
      configured: bool, now: Time)
    requires SubmitAmazon(db, user, token, send, payloadId, configured, now).Ok?
    ensures WarehouseKept(db, SubmitAmazon(db, user, token, send, payloadId, configured, now).value.db)
    ensures SubmitAmazon(db, user, token, send, payloadId, configured, now).value.db.events == db.events
  {
    if token.None? {
      NativeAmazon(db, user, send, payloadId, configured, now);
      AmazonClaimShape(db, user, send.order, payloadId, now);
    } else if Key(user, SendAmazon(send.order), token.value) in db.records {
      ReplayedAmazon(db, user, token.value, send, payloadId, configured, now);
      ReplayKeepsWarehouse(db, Key(user, SendAmazon(send.order), token.value), SendBody(send), send.order, now);
    } else {
      GuidedAmazon(db, user, token.value, send, payloadId, configured, now);
      AmazonClaimShape(db, user, send.order, payloadId, now);
    }
  }

  lemma AdamHallKeepsWarehouse(db: Db, user: Id, token: string, send: SendRequest, payloadId: string,
      configured: bool, now: Time)
    requires SubmitAdamHall(db, user, token, send, payloadId, configured, now).Ok?
    ensures WarehouseKept(db, SubmitAdamHall(db, user, token, send, payloadId, configured, now).value.db)
    ensures SubmitAdamHall(db, user, token, send, payloadId, configured, now).value.db.events == db.events
  {
    if Key(user, SendAdamHall(send.order), token) in db.records {
      ReplayedAdamHall(db, user, token, send, payloadId, configured, now);
      ReplayKeepsWarehouse(db, Key(user, SendAdamHall(send.order), token), SendBody(send), send.order, now);
    } else {
      FirstAdamHall(db, user, token, send, payloadId, configured, now);
      AdamHallClaimShape(db, user, send.order, send.checkout.value, payloadId, now);
    }
  }

  lemma ReplayKeepsWarehouse(db: Db, key: Key, body: RequestBody, o: Id, now: Time)
    requires key in db.records && Replay(db, key, body, o, now).Ok?
    ensures WarehouseKept(db, Replay(db, key, body, o, now).value.db)
    ensures Replay(db, key, body, o, now).value.db.events == db.events
  {
    if Finalize(db, o, Some(key), now).Ok? {
      FinalizeKeepsWarehouse(db, o, Some(key), now);
    }
  }

  lemma PhaseKeepsWarehouse(w: World, a: Action)
    requires Phase(a)
    ensures WarehouseKept(w.db, Step(w, a).db)
    ensures Step(w, a).db.events == w.db.events
  {
    if a.FinalizeOrder? && a.process in w.processes {
      var x := w.processes[a.process];
      if Finalize(w.db, x.order, x.key, a.now).Ok? {
        FinalizeKeepsWarehouse(w.db, x.order, x.key, a.now);
      }
    }
  }

  lemma RequestKeepsWarehouse(w: World, a: Action)
    requires a.RequestAmazon? || a.RequestAdamHall?
    ensures WarehouseKept(w.db, Step(w, a).db)
    ensures Step(w, a).db.events == w.db.events
  {
    match a
    case RequestAmazon(_, user, token, send, payloadId, configured, now) =>
      if AmazonReply(w.db, user, token, send, payloadId, configured, now).Ok? {
        AmazonKeepsWarehouse(w.db, user, token, send, payloadId, configured, now);
      }
    case RequestAdamHall(_, user, key, send, payloadId, configured, now) =>
      if AdamHallReply(w.db, user, key, send, payloadId, configured, now).Ok? {
        AdamHallKeepsWarehouse(w.db, user, key, send, payloadId, configured, now);
      }
  }

  lemma StepBalances(w: World, a: Action)
    requires Balanced(w.db, w.moves)
    ensures Balanced(Step(w, a).db, Step(w, a).moves)
  {
    if Phase(a) || a.RequestAmazon? || a.RequestAdamHall? {
      SubmissionBalances(w, a);
    } else if a.MoveStock? {
      MoveBalances(w, a);
    } else {
      HandlerBalances(w, a);
    }
  }

  /** Only a confirmation message adds to the applied confirmations. */
  lemma OnlyConfirmAddsEvents(w: World, a: Action)
    requires Step(w, a).db.events != w.db.events
    ensures a.Confirm? && Transaction(w.db, a).Ok?
  {
    if Phase(a) {
      PhaseKeepsWarehouse(w, a);
    } else if a.RequestAmazon? || a.RequestAdamHall? {
      RequestKeepsWarehouse(w, a);
    } else if !a.Confirm? && Transaction(w.db, a).Ok? {
      HandlerEvents(w.db, a);
    }
  }

  lemma HandlerEvents(db: Db, a: Action)
    requires !a.Confirm? && Transaction(db, a).Ok?
    ensures Transaction(db, a).value.events == db.events
  {
    if a.Receive? {
      ReceiveShape(db, a.id, a.receipt, a.guided, a.user, a.now);
      var line := db.files[a.id].lines[Confirmations.Position(db.files[a.id].lines, a.receipt.line)];
      StockedShape(db, line, a.receipt, a.guided);
    } else if !a.MoveStock? {
      TransactionKeepsWarehouse(db, a);
    }
  }

  lemma SubmissionBalances(w: World, a: Action)
    requires Balanced(w.db, w.moves) && (Phase(a) || a.RequestAmazon? || a.RequestAdamHall?)
    ensures Balanced(Step(w, a).db, Step(w, a).moves)
  {
    assert Step(w, a).moves == w.moves;
    if Phase(a) {
      PhaseKeepsWarehouse(w, a);
    } else {
      RequestKeepsWarehouse(w, a);
    }
    KeptBalances(w.db, Step(w, a).db, w.moves);
  }

  lemma HandlerBalances(w: World, a: Action)
    requires Balanced(w.db, w.moves) && !Phase(a) && !a.RequestAmazon? && !a.RequestAdamHall? && !a.MoveStock?
    ensures Balanced(Step(w, a).db, Step(w, a).moves)
  {
    assert Step(w, a).moves == w.moves;
    if Transaction(w.db, a).Err? {
      assert Step(w, a).db == w.db;
    } else if a.Receive? {
      assert Step(w, a).db == Transaction(w.db, a).value;
      ReceiveBalances(w.db, w.moves, a.id, a.receipt, a.guided, a.user, a.now);
    } else {
      assert Step(w, a).db == Transaction(w.db, a).value;
      TransactionKeepsWarehouse(w.db, a);
      KeptBalances(w.db, Transaction(w.db, a).value, w.moves);
    }
  }

  lemma {:induction false} RunBalances(w: World, actions: seq<Action>)
    requires Balanced(w.db, w.moves)
    ensures Balanced(Run(w, actions).db, Run(w, actions).moves)
    decreases |actions|
  {
    if actions != [] {
      StepBalances(w, actions[0]);
      RunBalances(Step(w, actions[0]), actions[1..]);
    }
  }

  /**
   In every reachable state, whatever the warehouse itself did to its tables in between: stock of every location and
   devices of every product are what the warehouse moved plus what the receipts booked, and every booked receipt has
   its own putaway task.
   */
  lemma WarehouseMatchesReceipts(actions: seq<Action>, at: Location, product: Id)
    ensures var w := Run(Init(), actions);
            && StockAt(w.db.warehouse, at) == MovedStock(w.moves, at) + BookedStock(w.db.receipts, at)
            && DeviceCount(w.db.warehouse.devices, product)
              == MovedDevices(w.moves, product) + BookedDevices(w.db.receipts, product)
            && TasksOk(w.db)
  {
    assert Balanced(Init().db, []);
    RunBalances(Init(), actions);
  }
}
