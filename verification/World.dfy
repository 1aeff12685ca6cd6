/**
 The whole system: the database, the processes between their transactions, and what has left the house.
 Every request and every phase of a request is one action; any sequence of actions is a run.
 */
module World {
  import opened Base
  import opened Schema
  import opened Triggers
  import opened Submission
  import Confirmations
  import GoodsReceipts
  import Workflow

  /** Where a process that committed a claim stands. */
  datatype Stage =
    | Sending                                        // claim committed, nothing sent yet
    | Responded(status: ClaimStatus, outcome: Outcome) // the supplier answered or the call failed, nothing saved yet
    | Finalizing                                     // outcome saved, order not finalized by this process yet

  datatype Process = Process(order: Id, key: Option<Key>, stage: Stage)

  /** One external order request that left the process. */
  datatype Send = Send(order: Id, provider: Provider, payloadId: string, payload: Payload)

  /** History: who approved which cart of whom, and which PunchOut session it came from. */
  datatype Approval = Approval(requisition: Id, requester: Id, approver: Id, session: Option<Id>,
      lines: seq<RequisitionLine>)

  /** The entry for a requisition as it stands. */
  function Approved(id: Id, r: Requisition, approver: Id): Approval {
    Approval(id, r.requester, approver, r.session, r.lines)
  }

  /** The warehouse's own work on the shared tables: stock and devices before and after. */
  datatype Move = Move(stock: map<Location, real>, devices: seq<Device>, stockAfter: map<Location, real>,
      devicesAfter: seq<Device>)

  datatype World = World(
    db: Db, processes: map<nat, Process>, sends: seq<Send>, approvals: seq<Approval>, converted: seq<Id>,
    moves: seq<Move>)

  /** expectedUpdatedAt of a request; a guided request must name it. */
  datatype Check = Check(expected: Option<Time>, guided: bool)

  datatype Action =
    // catalog
    | NewCategory(category: Category, now: Time)
    | NewSupplier(supplier: Supplier, now: Time)
    | NewProduct(product: Product, now: Time)
    | NewOffer(offer: Offer, now: Time)
    | PutCategory(id: Id, category: Category, now: Time)
    | PutSupplier(id: Id, supplier: Supplier, now: Time)
    | PutProduct(id: Id, product: Product, now: Time)
    | PutOffer(id: nat, offer: Offer, now: Time)
    // requisitions
    | NewRequisition(requester: Id, session: Option<Id>, demand: seq<RequisitionLine>, now: Time)
    | EditRequisition(id: Id, edited: Option<seq<RequisitionLine>>, check: Check, now: Time)
    | SubmitRequisition(id: Id, check: Check, now: Time)
    | DecideRequisition(id: Id, user: Id, decision: Workflow.Decision, check: Check, now: Time)
    | ArchiveRequisition(id: Id, archive: bool, check: Check, now: Time)
    | ConvertRequisition(id: Id, input: Workflow.OrderInput, check: Check, now: Time)
    // orders
    | NewOrder(input: Workflow.OrderInput, now: Time)
    | EditDraft(id: Id, input: Workflow.OrderInput, lines: Option<seq<Line>>, check: Check, now: Time)
    | SetStatus(id: Id, to: OrderStatus, supplierNumber: string, notes: string, check: Check, now: Time)
    | ApproveOrder(id: Id, to: OrderStatus, reason: string, check: Check, now: Time)
    | ArchiveOrder(id: Id, archive: bool, check: Check, now: Time)
    // supplier submission
    | RequestAmazon(process: nat, user: Id, token: Option<string>, send: SendRequest, payloadId: string,
                    configured: bool, now: Time)
    | RequestAdamHall(process: nat, user: Id, key: string, send: SendRequest, payloadId: string, configured: bool,
                      now: Time)
    | SendOut(process: nat, status: ClaimStatus, outcome: Outcome)
    | SaveOutcome(process: nat)
    | FinalizeOrder(process: nat, now: Time)
    | Crash(process: nat)
    | ReconcileOrder(user: Id, key: string, request: ReconcileRequest, now: Time)
    // Amazon and warehouse
    | Confirm(id: Id, message: Confirmations.Message, text: string, now: Time)
    | Receive(id: Id, receipt: GoodsReceipts.ReceiptInput, guided: bool, user: Id, now: Time)
    | CloseTask(id: Id)
    | MoveStock(stock: map<Location, real>, devices: seq<Device>)
    | PutWarehouse(links: map<Id, Id>, products: map<Id, WarehouseProduct>, zones: map<Id, Zone>)

  /** An answer the supplier call can end in: an acknowledgement (with a number from Adam Hall), or uncertainty. */
  predicate PossibleOutcome(provider: Provider, status: ClaimStatus, outcome: Outcome) {
    || (status == Unknown && outcome == Uncertain)
    || (&& status == Accepted && outcome.Acknowledged? && (provider == AdamHall ==> outcome.number != "")
        && (provider == Amazon ==> outcome.number == ""))
  }

  predicate OrderStale(db: Db, o: Id, check: Check) {
    o in db.files && !VersionAccepted(db.files[o].order.version, check.expected, check.guided)
  }

  predicate RequisitionStale(db: Db, r: Id, check: Check) {
    r in db.requisitions && !VersionAccepted(db.requisitions[r].version, check.expected, check.guided)
  }

  /** The transaction an action asks for, on the database alone; process phases are separate. */
  ghost function Transaction(db: Db, a: Action): Result<Db> {
    match a
    case NewCategory(row, now) => InsertCategory(db, row, now)
    case NewSupplier(row, now) => InsertSupplier(db, row, now)
    case NewProduct(row, now) => InsertProduct(db, row, now)
    case NewOffer(row, now) => InsertOffer(db, row, now)
    case PutCategory(id, row, now) =>
      if id in db.catalog.categories then WriteCategory(db, id, row, now) else Err(NotFound)
    case PutSupplier(id, row, now) =>
      if id in db.catalog.suppliers then WriteSupplier(db, id, row, now) else Err(NotFound)
    case PutProduct(id, row, now) => if id in db.catalog.products then WriteProduct(db, id, row, now) else Err(NotFound)
    case PutOffer(id, row, now) => if id < |db.catalog.offers| then WriteOffer(db, id, row, now) else Err(NotFound)
    case NewRequisition(requester, session, demand, now) =>
      Workflow.CreateRequisition(db, requester, session, demand, now)
    case EditRequisition(id, edited, check, now) =>
      if RequisitionStale(db, id, check) then Err(StaleVersion) else Workflow.EditRequisition(db, id, edited, now)
    case SubmitRequisition(id, check, now) =>
      if RequisitionStale(db, id, check) then Err(StaleVersion) else Workflow.SubmitRequisition(db, id, now)
    case DecideRequisition(id, user, decision, check, now) =>
      if RequisitionStale(db, id, check)
      then Err(StaleVersion) else Workflow.DecideRequisition(db, id, user, decision, check.guided, now)
    case ArchiveRequisition(id, archive, check, now) =>
      if RequisitionStale(db, id, check.(guided := true))
      then Err(StaleVersion) else Workflow.ArchiveRequisition(db, id, archive, now)
    case ConvertRequisition(id, input, check, now) =>
      if RequisitionStale(db, id, check) then Err(StaleVersion) else Workflow.ConvertRequisition(db, id, input, now)
    case NewOrder(input, now) => Workflow.CreateOrder(db, input, now)
    case EditDraft(id, input, lines, check, now) =>
      if OrderStale(db, id, check) then Err(StaleVersion) else Workflow.EditDraft(db, id, input, lines, now)
    case SetStatus(id, to, number, notes, check, now) =>
      if OrderStale(db, id, check)
      then Err(StaleVersion) else Workflow.SetStatus(db, id, to, number, notes, check.guided, now)
    case ApproveOrder(id, to, reason, check, now) =>
      if OrderStale(db, id, check.(guided := true))
      then Err(StaleVersion) else Workflow.ApproveOrder(db, id, to, reason, now)
    case ArchiveOrder(id, archive, check, now) =>
      if OrderStale(db, id, check.(guided := true))
      then Err(StaleVersion) else Workflow.ArchiveOrder(db, id, archive, now)
    case ReconcileOrder(user, key, request, now) =>
      var reply :- Reconcile(db, user, key, request, now);
      Ok(reply.db)
    case Confirm(id, message, text, now) =>
      if Confirmations.Parsed(message) then Confirmations.Apply(db, id, message, text, now) else Err(NotReady)
    case Receive(id, receipt, guided, user, now) =>
      if 0.0 < receipt.quantity <= 1_000_000_000.0
      then GoodsReceipts.Receive(db, id, receipt, guided, user, now) else Err(NotReady)
    case CloseTask(id) => Workflow.CloseTask(db, id)
    case MoveStock(stock, devices) => Ok(db.(warehouse := db.warehouse.(stock := stock, devices := devices)))
    case PutWarehouse(links, products, zones) =>
      Ok(db.(warehouse := db.warehouse.(links := links, products := products, zones := zones)))
    case _ => Err(NotFound)
  }

  /** The payload id is random and never empty. */
  function AmazonReply(db: Db, user: Id, token: Option<string>, send: SendRequest, payloadId: string,
      configured: bool, now: Time): Result<Reply> {
    if payloadId == "" then Err(NotReady) else SubmitAmazon(db, user, token, send, payloadId, configured, now)
  }

  function AmazonKey(user: Id, token: Option<string>, o: Id): Option<Key> {
    if token.Some? then Some(Key(user, SendAmazon(o), token.value)) else None
  }

  function AdamHallReply(db: Db, user: Id, token: string, send: SendRequest, payloadId: string, configured: bool,
      now: Time): Result<Reply> {
    if payloadId == "" then Err(NotReady) else SubmitAdamHall(db, user, token, send, payloadId, configured, now)
  }

  /** The state after an action; whatever is refused leaves the state as it was. */
  ghost function Step(w: World, a: Action): World {
    match a
    case RequestAmazon(p, user, token, send, payloadId, configured, now) =>
      Begin(w, p, AmazonReply(w.db, user, token, send, payloadId, configured, now), send.order,
            AmazonKey(user, token, send.order))
    case RequestAdamHall(p, user, key, send, payloadId, configured, now) =>
      Begin(w, p, AdamHallReply(w.db, user, key, send, payloadId, configured, now), send.order,
            Some(Key(user, SendAdamHall(send.order), key)))
    case SendOut(p, status, outcome) => Dispatch(w, p, status, outcome)
    case SaveOutcome(p) => Save(w, p)
    case FinalizeOrder(p, now) => Settle(w, p, now)
    case Crash(p) => w.(processes := w.processes - {p})
    case _ =>
      var r := Transaction(w.db, a);
      if r.Err? then w else Journal(w, a).(db := r.value)
  }

  /** History variables: an approval, a conversion and a warehouse move are noted with the transaction. */
  ghost function Journal(w: World, a: Action): World {
    match a
    case DecideRequisition(id, user, Approve, _, _) =>
      if id in w.db.requisitions then w.(approvals := w.approvals + [Approved(id, w.db.requisitions[id], user)]) else w
    case ConvertRequisition(id, _, _, _) => w.(converted := w.converted + [id])
    case MoveStock(stock, devices) =>
      w.(moves := w.moves + [Move(w.db.warehouse.stock, w.db.warehouse.devices, stock, devices)])
    case _ => w
  }

  /** The first transaction of a submission; only a new claim starts a process that may send. */
  function Begin(w: World, p: nat, r: Result<Reply>, o: Id, key: Option<Key>): World {
    if r.Err? then w
    else if !r.value.claimed then w.(db := r.value.db)
    else if p in w.processes then w
    else w.(db := r.value.db, processes := w.processes[p := Process(o, key, Sending)])
  }

  /** The external call, outside any transaction. */
  function Dispatch(w: World, p: nat, status: ClaimStatus, outcome: Outcome): World {
    if p !in w.processes || w.processes[p].stage != Sending then w
    else
      var o := w.processes[p].order;
      if o !in w.db.files || w.db.files[o].claim.None? then w
      else
        var c := w.db.files[o].claim.value;
        if !PossibleOutcome(c.provider, status, outcome) then w
        else w.(sends := w.sends + [Send(o, c.provider, c.payloadId, c.payload)],
                processes := w.processes[p := w.processes[p].(stage := Responded(status, outcome))])
  }

  /** The outcome transaction; a failure ends the process. */
  function Save(w: World, p: nat): World {
    if p !in w.processes || !w.processes[p].stage.Responded? then w
    else
      var process := w.processes[p];
      match RecordOutcome(w.db, process.order, process.stage.status, process.stage.outcome)
      case Ok(db) => w.(db := db, processes := w.processes[p := process.(stage := Finalizing)])
      case Err(_) => w.(processes := w.processes - {p})
  }

  /** The finalizing transaction; the process ends either way. */
  function Settle(w: World, p: nat, now: Time): World {
    if p !in w.processes || w.processes[p].stage != Finalizing then w
    else
      match Finalize(w.db, w.processes[p].order, w.processes[p].key, now)
      case Ok(db) => w.(db := db, processes := w.processes - {p})
      case Err(_) => w.(processes := w.processes - {p})
  }

  /** An empty house. */
  function Init(): World {
    World(Db(Catalog(map[], map[], map[], []), map[], map[], map[], [],
             Warehouse(map[], map[], map[], map[], [], map[]), map[], 1), map[], [], [], [], [])
  }

  /** Every interleaving of requests, phases, crashes, messages and human decisions is a list of actions. */
  ghost function Run(w: World, actions: seq<Action>): World
    decreases |actions|
  {
    if actions == [] then w else Run(Step(w, actions[0]), actions[1..])
  }
}
