/** Rows of the procurement and warehouse tables, and the database as one value. */
module Schema {
  import opened Base

  // ---------- catalog ----------

  datatype Category = Category(name: string, active: bool, version: Time)
  datatype Product = Product(name: string, sku: string, category: Option<Id>, active: bool, version: Time)
  /** `adamHall` is the outcome of the supplier-name and website test isAdamHallSupplier. */
  datatype Supplier = Supplier(name: string, code: string, adamHall: bool, active: bool, version: Time)
  datatype Offer = Offer(
    product: Id, supplier: Id, supplierSku: string, priceCents: int, currency: string, minimum: real, pack: real,
    validUntil: Option<Time>, url: string, active: bool, version: Time)

  /** Offers are listed in id order: an offer's id is its position. */
  datatype Catalog = Catalog(categories: map<Id, Category>, products: map<Id, Product>, suppliers: map<Id, Supplier>,
      offers: seq<Offer>)

  // ---------- requisitions ----------

  datatype RequisitionStatus = ReqDraft | ReqSubmitted | ReqApproved | ReqReturned | ReqRejected | ReqOrdered

  datatype RequisitionLine = RequisitionLine(
    id: Id, product: Option<Id>, preferredSupplier: Option<Id>, part: string, auxiliary: string,
    description: string, quantity: real, unit: string, priceCents: int, url: string)

  datatype Requisition = Requisition(
    session: Option<Id>, requester: Id, status: RequisitionStatus, approvedBy: Option<Id>, decided: bool,
    archived: bool, version: Time, lines: seq<RequisitionLine>)

  // ---------- orders ----------

  datatype OrderStatus =
    | Draft | Submitting | SubmissionUnknown | Sent | Confirmed | PartiallyConfirmed
    | PartiallyReceived | Received | Cancelled

  datatype Order = Order(
    number: string, supplier: Id, requisition: Option<Id>, session: Option<Id>, status: OrderStatus,
    currency: string, totalCents: int, payloadId: string, supplierNumber: string, amazonNumbers: set<string>,
    orderDate: Option<Time>, notes: string, archived: bool, version: Time)

  datatype Line = Line(
    id: Id, product: Option<Id>, part: string, auxiliary: string, description: string,
    quantity: real, received: real, unit: string, priceCents: int, url: string)

  // ---------- supplier submission ----------

  datatype Provider = Amazon | AdamHall
  datatype ClaimStatus = Pending | Accepted | Unknown

  /** The JSON outcome column: `{}`, an acknowledgement with the supplier's number ("" for Amazon), or an error code. */
  datatype Outcome = NoOutcome | Acknowledged(number: string) | Uncertain

  datatype PayloadLine = PayloadLine(
    part: string, auxiliary: string, description: string, quantity: int, unit: string, priceCents: int)

  /** What the supplier is sent. Adam Hall receives summed quantities by article number. */
  datatype Payload = AmazonPayload(number: string, lines: seq<PayloadLine>) | AdamHallPayload(number: string,
      items: map<string, int>)

  datatype Claim = Claim(
    provider: Provider, user: Id, payloadId: string, payload: Payload, status: ClaimStatus, outcome: Outcome,
    createdAt: Time)

  datatype Resolution = FoundOrder | ConfirmedNotSent
  datatype Reconciliation = Reconciliation(user: Id, resolution: Resolution, supplierNumber: string, evidence: string)

  // ---------- Amazon confirmations ----------

  datatype ConfirmationKey = ConfirmationKey(line: Id, amazonNumber: string)
  datatype ConfirmationRow = ConfirmationRow(accepted: real, rejected: real, delivery: Option<Time>,
      notice: Option<Time>)

  /** Everything keyed by one purchase order: its row, its lines in id order, and the unique child rows. */
  datatype OrderFile = OrderFile(
    order: Order, lines: seq<Line>, claim: Option<Claim>, reconciliation: Option<Reconciliation>,
    confirmations: map<ConfirmationKey, ConfirmationRow>)

  // ---------- goods receipts and warehouse ----------

  /** products.tracking_mode; `Unset` is the empty string, `Unsupported` every other text. */
  datatype Mode = Quantity | Individual | Untracked | Unset | Unsupported

  datatype Receipt = Receipt(
    order: Id, line: Id, quantity: real, receivedBy: Id, warehouse: Option<Id>, mode: Mode,
    applied: real, zone: Option<Id>, task: Option<Id>)

  datatype WarehouseProduct = WarehouseProduct(active: bool, mode: Mode)
  datatype Zone = Zone(active: bool, storable: bool, available: bool)
  datatype Device = Device(product: Id, serial: Option<string>)
  datatype Task = Task(product: Id, quantity: real, zone: Option<Id>, closed: bool)
  datatype Location = Location(product: Id, zone: Option<Id>)

  datatype Warehouse = Warehouse(
    links: map<Id, Id>, products: map<Id, WarehouseProduct>, zones: map<Id, Zone>,
    stock: map<Location, real>, devices: seq<Device>, tasks: map<Id, Task>)

  // ---------- idempotency ----------

  datatype Operation = SendAmazon(order: Id) | SendAdamHall(order: Id) | ReconcileSubmission(order: Id)
  datatype Key = Key(user: Id, operation: Operation, token: string)

  /** The SHA-256 context fingerprint, taken as injective: the exact rows that were reviewed. */
  datatype Context = Context(
    file: OrderFile, supplier: Option<Supplier>, products: map<Id, Product>, offers: map<nat, Offer>,
    requisition: Option<Requisition>)

  datatype SendRequest = SendRequest(
    order: Id, expectedVersion: Option<Time>, expectedContext: Option<Context>, phrase: Option<Phrase>,
    checkout: Option<Checkout>)

  /** The copied confirmation sentence: order, amount and context it was issued for. */
  datatype Phrase = Phrase(order: Id, cents: int, context: Context)

  /** A reviewed Adam Hall cart: unit prices by article number, currency and total. */
  datatype Checkout = Checkout(order: Id, prices: map<string, int>, currency: string, totalCents: int, createdAt: Time,
      context: Context)

  /** What a reconciliation preview fingerprints: the rows, and what is proposed for them. */
  datatype Proposal = Proposal(rows: Context, resolution: Resolution, supplierNumber: string, evidence: string,
      humanVerified: bool)

  /** The copied sentence of a reconciliation: provider, order and resolution, and the proposal it was issued for. */
  datatype Verdict = Verdict(provider: Provider, order: Id, resolution: Resolution, proposal: Proposal)

  datatype ReconcileRequest = ReconcileRequest(
    order: Id, resolution: Resolution, supplierNumber: string, evidence: string, humanVerified: bool,
    expectedVersion: Option<Time>, expectedContext: Option<Proposal>, phrase: Option<Verdict>)

  datatype RequestBody = SendBody(send: SendRequest) | ReconcileBody(reconcile: ReconcileRequest)

  datatype Response =
    | PendingResponse(order: Id, snapshot: Order)
    | FinishedResponse(order: Id, snapshot: Order, operationStatus: OrderStatus, outcome: ClaimStatus)
    | ReconciledResponse(order: Id, snapshot: Order, resolution: Resolution)

  datatype Record = Record(request: RequestBody, response: Response, statusCode: int)

  // ---------- the database ----------

  datatype Db = Db(
    catalog: Catalog, requisitions: map<Id, Requisition>, files: map<Id, OrderFile>, events: map<string, Id>,
    receipts: seq<Receipt>, warehouse: Warehouse, records: map<Key, Record>, serial: Id)

  /** Statuses that no longer keep catalog references alive. */
  predicate Closed(s: OrderStatus) {
    s == Received || s == Cancelled
  }

  predicate LiveRequisition(s: RequisitionStatus) {
    s == ReqDraft || s == ReqSubmitted || s == ReqApproved
  }

  /** `id` column strictly increasing: the order in which lines are read back. */
  predicate Numbered(lines: seq<Line>) {
    forall i, j :: 0 <= i < j < |lines| ==> lines[i].id < lines[j].id
  }

  /** to_jsonb(line) - 'received_quantity'. */
  function Commercial(l: Line): Line {
    l.(received := 0.0)
  }

  function CommercialLines(lines: seq<Line>): (r: seq<Line>)
    ensures |r| == |lines|
    ensures forall i :: 0 <= i < |lines| ==> r[i] == Commercial(lines[i])
  {
    seq(|lines|, i requires 0 <= i < |lines| => Commercial(lines[i]))
  }

  /** to_jsonb(order) - 'is_archived' - 'archived_at' - 'updated_at'. */
  function Business(o: Order): Order {
    o.(archived := false, version := 0)
  }

  function RequisitionBusiness(r: Requisition): Requisition {
    r.(archived := false, version := 0, lines := [])
  }

  predicate ActiveProduct(catalog: Catalog, p: Option<Id>) {
    p.Some? ==> p.value in catalog.products && catalog.products[p.value].active
  }

  predicate ActiveSupplier(catalog: Catalog, s: Id) {
    s in catalog.suppliers && catalog.suppliers[s].active
  }

  predicate ActivePreferred(catalog: Catalog, s: Option<Id>) {
    s.Some? ==> ActiveSupplier(catalog, s.value)
  }

  predicate UnarchivedRequisition(requisitions: map<Id, Requisition>, r: Option<Id>) {
    r.Some? ==> r.value in requisitions && !requisitions[r.value].archived
  }

  predicate ActiveLineProducts(catalog: Catalog, lines: seq<Line>) {
    forall i :: 0 <= i < |lines| ==> ActiveProduct(catalog, lines[i].product)
  }

  predicate ActiveRequisitionProducts(catalog: Catalog, lines: seq<RequisitionLine>) {
    forall i :: 0 <= i < |lines| ==> ActiveProduct(catalog, lines[i].product)
  }

  predicate ActivePreferredSuppliers(catalog: Catalog, lines: seq<RequisitionLine>) {
    forall i :: 0 <= i < |lines| ==> ActivePreferred(catalog, lines[i].preferredSupplier)
  }

  predicate HasReceipt(receipts: seq<Receipt>, o: Id) {
    exists i :: 0 <= i < |receipts| && receipts[i].order == o
  }

  predicate LineHasReceipt(receipts: seq<Receipt>, o: Id, line: Id) {
    exists i :: 0 <= i < |receipts| && receipts[i].order == o && receipts[i].line == line
  }

  /** procurement_order_has_open_putaway. */
  predicate OpenPutaway(db: Db, o: Id) {
    exists i :: 0 <= i < |db.receipts| && db.receipts[i].order == o && db.receipts[i].task.Some?
                && db.receipts[i].task.value in db.warehouse.tasks
                && !db.warehouse.tasks[db.receipts[i].task.value].closed
  }
}
