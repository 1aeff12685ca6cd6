/** What a named version buys: an update that commits saw the rows as they are, and a guided one must name them. */
module Versions {
  import opened Base
  import opened Schema
  import opened Submission
  import opened World
  import opened Protocol
  import Keys
  import Safety

  /** The row version a request names, and whether it must name one. */
  datatype Named =
    | Nothing
    | OfOrder(order: Id, expected: Option<Time>, required: bool)
    | OfRequisition(requisition: Id, expected: Option<Time>, required: bool)

  /** Archiving and guided approval always name a version; a native Amazon submission never does. */
  function Names(a: Action): Named {
    match a
    case EditRequisition(id, _, check, _) => OfRequisition(id, check.expected, check.guided)
    case SubmitRequisition(id, check, _) => OfRequisition(id, check.expected, check.guided)
    case DecideRequisition(id, _, _, check, _) => OfRequisition(id, check.expected, check.guided)
    case ArchiveRequisition(id, _, check, _) => OfRequisition(id, check.expected, true)
    case ConvertRequisition(id, _, check, _) => OfRequisition(id, check.expected, check.guided)
    case EditDraft(id, _, _, check, _) => OfOrder(id, check.expected, check.guided)
    case SetStatus(id, _, _, _, check, _) => OfOrder(id, check.expected, check.guided)
    case ApproveOrder(id, _, _, check, _) => OfOrder(id, check.expected, true)
    case ArchiveOrder(id, _, check, _) => OfOrder(id, check.expected, true)
    case RequestAmazon(_, _, token, send, _, _, _) =>
      if token.Some? then OfOrder(send.order, send.expectedVersion, true) else Nothing
    case RequestAdamHall(_, _, _, send, _, _, _) => OfOrder(send.order, send.expectedVersion, true)
    case ReconcileOrder(_, _, request, _) => OfOrder(request.order, request.expectedVersion, true)
    case Receive(id, receipt, guided, _, _) => OfOrder(id, receipt.expectedVersion, guided)
    case _ => Nothing
  }

  /** A request under a recorded key is answered from its record and decides nothing anew. */
  predicate Repeated(db: Db, a: Action) {
    Keys.KeyOf(a).Some? && Keys.KeyOf(a).value in db.records
  }

  /** The named version is the stored one, and nothing that must be named is missing. */
  predicate Current(db: Db, named: Named) {
    match named
    case Nothing => true
    case OfOrder(o, expected, required) =>
      && o in db.files
      && (expected.Some? ==> expected.value == db.files[o].order.version)
      && (required ==> expected.Some?)
    case OfRequisition(r, expected, required) =>
      && r in db.requisitions
      && (expected.Some? ==> expected.value == db.requisitions[r].version)
      && (required ==> expected.Some?)
  }

  lemma RequisitionCurrent(db: Db, a: Action)
    requires a.EditRequisition? || a.SubmitRequisition? || a.DecideRequisition? || a.ArchiveRequisition?
    requires Transaction(db, a).Ok?
    ensures Current(db, Names(a))
  {
  }

  lemma ConversionCurrent(db: Db, a: Action)
    requires a.ConvertRequisition? && Transaction(db, a).Ok?
    ensures Current(db, Names(a))
  {
  }

  lemma OrderCurrent(db: Db, a: Action)
    requires a.EditDraft? || a.SetStatus? || a.ApproveOrder? || a.ArchiveOrder?
    requires Transaction(db, a).Ok?
    ensures Current(db, Names(a))
  {
  }

  lemma ReceiptCurrent(db: Db, a: Action)
    requires a.Receive? && Transaction(db, a).Ok?
    ensures Current(db, Names(a))
  {
  }

  lemma ReconciliationCurrent(db: Db, a: Action)
    requires a.ReconcileOrder? && Transaction(db, a).Ok? && !Repeated(db, a)
    ensures Current(db, Names(a))
  {
  }

  lemma HandlerCurrent(db: Db, a: Action)
    requires Transaction(db, a).Ok? && !Repeated(db, a)
    ensures Current(db, Names(a))
  {
    if a.ReconcileOrder? {
      ReconciliationCurrent(db, a);
    } else if a.Receive? {
      ReceiptCurrent(db, a);
    } else if a.ConvertRequisition? {
      ConversionCurrent(db, a);
    } else if a.EditDraft? || a.SetStatus? || a.ApproveOrder? || a.ArchiveOrder? {
      OrderCurrent(db, a);
    } else if a.EditRequisition? || a.SubmitRequisition? || a.DecideRequisition? || a.ArchiveRequisition? {
      RequisitionCurrent(db, a);
    }
  }

  lemma AmazonCurrent(w: World, a: Action)
    requires a.RequestAmazon? && !Repeated(w.db, a) && Step(w, a) != w
    ensures Current(w.db, Names(a))
  {
    if a.token.Some? {
      GuidedAmazon(w.db, a.user, a.token.value, a.send, a.payloadId, a.configured, a.now);
    }
  }

  lemma AdamHallCurrent(w: World, a: Action)
    requires a.RequestAdamHall? && !Repeated(w.db, a) && Step(w, a) != w
    ensures Current(w.db, Names(a))
  {
    FirstAdamHall(w.db, a.user, a.key, a.send, a.payloadId, a.configured, a.now);
  }

  /**
   In every state and for every action that changes anything: a version it names is the stored one at that moment, and
   one it must name is named. So a stale update, and a guided one without a version, changes nothing.
   */
  lemma NamedVersionIsStored(w: World, a: Action)
    requires Step(w, a) != w && !Repeated(w.db, a)
    ensures Current(w.db, Names(a))
  {
    if a.RequestAmazon? {
      AmazonCurrent(w, a);
    } else if a.RequestAdamHall? {
      AdamHallCurrent(w, a);
    } else if !Phase(a) && Transaction(w.db, a).Ok? {
      HandlerCurrent(w.db, a);
    }
  }

  /**
   An update that names the version read earlier, after whatever happened since, commits only if neither the order, nor
   a line, nor a confirmation of it was touched in between.
   */
  lemma {:induction false} UpdateSawTheOrder(actions: seq<Action>, later: seq<Action>, o: Id, a: Action)
    requires o in Run(Init(), actions).db.files
    requires Names(a).OfOrder? && Names(a).order == o
    requires Names(a).expected == Some(Run(Init(), actions).db.files[o].order.version)
    requires var w := Run(Init(), actions + later); Step(w, a) != w && !Repeated(w.db, a)
    ensures o in Run(Init(), actions + later).db.files
    ensures var read := Run(Init(), actions).db.files[o];
            var found := Run(Init(), actions + later).db.files[o];
            found.order == read.order && found.lines == read.lines && found.confirmations == read.confirmations
  {
    NamedVersionIsStored(Run(Init(), actions + later), a);
    Safety.OrderVersionIsFresh(actions, later, o);
  }

  /** The same for requisitions with their lines. */
  lemma {:induction false} UpdateSawTheRequisition(actions: seq<Action>, later: seq<Action>, r: Id, a: Action)
    requires r in Run(Init(), actions).db.requisitions
    requires Names(a).OfRequisition? && Names(a).requisition == r
    requires Names(a).expected == Some(Run(Init(), actions).db.requisitions[r].version)
    requires var w := Run(Init(), actions + later); Step(w, a) != w && !Repeated(w.db, a)
    ensures r in Run(Init(), actions + later).db.requisitions
    ensures Run(Init(), actions + later).db.requisitions[r] == Run(Init(), actions).db.requisitions[r]
  {
    NamedVersionIsStored(Run(Init(), actions + later), a);
    Safety.RequisitionVersionIsFresh(actions, later, r);
  }
}
