/**
 What confirmation messages do over whole runs: which statuses fall, which stay `cancelled`, and what a repeated or
 delayed message does.
 */
module Messages {
  import opened Base
  import opened Schema
  import opened World
  import opened Invariants
  import opened Preservation
  import opened Protocol
  import opened Evolution
  import opened FileSteps
  import Confirmations
  import Safety
  import Stock
  import Stranding

  /** The statuses a confirmation may move an order between, either way. */
  predicate Confirmable(s: OrderStatus) {
    s == Sent || s == Confirmed || s == PartiallyConfirmed
  }

  /** The status the merged totals of a message derive. */
  ghost function Derived(f: OrderFile, m: Confirmations.Message): OrderStatus
    requires Confirmations.NextRows(f, m).Ok?
  {
    Confirmations.StatusAfter(f.order, Confirmations.NextRows(f, m).value, f.lines)
  }

  /**
   An accepted, not yet applied confirmation of a confirmed or partially confirmed order whose merged totals derive
   another of `sent`, `confirmed` and `partially_confirmed`.
   */
  ghost predicate FallingMessage(db: Db, a: Action, o: Id) {
    && a.Confirm? && a.id == o && Transaction(db, a).Ok? && o in db.files
    && Confirmations.Precheck(db, o, a.message).None? && Confirmations.NextRows(db.files[o], a.message).Ok?
    && (db.files[o].order.status == Confirmed || db.files[o].order.status == PartiallyConfirmed)
    && Derived(db.files[o], a.message) != db.files[o].order.status
    && Confirmable(Derived(db.files[o], a.message))
  }

  /** The status changes and its rank does not rise. */
  predicate Falls(was: OrderStatus, now: OrderStatus) {
    now != was && Rank(now) <= Rank(was)
  }

  /** An applied confirmation leaves the derived status. */
  lemma AppliedStatus(db: Db, o: Id, m: Confirmations.Message, text: string, now: Time)
    requires Confirmations.Apply(db, o, m, text, now).Ok? && Confirmations.Precheck(db, o, m).None?
    ensures o in db.files && Confirmations.NextRows(db.files[o], m).Ok?
    ensures o in Confirmations.Apply(db, o, m, text, now).value.files
    ensures Confirmations.Apply(db, o, m, text, now).value.files[o].order.status == Derived(db.files[o], m)
    ensures db.files[o].order.session.Some?
  {
    var f := db.files[o];
    var rows := Confirmations.NextRows(f, m).value;
    CommittedStatus(db, o, m, rows, Confirmations.StatusAfter(f.order, rows, f.lines), text, now);
  }

  lemma CommittedStatus(db: Db, o: Id, m: Confirmations.Message, rows: map<ConfirmationKey, ConfirmationRow>,
      status: OrderStatus, text: string, now: Time)
    requires o in db.files && Confirmations.Commit(db, o, m, rows, status, text, now).Ok?
    ensures o in Confirmations.Commit(db, o, m, rows, status, text, now).value.files
    ensures Confirmations.Commit(db, o, m, rows, status, text, now).value.files[o].order.status == status
  {
    CommitShape(db, o, m, rows, status, text, now);
  }

  /** A run that keeps the applied confirmations makes no status fall. */
  lemma FallChangesEvents(w: World, a: Action, o: Id)
    requires Inv(w) && o in w.db.files && o in Step(w, a).db.files
    requires Falls(w.db.files[o].order.status, Step(w, a).db.files[o].order.status)
    ensures Step(w, a).db.events != w.db.events
  {
    InvGuards(w);
    StepExtends(w, a);
  }

  lemma AppliedMeans(db: Db, o: Id, m: Confirmations.Message, text: string, now: Time, other: Id)
    requires Confirmations.Apply(db, o, m, text, now).Ok?
    requires Confirmations.Apply(db, o, m, text, now).value.events != db.events
    ensures Confirmations.Precheck(db, o, m).None?
    ensures other in db.files && other != o ==>
              && other in Confirmations.Apply(db, o, m, text, now).value.files
              && Confirmations.Apply(db, o, m, text, now).value.files[other] == db.files[other]
  {
    ApplyShape(db, o, m, text, now);
  }

  /** A fall can only come from a message applied to this very order. */
  lemma FallIsConfirm(w: World, a: Action, o: Id)
    requires o in w.db.files && o in Step(w, a).db.files && Step(w, a).db.events != w.db.events
    requires Falls(w.db.files[o].order.status, Step(w, a).db.files[o].order.status)
    ensures a.Confirm? && a.id == o && Transaction(w.db, a).Ok? && Confirmations.Precheck(w.db, o, a.message).None?
  {
    Stock.OnlyConfirmAddsEvents(w, a);
    assert Step(w, a).db == Transaction(w.db, a).value;
    AppliedMeans(w.db, a.id, a.message, a.text, a.now, o);
  }

  /** What an applied confirmation finds and may leave. */
  lemma AppliedStatuses(db: Db, o: Id, m: Confirmations.Message, text: string, now: Time)
    requires Confirmations.Apply(db, o, m, text, now).Ok? && Confirmations.Precheck(db, o, m).None?
    ensures o in db.files && Confirmations.NextRows(db.files[o], m).Ok?
    ensures var was, then' := db.files[o].order.status, Derived(db.files[o], m);
            && was != Draft && was != PartiallyReceived && was != Received
            && (was == Cancelled ==> then' == Cancelled) && (then' == Cancelled || Confirmable(then'))
  {
  }

  lemma FallCases(was: OrderStatus, now: OrderStatus)
    requires was != Draft && was != PartiallyReceived && was != Received
    requires (was == Cancelled ==> now == Cancelled) && (now == Cancelled || Confirmable(now))
    ensures Falls(was, now) <==> (was == Confirmed || was == PartiallyConfirmed) && now != was && Confirmable(now)
  {
  }

  lemma ConfirmSteps(w: World, o: Id, m: Confirmations.Message, text: string, now: Time)
    requires Transaction(w.db, Confirm(o, m, text, now)).Ok?
    ensures Confirmations.Parsed(m) && Confirmations.Apply(w.db, o, m, text, now).Ok?
    ensures Transaction(w.db, Confirm(o, m, text, now)) == Confirmations.Apply(w.db, o, m, text, now)
    ensures Step(w, Confirm(o, m, text, now)).db == Confirmations.Apply(w.db, o, m, text, now).value
  {
  }

  lemma FallMeans(w: World, a: Action, o: Id)
    requires a.Confirm? && a.id == o && Transaction(w.db, a).Ok? && Confirmations.Precheck(w.db, o, a.message).None?
    requires o in w.db.files && o in Step(w, a).db.files
    ensures Falls(w.db.files[o].order.status, Step(w, a).db.files[o].order.status) <==> FallingMessage(w.db, a, o)
  {
    ConfirmSteps(w, o, a.message, a.text, a.now);
    AppliedStatus(w.db, o, a.message, a.text, a.now);
    AppliedStatuses(w.db, o, a.message, a.text, a.now);
    FallCases(w.db.files[o].order.status, Derived(w.db.files[o], a.message));
  }

  lemma FallingStep(w: World, a: Action, o: Id)
    requires Inv(w) && o in w.db.files && o in Step(w, a).db.files
    ensures Falls(w.db.files[o].order.status, Step(w, a).db.files[o].order.status) <==> FallingMessage(w.db, a, o)
  {
    if FallingMessage(w.db, a, o) {
      FallMeans(w, a, o);
    } else if Falls(w.db.files[o].order.status, Step(w, a).db.files[o].order.status) {
      FallChangesEvents(w, a, o);
      FallIsConfirm(w, a, o);
      FallMeans(w, a, o);
    }
  }

  /**
   In every run and for every order: a status changes without its rank rising if and only if the action is a
   confirmation that applies to a confirmed or partially confirmed order and derives another confirmable status.
   */
  lemma {:induction false} FallsExactly(actions: seq<Action>, a: Action, o: Id)
    requires o in Run(Init(), actions).db.files
    ensures o in Step(Run(Init(), actions), a).db.files
    ensures var w := Run(Init(), actions);
            Falls(w.db.files[o].order.status, Step(w, a).db.files[o].order.status) <==> FallingMessage(w.db, a, o)
  {
    var w := Run(Init(), actions);
    Safety.Reached(actions);
    InvGuards(w);
    StepExtends(w, a);
    FallingStep(w, a, o);
  }

  // ---------- cancelled ----------

  /** The message reaches the totals: it was not seen, fits the order, and no line exceeds its quantity. */
  ghost predicate ReachesTotals(db: Db, o: Id, m: Confirmations.Message) {
    && Confirmations.Precheck(db, o, m).None? && o in db.files
    && Confirmations.NextRows(db.files[o], m).Ok?
    && Confirmations.WithinQuantities(Confirmations.NextRows(db.files[o], m).value, db.files[o].lines)
  }

  /** The message is applied and leaves the order `cancelled` although its rows do not reject what was requested. */
  ghost predicate CancelledUnrejected(db: Db, o: Id, m: Confirmations.Message, text: string, now: Time)
    requires ReachesTotals(db, o, m)
  {
    var rows := Confirmations.NextRows(db.files[o], m).value;
    && Confirmations.Apply(db, o, m, text, now).Ok?
    && o in Confirmations.Apply(db, o, m, text, now).value.files
    && Confirmations.Apply(db, o, m, text, now).value.files[o].order.status == Cancelled
    && !Confirmations.Near(Confirmations.RejectedTotal(rows, db.files[o].lines),
                           Confirmations.RequestedTotal(db.files[o].lines))
  }

  lemma CommitCancelled(db: Db, approvals: seq<Approval>, o: Id, m: Confirmations.Message,
      rows: map<ConfirmationKey, ConfirmationRow>, text: string, now: Time)
    requires o in db.files && Holds(db, approvals, o, db.files[o])
    requires db.files[o].order.status == Cancelled && db.files[o].order.payloadId != ""
    ensures Confirmations.Commit(db, o, m, rows, Cancelled, text, now).Ok? <==> !db.files[o].order.archived
  {
  }

  /**
   In every reachable state: a message leaves an order `cancelled` that its rows do not reject if and only if the
   order was cancelled before, is not archived, and the totals decide nothing.
   */
  lemma {:induction false} CancelledExactly(actions: seq<Action>, o: Id, m: Confirmations.Message, text: string,
      now: Time)
    requires ReachesTotals(Run(Init(), actions).db, o, m)
    ensures var db := Run(Init(), actions).db;
            CancelledUnrejected(db, o, m, text, now) <==>
              && db.files[o].order.status == Cancelled && !db.files[o].order.archived
              && Confirmations.Undecided(Confirmations.NextRows(db.files[o], m).value, db.files[o].lines,
                                         Confirmations.EPSILON)
  {
    var w := Run(Init(), actions);
    Safety.Reached(actions);
    assert Holds(w.db, w.approvals, o, w.db.files[o]);
    CancelledIn(w.db, w.approvals, o, m, text, now);
  }

  lemma CancelledIn(db: Db, approvals: seq<Approval>, o: Id, m: Confirmations.Message, text: string, now: Time)
    requires ReachesTotals(db, o, m) && Holds(db, approvals, o, db.files[o])
    ensures CancelledUnrejected(db, o, m, text, now) <==>
              && db.files[o].order.status == Cancelled && !db.files[o].order.archived
              && Confirmations.Undecided(Confirmations.NextRows(db.files[o], m).value, db.files[o].lines,
                                         Confirmations.EPSILON)
  {
    var f := db.files[o];
    var rows := Confirmations.NextRows(f, m).value;
    var status := Confirmations.StatusAfter(f.order, rows, f.lines);
    if f.order.status == Cancelled {
      CommitCancelled(db, approvals, o, m, rows, text, now);
    }
    if Confirmations.Apply(db, o, m, text, now).Ok? {
      CommittedStatus(db, o, m, rows, status, text, now);
    }
  }

  // ---------- repeated messages ----------

  lemma AppliedIsKnown(db: Db, o: Id, m: Confirmations.Message, text: string, now: Time)
    requires Confirmations.Apply(db, o, m, text, now).Ok?
    ensures var db' := Confirmations.Apply(db, o, m, text, now).value;
            && m.payloadId in db'.events && db'.events[m.payloadId] == o
            && o in db.files && o in db'.files && db.files[o].order.session.Some?
            && db.files[o].order.payloadId != "" && db.files[o].order.status != Draft
            && (m.orderPayloadId == "" || m.orderPayloadId == db.files[o].order.payloadId)
  {
    if Confirmations.Precheck(db, o, m).None? {
      ApplyShape(db, o, m, text, now);
    }
  }

  /** A known payload id changes nothing; for its own, unchanged order it is answered as accepted. */
  lemma KnownChangesNothing(w: World, p: Id, m: Confirmations.Message, text: string, now: Time)
    requires m.payloadId in w.db.events
    ensures Step(w, Confirm(p, m, text, now)) == w
    ensures && Confirmations.Parsed(m) && p in w.db.files && w.db.events[m.payloadId] == p
            && w.db.files[p].order.session.Some? && w.db.files[p].order.payloadId != ""
            && w.db.files[p].order.status != Draft
            && (m.orderPayloadId == "" || m.orderPayloadId == w.db.files[p].order.payloadId) ==>
              Transaction(w.db, Confirm(p, m, text, now)) == Ok(w.db)
  {
    assert Confirmations.Precheck(w.db, p, m).Some?;
  }

  /** An order that Amazon may confirm keeps session, payload identity and its life behind the draft. */
  lemma {:induction false} AddresseeStays(w: World, later: seq<Action>, o: Id)
    requires Inv(w) && o in w.db.files && w.db.files[o].order.session.Some?
    requires w.db.files[o].order.payloadId != "" && w.db.files[o].order.status != Draft
    ensures var files := Run(w, later).db.files;
            && o in files && files[o].order.session.Some? && files[o].order.status != Draft
            && files[o].order.payloadId == w.db.files[o].order.payloadId
  {
    RunExtends(w, later);
    RunKeeps(w, later);
    var w' := Run(w, later);
    assert FileStep(w.db.files[o], w'.db.files[o]);
    assert Holds(w.db, w.approvals, o, w.db.files[o]);
    assert Holds(w'.db, w'.approvals, o, w'.db.files[o]);
  }

  /** What an accepted confirmation leaves behind, and any later run keeps. */
  predicate Remembered(db: Db, o: Id, m: Confirmations.Message) {
    && m.payloadId in db.events && db.events[m.payloadId] == o
    && o in db.files && db.files[o].order.session.Some? && db.files[o].order.status != Draft
    && db.files[o].order.payloadId != "" && (m.orderPayloadId == "" || m.orderPayloadId == db.files[o].order.payloadId)
  }

  lemma {:induction false} RememberedForever(w: World, later: seq<Action>, o: Id, m: Confirmations.Message)
    requires Inv(w) && Remembered(w.db, o, m)
    ensures Remembered(Run(w, later).db, o, m)
  {
    AddresseeStays(w, later, o);
    RunExtends(w, later);
  }

  lemma AcceptedIsRemembered(w: World, w': World, o: Id, m: Confirmations.Message, text: string, now: Time)
    requires Inv(w) && Confirmations.Apply(w.db, o, m, text, now).Ok?
    requires w' == Run(w, [Confirm(o, m, text, now)]) && w'.db == Confirmations.Apply(w.db, o, m, text, now).value
    ensures Remembered(w'.db, o, m)
  {
    AppliedIsKnown(w.db, o, m, text, now);
    AddresseeStays(w, [Confirm(o, m, text, now)], o);
  }

  /**
   Once a confirmation was accepted, a message with its payload id changes nothing after any later run, whatever order
   it names and whatever it says; and the same message for the same order is answered as accepted again.
   */
  lemma {:induction false} RedeliveryChangesNothing(actions: seq<Action>, o: Id, m: Confirmations.Message, text: string,
      now: Time,
      later: seq<Action>, p: Id, again: Confirmations.Message, text': string, now': Time)
    requires Transaction(Run(Init(), actions).db, Confirm(o, m, text, now)).Ok? && again.payloadId == m.payloadId
    ensures var w := Run(Step(Run(Init(), actions), Confirm(o, m, text, now)), later);
            && Step(w, Confirm(p, again, text', now')) == w
            && Transaction(w.db, Confirm(o, m, text', now')) == Ok(w.db)
  {
    var w := Run(Init(), actions);
    Safety.Reached(actions);
    ConfirmSteps(w, o, m, text, now);
    var next := Step(w, Confirm(o, m, text, now));
    Stranding.OneStep(w, Confirm(o, m, text, now));
    AcceptedIsRemembered(w, next, o, m, text, now);
    StepKeeps(w, Confirm(o, m, text, now));
    RememberedForever(next, later, o, m);
    KnownChangesNothing(Run(next, later), p, again, text', now');
    KnownChangesNothing(Run(next, later), o, m, text', now');
  }
}
