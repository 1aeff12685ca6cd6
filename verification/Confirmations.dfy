/**
 Amazon order confirmations: merging one cXML message into the per-line rows and deriving the order status,
 the buyer's side of the ConfirmationRequest section of the cXML 1.2 Reference Guide.
 */
module Confirmations {
  import opened Base
  import opened Schema
  import opened Triggers

  /** The comparison tolerance 0.000001. */
  const EPSILON: real := 0.000001

  datatype MessageType = AcceptAll | RejectAll | Detail
  datatype MessageOperation = NewMessage | UpdateMessage | DeleteMessage

  datatype MessageLine = MessageLine(number: int, amazonNumber: string, accepted: real, rejected: real,
      delivery: Option<Time>)

  /** A parsed confirmation. */
  datatype Message = Message(
    payloadId: string, orderPayloadId: string, amazonId: string, kind: MessageType,
    operation: MessageOperation, notice: Option<Time>, lines: seq<MessageLine>)

  /** What ParseConfirmation guarantees: line numbers from 1, one positive quantity per line. */
  predicate Parsed(m: Message) {
    forall i :: 0 <= i < |m.lines| ==>
      && m.lines[i].number >= 1
      && m.lines[i].accepted >= 0.0 && m.lines[i].rejected >= 0.0
      && (m.lines[i].accepted > 0.0 <==> m.lines[i].rejected == 0.0)
  }

  // ---------- merging ----------

  datatype PartKey = PartKey(number: int, amazonNumber: string)
  datatype Part = Part(accepted: real, rejected: real, delivery: Option<Time>)

  function Later(a: Option<Time>, b: Option<Time>): Option<Time> {
    if b.Some? && (a.None? || b.value > a.value) then b else a
  }

  function AddPart(parts: map<PartKey, Part>, line: MessageLine): map<PartKey, Part> {
    var key := PartKey(line.number, line.amazonNumber);
    var was := if key in parts then parts[key] else Part(0.0, 0.0, None);
    parts[key := Part(was.accepted + line.accepted, was.rejected + line.rejected, Later(was.delivery, line.delivery))]
  }

  /** The `combined` map after the message's lines, in order. */
  function Combine(lines: seq<MessageLine>): map<PartKey, Part> {
    if lines == [] then map[] else AddPart(Combine(lines[..|lines| - 1]), lines[|lines| - 1])
  }

  /** The row one combined part leaves, given the row stored before. */
  function MergedRow(stored: Option<ConfirmationRow>, part: Part, operation: MessageOperation,
      notice: Option<Time>): ConfirmationRow {
    if stored.Some? && stored.value.notice.Some? && notice.Some? && notice.value < stored.value.notice.value
    then stored.value
    else
      var was := if stored.Some? then stored.value else ConfirmationRow(0.0, 0.0, None, None);
      var delivery := if part.delivery.Some? then part.delivery else was.delivery;
      if && stored.Some? && part.accepted == 0.0 && part.rejected > 0.0 && part.rejected < was.accepted
         && operation == UpdateMessage
      then ConfirmationRow(was.accepted - part.rejected, was.rejected + part.rejected, delivery, notice)
      else ConfirmationRow(part.accepted, part.rejected, delivery, notice)
  }

  function Stored(rows: map<ConfirmationKey, ConfirmationRow>, key: ConfirmationKey): Option<ConfirmationRow> {
    if key in rows then Some(rows[key]) else None
  }

  /** Every combined part addresses a line of the order. */
  predicate PartsFit(parts: map<PartKey, Part>, lines: seq<Line>) {
    forall key :: key in parts ==> 1 <= key.number <= |lines|
  }

  /** Index of the line with an id, or |lines|. */
  function Position(lines: seq<Line>, id: Id): (r: nat)
    ensures r <= |lines|
    ensures r < |lines| ==> lines[r].id == id
  {
    PositionFrom(lines, id, 0)
  }

  function PositionFrom(lines: seq<Line>, id: Id, i: nat): (r: nat)
    requires i <= |lines|
    ensures i <= r <= |lines|
    ensures r < |lines| ==> lines[r].id == id
    ensures forall k :: i <= k < r ==> lines[k].id != id
    decreases |lines| - i
  {
    if i == |lines| || lines[i].id == id then i else PositionFrom(lines, id, i + 1)
  }

  /** The row a combined part is stored in. */
  function Target(lines: seq<Line>, key: PartKey): ConfirmationKey
    requires 1 <= key.number <= |lines|
  {
    ConfirmationKey(lines[key.number - 1].id, key.amazonNumber)
  }

  /** The combined part that is stored in a row. */
  function SourceOf(lines: seq<Line>, key: ConfirmationKey): PartKey {
    PartKey(Position(lines, key.line) + 1, key.amazonNumber)
  }

  /** The rows after a message with line items: every part is merged into its own row, the other rows stay. */
  function MergeRows(rows: map<ConfirmationKey, ConfirmationRow>, parts: map<PartKey, Part>, lines: seq<Line>,
      m: Message): map<ConfirmationKey, ConfirmationRow>
    requires PartsFit(parts, lines)
  {
    rows + map key | key in (set p | p in parts :: Target(lines, p)) && SourceOf(lines, key) in parts
             :: MergedRow(Stored(rows, key), parts[SourceOf(lines, key)], m.operation, m.notice)
  }

  /**
   A message without line items accepts or rejects the whole order: older rows are deleted, one row per line is created.
   */
  function WholeOrderRows(lines: seq<Line>, m: Message): map<ConfirmationKey, ConfirmationRow> {
    map key | && key in (set k | 0 <= k < |lines| :: ConfirmationKey(lines[k].id, m.amazonId))
              && Position(lines, key.line) < |lines|
      :: WholeRow(lines[Position(lines, key.line)], m)
  }

  function WholeRow(line: Line, m: Message): ConfirmationRow {
    if m.kind == RejectAll then ConfirmationRow(0.0, line.quantity, None, m.notice)
    else ConfirmationRow(line.quantity, 0.0, None, m.notice)
  }

  /** The rows a message leaves; a part beyond the order's lines refuses the message. */
  function NextRows(f: OrderFile, m: Message): Result<map<ConfirmationKey, ConfirmationRow>> {
    if m.lines == [] && m.kind != Detail then Ok(WholeOrderRows(f.lines, m))
    else if !PartsFit(Combine(m.lines), f.lines) then Err(ConfirmationMismatch)
    else Ok(MergeRows(f.confirmations, Combine(m.lines), f.lines, m))
  }

  // ---------- totals ----------

  datatype Column = AcceptedColumn | RejectedColumn

  function Cell(row: ConfirmationRow, column: Column): real {
    if column == AcceptedColumn then row.accepted else row.rejected
  }

  /** Sum of a column over a set of rows, whatever the order they are read in. */
  ghost function SumCells(rows: map<ConfirmationKey, ConfirmationRow>, keys: set<ConfirmationKey>, column: Column): real
    requires keys <= rows.Keys
    decreases |keys|
  {
    if keys == {} then 0.0
    else
      var k :| k in keys;
      Cell(rows[k], column) + SumCells(rows, keys - {k}, column)
  }

  function LineKeys(rows: map<ConfirmationKey, ConfirmationRow>, line: Id): set<ConfirmationKey> {
    set k | k in rows && k.line == line
  }

  ghost function Accepted(rows: map<ConfirmationKey, ConfirmationRow>, line: Id): real {
    SumCells(rows, LineKeys(rows, line), AcceptedColumn)
  }

  ghost function Rejected(rows: map<ConfirmationKey, ConfirmationRow>, line: Id): real {
    SumCells(rows, LineKeys(rows, line), RejectedColumn)
  }

  ghost function AcceptedTotal(rows: map<ConfirmationKey, ConfirmationRow>, lines: seq<Line>): real {
    if lines == [] then 0.0 else AcceptedTotal(rows, lines[..|lines| - 1]) + Accepted(rows, lines[|lines| - 1].id)
  }

  ghost function RejectedTotal(rows: map<ConfirmationKey, ConfirmationRow>, lines: seq<Line>): real {
    if lines == [] then 0.0 else RejectedTotal(rows, lines[..|lines| - 1]) + Rejected(rows, lines[|lines| - 1].id)
  }

  function RequestedTotal(lines: seq<Line>): real {
    if lines == [] then 0.0 else RequestedTotal(lines[..|lines| - 1]) + lines[|lines| - 1].quantity
  }

  /** No line is confirmed and rejected beyond its quantity plus a tolerance. */
  ghost predicate Bounded(rows: map<ConfirmationKey, ConfirmationRow>, lines: seq<Line>, tolerance: real) {
    forall i :: 0 <= i < |lines| ==>
      Accepted(rows, lines[i].id) + Rejected(rows, lines[i].id) <= lines[i].quantity + tolerance
  }

  ghost predicate WithinQuantities(rows: map<ConfirmationKey, ConfirmationRow>, lines: seq<Line>) {
    Bounded(rows, lines, EPSILON)
  }

  /** math.Abs(a - b) < tolerance; at tolerance zero, equality. */
  predicate Within(a: real, b: real, tolerance: real) {
    a == b || -tolerance < a - b < tolerance
  }

  predicate Near(a: real, b: real) {
    Within(a, b, EPSILON)
  }

  /** The status derived from the totals, compared up to a tolerance. */
  function DerivedBy(was: OrderStatus, accepted: real, rejected: real, requested: real, tolerance: real): OrderStatus {
    if Within(rejected, requested, tolerance) then Cancelled
    else if Within(accepted, requested, tolerance) then Confirmed
    else if accepted > 0.0 && rejected > 0.0 && Within(accepted + rejected, requested, tolerance)
    then PartiallyConfirmed
    else if was != Cancelled then Sent
    else was
  }

  function DerivedStatus(was: OrderStatus, accepted: real, rejected: real, requested: real): OrderStatus {
    DerivedBy(was, accepted, rejected, requested, EPSILON)
  }

  /** Amazon order numbers that accepted something. */
  function AcceptedNumbers(rows: map<ConfirmationKey, ConfirmationRow>, lines: seq<Line>): set<string> {
    set k | k in rows && rows[k].accepted > 0.0 && k.amazonNumber != "" && Position(lines, k.line) < |lines|
      :: k.amazonNumber
  }

  ghost function StatusBy(order: Order, rows: map<ConfirmationKey, ConfirmationRow>, lines: seq<Line>,
      tolerance: real): OrderStatus {
    DerivedBy(order.status, AcceptedTotal(rows, lines), RejectedTotal(rows, lines), RequestedTotal(lines), tolerance)
  }

  ghost function StatusAfter(order: Order, rows: map<ConfirmationKey, ConfirmationRow>, lines: seq<Line>): OrderStatus {
    StatusBy(order, rows, lines, EPSILON)
  }

  /** The order row a confirmation writes; `text` is the rendered, possibly shortened list of Amazon order numbers. */
  function ConfirmedOrder(order: Order, status: OrderStatus, numbers: set<string>, text: string): Order {
    order.(status := status,
           supplierNumber := if numbers != {} then text else if status == Cancelled then order.supplierNumber else "",
           amazonNumbers := if numbers == {} && status == Cancelled then order.amazonNumbers else numbers)
  }

  /** The checks before anything is merged; None means the message goes on. */
  function Precheck(db: Db, o: Id, m: Message): Option<Result<Db>> {
    if o !in db.files || db.files[o].order.session.None? then Some(Err(NotFound))
    else
      var order := db.files[o].order;
      if || order.payloadId == ""
         || (m.orderPayloadId != "" && m.orderPayloadId != order.payloadId) || order.status == Draft
      then Some(Err(ConfirmationMismatch))
      else if m.payloadId in db.events
      then Some(if db.events[m.payloadId] == o then Ok(db) else Err(ConfirmationMismatch))
      else if order.status == Received || order.status == PartiallyReceived then Some(Err(ConfirmationMismatch))
      else if m.operation == DeleteMessage then Some(Err(ConfirmationMismatch))
      else None
  }

  /** The rows replaced, then the order row and the event written. */
  function Commit(db: Db, o: Id, m: Message, rows: map<ConfirmationKey, ConfirmationRow>, status: OrderStatus,
      text: string, now: Time): Result<Db>
    requires o in db.files
  {
    var f := db.files[o];
    if f.order.status == Cancelled && status != Cancelled then Err(ConfirmationMismatch)
    else
      var merged := db.(files := db.files[o := f.(confirmations := rows)]);
      var updated :- UpdateOrder(merged, o, ConfirmedOrder(f.order, status, AcceptedNumbers(rows, f.lines), text), now);
      Ok(updated.(events := updated.events[m.payloadId := o]))
  }

  /** applyAmazonConfirmation. */
  ghost function Apply(db: Db, o: Id, m: Message, text: string, now: Time): Result<Db> {
    match Precheck(db, o, m)
    case Some(answer) => answer
    case None =>
      var f := db.files[o];
      var rows :- NextRows(f, m);
      if !WithinQuantities(rows, f.lines) then Err(ConfirmationMismatch)
      else Commit(db, o, m, rows, StatusAfter(f.order, rows, f.lines), text, now)
  }

  // ---------- order independence ----------

  lemma AddPartCommutes(parts: map<PartKey, Part>, a: MessageLine, b: MessageLine)
    ensures AddPart(AddPart(parts, a), b) == AddPart(AddPart(parts, b), a)
  {
  }

  lemma {:induction false} CombineMove(lines: seq<MessageLine>, i: nat)
    requires i < |lines|
    ensures Combine(lines) == AddPart(Combine(Without(lines, i)), lines[i])
  {
    var n := |lines| - 1;
    if i == n {
      assert Without(lines, i) == lines[..n];
    } else {
      var prefix := lines[..n];
      CombineMove(prefix, i);
      var rest := Without(lines, i);
      assert rest[..n - 1] == Without(prefix, i) && rest[n - 1] == lines[n];
      AddPartCommutes(Combine(Without(prefix, i)), lines[i], lines[n]);
    }
  }

  /** The combined parts do not depend on the order of the message's lines. */
  lemma {:induction false} CombinePermutation(a: seq<MessageLine>, b: seq<MessageLine>)
    requires multiset(a) == multiset(b)
    ensures Combine(a) == Combine(b)
    decreases |a|
  {
    assert |a| == |multiset(a)| == |multiset(b)| == |b|;
    if a != [] {
      var n := |b| - 1;
      assert b[n] in multiset(a);
      var i :| 0 <= i < |a| && a[i] == b[n];
      MultisetWithout(a, i);
      MultisetWithout(b, n);
      assert Without(b, n) == b[..n];
      CombinePermutation(Without(a, i), b[..n]);
      CombineMove(a, i);
    }
  }

  /** A message means the same with its lines in any order. */
  lemma LineOrderIrrelevant(db: Db, o: Id, m: Message, lines: seq<MessageLine>, text: string, now: Time)
    requires multiset(m.lines) == multiset(lines)
    ensures Apply(db, o, m.(lines := lines), text, now) == Apply(db, o, m, text, now)
  {
    CombinePermutation(m.lines, lines);
    assert |m.lines| == |multiset(m.lines)| == |multiset(lines)| == |lines|;
    var p := m.(lines := lines);
    assert Precheck(db, o, p) == Precheck(db, o, m);
    if Precheck(db, o, m).None? {
      var f := db.files[o];
      assert NextRows(f, p) == NextRows(f, m) by {
        if m.lines == [] {
          assert lines == [];
        } else {
          assert lines != [];
          if PartsFit(Combine(lines), f.lines) {
            assert MergeRows(f.confirmations, Combine(lines), f.lines, p)
                == MergeRows(f.confirmations, Combine(lines), f.lines, m);
          }
        }
      }
    }
  }

  /** Delivering the same message twice equals delivering it once. */
  lemma ApplyIdempotent(db: Db, o: Id, m: Message, text: string, now: Time, text': string, now': Time)
    requires Apply(db, o, m, text, now).Ok?
    ensures Apply(Apply(db, o, m, text, now).value, o, m, text', now') == Apply(db, o, m, text, now)
  {
  }

  // ---------- meaning of the merge ----------

  /** The message has line items, or at least does not speak for the whole order. */
  predicate Itemized(m: Message) {
    m.lines != [] || m.kind == Detail
  }

  /** The row was stored by a message with a later notice date. */
  predicate NewerRow(row: ConfirmationRow, m: Message) {
    row.notice.Some? && m.notice.Some? && m.notice.value < row.notice.value
  }

  predicate HasNewerRow(rows: map<ConfirmationKey, ConfirmationRow>, m: Message) {
    exists key :: key in rows && NewerRow(rows[key], m)
  }

  predicate KeepsNewerRows(rows: map<ConfirmationKey, ConfirmationRow>, next: map<ConfirmationKey, ConfirmationRow>,
      m: Message) {
    forall key :: key in rows && NewerRow(rows[key], m) ==> key in next && next[key] == rows[key]
  }

  /** A delayed message leaves every newer row as it is if and only if it has line items or there is no newer row. */
  lemma DelayedKeepsNewerRows(f: OrderFile, m: Message)
    requires NextRows(f, m).Ok?
    ensures KeepsNewerRows(f.confirmations, NextRows(f, m).value, m)
         <==> Itemized(m) || !HasNewerRow(f.confirmations, m)
  {
    if !Itemized(m) && HasNewerRow(f.confirmations, m) {
      var key :| key in f.confirmations && NewerRow(f.confirmations[key], m);
      assert key in WholeOrderRows(f.lines, m) ==> WholeOrderRows(f.lines, m)[key].notice == m.notice;
    }
  }

  /** Ids are unique, so a line is found where it stands. */
  lemma PositionAt(lines: seq<Line>, i: nat)
    requires Numbered(lines) && i < |lines|
    ensures Position(lines, lines[i].id) == i
  {
    assert forall k :: 0 <= k < i ==> lines[k].id < lines[i].id;
    var p := PositionFrom(lines, lines[i].id, 0);
    assert p <= i;
  }

  lemma SourceOfTarget(lines: seq<Line>, p: PartKey)
    requires Numbered(lines) && 1 <= p.number <= |lines|
    ensures SourceOf(lines, Target(lines, p)) == p
  {
    PositionAt(lines, p.number - 1);
  }

  lemma TargetOfSource(lines: seq<Line>, key: ConfirmationKey)
    requires Position(lines, key.line) < |lines|
    ensures Target(lines, SourceOf(lines, key)) == key
  {
  }

  /** A part is addressed by some line of the message. */
  predicate Names(line: MessageLine, part: PartKey) {
    line.number == part.number && line.amazonNumber == part.amazonNumber
  }

  lemma {:induction false} CombineKeys(lines: seq<MessageLine>, part: PartKey)
    ensures part in Combine(lines) <==> exists i :: 0 <= i < |lines| && Names(lines[i], part)
  {
    if lines != [] {
      CombineKeys(lines[..|lines| - 1], part);
    }
  }

  lemma {:induction false} MergeAt(rows: map<ConfirmationKey, ConfirmationRow>, parts: map<PartKey, Part>,
      lines: seq<Line>, m: Message, p: PartKey)
    requires Numbered(lines) && PartsFit(parts, lines) && p in parts
    ensures var key := Target(lines, p);
            && key in MergeRows(rows, parts, lines, m)
            && MergeRows(rows, parts, lines, m)[key] == MergedRow(Stored(rows, key), parts[p], m.operation, m.notice)
  {
    SourceOfTarget(lines, p);
  }

  predicate OlderRow(row: ConfirmationRow, notice: Time) {
    row.notice.None? || row.notice.value < notice
  }

  lemma MergedRowIsNew(stored: Option<ConfirmationRow>, part: Part, m: Message)
    requires m.notice.Some?
    ensures !OlderRow(MergedRow(stored, part, m.operation, m.notice), m.notice.value)
  {
  }

  /** Where a message is merged, the row is at least as new as the message. */
  lemma {:induction false} MergedIsNew(rows: map<ConfirmationKey, ConfirmationRow>, parts: map<PartKey, Part>,
      lines: seq<Line>, m: Message, p: PartKey)
    requires Numbered(lines) && PartsFit(parts, lines) && p in parts && m.notice.Some?
    ensures var key := Target(lines, p);
            key in MergeRows(rows, parts, lines, m) && !OlderRow(MergeRows(rows, parts, lines, m)[key], m.notice.value)
  {
    MergeAt(rows, parts, lines, m, p);
    MergedRowIsNew(Stored(rows, Target(lines, p)), parts[p], m);
  }

  /** Parts that meet newer rows everywhere merge into nothing. */
  lemma {:induction false} MergesNothing(rows: map<ConfirmationKey, ConfirmationRow>, parts: map<PartKey, Part>,
      lines: seq<Line>, m: Message)
    requires Numbered(lines) && PartsFit(parts, lines)
    requires forall p :: p in parts ==> Target(lines, p) in rows && NewerRow(rows[Target(lines, p)], m)
    ensures MergeRows(rows, parts, lines, m) == rows
  {
    var next := MergeRows(rows, parts, lines, m);
    forall key | key in next
      ensures key in rows && next[key] == rows[key]
    {
      if SourceOf(lines, key) in parts && Position(lines, key.line) < |lines| {
        TargetOfSource(lines, key);
        MergeAt(rows, parts, lines, m, SourceOf(lines, key));
      }
    }
  }

  /**
   A message, then a delayed older one that names no other line and Amazon order: the rows are what the newer message
   left, whatever either of them says.
   */
  lemma {:induction false} DelayedChangesNothing(f: OrderFile, newer: Message, older: Message)
    requires Numbered(f.lines) && Itemized(newer) && Itemized(older) && NextRows(f, newer).Ok?
    requires newer.notice.Some? && older.notice.Some? && older.notice.value < newer.notice.value
    requires forall i :: 0 <= i < |older.lines| ==>
              exists j :: 0 <= j < |newer.lines| && SamePlace(newer.lines[j], older.lines[i])
    ensures NextRows(f.(confirmations := NextRows(f, newer).value), older) == NextRows(f, newer)
  {
    var rows := NextRows(f, newer).value;
    var parts := Combine(older.lines);
    forall p | p in parts
      ensures p in Combine(newer.lines)
      ensures Target(f.lines, p) in rows && NewerRow(rows[Target(f.lines, p)], older)
    {
      SameParts(newer.lines, older.lines, p);
      MergedIsNew(f.confirmations, Combine(newer.lines), f.lines, newer, p);
    }
    MergesNothing(rows, parts, f.lines, older);
  }

  predicate SamePlace(a: MessageLine, b: MessageLine) {
    a.number == b.number && a.amazonNumber == b.amazonNumber
  }

  lemma {:induction false} SameParts(newer: seq<MessageLine>, older: seq<MessageLine>, p: PartKey)
    requires p in Combine(older)
    requires forall i :: 0 <= i < |older| ==> exists j :: 0 <= j < |newer| && SamePlace(newer[j], older[i])
    ensures p in Combine(newer)
  {
    CombineKeys(older, p);
    CombineKeys(newer, p);
    var i :| 0 <= i < |older| && Names(older[i], p);
    var j :| 0 <= j < |newer| && SamePlace(newer[j], older[i]);
    assert Names(newer[j], p);
  }

  /**
   A partial cancellation of an accepted row moves quantity from accepted to rejected and loses none; every other
   message that is not older replaces the row's quantities by its own.
   */
  lemma MergeMovesOrReplaces(stored: Option<ConfirmationRow>, part: Part, operation: MessageOperation,
      notice: Option<Time>)
    requires !(stored.Some? && stored.value.notice.Some? && notice.Some? && notice.value < stored.value.notice.value)
    ensures var row := MergedRow(stored, part, operation, notice);
            var cancels := stored.Some? && operation == UpdateMessage && part.accepted == 0.0
                           && 0.0 < part.rejected < stored.value.accepted;
            && row.notice == notice
            && (cancels ==> row.accepted + row.rejected == stored.value.accepted + stored.value.rejected
                            && row.accepted == stored.value.accepted - part.rejected && row.accepted > 0.0)
            && (!cancels ==> row.accepted == part.accepted && row.rejected == part.rejected)
            && (part.delivery.Some? ==> row.delivery == part.delivery)
            && (part.delivery.None? && stored.Some? ==> row.delivery == stored.value.delivery)
  {
  }

  /**
   A message with items keeps the row of every place that none of its items names, and adds rows for named places only.
   */
  lemma OtherRowsStay(f: OrderFile, m: Message, key: ConfirmationKey)
    requires m.lines != [] && NextRows(f, m).Ok? && Numbered(f.lines)
    ensures (forall i :: 0 <= i < |m.lines| ==> !Names(m.lines[i], SourceOf(f.lines, key))) ==>
              Stored(NextRows(f, m).value, key) == Stored(f.confirmations, key)
    ensures key in f.confirmations ==> key in NextRows(f, m).value
  {
    CombineKeys(m.lines, SourceOf(f.lines, key));
  }

  // ---------- meaning of the totals ----------

  /** Rows hold no negative quantity. */
  predicate NonNegative(rows: map<ConfirmationKey, ConfirmationRow>) {
    forall k :: k in rows ==> rows[k].accepted >= 0.0 && rows[k].rejected >= 0.0
  }

  /** The sum does not depend on which row is taken first. */
  lemma {:induction false} SumCellsSplit(rows: map<ConfirmationKey, ConfirmationRow>, keys: set<ConfirmationKey>,
      k: ConfirmationKey, column: Column)
    requires k in keys && keys <= rows.Keys
    ensures SumCells(rows, keys, column) == Cell(rows[k], column) + SumCells(rows, keys - {k}, column)
    decreases |keys|
  {
    var first :| first in keys && SumCells(rows, keys, column)
              == Cell(rows[first], column) + SumCells(rows, keys - {first}, column);
    if first != k {
      SumCellsSplit(rows, keys - {first}, k, column);
      SumCellsSplit(rows, keys - {k}, first, column);
      assert keys - {first} - {k} == keys - {k} - {first};
    }
  }

  lemma {:induction false} SumCellsNonNegative(rows: map<ConfirmationKey, ConfirmationRow>,
      keys: set<ConfirmationKey>, column: Column)
    requires keys <= rows.Keys && NonNegative(rows)
    ensures SumCells(rows, keys, column) >= 0.0
    decreases |keys|
  {
    if keys != {} {
      var k :| k in keys;
      SumCellsSplit(rows, keys, k, column);
      SumCellsNonNegative(rows, keys - {k}, column);
    }
  }

  lemma {:induction false} CombineNonNegative(lines: seq<MessageLine>, key: PartKey)
    requires forall i :: 0 <= i < |lines| ==> lines[i].accepted >= 0.0 && lines[i].rejected >= 0.0
    ensures key in Combine(lines) ==> Combine(lines)[key].accepted >= 0.0 && Combine(lines)[key].rejected >= 0.0
  {
    if lines != [] {
      CombineNonNegative(lines[..|lines| - 1], key);
    }
  }

  lemma MergedRowNonNegative(stored: Option<ConfirmationRow>, part: Part, operation: MessageOperation,
      notice: Option<Time>)
    requires part.accepted >= 0.0 && part.rejected >= 0.0
    requires stored.Some? ==> stored.value.accepted >= 0.0 && stored.value.rejected >= 0.0
    ensures MergedRow(stored, part, operation, notice).accepted >= 0.0
    ensures MergedRow(stored, part, operation, notice).rejected >= 0.0
  {
  }

  /** Merging a parsed message keeps every accepted and rejected quantity non-negative. */
  lemma NextRowsNonNegative(f: OrderFile, m: Message)
    requires Parsed(m) && NonNegative(f.confirmations) && NextRows(f, m).Ok?
    requires forall i :: 0 <= i < |f.lines| ==> f.lines[i].quantity >= 0.0
    ensures NonNegative(NextRows(f, m).value)
  {
    var next := NextRows(f, m).value;
    forall k | k in next
      ensures next[k].accepted >= 0.0 && next[k].rejected >= 0.0
    {
      if !(m.lines == [] && m.kind != Detail) {
        var parts := Combine(m.lines);
        var source := SourceOf(f.lines, k);
        CombineNonNegative(m.lines, source);
        if source in parts {
          MergedRowNonNegative(Stored(f.confirmations, k), parts[source], m.operation, m.notice);
        }
      }
    }
  }

  /** One tolerance per line. */
  function Slack(n: nat, e: real): (r: real)
    ensures e == 0.0 ==> r == 0.0
  {
    if n == 0 then 0.0 else Slack(n - 1, e) + e
  }

  lemma {:induction false} SlackIsProduct(n: nat, e: real)
    ensures Slack(n, e) == n as real * e
  {
    if n > 0 {
      SlackIsProduct(n - 1, e);
      assert n as real == (n - 1) as real + 1.0;
    }
  }

  /** What the lines before and after `j` contribute to a total is bounded line by line. */
  lemma {:induction false} TotalsBoundLines(rows: map<ConfirmationKey, ConfirmationRow>, lines: seq<Line>, j: nat,
      e: real)
    requires j < |lines| && NonNegative(rows) && Bounded(rows, lines, e)
    ensures var rest := RequestedTotal(lines) - lines[j].quantity + Slack(|lines| - 1, e);
            && AcceptedTotal(rows, lines) <= rest + Accepted(rows, lines[j].id)
            && RejectedTotal(rows, lines) <= rest + Rejected(rows, lines[j].id)
            && AcceptedTotal(rows, lines) + RejectedTotal(rows, lines)
                 <= rest + Accepted(rows, lines[j].id) + Rejected(rows, lines[j].id)
  {
    var n := |lines| - 1;
    if j == n {
      TotalsBoundPrefix(rows, lines[..n], e);
    } else {
      TotalsBoundLines(rows, lines[..n], j, e);
      SumCellsNonNegative(rows, LineKeys(rows, lines[n].id), AcceptedColumn);
      SumCellsNonNegative(rows, LineKeys(rows, lines[n].id), RejectedColumn);
    }
  }

  lemma {:induction false} TotalsBoundPrefix(rows: map<ConfirmationKey, ConfirmationRow>, lines: seq<Line>, e: real)
    requires NonNegative(rows) && Bounded(rows, lines, e)
    ensures 0.0 <= AcceptedTotal(rows, lines) && 0.0 <= RejectedTotal(rows, lines)
    ensures AcceptedTotal(rows, lines) + RejectedTotal(rows, lines) <= RequestedTotal(lines) + Slack(|lines|, e)
  {
    if lines != [] {
      var n := |lines| - 1;
      TotalsBoundPrefix(rows, lines[..n], e);
      SumCellsNonNegative(rows, LineKeys(rows, lines[n].id), AcceptedColumn);
      SumCellsNonNegative(rows, LineKeys(rows, lines[n].id), RejectedColumn);
    }
  }

  lemma {:induction false} TotalsCoverLine(rows: map<ConfirmationKey, ConfirmationRow>, lines: seq<Line>, j: nat)
    requires j < |lines| && NonNegative(rows)
    ensures 0.0 <= Accepted(rows, lines[j].id) <= AcceptedTotal(rows, lines)
    ensures 0.0 <= Rejected(rows, lines[j].id) <= RejectedTotal(rows, lines)
  {
    var n := |lines| - 1;
    SumCellsNonNegative(rows, LineKeys(rows, lines[n].id), AcceptedColumn);
    SumCellsNonNegative(rows, LineKeys(rows, lines[n].id), RejectedColumn);
    if n > 0 {
      TotalsCoverLine(rows, lines[..n], if j < n then j else 0);
    }
  }

  /** At least `b`, up to `n` tolerances; strictly so when there is a tolerance at all. */
  predicate Reaches(a: real, b: real, n: nat, e: real) {
    if e > 0.0 then a > b - Slack(n, e) else a >= b
  }

  /** `confirmed` means that every single line is accepted and none is rejected, up to the tolerance per line. */
  lemma ConfirmedMeansEveryLine(order: Order, rows: map<ConfirmationKey, ConfirmationRow>, lines: seq<Line>, j: nat,
      e: real)
    requires j < |lines| && e >= 0.0 && NonNegative(rows) && Bounded(rows, lines, e)
    requires StatusBy(order, rows, lines, e) == Confirmed
    ensures Reaches(Accepted(rows, lines[j].id), lines[j].quantity, |lines|, e)
    ensures Reaches(0.0, Rejected(rows, lines[j].id), |lines| + 1, e)
  {
    TotalsBoundLines(rows, lines, j, e);
    TotalsBoundPrefix(rows, lines, e);
    TotalsCoverLine(rows, lines, j);
  }

  /** `partially_confirmed` accounts for every line up to the tolerance. */
  lemma PartialMeansAccounted(order: Order, rows: map<ConfirmationKey, ConfirmationRow>, lines: seq<Line>, j: nat,
      e: real)
    requires j < |lines| && e >= 0.0 && NonNegative(rows) && Bounded(rows, lines, e)
    requires StatusBy(order, rows, lines, e) == PartiallyConfirmed
    ensures Reaches(Accepted(rows, lines[j].id) + Rejected(rows, lines[j].id), lines[j].quantity, |lines|, e)
  {
    TotalsBoundLines(rows, lines, j, e);
  }

  /** When the totals themselves say `cancelled`, every line is rejected and none accepted, up to the tolerance. */
  lemma CancelledMeansEveryLine(order: Order, rows: map<ConfirmationKey, ConfirmationRow>, lines: seq<Line>, j: nat,
      e: real)
    requires j < |lines| && e >= 0.0 && NonNegative(rows) && Bounded(rows, lines, e)
    requires StatusBy(order, rows, lines, e) == Cancelled && !Undecided(rows, lines, e)
    ensures Reaches(Rejected(rows, lines[j].id), lines[j].quantity, |lines|, e)
    ensures Reaches(0.0, Accepted(rows, lines[j].id), |lines| + 1, e)
  {
    TotalsBoundLines(rows, lines, j, e);
    TotalsBoundPrefix(rows, lines, e);
    TotalsCoverLine(rows, lines, j);
  }

  /** The totals say neither `cancelled` nor `confirmed` nor `partially_confirmed`: the status before decides. */
  ghost predicate Undecided(rows: map<ConfirmationKey, ConfirmationRow>, lines: seq<Line>, e: real) {
    var accepted, rejected, requested := AcceptedTotal(rows, lines), RejectedTotal(rows, lines), RequestedTotal(lines);
    && !Within(rejected, requested, e) && !Within(accepted, requested, e)
    && !(accepted > 0.0 && rejected > 0.0 && Within(accepted + rejected, requested, e))
  }

  ghost predicate AllAccepted(rows: map<ConfirmationKey, ConfirmationRow>, lines: seq<Line>) {
    forall j ::
      0 <= j < |lines| ==> Accepted(rows, lines[j].id) == lines[j].quantity && Rejected(rows, lines[j].id) == 0.0
  }

  ghost predicate AllRejected(rows: map<ConfirmationKey, ConfirmationRow>, lines: seq<Line>) {
    forall j ::
      0 <= j < |lines| ==> Rejected(rows, lines[j].id) == lines[j].quantity && Accepted(rows, lines[j].id) == 0.0
  }

  ghost predicate AllAccounted(rows: map<ConfirmationKey, ConfirmationRow>, lines: seq<Line>) {
    forall j :: 0 <= j < |lines| ==> Accepted(rows, lines[j].id) + Rejected(rows, lines[j].id) == lines[j].quantity
  }

  /** Line by line sums make the totals. */
  lemma {:induction false} ExactTotals(rows: map<ConfirmationKey, ConfirmationRow>, lines: seq<Line>)
    ensures AllAccepted(rows, lines) ==>
              AcceptedTotal(rows, lines) == RequestedTotal(lines) && RejectedTotal(rows, lines) == 0.0
    ensures AllRejected(rows, lines) ==>
              RejectedTotal(rows, lines) == RequestedTotal(lines) && AcceptedTotal(rows, lines) == 0.0
    ensures AllAccounted(rows, lines) ==>
              AcceptedTotal(rows, lines) + RejectedTotal(rows, lines) == RequestedTotal(lines)
  {
    if lines != [] {
      var n := |lines| - 1;
      ExactTotals(rows, lines[..n]);
      assert AllAccepted(rows, lines) ==>
               AllAccepted(rows, lines[..n]) && Accepted(rows, lines[n].id) == lines[n].quantity;
      assert AllRejected(rows, lines) ==>
               AllRejected(rows, lines[..n]) && Rejected(rows, lines[n].id) == lines[n].quantity;
      assert AllAccounted(rows, lines) ==> AllAccounted(rows, lines[..n]);
    }
  }

  lemma {:induction false} PositiveTotal(lines: seq<Line>)
    requires forall j :: 0 <= j < |lines| ==> lines[j].quantity > 0.0
    ensures if lines == [] then RequestedTotal(lines) == 0.0 else RequestedTotal(lines) > 0.0
  {
    if lines != [] {
      PositiveTotal(lines[..|lines| - 1]);
    }
  }

  /**
   Without a tolerance the totals decide exactly what the lines say: `confirmed` is every line accepted, `cancelled`
   every line rejected, `partially_confirmed` every line accounted for with something accepted and something rejected,
   and everything else leaves the order `sent`, or cancelled if it was.
   */
  lemma ExactStatus(order: Order, rows: map<ConfirmationKey, ConfirmationRow>, lines: seq<Line>)
    requires lines != [] && NonNegative(rows) && Bounded(rows, lines, 0.0)
    requires forall j :: 0 <= j < |lines| ==> lines[j].quantity > 0.0
    ensures AllRejected(rows, lines) ==> StatusBy(order, rows, lines, 0.0) == Cancelled
    ensures AllAccepted(rows, lines) <==> StatusBy(order, rows, lines, 0.0) == Confirmed
    ensures StatusBy(order, rows, lines, 0.0) == PartiallyConfirmed
         <==> AllAccounted(rows, lines) && !AllAccepted(rows, lines) && !AllRejected(rows, lines)
    ensures StatusBy(order, rows, lines, 0.0) == Cancelled ==> AllRejected(rows, lines) || order.status == Cancelled
    ensures StatusBy(order, rows, lines, 0.0) == Sent ==> !AllAccounted(rows, lines)
  {
    PositiveTotal(lines);
    ExactTotals(rows, lines);
    EachLine(rows, lines);
  }

  /** And totals that agree make the lines agree one by one. */
  lemma EachLine(rows: map<ConfirmationKey, ConfirmationRow>, lines: seq<Line>)
    requires NonNegative(rows) && Bounded(rows, lines, 0.0)
    ensures AcceptedTotal(rows, lines) == RequestedTotal(lines) ==> AllAccepted(rows, lines)
    ensures RejectedTotal(rows, lines) == RequestedTotal(lines) ==> AllRejected(rows, lines)
    ensures AcceptedTotal(rows, lines) + RejectedTotal(rows, lines) == RequestedTotal(lines) ==>
              AllAccounted(rows, lines)
    ensures AcceptedTotal(rows, lines) == 0.0 && AllAccounted(rows, lines) ==> AllRejected(rows, lines)
    ensures RejectedTotal(rows, lines) == 0.0 && AllAccounted(rows, lines) ==> AllAccepted(rows, lines)
    ensures AcceptedTotal(rows, lines) >= 0.0 && RejectedTotal(rows, lines) >= 0.0
  {
    TotalsBoundPrefix(rows, lines, 0.0);
    forall j | 0 <= j < |lines|
      ensures Accepted(rows, lines[j].id) + Rejected(rows, lines[j].id) <= lines[j].quantity
      ensures var rest := RequestedTotal(lines) - lines[j].quantity;
              && AcceptedTotal(rows, lines) <= rest + Accepted(rows, lines[j].id)
              && RejectedTotal(rows, lines) <= rest + Rejected(rows, lines[j].id)
              && AcceptedTotal(rows, lines) + RejectedTotal(rows, lines) <= rest + Accepted(rows, lines[j].id)
                + Rejected(rows, lines[j].id)
              && 0.0 <= Accepted(rows, lines[j].id) <= AcceptedTotal(rows, lines)
              && 0.0 <= Rejected(rows, lines[j].id) <= RejectedTotal(rows, lines)
    {
      TotalsBoundLines(rows, lines, j, 0.0);
      TotalsCoverLine(rows, lines, j);
    }
  }

  /** With any tolerance, an order rejected line by line is `cancelled`. */
  lemma FullyRejectedCancels(order: Order, rows: map<ConfirmationKey, ConfirmationRow>, lines: seq<Line>, e: real)
    requires AllRejected(rows, lines)
    ensures StatusBy(order, rows, lines, e) == Cancelled
  {
    ExactTotals(rows, lines);
  }

  /** And an order accepted line by line is `confirmed`, unless it asks for less than the tolerance. */
  lemma FullyAcceptedConfirms(order: Order, rows: map<ConfirmationKey, ConfirmationRow>, lines: seq<Line>, e: real)
    requires AllAccepted(rows, lines)
    ensures StatusBy(order, rows, lines, e) == Confirmed <==> !Within(0.0, RequestedTotal(lines), e)
  {
    ExactTotals(rows, lines);
  }
}
