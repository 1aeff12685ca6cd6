/**
 The confirmation handler: loops over the message, the combined parts and the stored rows, in whatever order a map
 yields them.
 */
module ConfirmationHandler {
  import opened Base
  import opened Schema
  import opened Triggers
  import opened Storage
  import opened Confirmations

  // ---------- positions ----------

  lemma PositionFinds(lines: seq<Line>, id: Id)
    ensures Position(lines, id) < |lines| <==> HasLineId(lines, id)
  {
    var p := PositionFrom(lines, id, 0);
    if p < |lines| {
      assert lines[p].id == id;
    }
  }

  // ---------- merging ----------

  /** combined[key] accumulated over the message's lines. */
  method CombineLines(lines: seq<MessageLine>) returns (combined: map<PartKey, Part>)
    ensures combined == Combine(lines)
  {
    combined := map[];
    for i := 0 to |lines|
      invariant combined == Combine(lines[..i])
    {
      var item := lines[i];
      var key := PartKey(item.number, item.amazonNumber);
      var row := if key in combined then combined[key] else Part(0.0, 0.0, None);
      row := row.(accepted := row.accepted + item.accepted, rejected := row.rejected + item.rejected);
      if item.delivery.Some? && (row.delivery.None? || item.delivery.value > row.delivery.value) {
        row := row.(delivery := item.delivery);
      }
      combined := combined[key := row];
      assert lines[..i + 1][..i] == lines[..i];
    }
    assert lines[..|lines|] == lines;
  }

  /** The rows after the parts in `done` were merged. */
  function MergeSome(rows: map<ConfirmationKey, ConfirmationRow>, parts: map<PartKey, Part>, done: set<PartKey>,
      lines: seq<Line>, m: Message): map<ConfirmationKey, ConfirmationRow>
    requires forall p :: p in done ==> 1 <= p.number <= |lines|
  {
    rows + map key | key in (set p | p in done :: Target(lines, p)) && SourceOf(lines, key) in parts
             :: MergedRow(Stored(rows, key), parts[SourceOf(lines, key)], m.operation, m.notice)
  }

  /** Row by row: a row is rewritten exactly when the part stored in it was merged. */
  function RowAfter(rows: map<ConfirmationKey, ConfirmationRow>, parts: map<PartKey, Part>, done: set<PartKey>,
      lines: seq<Line>, m: Message, key: ConfirmationKey): Option<ConfirmationRow>
    requires done <= parts.Keys
  {
    var source := SourceOf(lines, key);
    if source in done
    then Some(MergedRow(Stored(rows, key), parts[source], m.operation, m.notice)) else Stored(rows, key)
  }

  lemma MergeSomeAt(rows: map<ConfirmationKey, ConfirmationRow>, parts: map<PartKey, Part>, done: set<PartKey>,
      lines: seq<Line>, m: Message, key: ConfirmationKey)
    requires Numbered(lines) && done <= parts.Keys && forall q :: q in done ==> 1 <= q.number <= |lines|
    ensures Stored(MergeSome(rows, parts, done, lines, m), key) == RowAfter(rows, parts, done, lines, m, key)
  {
    var source := SourceOf(lines, key);
    var targets := set q | q in done :: Target(lines, q);
    if source in done {
      TargetOfSource(lines, key);
      assert key in targets;
    }
    if key in targets {
      var q :| q in done && Target(lines, q) == key;
      SourceOfTarget(lines, q);
    }
  }

  lemma RowAfterStep(rows: map<ConfirmationKey, ConfirmationRow>, parts: map<PartKey, Part>, done: set<PartKey>,
      p: PartKey, lines: seq<Line>, m: Message, key: ConfirmationKey)
    requires Numbered(lines) && 1 <= p.number <= |lines|
    requires done <= parts.Keys && p in parts && p !in done
    ensures RowAfter(rows, parts, done + {p}, lines, m, key)
         == if key == Target(lines, p) then Some(MergedRow(Stored(rows, key), parts[p], m.operation, m.notice))
         else RowAfter(rows, parts, done, lines, m, key)
  {
    SourceOfTarget(lines, p);
    if SourceOf(lines, key) == p {
      TargetOfSource(lines, key);
    }
  }

  lemma SameRows(a: map<ConfirmationKey, ConfirmationRow>, b: map<ConfirmationKey, ConfirmationRow>)
    requires forall key :: Stored(a, key) == Stored(b, key)
    ensures a == b
  {
    forall key
      ensures key in a <==> key in b
      ensures key in a ==> a[key] == b[key]
    {
      assert Stored(a, key) == Stored(b, key);
    }
  }

  /** Merging one more part writes its own row, which no part before it has touched. */
  lemma MergeStep(rows: map<ConfirmationKey, ConfirmationRow>, parts: map<PartKey, Part>, done: set<PartKey>,
      p: PartKey, lines: seq<Line>, m: Message)
    requires Numbered(lines) && forall q :: q in done + {p} ==> 1 <= q.number <= |lines|
    requires done <= parts.Keys && p in parts && p !in done
    ensures Stored(MergeSome(rows, parts, done, lines, m), Target(lines, p)) == Stored(rows, Target(lines, p))
    ensures MergeSome(rows, parts, done + {p}, lines, m)
         == MergeSome(rows, parts, done, lines,
                      m)[Target(lines, p) := MergedRow(Stored(rows, Target(lines, p)), parts[p], m.operation, m.notice)]
  {
    var target := Target(lines, p);
    SourceOfTarget(lines, p);
    MergeSomeAt(rows, parts, done, lines, m, target);
    var before := MergeSome(rows, parts, done, lines, m);
    var left := MergeSome(rows, parts, done + {p}, lines, m);
    var right := before[target := MergedRow(Stored(rows, target), parts[p], m.operation, m.notice)];
    forall key
      ensures Stored(left, key) == Stored(right, key)
    {
      MergeSomeAt(rows, parts, done, lines, m, key);
      MergeSomeAt(rows, parts, done + {p}, lines, m, key);
      RowAfterStep(rows, parts, done, p, lines, m, key);
    }
    SameRows(left, right);
  }

  /** The merge loop, with the parts in `rest` still to come. */
  ghost predicate Merging(rows: map<ConfirmationKey, ConfirmationRow>, parts: map<PartKey, Part>, rest: set<PartKey>,
      lines: seq<Line>, m: Message, merged: map<ConfirmationKey, ConfirmationRow>) {
    && rest <= parts.Keys
    && (forall p :: p in parts.Keys - rest ==> 1 <= p.number <= |lines|)
    && merged == MergeSome(rows, parts, parts.Keys - rest, lines, m)
  }

  /** The row a part is merged into, written. */
  function WriteMerged(merged: map<ConfirmationKey, ConfirmationRow>, key: ConfirmationKey, part: Part,
      m: Message): map<ConfirmationKey, ConfirmationRow> {
    merged[key := MergedRow(Stored(merged, key), part, m.operation, m.notice)]
  }

  lemma MergingStep(rows: map<ConfirmationKey, ConfirmationRow>, parts: map<PartKey, Part>, rest: set<PartKey>,
      p: PartKey, lines: seq<Line>, m: Message, merged: map<ConfirmationKey, ConfirmationRow>)
    requires Numbered(lines) && Merging(rows, parts, rest, lines, m, merged)
    requires p in rest && p in parts && 1 <= p.number <= |lines|
    ensures Merging(rows, parts, rest - {p}, lines, m, WriteMerged(merged, Target(lines, p), parts[p], m))
  {
    assert parts.Keys - (rest - {p}) == (parts.Keys - rest) + {p};
    MergeStep(rows, parts, parts.Keys - rest, p, lines, m);
  }

  /** The loop over the combined map, its parts taken in any order. */
  method MergeLoop(rows: map<ConfirmationKey, ConfirmationRow>, parts: map<PartKey, Part>, lines: seq<Line>, m: Message)
    returns (merged: map<ConfirmationKey, ConfirmationRow>, beyond: Option<PartKey>)
    requires Numbered(lines) && forall p :: p in parts ==> p.number >= 1
    ensures beyond.Some? ==> beyond.value in parts && beyond.value.number > |lines|
    ensures beyond.None? ==> Merging(rows, parts, {}, lines, m, merged)
  {
    merged := rows;
    var rest := parts.Keys;
    MergingStarts(rows, parts, lines, m);
    while rest != {}
      invariant rest <= parts.Keys
      invariant Merging(rows, parts, rest, lines, m, merged)
      decreases |rest|
    {
      var p :| p in rest;
      if p.number > |lines| {
        return merged, Some(p);
      }
      MergingStep(rows, parts, rest, p, lines, m, merged);
      merged := WriteMerged(merged, Target(lines, p), parts[p], m);
      rest := rest - {p};
    }
    beyond := None;
  }

  lemma MergingStarts(rows: map<ConfirmationKey, ConfirmationRow>, parts: map<PartKey, Part>, lines: seq<Line>,
      m: Message)
    ensures Merging(rows, parts, parts.Keys, lines, m, rows)
  {
    assert parts.Keys - parts.Keys == {};
  }

  /** Merging refuses exactly a part beyond the order's lines, and otherwise computes the merged rows. */
  method MergeParts(rows: map<ConfirmationKey, ConfirmationRow>, parts: map<PartKey, Part>, lines: seq<Line>,
      m: Message)
    returns (merged: map<ConfirmationKey, ConfirmationRow>, ok: bool)
    requires Numbered(lines) && forall p :: p in parts ==> p.number >= 1
    ensures ok <==> PartsFit(parts, lines)
    ensures ok ==> merged == MergeRows(rows, parts, lines, m)
  {
    var beyond;
    merged, beyond := MergeLoop(rows, parts, lines, m);
    ok := beyond.None?;
    if ok {
      SameMerge(rows, parts, lines, m, merged);
    }
  }

  lemma SameMerge(rows: map<ConfirmationKey, ConfirmationRow>, parts: map<PartKey, Part>, lines: seq<Line>,
      m: Message, merged: map<ConfirmationKey, ConfirmationRow>)
    requires Merging(rows, parts, {}, lines, m, merged)
    ensures PartsFit(parts, lines) && merged == MergeRows(rows, parts, lines, m)
  {
    assert parts.Keys - {} == parts.Keys;
    assert forall p :: p in parts ==> p in parts.Keys - {};
    assert (set p | p in parts.Keys :: Target(lines, p)) == (set p | p in parts :: Target(lines, p));
  }

  /** The whole order accepted or rejected: older rows deleted, one row per line created. */
  method CreateWholeRows(lines: seq<Line>, m: Message) returns (rows: map<ConfirmationKey, ConfirmationRow>)
    requires Numbered(lines)
    ensures rows == WholeOrderRows(lines, m)
  {
    rows := map[];
    for i := 0 to |lines|
      invariant forall key :: key in rows <==> exists k :: 0 <= k < i && key == ConfirmationKey(lines[k].id, m.amazonId)
      invariant forall k :: 0 <= k < i ==>
                && ConfirmationKey(lines[k].id, m.amazonId) in rows
                && rows[ConfirmationKey(lines[k].id, m.amazonId)] == WholeRow(lines[k], m)
    {
      assert forall k :: 0 <= k < i ==> lines[k].id < lines[i].id;
      rows := rows[ConfirmationKey(lines[i].id, m.amazonId) := WholeRow(lines[i], m)];
    }
    forall k | 0 <= k < |lines|
      ensures Position(lines, lines[k].id) == k
    {
      PositionAt(lines, k);
    }
  }

  lemma {:induction false} CombinedNumbers(lines: seq<MessageLine>, p: PartKey)
    requires forall i :: 0 <= i < |lines| ==> lines[i].number >= 1
    ensures p in Combine(lines) ==> p.number >= 1
  {
    if lines != [] {
      CombinedNumbers(lines[..|lines| - 1], p);
    }
  }

  /** The rows the message leaves, or a refusal. */
  method NewRows(f: OrderFile, m: Message) returns (rows: map<ConfirmationKey, ConfirmationRow>, ok: bool)
    requires Parsed(m) && Numbered(f.lines)
    ensures ok <==> NextRows(f, m).Ok?
    ensures ok ==> rows == NextRows(f, m).value
    ensures !ok ==> NextRows(f, m) == Err(ConfirmationMismatch)
  {
    if |m.lines| == 0 && m.kind != Detail {
      rows := CreateWholeRows(f.lines, m);
      ok := true;
    } else {
      var combined := CombineLines(m.lines);
      forall p | p in combined
        ensures p.number >= 1
      {
        CombinedNumbers(m.lines, p);
      }
      rows, ok := MergeParts(f.confirmations, combined, f.lines, m);
    }
  }

  // ---------- totals ----------

  /** One state more is read. */
  lemma SumStep(rows: map<ConfirmationKey, ConfirmationRow>, line: Id, rest: set<ConfirmationKey>, k: ConfirmationKey,
      column: Column)
    requires rest <= rows.Keys && k in rest
    ensures SumCells(rows, LineKeys(rows, line) - (rest - {k}), column)
         == SumCells(rows, LineKeys(rows, line) - rest, column)
           + (if k.line == line then Cell(rows[k], column) else 0.0)
  {
    var done := LineKeys(rows, line) - rest;
    var next := LineKeys(rows, line) - (rest - {k});
    if k.line == line {
      assert next == done + {k} && next - {k} == done;
      SumCellsSplit(rows, next, k, column);
    } else {
      assert next == done;
    }
  }

  /** The inner loop over all states: what one line has accepted and rejected. */
  method SumLine(rows: map<ConfirmationKey, ConfirmationRow>, line: Id) returns (accepted: real, rejected: real)
    ensures accepted == Confirmations.Accepted(rows, line) && rejected == Confirmations.Rejected(rows, line)
  {
    accepted, rejected := 0.0, 0.0;
    var rest := rows.Keys;
    while rest != {}
      invariant rest <= rows.Keys
      invariant accepted == SumCells(rows, LineKeys(rows, line) - rest, AcceptedColumn)
      invariant rejected == SumCells(rows, LineKeys(rows, line) - rest, RejectedColumn)
      decreases |rest|
    {
      var k :| k in rest;
      SumStep(rows, line, rest, k, AcceptedColumn);
      SumStep(rows, line, rest, k, RejectedColumn);
      if k.line == line {
        accepted := accepted + rows[k].accepted;
        rejected := rejected + rows[k].rejected;
      }
      rest := rest - {k};
    }
    assert LineKeys(rows, line) - rest == LineKeys(rows, line);
  }

  datatype Totals = Totals(fits: bool, accepted: real, rejected: real, requested: real)

  /** The outer loop over the lines; a line accounted for beyond its quantity ends it. */
  method SumLines(rows: map<ConfirmationKey, ConfirmationRow>, lines: seq<Line>) returns (t: Totals)
    ensures t.fits <==> WithinQuantities(rows, lines)
    ensures t.fits ==>
              && t.accepted == AcceptedTotal(rows, lines) && t.rejected == RejectedTotal(rows, lines)
              && t.requested == RequestedTotal(lines)
  {
    var accepted, rejected, requested := 0.0, 0.0, 0.0;
    for i := 0 to |lines|
      invariant forall k :: 0 <= k < i ==>
                Confirmations.Accepted(rows, lines[k].id)
                  + Confirmations.Rejected(rows, lines[k].id) <= lines[k].quantity + EPSILON
      invariant accepted == AcceptedTotal(rows, lines[..i]) && rejected == RejectedTotal(rows, lines[..i])
      invariant requested == RequestedTotal(lines[..i])
    {
      assert lines[..i + 1][..i] == lines[..i];
      requested := requested + lines[i].quantity;
      var lineAccepted, lineRejected := SumLine(rows, lines[i].id);
      accepted := accepted + lineAccepted;
      rejected := rejected + lineRejected;
      if lineAccepted + lineRejected > lines[i].quantity + EPSILON {
        return Totals(false, accepted, rejected, requested);
      }
    }
    assert lines[..|lines|] == lines;
    t := Totals(true, accepted, rejected, requested);
  }

  function NumbersOf(rows: map<ConfirmationKey, ConfirmationRow>, line: Id): set<string> {
    set k | k in rows && k.line == line && rows[k].accepted > 0.0 && k.amazonNumber != "" :: k.amazonNumber
  }

  /** One line more finds one id more. */
  lemma {:induction false} PositionStep(lines: seq<Line>, i: nat, id: Id)
    requires i < |lines|
    ensures Position(lines[..i + 1], id) < i + 1 <==> Position(lines[..i], id) < i || id == lines[i].id
  {
    PositionFinds(lines[..i + 1], id);
    PositionFinds(lines[..i], id);
    if HasLineId(lines[..i], id) {
      var j :| 0 <= j < i && lines[..i][j].id == id;
      assert lines[..i + 1][j].id == id;
    }
    if HasLineId(lines[..i + 1], id) && id != lines[i].id {
      var j :| 0 <= j < i + 1 && lines[..i + 1][j].id == id;
      assert lines[..i][j].id == id;
    }
    assert lines[..i + 1][i] == lines[i];
  }

  lemma {:induction false} NumbersStep(rows: map<ConfirmationKey, ConfirmationRow>, lines: seq<Line>, i: nat)
    requires i < |lines|
    ensures AcceptedNumbers(rows, lines[..i + 1]) == AcceptedNumbers(rows, lines[..i]) + NumbersOf(rows, lines[i].id)
  {
    forall k | k in rows
      ensures Position(lines[..i + 1], k.line) < i + 1 <==> Position(lines[..i], k.line) < i || k.line == lines[i].id
    {
      PositionStep(lines, i, k.line);
    }
  }

  /** Amazon order numbers that accepted something, collected line by line. */
  method CollectNumbers(rows: map<ConfirmationKey, ConfirmationRow>, lines: seq<Line>) returns (numbers: set<string>)
    ensures numbers == AcceptedNumbers(rows, lines)
  {
    numbers := {};
    for i := 0 to |lines|
      invariant numbers == AcceptedNumbers(rows, lines[..i])
    {
      NumbersStep(rows, lines, i);
      numbers := numbers + NumbersOf(rows, lines[i].id);
    }
    assert lines[..|lines|] == lines;
  }

  // ---------- the transaction ----------

  /** applyAmazonConfirmation for the order found by its number. */
  method ApplyConfirmation(store: Store, o: Id, m: Message, text: string, now: Time) returns (refusal: Option<Refusal>)
    requires Parsed(m) && (o in store.files ==> Numbered(store.files[o].lines))
    modifies store
    ensures Did(old(store.Contents()), store.Contents(), Apply(old(store.Contents()), o, m, text, now), refusal)
  {
    if o !in store.files || store.files[o].order.session.None? {
      return Some(NotFound);
    }
    var f := store.files[o];
    var order := f.order;
    if || order.payloadId == ""
       || (m.orderPayloadId != "" && m.orderPayloadId != order.payloadId) || order.status == Draft
    {
      return Some(ConfirmationMismatch);
    }
    if m.payloadId in store.events {
      return if store.events[m.payloadId] == o then None else Some(ConfirmationMismatch);
    }
    if order.status == Received || order.status == PartiallyReceived {
      return Some(ConfirmationMismatch);
    }
    if m.operation == DeleteMessage {
      return Some(ConfirmationMismatch);
    }
    var rows, ok := NewRows(f, m);
    if !ok {
      return Some(ConfirmationMismatch);
    }
    var totals := SumLines(rows, f.lines);
    if !totals.fits {
      return Some(ConfirmationMismatch);
    }
    var status := NewStatus(order.status, totals);
    refusal := SaveConfirmation(store, o, m, rows, status, text, now);
  }

  /** The status cascade over the totals. */
  method NewStatus(was: OrderStatus, t: Totals) returns (status: OrderStatus)
    ensures status == DerivedStatus(was, t.accepted, t.rejected, t.requested)
  {
    status := was;
    if Near(t.rejected, t.requested) {
      status := Cancelled;
    } else if Near(t.accepted, t.requested) {
      status := Confirmed;
    } else if t.accepted > 0.0 && t.rejected > 0.0 && Near(t.accepted + t.rejected, t.requested) {
      status := PartiallyConfirmed;
    } else if was != Cancelled {
      status := Sent;
    }
  }

  /** Rows, order row and event; a refused order row rolls the rows back. */
  method SaveConfirmation(store: Store, o: Id, m: Message, rows: map<ConfirmationKey, ConfirmationRow>,
      status: OrderStatus, text: string, now: Time)
    returns (refusal: Option<Refusal>)
    requires o in store.files
    modifies store
    ensures Did(old(store.Contents()), store.Contents(), Commit(old(store.Contents()), o, m, rows, status, text, now),
                refusal)
  {
    var before := store.Contents();
    var f := store.files[o];
    if f.order.status == Cancelled && status != Cancelled {
      return Some(ConfirmationMismatch);
    }
    store.files := store.files[o := f.(confirmations := rows)];
    var numbers := CollectNumbers(rows, f.lines);
    var orderNumbers := if numbers != {} then text else if status == Cancelled then f.order.supplierNumber else "";
    var allNumbers := if numbers == {} && status == Cancelled then f.order.amazonNumbers else numbers;
    refusal := store.SaveOrder(o, f.order.(status := status, supplierNumber := orderNumbers,
                                           amazonNumbers := allNumbers), now);
    if refusal.Some? {
      store.Rollback(before);
      return;
    }
    store.events := store.events[m.payloadId := o];
  }
}
