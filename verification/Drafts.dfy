/**
 Guided draft edits of orders and requisitions: the merged and sorted preview, and the delete, update and create
 that follow it. A line has hidden native fields, which an edit never touches, and business fields, which it replaces.
 */
module Drafts {
  import opened Base

  /** A stored line, or with id 0 a line still to be created. */
  datatype Row<H, B> = Row(id: Id, hidden: H, business: B)

  /** A line of the request; lineId 0 asks for a new line. */
  datatype Input<B> = Input(lineId: Id, business: B)

  const MAX_ID: int := 2147483647

  /** Lines as they are read: positive ids, ascending. */
  predicate Ascending<H, B>(rows: seq<Row<H, B>>) {
    && (forall i :: 0 <= i < |rows| ==> rows[i].id > 0)
    && (forall i, j :: 0 <= i < j < |rows| ==> rows[i].id < rows[j].id)
  }

  // ---------- merge ----------

  predicate Owns<H, B>(old': seq<Row<H, B>>, id: Id) {
    exists k :: 0 <= k < |old'| && old'[k].id == id
  }

  /** Every retained id is bounded, belongs to this draft and is named once. */
  predicate Identified<H, B>(old': seq<Row<H, B>>, inputs: seq<Input<B>>) {
    && (forall i :: 0 <= i < |inputs| ==> inputs[i].lineId <= MAX_ID)
    && (forall i :: 0 <= i < |inputs| && inputs[i].lineId != 0 ==> Owns(old', inputs[i].lineId))
    && (forall i, j :: 0 <= i < j < |inputs| && inputs[i].lineId != 0 ==> inputs[i].lineId != inputs[j].lineId)
  }

  /** The merged line: the request's business fields, the stored line's hidden ones. */
  ghost predicate Merges<H, B>(old': seq<Row<H, B>>, input: Input<B>, blank: H, row: Row<H, B>) {
    && row.id == input.lineId && row.business == input.business
    && (input.lineId == 0 ==> row.hidden == blank)
    && (forall k :: 0 <= k < |old'| && old'[k].id == input.lineId && input.lineId != 0 ==> row.hidden == old'[k].hidden)
  }

  /** The `old` map: every stored line under its id. */
  method Originals<H, B>(old': seq<Row<H, B>>) returns (originals: map<Id, Row<H, B>>)
    requires Ascending(old')
    ensures forall id :: id in originals <==> Owns(old', id)
    ensures forall k :: 0 <= k < |old'| ==> old'[k].id in originals && originals[old'[k].id] == old'[k]
  {
    originals := map[];
    for i := 0 to |old'|
      invariant forall id :: id in originals <==> exists k :: 0 <= k < i && old'[k].id == id
      invariant forall k :: 0 <= k < i ==> old'[k].id in originals && originals[old'[k].id] == old'[k]
    {
      originals := originals[old'[i].id := old'[i]];
    }
  }

  /** The retained ids named so far. */
  ghost predicate SeenIn<B>(inputs: seq<Input<B>>, i: nat, seen: set<Id>)
    requires i <= |inputs|
  {
    && (forall k :: 0 <= k < i && inputs[k].lineId != 0 ==> inputs[k].lineId in seen)
    && (forall id :: id in seen ==> exists k :: 0 <= k < i && inputs[k].lineId == id)
  }

  /** applyOrderOwnerDraft and applyRequisitionDraft: the `old` and `seen` maps. */
  method Merge<H, B>(old': seq<Row<H, B>>, inputs: seq<Input<B>>, blank: H) returns (r: Option<seq<Row<H, B>>>)
    requires Ascending(old')
    ensures r.Some? <==> Identified(old', inputs)
    ensures r.Some? ==>
              |r.value| == |inputs| && forall i :: 0 <= i < |inputs| ==> Merges(old', inputs[i], blank, r.value[i])
  {
    var originals := Originals(old');
    var seen: set<Id> := {};
    var lines: seq<Row<H, B>> := [];
    for i := 0 to |inputs|
      invariant |lines| == i
      invariant forall k :: 0 <= k < i ==> Merges(old', inputs[k], blank, lines[k])
      invariant Identified(old', inputs[..i])
      invariant SeenIn(inputs, i, seen)
    {
      var l := inputs[i];
      assert inputs[..i + 1] == inputs[..i] + [l];
      if l.lineId > MAX_ID {
        assert !Identified(old', inputs);
        return None;
      }
      var line := Row(0, blank, l.business);
      if l.lineId != 0 {
        if l.lineId !in originals || l.lineId in seen {
          assert !Identified(old', inputs);
          return None;
        }
        line := originals[l.lineId].(business := l.business);
        seen := seen + {l.lineId};
      }
      lines := lines + [line];
    }
    assert inputs[..|inputs|] == inputs;
    return Some(lines);
  }

  // ---------- stable sort ----------

  /** The comparison function: retained lines by id, before every new line. */
  predicate Before<H, B>(a: Row<H, B>, b: Row<H, B>) {
    a.id != 0 && (b.id == 0 || a.id < b.id)
  }

  predicate InOrder<H, B>(rows: seq<Row<H, B>>) {
    forall i, j :: 0 <= i < j < |rows| ==> !Before(rows[j], rows[i])
  }

  /** The new lines, in their order. */
  function News<H, B>(rows: seq<Row<H, B>>): seq<Row<H, B>> {
    if rows == [] then []
    else News(rows[..|rows| - 1]) + (if rows[|rows| - 1].id == 0 then [rows[|rows| - 1]] else [])
  }

  lemma {:induction false} NewsConcat<H, B>(a: seq<Row<H, B>>, b: seq<Row<H, B>>)
    ensures News(a + b) == News(a) + News(b)
  {
    if b == [] {
      assert a + b == a;
    } else {
      var n := |b| - 1;
      NewsConcat(a, b[..n]);
      assert (a + b)[..|a + b| - 1] == a + b[..n];
    }
  }

  lemma {:induction false} NoNews<H, B>(rows: seq<Row<H, B>>)
    requires forall i :: 0 <= i < |rows| ==> rows[i].id != 0
    ensures News(rows) == []
  {
    if rows != [] {
      NoNews(rows[..|rows| - 1]);
    }
  }

  /** Where a row goes: after everything it is not before. */
  method InsertionPoint<H, B>(sorted: seq<Row<H, B>>, x: Row<H, B>) returns (p: nat)
    requires InOrder(sorted)
    ensures p <= |sorted|
    ensures forall i :: 0 <= i < p ==> !Before(x, sorted[i])
    ensures forall i :: p <= i < |sorted| ==> Before(x, sorted[i])
  {
    p := |sorted|;
    while p > 0 && Before(x, sorted[p - 1])
      invariant 0 <= p <= |sorted|
      invariant forall i :: p <= i < |sorted| ==> Before(x, sorted[i])
    {
      p := p - 1;
    }
    if p > 0 {
      forall i | 0 <= i < p
        ensures !Before(x, sorted[i])
      {
        assert i < p - 1 ==> !Before(sorted[p - 1], sorted[i]);
      }
    }
  }

  /** `sorted` with `x` at position p. */
  function Inserted<H, B>(sorted: seq<Row<H, B>>, x: Row<H, B>, p: nat): seq<Row<H, B>>
    requires p <= |sorted|
  {
    sorted[..p] + [x] + sorted[p..]
  }

  lemma InsertedOrder<H, B>(sorted: seq<Row<H, B>>, x: Row<H, B>, p: nat)
    requires InOrder(sorted) && p <= |sorted|
    requires forall i :: 0 <= i < p ==> !Before(x, sorted[i])
    requires forall i :: p <= i < |sorted| ==> Before(x, sorted[i])
    ensures InOrder(Inserted(sorted, x, p))
  {
    var r := Inserted(sorted, x, p);
    forall i, j | 0 <= i < j < |r|
      ensures !Before(r[j], r[i])
    {
      assert r[i] == if i < p then sorted[i] else if i == p then x else sorted[i - 1];
      assert r[j] == if j < p then sorted[j] else if j == p then x else sorted[j - 1];
    }
  }

  lemma InsertedCounts<H, B>(sorted: seq<Row<H, B>>, x: Row<H, B>, p: nat)
    requires p <= |sorted|
    ensures multiset(Inserted(sorted, x, p)) == multiset(sorted) + multiset{x}
  {
    assert sorted == sorted[..p] + sorted[p..];
  }

  lemma {:induction false} InsertedRetained<H, B>(sorted: seq<Row<H, B>>, x: Row<H, B>, p: nat)
    requires p <= |sorted| && x.id != 0
    ensures News(Inserted(sorted, x, p)) == News(sorted)
    decreases |sorted|
  {
    var r := Inserted(sorted, x, p);
    var n := |sorted|;
    assert |r| == n + 1;
    if p == n {
      assert r[..n] == sorted && r[n] == x;
    } else {
      assert r[..n] == Inserted(sorted[..n - 1], x, p) && r[n] == sorted[n - 1];
      InsertedRetained(sorted[..n - 1], x, p);
    }
  }

  lemma InsertedNews<H, B>(sorted: seq<Row<H, B>>, x: Row<H, B>, p: nat)
    requires p <= |sorted| && (x.id == 0 ==> p == |sorted|)
    ensures News(Inserted(sorted, x, p)) == News(sorted) + News([x])
  {
    if x.id == 0 {
      assert Inserted(sorted, x, p) == sorted + [x];
      NewsConcat(sorted, [x]);
    } else {
      NoNews([x]);
      InsertedRetained(sorted, x, p);
    }
  }

  /** A permutation in order that leaves the new lines in theirs. */
  ghost predicate Stable<H, B>(sorted: seq<Row<H, B>>, rows: seq<Row<H, B>>) {
    multiset(sorted) == multiset(rows) && InOrder(sorted) && News(sorted) == News(rows)
  }

  lemma StableStep<H, B>(sorted: seq<Row<H, B>>, rows: seq<Row<H, B>>, x: Row<H, B>, p: nat)
    requires Stable(sorted, rows) && p <= |sorted|
    requires forall i :: 0 <= i < p ==> !Before(x, sorted[i])
    requires forall i :: p <= i < |sorted| ==> Before(x, sorted[i])
    ensures Stable(Inserted(sorted, x, p), rows + [x])
  {
    assert p < |sorted| ==> Before(x, sorted[p]);
    InsertedOrder(sorted, x, p);
    InsertedCounts(sorted, x, p);
    InsertedNews(sorted, x, p);
    NewsConcat(rows, [x]);
  }

  /** sort.SliceStable. */
  method StableSort<H(==), B(==)>(rows: seq<Row<H, B>>) returns (sorted: seq<Row<H, B>>)
    ensures Stable(sorted, rows)
  {
    sorted := [];
    for i := 0 to |rows|
      invariant Stable(sorted, rows[..i])
    {
      var p := InsertionPoint(sorted, rows[i]);
      StableStep(sorted, rows[..i], rows[i], p);
      assert rows[..i + 1] == rows[..i] + [rows[i]];
      sorted := Inserted(sorted, rows[i], p);
    }
    assert rows[..|rows|] == rows;
  }

  // ---------- the stored lines ----------

  /** How many lines are retained: they stand first. */
  function Retained<H, B>(rows: seq<Row<H, B>>): (k: nat)
    ensures k <= |rows|
    ensures forall i :: 0 <= i < k ==> rows[i].id != 0
    ensures k < |rows| ==> rows[k].id == 0
  {
    if rows == [] || rows[0].id == 0 then 0 else 1 + Retained(rows[1..])
  }

  /** The preview with the ids that execution assigns: new lines take the next ids in order. */
  function Assigned<H, B>(preview: seq<Row<H, B>>, serial: Id): (r: seq<Row<H, B>>)
    ensures |r| == |preview|
  {
    var k := Retained(preview);
    seq(|preview|, i requires 0 <= i < |preview| => if i < k then preview[i] else preview[i].(id := serial + (i - k)))
  }

  /** `lines` is what SELECT ... ORDER BY id returns. */
  ghost predicate Reads<H(!new), B(!new)>(rows: map<Id, Row<H, B>>, lines: seq<Row<H, B>>) {
    && Ascending(lines)
    && (forall i :: 0 <= i < |lines| ==> lines[i].id in rows && rows[lines[i].id] == lines[i])
    && (forall id {:trigger Owns(lines, id)} :: id in rows ==> Owns(lines, id))
  }

  /** The next row of one reading is found in the other, not before position i. */
  lemma NextFound<H(!new), B(!new)>(rows: map<Id, Row<H, B>>, a: seq<Row<H, B>>, b: seq<Row<H, B>>, i: nat)
    requires Reads(rows, a) && Reads(rows, b) && i < |a| && i <= |b|
    requires forall k :: 0 <= k < i ==> a[k] == b[k]
    ensures i < |b| && b[i].id <= a[i].id
  {
    assert Owns(b, a[i].id);
    forall q | 0 <= q < i
      ensures b[q].id < a[i].id
    {
      assert a[q].id < a[i].id;
    }
    var k :| 0 <= k < |b| && b[k].id == a[i].id;
    assert k > i ==> b[i].id < b[k].id;
  }

  lemma {:induction false} ReadsAgree<H(!new), B(!new)>(rows: map<Id, Row<H, B>>, a: seq<Row<H, B>>,
      b: seq<Row<H, B>>, i: nat)
    requires Reads(rows, a) && Reads(rows, b) && i <= |a|
    ensures i <= |b| && forall k :: 0 <= k < i ==> a[k] == b[k]
  {
    if i > 0 {
      ReadsAgree(rows, a, b, i - 1);
      SameAt(rows, a, b, i - 1);
    }
  }

  lemma SameAt<H(!new), B(!new)>(rows: map<Id, Row<H, B>>, a: seq<Row<H, B>>, b: seq<Row<H, B>>, i: nat)
    requires Reads(rows, a) && Reads(rows, b) && i < |a| && i <= |b|
    requires forall k :: 0 <= k < i ==> a[k] == b[k]
    ensures i < |b| && a[i] == b[i]
  {
    NextFound(rows, a, b, i);
    NextFound(rows, b, a, i);
    assert rows[a[i].id] == a[i] && rows[b[i].id] == b[i];
  }

  /** The table has one reading. */
  lemma ReadsUnique<H(!new), B(!new)>(rows: map<Id, Row<H, B>>, a: seq<Row<H, B>>, b: seq<Row<H, B>>)
    requires Reads(rows, a) && Reads(rows, b)
    ensures a == b
  {
    ReadsAgree(rows, a, b, |a|);
    ReadsAgree(rows, b, a, |b|);
  }

  /** A preview ready to be executed against a table. */
  ghost predicate Executable<H(!new), B(!new)>(rows: map<Id, Row<H, B>>, serial: Id, preview: seq<Row<H, B>>) {
    && serial > 0
    && (forall id :: id in rows ==> rows[id].id == id && 0 < id < serial)
    && InOrder(preview)
    && DistinctIds(preview)
    && (forall i :: 0 <= i < |preview| && preview[i].id != 0 ==>
          preview[i].id in rows && rows[preview[i].id].hidden == preview[i].hidden)
  }

  lemma RetainedFirst<H, B>(preview: seq<Row<H, B>>)
    requires InOrder(preview)
    ensures forall i :: Retained(preview) <= i < |preview| ==> preview[i].id == 0
  {
    var k := Retained(preview);
    forall i | k <= i < |preview|
      ensures preview[i].id == 0
    {
      assert i > k ==> !Before(preview[i], preview[k]);
    }
  }

  class LineTable<H(!new), B(!new)> {
    var rows: map<Id, Row<H, B>>
    var serial: Id

    constructor (rows: map<Id, Row<H, B>>, serial: Id)
      ensures this.rows == rows && this.serial == serial
    {
      this.rows, this.serial := rows, serial;
    }

    /** DELETE ... WHERE id NOT IN (kept ids of the preview). */
    method DeleteOthers(preview: seq<Row<H, B>>)
      modifies `rows
      ensures rows == map id | id in old(rows) && id in KeptIds(preview) :: old(rows)[id]
    {
      var keep: set<Id> := {};
      for i := 0 to |preview|
        invariant rows == old(rows)
        invariant keep == KeptIds(preview[..i])
      {
        KeptStep(preview, i);
        if preview[i].id != 0 {
          keep := keep + {preview[i].id};
        }
      }
      assert preview[..|preview|] == preview;
      rows := map id | id in rows && id in keep :: rows[id];
    }

    /** UPDATE a kept line's business fields, or INSERT a new line under the next id. */
    method WriteLine(l: Row<H, B>)
      requires l.id != 0 ==> l.id in rows
      modifies this
      ensures rows == Written(old(rows), l, old(serial))
      ensures serial == old(serial) + (if l.id == 0 then 1 else 0)
    {
      if l.id == 0 {
        rows := rows[serial := l.(id := serial)];
        serial := serial + 1;
      } else {
        rows := rows[l.id := rows[l.id].(business := l.business)];
      }
    }

    /** Line by line in the order of the preview. */
    method WriteLines(preview: seq<Row<H, B>>, ghost stored: seq<Row<H, B>>, ghost first: Id)
      requires Writing(rows, serial, preview, stored, first, 0)
      modifies this
      ensures Writing(rows, serial, preview, stored, first, |preview|)
    {
      for i := 0 to |preview|
        invariant Writing(rows, serial, preview, stored, first, i)
      {
        WritingStep(rows, serial, preview, stored, first, i);
        WriteLine(preview[i]);
      }
    }

    /**
     Delete what is not kept, update what is kept, create what is new: reread in id order, the table is the preview
     position by position, hidden fields included, with the next ids on the new lines.
     */
    method Replace(preview: seq<Row<H, B>>)
      requires Executable(rows, serial, preview)
      modifies this
      ensures Reads(rows, Assigned(preview, old(serial)))
      ensures serial == NextSerial(preview, old(serial), |preview|)
    {
      ghost var stored := Assigned(preview, serial);
      AssignedAscends(rows, serial, preview);
      DeleteOthers(preview);
      AssignedFacts(rows, serial, preview);
      ProgressStarts(rows, serial, preview);
      WriteLines(preview, stored, serial);
      forall id | id in rows
        ensures Owns(stored, id)
      {
        assert id in IdsOf(stored, |preview|);
      }
    }
  }

  function KeptIds<H, B>(preview: seq<Row<H, B>>): set<Id> {
    set j | 0 <= j < |preview| && preview[j].id != 0 :: preview[j].id
  }

  lemma KeptStep<H, B>(preview: seq<Row<H, B>>, i: nat)
    requires i < |preview|
    ensures KeptIds(preview[..i + 1]) == KeptIds(preview[..i]) + (if preview[i].id != 0 then {preview[i].id} else {})
  {
    forall id
      ensures id in KeptIds(preview[..i + 1])
           <==> id in KeptIds(preview[..i]) || (preview[i].id != 0 && id == preview[i].id)
    {
      if id in KeptIds(preview[..i]) {
        var j :| 0 <= j < i && preview[..i][j].id != 0 && preview[..i][j].id == id;
        assert preview[..i + 1][j].id == id;
      }
      if id in KeptIds(preview[..i + 1]) && id != preview[i].id {
        var j :| 0 <= j < i + 1 && preview[..i + 1][j].id != 0 && preview[..i + 1][j].id == id;
        assert preview[..i][j].id == id;
      }
      assert preview[..i + 1][i] == preview[i];
    }
  }

  /** The first n stored lines are in the table. */
  ghost predicate Holds<H(!new), B(!new)>(rows: map<Id, Row<H, B>>, stored: seq<Row<H, B>>, n: nat)
    requires n <= |stored|
  {
    forall j :: 0 <= j < n ==> stored[j].id in rows && rows[stored[j].id] == stored[j]
  }

  /** After i lines: these are stored, the retained ones behind them wait with their hidden fields. */
  ghost predicate Progress<H(!new), B(!new)>(rows: map<Id, Row<H, B>>, preview: seq<Row<H, B>>,
      stored: seq<Row<H, B>>, i: nat)
    requires i <= |preview| == |stored|
  {
    var k := Retained(preview);
    && Holds(rows, stored, i)
    && (forall j :: i <= j < k ==>
          preview[j].id in rows && rows[preview[j].id].id == preview[j].id
          && rows[preview[j].id].hidden == preview[j].hidden)
    && rows.Keys == IdsOf(stored, if i <= k then k else i)
  }

  /** The next id after i lines of the preview. */
  function NextSerial<H, B>(preview: seq<Row<H, B>>, first: Id, i: nat): Id {
    if i <= Retained(preview) then first else first + (i - Retained(preview))
  }

  function Written<H, B>(rows: map<Id, Row<H, B>>, l: Row<H, B>, serial: Id): map<Id, Row<H, B>>
    requires l.id != 0 ==> l.id in rows
  {
    if l.id == 0 then rows[serial := l.(id := serial)] else rows[l.id := rows[l.id].(business := l.business)]
  }

  /** What execution will store, line by line. */
  ghost predicate Facts<H(!new), B(!new)>(preview: seq<Row<H, B>>, stored: seq<Row<H, B>>, first: Id) {
    && |stored| == |preview| && Ascending(stored)
    && (forall j :: 0 <= j < Retained(preview) ==> stored[j] == preview[j] && preview[j].id != 0)
    && (forall j :: Retained(preview) <= j < |preview| ==>
          preview[j].id == 0 && stored[j] == preview[j].(id := NextSerial(preview, first, j)))
  }

  lemma AssignedFacts<H(!new), B(!new)>(rows: map<Id, Row<H, B>>, serial: Id, preview: seq<Row<H, B>>)
    requires Executable(rows, serial, preview)
    ensures Facts(preview, Assigned(preview, serial), serial)
  {
    RetainedFirst(preview);
    AssignedAscends(rows, serial, preview);
  }

  lemma WrittenStep<H(!new), B(!new)>(rows: map<Id, Row<H, B>>, preview: seq<Row<H, B>>, stored: seq<Row<H, B>>,
      first: Id, i: nat)
    requires i < |preview| && Facts(preview, stored, first) && Progress(rows, preview, stored, i)
    ensures preview[i].id != 0 ==> preview[i].id in rows
    ensures Progress(Written(rows, preview[i], NextSerial(preview, first, i)), preview, stored, i + 1)
    ensures NextSerial(preview, first, i + 1) == NextSerial(preview, first, i) + (if preview[i].id == 0 then 1 else 0)
  {
    if i < Retained(preview) {
      UpdateStep(rows, preview, stored, i);
    } else {
      CreateStep(rows, preview, stored, i);
    }
  }

  /** The state of the line loop before line i. */
  ghost predicate Writing<H(!new), B(!new)>(rows: map<Id, Row<H, B>>, serial: Id, preview: seq<Row<H, B>>,
      stored: seq<Row<H, B>>, first: Id, i: nat) {
    && i <= |preview| && Facts(preview, stored, first)
    && Progress(rows, preview, stored, i) && serial == NextSerial(preview, first, i)
  }

  lemma WritingStep<H(!new), B(!new)>(rows: map<Id, Row<H, B>>, serial: Id, preview: seq<Row<H, B>>,
      stored: seq<Row<H, B>>, first: Id, i: nat)
    requires Writing(rows, serial, preview, stored, first, i) && i < |preview|
    ensures preview[i].id != 0 ==> preview[i].id in rows
    ensures Writing(Written(rows, preview[i], serial), serial + (if preview[i].id == 0 then 1 else 0), preview, stored,
                    first, i + 1)
  {
    WrittenStep(rows, preview, stored, first, i);
  }

  lemma ProgressStarts<H(!new), B(!new)>(rows: map<Id, Row<H, B>>, serial: Id, preview: seq<Row<H, B>>)
    requires Executable(rows, serial, preview) && rows.Keys == KeptIds(preview)
    ensures Progress(rows, preview, Assigned(preview, serial), 0)
  {
    KeptAreRetained(preview, serial);
  }

  lemma UpdateStep<H(!new), B(!new)>(rows: map<Id, Row<H, B>>, preview: seq<Row<H, B>>, stored: seq<Row<H, B>>, i: nat)
    requires |preview| == |stored| && i < Retained(preview) && Ascending(stored)
    requires forall j :: 0 <= j < Retained(preview) ==> stored[j] == preview[j]
    requires Progress(rows, preview, stored, i)
    ensures preview[i].id in rows
    ensures Progress(rows[preview[i].id := rows[preview[i].id].(business := preview[i].business)], preview, stored,
                     i + 1)
  {
    var l := preview[i];
    var rows' := rows[l.id := rows[l.id].(business := l.business)];
    assert rows'[l.id] == stored[i];
    forall j | 0 <= j < i
      ensures stored[j].id in rows' && rows'[stored[j].id] == stored[j]
    {
      assert stored[j].id < stored[i].id;
    }
    forall j | i < j < Retained(preview)
      ensures preview[j].id in rows' && rows'[preview[j].id].id == preview[j].id
      ensures rows'[preview[j].id].hidden == preview[j].hidden
    {
      assert stored[i].id < stored[j].id;
    }
    assert rows'.Keys == rows.Keys;
  }

  lemma CreateStep<H(!new), B(!new)>(rows: map<Id, Row<H, B>>, preview: seq<Row<H, B>>, stored: seq<Row<H, B>>, i: nat)
    requires |preview| == |stored| && Retained(preview) <= i < |preview| && Ascending(stored)
    requires Progress(rows, preview, stored, i)
    ensures Progress(rows[stored[i].id := stored[i]], preview, stored, i + 1)
  {
    var rows' := rows[stored[i].id := stored[i]];
    forall j | 0 <= j < i
      ensures stored[j].id in rows' && rows'[stored[j].id] == stored[j]
    {
      assert stored[j].id < stored[i].id;
    }
    IdsStep(stored, i);
    assert rows'.Keys == rows.Keys + {stored[i].id};
  }

  function IdsOf<H, B>(stored: seq<Row<H, B>>, n: nat): set<Id>
    requires n <= |stored|
  {
    set j | 0 <= j < n :: stored[j].id
  }

  lemma IdsStep<H, B>(stored: seq<Row<H, B>>, n: nat)
    requires n < |stored|
    ensures IdsOf(stored, n + 1) == IdsOf(stored, n) + {stored[n].id}
  {
  }

  lemma KeptAreRetained<H, B>(preview: seq<Row<H, B>>, serial: Id)
    requires InOrder(preview)
    ensures KeptIds(preview) == IdsOf(Assigned(preview, serial), Retained(preview))
  {
    var k := Retained(preview);
    var stored := Assigned(preview, serial);
    RetainedFirst(preview);
    forall id
      ensures id in KeptIds(preview) <==> id in IdsOf(stored, k)
    {
      if id in KeptIds(preview) {
        var j :| 0 <= j < |preview| && preview[j].id != 0 && preview[j].id == id;
        assert j < k && stored[j].id == id;
      }
      if id in IdsOf(stored, k) {
        var j :| 0 <= j < k && stored[j].id == id;
        assert preview[j].id == id;
      }
    }
  }

  lemma AssignedAscends<H(!new), B(!new)>(rows: map<Id, Row<H, B>>, serial: Id, preview: seq<Row<H, B>>)
    requires Executable(rows, serial, preview)
    ensures Ascending(Assigned(preview, serial))
    ensures forall i :: 0 <= i < Retained(preview) ==> Assigned(preview, serial)[i].id < serial
  {
    var k := Retained(preview);
    RetainedFirst(preview);
    forall i, j | 0 <= i < j < |preview|
      ensures Assigned(preview, serial)[i].id < Assigned(preview, serial)[j].id
    {
      if j < k {
        assert !Before(preview[j], preview[i]);
      }
    }
  }

  // ---------- new lines ----------

  /** The business fields of the requested new lines, in the order requested. */
  function Added<B>(inputs: seq<Input<B>>): seq<B> {
    if inputs == [] then []
    else
      var last := inputs[|inputs| - 1];
      Added(inputs[..|inputs| - 1]) + (if last.lineId == 0 then [last.business] else [])
  }

  lemma {:induction false} AddedSplits<B>(a: seq<Input<B>>, b: seq<Input<B>>)
    ensures Added(a + b) == Added(a) + Added(b)
    ensures |b| == 1 ==> Added(b) == if b[0].lineId == 0 then [b[0].business] else []
  {
    if b == [] {
      assert a + b == a;
    } else {
      var n := |b| - 1;
      AddedSplits(a, b[..n]);
      assert (a + b)[..|a + b| - 1] == a + b[..n];
    }
  }

  /** Behind the retained lines the preview holds exactly the requested new lines, in their order. */
  predicate AddsInOrder<H(==), B(==)>(inputs: seq<Input<B>>, blank: H, preview: seq<Row<H, B>>) {
    var k := Retained(preview);
    && |preview| == k + |Added(inputs)|
    && forall i :: 0 <= i < |Added(inputs)| ==> NewLine(preview, k + i, blank, Added(inputs)[i])
  }

  predicate NewLine<H(==), B(==)>(preview: seq<Row<H, B>>, at: nat, blank: H, business: B) {
    at < |preview| && preview[at] == Row(0, blank, business)
  }

  /** A merged line has the id and fields asked for, and a new one nothing hidden yet. */
  ghost predicate AsAsked<H, B>(input: Input<B>, blank: H, row: Row<H, B>) {
    row.id == input.lineId && row.business == input.business && (row.id == 0 ==> row.hidden == blank)
  }

  lemma {:induction false} MergedNews<H, B>(inputs: seq<Input<B>>, blank: H, merged: seq<Row<H, B>>)
    requires |merged| == |inputs| && forall i :: 0 <= i < |inputs| ==> AsAsked(inputs[i], blank, merged[i])
    ensures |News(merged)| == |Added(inputs)|
    ensures forall i :: 0 <= i < |News(merged)| ==> News(merged)[i] == Row(0, blank, Added(inputs)[i])
  {
    if inputs != [] {
      MergedNews(inputs[..|inputs| - 1], blank, merged[..|merged| - 1]);
      assert AsAsked(inputs[|inputs| - 1], blank, merged[|merged| - 1]);
    }
  }

  lemma {:induction false} AllNews<H, B>(rows: seq<Row<H, B>>)
    requires forall i :: 0 <= i < |rows| ==> rows[i].id == 0
    ensures News(rows) == rows
  {
    if rows != [] {
      AllNews(rows[..|rows| - 1]);
    }
  }

  lemma NewsOfOrdered<H, B>(preview: seq<Row<H, B>>)
    requires InOrder(preview)
    ensures News(preview) == preview[Retained(preview)..]
  {
    var k := Retained(preview);
    RetainedFirst(preview);
    assert preview == preview[..k] + preview[k..];
    NewsConcat(preview[..k], preview[k..]);
    NoNews(preview[..k]);
    AllNews(preview[k..]);
  }

  lemma SortedAdds<H, B>(inputs: seq<Input<B>>, blank: H, merged: seq<Row<H, B>>, sorted: seq<Row<H, B>>)
    requires |merged| == |inputs| && Stable(sorted, merged)
    requires forall i :: 0 <= i < |inputs| ==> AsAsked(inputs[i], blank, merged[i])
    ensures AddsInOrder(inputs, blank, sorted)
  {
    MergedNews(inputs, blank, merged);
    NewsOfOrdered(sorted);
    RetainedFirst(sorted);
    var k := Retained(sorted);
    forall i | 0 <= i < |Added(inputs)|
      ensures NewLine(sorted, k + i, blank, Added(inputs)[i])
    {
      assert sorted[k + i] == News(sorted)[i];
    }
  }

  // ---------- totals ----------

  /** The total of a list of lines, whatever one line costs. */
  function Total<H, B>(rows: seq<Row<H, B>>, cents: B -> int): int {
    if rows == [] then 0 else Total(rows[..|rows| - 1], cents) + cents(rows[|rows| - 1].business)
  }

  lemma {:induction false} TotalConcat<H, B>(a: seq<Row<H, B>>, b: seq<Row<H, B>>, cents: B -> int)
    ensures Total(a + b, cents) == Total(a, cents) + Total(b, cents)
  {
    if b == [] {
      assert a + b == a;
    } else {
      var n := |b| - 1;
      TotalConcat(a, b[..n], cents);
      assert (a + b)[..|a + b| - 1] == a + b[..n];
    }
  }

  lemma WithoutPrefix<T>(a: seq<T>, i: nat)
    requires i < |a| - 1
    ensures Without(a, i)[..|a| - 2] == Without(a[..|a| - 1], i)
    ensures Without(a, i)[|a| - 2] == a[|a| - 1]
  {
  }

  lemma {:induction false} TotalWithout<H, B>(a: seq<Row<H, B>>, i: nat, cents: B -> int)
    requires i < |a|
    ensures Total(a, cents) == Total(Without(a, i), cents) + cents(a[i].business)
    decreases |a|
  {
    var n := |a| - 1;
    if i == n {
      assert Without(a, i) == a[..n];
    } else {
      TotalWithout(a[..n], i, cents);
      WithoutPrefix(a, i);
    }
  }

  /** Sorting does not change the total. */
  lemma {:induction false} TotalPermutation<H, B>(a: seq<Row<H, B>>, b: seq<Row<H, B>>, cents: B -> int)
    requires multiset(a) == multiset(b)
    ensures Total(a, cents) == Total(b, cents)
    decreases |a|
  {
    assert |a| == |multiset(a)| == |multiset(b)| == |b|;
    if a != [] {
      var n := |b| - 1;
      assert b[n] in multiset(a);
      var i :| 0 <= i < |a| && a[i] == b[n];
      MultisetWithout(a, i);
      MultisetWithout(b, n);
      assert Without(b, n) == b[..n];
      TotalPermutation(Without(a, i), b[..n], cents);
      TotalWithout(a, i, cents);
    }
  }

  /** Ids play no part in the total: the stored lines cost what the preview's lines cost. */
  lemma {:induction false} TotalOfAssigned<H, B>(preview: seq<Row<H, B>>, stored: seq<Row<H, B>>, cents: B -> int)
    requires |stored| == |preview| && forall i :: 0 <= i < |preview| ==> stored[i].business == preview[i].business
    ensures Total(stored, cents) == Total(preview, cents)
  {
    if preview != [] {
      TotalOfAssigned(preview[..|preview| - 1], stored[..|stored| - 1], cents);
    }
  }

  // ---------- the whole edit ----------

  /** Every line of the request is in the preview, with the hidden fields of the line it retains. */
  ghost predicate Shows<H(!new), B(!new)>(old': seq<Row<H, B>>, inputs: seq<Input<B>>, blank: H,
      preview: seq<Row<H, B>>) {
    && |preview| == |inputs|
    && forall i :: 0 <= i < |inputs| ==> Shown(old', inputs[i], blank, preview)
  }

  ghost predicate Shown<H(!new), B(!new)>(old': seq<Row<H, B>>, input: Input<B>, blank: H, preview: seq<Row<H, B>>) {
    exists j :: 0 <= j < |preview| && Merges(old', input, blank, preview[j])
  }

  /** The merged and sorted lines of prepareOrderOwnerDraft and prepareRequisitionOwnerDraft, with their total. */
  method Preview<H(==,!new), B(==,!new)>(old': seq<Row<H, B>>, inputs: seq<Input<B>>, blank: H, cents: B -> int,
      ghost rows: map<Id, Row<H, B>>, ghost serial: Id)
    returns (preview: Option<seq<Row<H, B>>>, total: int)
    requires Reads(rows, old') && serial > 0 && forall id :: id in rows ==> 0 < id < serial
    ensures preview.Some? <==> Identified(old', inputs)
    ensures preview.Some? ==> Executable(rows, serial, preview.value) && Shows(old', inputs, blank, preview.value)
    ensures preview.Some? ==> AddsInOrder(inputs, blank, preview.value)
    ensures preview.Some? ==> total == Total(preview.value, cents)
  {
    total := 0;
    var merged := Merge(old', inputs, blank);
    if merged.None? {
      return None, 0;
    }
    for i := 0 to |merged.value|
      invariant total == Total(merged.value[..i], cents)
    {
      assert merged.value[..i + 1][..i] == merged.value[..i];
      total := total + cents(merged.value[i].business);
    }
    assert merged.value[..|merged.value|] == merged.value;
    var sorted := StableSort(merged.value);
    TotalPermutation(sorted, merged.value, cents);
    MergedIsExecutable(rows, serial, old', inputs, blank, merged.value, sorted);
    MergedIsShown(old', inputs, blank, merged.value, sorted);
    assert forall i :: 0 <= i < |inputs| ==> AsAsked(inputs[i], blank, merged.value[i]);
    SortedAdds(inputs, blank, merged.value, sorted);
    preview := Some(sorted);
  }

  lemma MergedIsShown<H(!new), B(!new)>(old': seq<Row<H, B>>, inputs: seq<Input<B>>, blank: H,
      merged: seq<Row<H, B>>, sorted: seq<Row<H, B>>)
    requires |merged| == |inputs| && forall i :: 0 <= i < |inputs| ==> Merges(old', inputs[i], blank, merged[i])
    requires multiset(sorted) == multiset(merged)
    ensures Shows(old', inputs, blank, sorted)
  {
    SortedHolds(merged, sorted);
    forall i | 0 <= i < |inputs|
      ensures Shown(old', inputs[i], blank, sorted)
    {
      assert merged[i] in sorted;
      var j :| 0 <= j < |sorted| && sorted[j] == merged[i];
      assert Merges(old', inputs[i], blank, sorted[j]);
    }
  }

  /**
   Merge, sort and store in one go: the reread lines are the preview's lines position by position, and the total
   computed on the merged lines before sorting is the total of the stored ones.
   */
  method EditLines<H(==,!new), B(==,!new)>(table: LineTable<H, B>, old': seq<Row<H, B>>, inputs: seq<Input<B>>,
      blank: H, cents: B -> int)
    returns (preview: Option<seq<Row<H, B>>>, total: int)
    requires Reads(table.rows, old') && table.serial > 0 && forall id :: id in table.rows ==> 0 < id < table.serial
    modifies table
    ensures preview.Some? <==> Identified(old', inputs)
    ensures preview.None? ==> table.rows == old(table.rows) && table.serial == old(table.serial)
    ensures preview.Some? ==>
              && Shows(old', inputs, blank, preview.value) && AddsInOrder(inputs, blank, preview.value)
              && Reads(table.rows, Assigned(preview.value, old(table.serial)))
    ensures preview.Some? ==> total == Total(Assigned(preview.value, old(table.serial)), cents)
  {
    preview, total := Preview(old', inputs, blank, cents, table.rows, table.serial);
    if preview.Some? {
      TotalOfAssigned(preview.value, Assigned(preview.value, table.serial), cents);
      table.Replace(preview.value);
    }
  }

  lemma SortedHolds<H, B>(merged: seq<Row<H, B>>, sorted: seq<Row<H, B>>)
    requires multiset(sorted) == multiset(merged)
    ensures |sorted| == |merged|
    ensures forall x :: x in merged <==> x in sorted
  {
    assert |sorted| == |multiset(sorted)| == |multiset(merged)| == |merged|;
    forall x
      ensures x in merged <==> x in sorted
    {
      assert x in merged <==> x in multiset(merged);
      assert x in sorted <==> x in multiset(sorted);
    }
  }

  lemma CountedTwice<T>(s: seq<T>, i: nat, j: nat)
    requires i < j < |s| && s[i] == s[j]
    ensures multiset(s)[s[i]] >= 2
  {
    assert s == s[..i] + [s[i]] + (s[i + 1..j] + [s[j]] + s[j + 1..]);
  }

  lemma CountedOnce<T>(s: seq<T>, a: nat)
    requires a < |s| && forall k :: 0 <= k < |s| && k != a ==> s[k] != s[a]
    ensures multiset(s)[s[a]] == 1
  {
    assert s == s[..a] + [s[a]] + s[a + 1..];
    assert s[a] !in s[..a] && s[a] !in s[a + 1..];
  }

  /** No two retained lines carry one id. */
  predicate DistinctIds<H, B>(rows: seq<Row<H, B>>) {
    forall i, j :: 0 <= i < j < |rows| && rows[i].id != 0 ==> rows[i].id != rows[j].id
  }

  /** A list without two retained lines of one id stays so in any order. */
  lemma DistinctInAnyOrder<H, B>(merged: seq<Row<H, B>>, sorted: seq<Row<H, B>>)
    requires multiset(sorted) == multiset(merged) && DistinctIds(merged)
    ensures DistinctIds(sorted)
  {
    forall i, j | 0 <= i < j < |sorted| && sorted[i].id != 0
      ensures sorted[i].id != sorted[j].id
    {
      NotTwice(merged, sorted, i, j);
    }
  }

  lemma NotTwice<H, B>(merged: seq<Row<H, B>>, sorted: seq<Row<H, B>>, i: nat, j: nat)
    requires multiset(sorted) == multiset(merged) && DistinctIds(merged)
    requires i < j < |sorted| && sorted[i].id != 0
    ensures sorted[i].id != sorted[j].id
  {
    assert sorted[i] in multiset(merged) && sorted[j] in multiset(merged);
    var a :| 0 <= a < |merged| && merged[a] == sorted[i];
    var b :| 0 <= b < |merged| && merged[b] == sorted[j];
    OnceInMerged(merged, a);
    if sorted[i] == sorted[j] {
      CountedTwice(sorted, i, j);
    }
    assert a != b;
  }

  lemma OnceInMerged<H, B>(merged: seq<Row<H, B>>, a: nat)
    requires DistinctIds(merged) && a < |merged| && merged[a].id != 0
    ensures multiset(merged)[merged[a]] == 1
    ensures forall k :: 0 <= k < |merged| && k != a ==> merged[k].id != merged[a].id
  {
    forall k | 0 <= k < |merged| && k != a
      ensures merged[k].id != merged[a].id
    {
      assert k < a ==> merged[k].id == 0 || merged[k].id != merged[a].id;
    }
    CountedOnce(merged, a);
  }

  lemma MergedIsExecutable<H(!new), B(!new)>(rows: map<Id, Row<H, B>>, serial: Id, old': seq<Row<H, B>>,
      inputs: seq<Input<B>>, blank: H, merged: seq<Row<H, B>>, sorted: seq<Row<H, B>>)
    requires Reads(rows, old') && serial > 0 && forall id :: id in rows ==> 0 < id < serial
    requires Identified(old', inputs) && |merged| == |inputs|
    requires forall i :: 0 <= i < |inputs| ==> Merges(old', inputs[i], blank, merged[i])
    requires multiset(sorted) == multiset(merged) && InOrder(sorted)
    ensures Executable(rows, serial, sorted)
  {
    assert DistinctIds(merged) by {
      assert forall i :: 0 <= i < |inputs| ==> merged[i].id == inputs[i].lineId;
    }
    DistinctInAnyOrder(merged, sorted);
    SortedHolds(merged, sorted);
    forall id | id in rows
      ensures rows[id].id == id
    {
      assert Owns(old', id);
    }
    forall j | 0 <= j < |sorted| && sorted[j].id != 0
      ensures sorted[j].id in rows && rows[sorted[j].id].hidden == sorted[j].hidden
    {
      assert sorted[j] in merged;
      var i :| 0 <= i < |merged| && sorted[j] == merged[i];
      RetainedHidden(rows, old', inputs[i], blank, merged[i]);
    }
  }

  lemma RetainedHidden<H(!new), B(!new)>(rows: map<Id, Row<H, B>>, old': seq<Row<H, B>>, input: Input<B>, blank: H,
      row: Row<H, B>)
    requires Reads(rows, old') && Merges(old', input, blank, row) && input.lineId != 0 && Owns(old', input.lineId)
    ensures row.id in rows && rows[row.id].hidden == row.hidden
  {
    var k :| 0 <= k < |old'| && old'[k].id == input.lineId;
    assert rows[old'[k].id] == old'[k];
  }
}
