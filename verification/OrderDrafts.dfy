/** The draft merge applied to purchase orders: what is stored is what the preview shows, and costs what it says. */
module OrderDrafts {
  import opened Base
  import opened Schema
  import opened Drafts
  import Workflow

  /** Native fields a guided edit keeps, and the fields it replaces. */
  datatype Hidden = Hidden(part: string, auxiliary: string, received: real)
  datatype Business = Business(product: Option<Id>, description: string, quantity: real, unit: string, priceCents: int,
      url: string)

  const BLANK := Hidden("", "", 0.0)

  function ToLine(r: Row<Hidden, Business>): Line {
    Line(r.id, r.business.product, r.hidden.part, r.hidden.auxiliary, r.business.description, r.business.quantity,
         r.hidden.received, r.business.unit, r.business.priceCents, r.business.url)
  }

  function ToRow(l: Line): (r: Row<Hidden, Business>)
    ensures ToLine(r) == l
  {
    Row(l.id, Hidden(l.part, l.auxiliary, l.received),
        Business(l.product, l.description, l.quantity, l.unit, l.priceCents, l.url))
  }

  function ToLines(rows: seq<Row<Hidden, Business>>): (r: seq<Line>)
    ensures |r| == |rows|
    ensures forall i :: 0 <= i < |rows| ==> r[i] == ToLine(rows[i])
    ensures Ascending(rows) ==> Numbered(r)
  {
    seq(|rows|, i requires 0 <= i < |rows| => ToLine(rows[i]))
  }

  function ToRows(lines: seq<Line>): (r: seq<Row<Hidden, Business>>)
    ensures |r| == |lines|
    ensures forall i :: 0 <= i < |lines| ==> r[i] == ToRow(lines[i])
  {
    seq(|lines|, i requires 0 <= i < |lines| => ToRow(lines[i]))
  }

  function Cents(b: Business): int {
    Workflow.LineCents(ToLine(Row(0, BLANK, b)))
  }

  lemma {:induction false} TotalsAgree(rows: seq<Row<Hidden, Business>>)
    ensures Total(rows, Cents) == Workflow.Total(ToLines(rows))
  {
    if rows != [] {
      var n := |rows| - 1;
      TotalsAgree(rows[..n]);
      assert ToLines(rows)[..n] == ToLines(rows[..n]);
    }
  }

  // ---------- the whole edit ----------

  /** The stored line of one requested line: its business fields, and the hidden ones of the line it retains. */
  predicate Stores(was: seq<Line>, input: Input<Business>, serial: Id, line: Line) {
    && line.product == input.business.product && line.description == input.business.description
    && line.quantity == input.business.quantity && line.unit == input.business.unit
    && line.priceCents == input.business.priceCents && line.url == input.business.url
    && (input.lineId == 0 ==> line.id >= serial && line.part == "" && line.auxiliary == "" && line.received == 0.0)
    && (input.lineId != 0 ==> line.id == input.lineId && Retains(was, line))
  }

  predicate Retains(was: seq<Line>, line: Line) {
    exists k :: 0 <= k < |was| && Keeps(was[k], line)
  }

  predicate Keeps(was: Line, line: Line) {
    was.id == line.id && was.part == line.part && was.auxiliary == line.auxiliary && was.received == line.received
  }

  predicate Somewhere(was: seq<Line>, input: Input<Business>, serial: Id, lines: seq<Line>) {
    exists j :: 0 <= j < |lines| && Stores(was, input, serial, lines[j])
  }

  /** One stored line per requested line, in id order. */
  predicate StoresAll(was: seq<Line>, inputs: seq<Input<Business>>, serial: Id, lines: seq<Line>) {
    && |lines| == |inputs| && Numbered(lines)
    && forall i :: 0 <= i < |inputs| ==> Somewhere(was, inputs[i], serial, lines)
  }

  /** The requested new lines stand last, in the order requested, under consecutive ids. */
  predicate Appends(inputs: seq<Input<Business>>, serial: Id, lines: seq<Line>) {
    var added := Added(inputs);
    && |added| <= |lines|
    && forall i :: 0 <= i < |added| ==> Appended(lines, |lines| - |added| + i, serial + i, added[i])
  }

  predicate Appended(lines: seq<Line>, at: nat, id: Id, b: Business) {
    && at < |lines|
    && lines[at] == Line(id, b.product, "", "", b.description, b.quantity, 0.0, b.unit, b.priceCents, b.url)
  }

  lemma {:induction false} PreviewAppends(inputs: seq<Input<Business>>, preview: seq<Row<Hidden, Business>>, serial: Id)
    requires AddsInOrder(inputs, BLANK, preview)
    ensures Appends(inputs, serial, ToLines(Assigned(preview, serial)))
  {
    var stored := ToLines(Assigned(preview, serial));
    var k := Retained(preview);
    forall i | 0 <= i < |Added(inputs)|
      ensures Appended(stored, |stored| - |Added(inputs)| + i, serial + i, Added(inputs)[i])
    {
      assert NewLine(preview, k + i, BLANK, Added(inputs)[i]);
    }
  }

  /** Stored lines of one order: positive ids behind none of which the sequence lags. */
  predicate Owned(lines: seq<Line>, serial: Id) {
    Numbered(lines) && serial > 0 && forall i :: 0 <= i < |lines| ==> 0 < lines[i].id < serial
  }

  ghost function Table(lines: seq<Line>): map<Id, Row<Hidden, Business>> {
    map i | i in (set k | 0 <= k < |lines| :: lines[k].id) && HasId(lines, i) :: ToRow(LineOf(lines, i))
  }

  predicate HasId(lines: seq<Line>, id: Id) {
    exists k :: 0 <= k < |lines| && lines[k].id == id
  }

  ghost function LineOf(lines: seq<Line>, id: Id): (l: Line)
    requires HasId(lines, id)
    ensures l in lines && l.id == id
  {
    var k :| 0 <= k < |lines| && lines[k].id == id;
    lines[k]
  }

  lemma {:induction false} TableReads(lines: seq<Line>, serial: Id)
    requires Owned(lines, serial)
    ensures Reads(Table(lines), ToRows(lines))
    ensures forall id :: id in Table(lines) ==> 0 < id < serial
  {
    forall i | 0 <= i < |lines|
      ensures lines[i].id in Table(lines) && Table(lines)[lines[i].id] == ToRow(lines[i])
    {
      assert HasId(lines, lines[i].id);
      var k :| 0 <= k < |lines| && lines[k] == LineOf(lines, lines[i].id);
      assert k < i ==> lines[k].id < lines[i].id;
      assert i < k ==> lines[i].id < lines[k].id;
    }
    forall id | id in Table(lines)
      ensures Owns(ToRows(lines), id)
    {
      var k :| 0 <= k < |lines| && lines[k].id == id;
      assert ToRows(lines)[k].id == id;
    }
  }

  lemma {:induction false} StoredLine(lines: seq<Line>, input: Input<Business>, preview: seq<Row<Hidden, Business>>,
      serial: Id, j: nat)
    requires Owned(lines, serial) && Executable(Table(lines), serial, preview) && j < |preview|
    requires Merges(ToRows(lines), input, BLANK, preview[j])
    requires (input.lineId != 0 ==> Owns(ToRows(lines), input.lineId))
    ensures Stores(lines, input, serial, ToLines(Assigned(preview, serial))[j])
  {
    AssignedFacts(Table(lines), serial, preview);
    var stored := ToLines(Assigned(preview, serial));
    if input.lineId != 0 {
      var k :| 0 <= k < |lines| && ToRows(lines)[k].id == input.lineId;
      assert ToRow(lines[k]).hidden == Assigned(preview, serial)[j].hidden;
      assert Keeps(lines[k], stored[j]);
    }
  }

  lemma {:induction false} PreviewStores(lines: seq<Line>, inputs: seq<Input<Business>>, preview: seq<Row<Hidden,
      Business>>, serial: Id)
    requires Owned(lines, serial) && Identified(ToRows(lines), inputs)
    requires Executable(Table(lines), serial, preview) && Shows(ToRows(lines), inputs, BLANK, preview)
    ensures StoresAll(lines, inputs, serial, ToLines(Assigned(preview, serial)))
    ensures Workflow.Total(ToLines(Assigned(preview, serial))) == Total(preview, Cents)
    ensures forall i :: 0 <= i < |preview| ==> ToLines(Assigned(preview, serial))[i].id > 0
  {
    var stored := Assigned(preview, serial);
    AssignedAscends(Table(lines), serial, preview);
    TotalOfAssigned(preview, stored, Cents);
    TotalsAgree(stored);
    forall i | 0 <= i < |inputs|
      ensures Somewhere(lines, inputs[i], serial, ToLines(stored))
    {
      assert Shown(ToRows(lines), inputs[i], BLANK, preview);
      var j :| 0 <= j < |preview| && Merges(ToRows(lines), inputs[i], BLANK, preview[j]);
      StoredLine(lines, inputs[i], preview, serial, j);
    }
  }

  lemma {:induction false} EditCommits(db: Db, o: Id, input: Workflow.OrderInput, lines: seq<Line>, now: Time)
    requires Workflow.EditDraft(db, o, input, Some(lines), now).Ok?
    ensures var files := Workflow.EditDraft(db, o, input, Some(lines), now).value.files;
            o in files && files[o].lines == lines && files[o].order.totalCents == Workflow.Total(lines)
    ensures Numbered(lines)
    ensures forall i :: 0 <= i < |lines| ==>
              lines[i].id < Workflow.EditDraft(db, o, input, Some(lines), now).value.serial
  {
  }

  /**
   prepareOrderOwnerDraft and the guided update: merge the request with the stored lines, sort, price, and commit. The
   lines it shows are the ones it stores, the total it shows is the order's, and a request that names a foreign or a
   repeated line commits nothing.
   */
  method EditOrder(db: Db, o: Id, input: Workflow.OrderInput, inputs: seq<Input<Business>>, now: Time)
    returns (lines: seq<Line>, total: int, r: Result<Db>)
    requires o in db.files ==> Owned(db.files[o].lines, db.serial)
    ensures o !in db.files ==> r == Err(NotFound)
    ensures o in db.files && !Identified(ToRows(db.files[o].lines), inputs) ==> r == Err(NotReady)
    ensures o in db.files && Identified(ToRows(db.files[o].lines), inputs) ==>
              && StoresAll(db.files[o].lines, inputs, db.serial, lines) && Appends(inputs, db.serial, lines)
              && total == Workflow.Total(lines)
              && r == Workflow.EditDraft(db, o, input, Some(lines), now)
    ensures r.Ok? ==>
              o in r.value.files && r.value.files[o].lines == lines && r.value.files[o].order.totalCents == total
    ensures r.Ok? ==> Owned(lines, r.value.serial)
  {
    lines, total := [], 0;
    if o !in db.files {
      return lines, total, Err(NotFound);
    }
    var was := db.files[o].lines;
    TableReads(was, db.serial);
    var preview: Option<seq<Row<Hidden, Business>>>;
    preview, total := Preview(ToRows(was), inputs, BLANK, Cents, Table(was), db.serial);
    if preview.None? {
      return lines, total, Err(NotReady);
    }
    lines := ToLines(Assigned(preview.value, db.serial));
    PreviewStores(was, inputs, preview.value, db.serial);
    PreviewAppends(inputs, preview.value, db.serial);
    r := Workflow.EditDraft(db, o, input, Some(lines), now);
    if r.Ok? {
      EditCommits(db, o, input, lines, now);
    }
  }
}
