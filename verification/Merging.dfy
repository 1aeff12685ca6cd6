/**
 What a confirmation message stores, read off its own lines: sums per order line and Amazon order, and the latest date.
 */
module Merging {
  import opened Base
  import opened Schema
  import opened Confirmations
  import Evolution
  import Triggers

  // ---------- the lines of one place ----------

  predicate At(line: MessageLine, number: int, amazonNumber: string) {
    line.number == number && line.amazonNumber == amazonNumber
  }

  /** What the lines of one order line and Amazon order accept together. */
  function AcceptedBy(lines: seq<MessageLine>, number: int, amazonNumber: string): real {
    if lines == [] then 0.0
    else
      var last := lines[|lines| - 1];
      AcceptedBy(lines[..|lines| - 1], number, amazonNumber)
        + (if At(last, number, amazonNumber) then last.accepted else 0.0)
  }

  /** And what they reject. */
  function RejectedBy(lines: seq<MessageLine>, number: int, amazonNumber: string): real {
    if lines == [] then 0.0
    else
      var last := lines[|lines| - 1];
      RejectedBy(lines[..|lines| - 1], number, amazonNumber)
        + (if At(last, number, amazonNumber) then last.rejected else 0.0)
  }

  predicate Mentioned(lines: seq<MessageLine>, number: int, amazonNumber: string) {
    exists i :: 0 <= i < |lines| && At(lines[i], number, amazonNumber)
  }

  predicate Dated(lines: seq<MessageLine>, number: int, amazonNumber: string, delivery: Time) {
    exists i :: 0 <= i < |lines| && At(lines[i], number, amazonNumber) && lines[i].delivery == Some(delivery)
  }

  /** The latest delivery any of these lines names, if one does. */
  predicate Latest(lines: seq<MessageLine>, number: int, amazonNumber: string, delivery: Option<Time>) {
    && (delivery.Some? ==> Dated(lines, number, amazonNumber, delivery.value))
    && forall i :: 0 <= i < |lines| && At(lines[i], number, amazonNumber) && lines[i].delivery.Some? ==>
         delivery.Some? && lines[i].delivery.value <= delivery.value
  }

  /** A part holds the sums and the latest date of its lines. */
  predicate SumsUp(lines: seq<MessageLine>, number: int, amazonNumber: string, part: Part) {
    && part.accepted == AcceptedBy(lines, number, amazonNumber)
    && part.rejected == RejectedBy(lines, number, amazonNumber)
    && Latest(lines, number, amazonNumber, part.delivery)
  }

  lemma MentionedStep(lines: seq<MessageLine>, number: int, amazonNumber: string)
    requires lines != []
    ensures var n := |lines| - 1;
            Mentioned(lines, number, amazonNumber) <==>
              Mentioned(lines[..n], number, amazonNumber) || At(lines[n], number, amazonNumber)
  {
    var n := |lines| - 1;
    if Mentioned(lines, number, amazonNumber) {
      var i :| 0 <= i < |lines| && At(lines[i], number, amazonNumber);
      assert i < n ==> lines[..n][i] == lines[i];
    }
    if Mentioned(lines[..n], number, amazonNumber) {
      var i :| 0 <= i < n && At(lines[..n][i], number, amazonNumber);
      assert lines[i] == lines[..n][i];
    }
  }

  lemma LatestStep(lines: seq<MessageLine>, number: int, amazonNumber: string, before: Option<Time>)
    requires lines != [] && Latest(lines[..|lines| - 1], number, amazonNumber, before)
    ensures var last := lines[|lines| - 1];
            var after := if !At(last, number, amazonNumber) || last.delivery.None? then before
                         else if before.None? || last.delivery.value > before.value then last.delivery else before;
            Latest(lines, number, amazonNumber, after)
  {
    var n := |lines| - 1;
    if before.Some? {
      var i :| 0 <= i < n && At(lines[..n][i], number, amazonNumber) && lines[..n][i].delivery == before;
      assert lines[i] == lines[..n][i];
    }
    forall i | 0 <= i < n
      ensures lines[i] == lines[..n][i]
    {
    }
  }

  lemma UnmentionedSums(lines: seq<MessageLine>, number: int, amazonNumber: string)
    requires !Mentioned(lines, number, amazonNumber)
    ensures AcceptedBy(lines, number, amazonNumber) == 0.0 && RejectedBy(lines, number, amazonNumber) == 0.0
    ensures Latest(lines, number, amazonNumber, None)
  {
    if lines != [] {
      MentionedStep(lines, number, amazonNumber);
      UnmentionedSums(lines[..|lines| - 1], number, amazonNumber);
    }
  }

  /** The combined part of a place is there exactly if some line is, and sums up exactly these lines. */
  lemma {:induction false} CombineSums(lines: seq<MessageLine>, number: int, amazonNumber: string)
    ensures PartKey(number, amazonNumber) in Combine(lines) <==> Mentioned(lines, number, amazonNumber)
    ensures PartKey(number, amazonNumber) in Combine(lines) ==>
              SumsUp(lines, number, amazonNumber, Combine(lines)[PartKey(number, amazonNumber)])
  {
    if lines != [] {
      var n := |lines| - 1;
      CombineSums(lines[..n], number, amazonNumber);
      MentionedStep(lines, number, amazonNumber);
      if Mentioned(lines[..n], number, amazonNumber) {
        LatestStep(lines, number, amazonNumber, Combine(lines[..n])[PartKey(number, amazonNumber)].delivery);
      } else {
        UnmentionedSums(lines[..n], number, amazonNumber);
        LatestStep(lines, number, amazonNumber, None);
      }
    }
  }

  // ---------- the stored row ----------

  /** The row of before was stored by a message with a later notice date. */
  predicate Outdated(was: Option<ConfirmationRow>, m: Message) {
    was.Some? && was.value.notice.Some? && m.notice.Some? && m.notice.value < was.value.notice.value
  }

  /** An update that only rejects, and less than was accepted, cancels that much of the accepted quantity. */
  predicate Cancels(was: Option<ConfirmationRow>, m: Message, accepted: real, rejected: real) {
    was.Some? && m.operation == UpdateMessage && accepted == 0.0 && 0.0 < rejected < was.value.accepted
  }

  /** What the message leaves in the row of order line `j` (from 0) and an Amazon order. */
  predicate RowSays(was: Option<ConfirmationRow>, m: Message, j: nat, amazonNumber: string, row: ConfirmationRow) {
    var accepted := AcceptedBy(m.lines, j + 1, amazonNumber);
    var rejected := RejectedBy(m.lines, j + 1, amazonNumber);
    if Outdated(was, m) then row == was.value
    else
      && row.notice == m.notice
      && (if Cancels(was, m, accepted, rejected)
          then row.accepted == was.value.accepted - rejected && row.rejected == was.value.rejected + rejected
          else row.accepted == accepted && row.rejected == rejected)
      && (Latest(m.lines, j + 1, amazonNumber, row.delivery)
          || (Latest(m.lines, j + 1, amazonNumber, None) && was.Some? && row.delivery == was.value.delivery))
  }

  /** Row by row: named places are rewritten as the message says, all others stay. */
  ghost predicate RowsSay(f: OrderFile, m: Message, rows: map<ConfirmationKey, ConfirmationRow>) {
    forall j: nat, amazonNumber: string :: j < |f.lines| ==> PlaceSays(f, m, rows, j, amazonNumber)
  }

  predicate PlaceSays(f: OrderFile, m: Message, rows: map<ConfirmationKey, ConfirmationRow>, j: nat,
      amazonNumber: string)
    requires j < |f.lines|
  {
    var key := ConfirmationKey(f.lines[j].id, amazonNumber);
    if Mentioned(m.lines, j + 1, amazonNumber)
    then key in rows && RowSays(Stored(f.confirmations, key), m, j, amazonNumber, rows[key])
    else Stored(rows, key) == Stored(f.confirmations, key)
  }

  lemma MergedRowSays(was: Option<ConfirmationRow>, m: Message, j: nat, amazonNumber: string, part: Part)
    requires SumsUp(m.lines, j + 1, amazonNumber, part)
    ensures RowSays(was, m, j, amazonNumber, MergedRow(was, part, m.operation, m.notice))
  {
  }

  lemma MergedPlace(f: OrderFile, m: Message, j: nat, amazonNumber: string)
    requires Numbered(f.lines) && j < |f.lines| && PartsFit(Combine(m.lines), f.lines)
    ensures PlaceSays(f, m, MergeRows(f.confirmations, Combine(m.lines), f.lines, m), j, amazonNumber)
  {
    var key := ConfirmationKey(f.lines[j].id, amazonNumber);
    var p := PartKey(j + 1, amazonNumber);
    CombineSums(m.lines, j + 1, amazonNumber);
    PositionAt(f.lines, j);
    assert SourceOf(f.lines, key) == p;
    if p in Combine(m.lines) {
      MergeAt(f.confirmations, Combine(m.lines), f.lines, m, p);
      MergedRowSays(Stored(f.confirmations, key), m, j, amazonNumber, Combine(m.lines)[p]);
    }
  }

  /** A message with items that fits the order leaves, in every row, exactly what its lines say of that place. */
  lemma ItemsAreStored(f: OrderFile, m: Message)
    requires Numbered(f.lines) && Itemized(m) && NextRows(f, m).Ok?
    ensures RowsSay(f, m, NextRows(f, m).value)
    ensures forall i :: 0 <= i < |m.lines| ==> 1 <= m.lines[i].number <= |f.lines|
  {
    forall j: nat, amazonNumber: string | j < |f.lines|
      ensures PlaceSays(f, m, NextRows(f, m).value, j, amazonNumber)
    {
      MergedPlace(f, m, j, amazonNumber);
    }
    forall i | 0 <= i < |m.lines|
      ensures 1 <= m.lines[i].number <= |f.lines|
    {
      CombineSums(m.lines, m.lines[i].number, m.lines[i].amazonNumber);
      assert Mentioned(m.lines, m.lines[i].number, m.lines[i].amazonNumber);
      assert PartKey(m.lines[i].number, m.lines[i].amazonNumber) in Combine(m.lines);
    }
  }

  /** A message with items is refused exactly if one of its lines names no line of the order. */
  lemma ItemsFitIff(f: OrderFile, m: Message)
    requires Itemized(m)
    ensures NextRows(f, m).Ok? <==> forall i :: 0 <= i < |m.lines| ==> 1 <= m.lines[i].number <= |f.lines|
  {
    forall p | p in Combine(m.lines)
      ensures Mentioned(m.lines, p.number, p.amazonNumber)
    {
      CombineSums(m.lines, p.number, p.amazonNumber);
    }
    if forall i :: 0 <= i < |m.lines| ==> 1 <= m.lines[i].number <= |f.lines| {
      forall p | p in Combine(m.lines)
        ensures 1 <= p.number <= |f.lines|
      {
        var i :| 0 <= i < |m.lines| && At(m.lines[i], p.number, p.amazonNumber);
      }
    } else {
      var i :| 0 <= i < |m.lines| && !(1 <= m.lines[i].number <= |f.lines|);
      CombineSums(m.lines, m.lines[i].number, m.lines[i].amazonNumber);
      assert Mentioned(m.lines, m.lines[i].number, m.lines[i].amazonNumber);
      assert PartKey(m.lines[i].number, m.lines[i].amazonNumber) in Combine(m.lines);
    }
  }

  // ---------- the whole order ----------

  /** One row per line, all accepted or all rejected, under the message's own Amazon order; nothing else remains. */
  predicate WholeOrderSays(f: OrderFile, m: Message, rows: map<ConfirmationKey, ConfirmationRow>) {
    && (forall j :: 0 <= j < |f.lines| ==> LineSays(f.lines[j], m, rows))
    && (forall key :: key in rows ==> key.amazonNumber == m.amazonId && Triggers.HasLineId(f.lines, key.line))
  }

  predicate LineSays(line: Line, m: Message, rows: map<ConfirmationKey, ConfirmationRow>) {
    var key := ConfirmationKey(line.id, m.amazonId);
    && key in rows && rows[key].notice == m.notice && rows[key].delivery.None?
    && (m.kind == AcceptAll ==> rows[key].accepted == line.quantity && rows[key].rejected == 0.0)
    && (m.kind == RejectAll ==> rows[key].rejected == line.quantity && rows[key].accepted == 0.0)
  }

  lemma WholeOrderIsStored(f: OrderFile, m: Message)
    requires Numbered(f.lines) && !Itemized(m)
    ensures NextRows(f, m).Ok? && WholeOrderSays(f, m, NextRows(f, m).value)
  {
    var rows := NextRows(f, m).value;
    forall j | 0 <= j < |f.lines|
      ensures LineSays(f.lines[j], m, rows)
    {
      PositionAt(f.lines, j);
    }
    forall key | key in rows
      ensures key.amazonNumber == m.amazonId && Triggers.HasLineId(f.lines, key.line)
    {
      assert f.lines[Position(f.lines, key.line)].id == key.line;
    }
  }

  // ---------- the transaction ----------

  /** The rows a message leaves, whichever kind it is. */
  ghost predicate MessageSays(f: OrderFile, m: Message, rows: map<ConfirmationKey, ConfirmationRow>) {
    if Itemized(m) then RowsSay(f, m, rows) else WholeOrderSays(f, m, rows)
  }

  /** An Amazon order that accepted something of some line. */
  predicate Accepts(f: OrderFile, amazonNumber: string) {
    amazonNumber != "" && exists j :: 0 <= j < |f.lines| && AcceptsLine(f, f.lines[j], amazonNumber)
  }

  predicate AcceptsLine(f: OrderFile, line: Line, amazonNumber: string) {
    var key := ConfirmationKey(line.id, amazonNumber);
    key in f.confirmations && f.confirmations[key].accepted > 0.0
  }

  lemma NumbersAreAccepting(f: OrderFile, number: string)
    ensures number in AcceptedNumbers(f.confirmations, f.lines) <==> Accepts(f, number)
  {
    if number in AcceptedNumbers(f.confirmations, f.lines) {
      var k :| k in f.confirmations && f.confirmations[k].accepted > 0.0 && k.amazonNumber == number != ""
               && Position(f.lines, k.line) < |f.lines|;
      assert AcceptsLine(f, f.lines[Position(f.lines, k.line)], number);
    }
    if Accepts(f, number) {
      var j :| 0 <= j < |f.lines| && AcceptsLine(f, f.lines[j], number);
      Found(f.lines, j);
      assert ConfirmationKey(f.lines[j].id, number) in f.confirmations;
    }
  }

  lemma Found(lines: seq<Line>, j: nat)
    requires j < |lines|
    ensures Position(lines, lines[j].id) < |lines|
  {
    var p := PositionFrom(lines, lines[j].id, 0);
    assert p <= j;
  }

  /** The order row of a confirmed order names exactly the accepting Amazon orders, and keeps them when none accepts. */
  predicate NamesAccepting(f: OrderFile, g: OrderFile, text: string) {
    var accepting := AcceptedNumbers(g.confirmations, g.lines);
    if accepting != {} then g.order.amazonNumbers == accepting && g.order.supplierNumber == text
    else if g.order.status == Cancelled
    then g.order.amazonNumbers == f.order.amazonNumbers && g.order.supplierNumber == f.order.supplierNumber
    else g.order.amazonNumbers == {} && g.order.supplierNumber == ""
  }

  lemma CommitSays(db: Db, o: Id, m: Message, rows: map<ConfirmationKey, ConfirmationRow>, status: OrderStatus,
      text: string, now: Time)
    requires o in db.files && Commit(db, o, m, rows, status, text, now).Ok?
    ensures var files := Commit(db, o, m, rows, status, text, now).value.files;
            && o in files && files[o].lines == db.files[o].lines && files[o].confirmations == rows
            && files[o].order.status == status && NamesAccepting(db.files[o], files[o], text)
  {
  }

  /**
   What an applied confirmation stores, in terms of the message's own lines: per order line and Amazon order the sum of
   what they accept and reject and the latest delivery, and for the order row the Amazon orders that accept something.
   */
  lemma AppliedSays(db: Db, o: Id, m: Message, text: string, now: Time)
    requires Apply(db, o, m, text, now).Ok? && m.payloadId !in db.events
    requires o in db.files && Numbered(db.files[o].lines)
    ensures var files := Apply(db, o, m, text, now).value.files;
            && o in files && files[o].lines == db.files[o].lines
            && MessageSays(db.files[o], m, files[o].confirmations)
            && NamesAccepting(db.files[o], files[o], text)
    ensures var g := Apply(db, o, m, text, now).value.files[o];
            forall number: string :: number in AcceptedNumbers(g.confirmations, g.lines) <==> Accepts(g, number)
  {
    Evolution.AppliedAs(db, o, m, text, now);
    var f := db.files[o];
    var rows := NextRows(f, m).value;
    CommitSays(db, o, m, rows, StatusAfter(f.order, rows, f.lines), text, now);
    if Itemized(m) {
      ItemsAreStored(f, m);
    } else {
      WholeOrderIsStored(f, m);
    }
    forall number: string
      ensures var g := Apply(db, o, m, text, now).value.files[o];
              number in AcceptedNumbers(g.confirmations, g.lines) <==> Accepts(g, number)
    {
      NumbersAreAccepting(Apply(db, o, m, text, now).value.files[o], number);
    }
  }

  // ---------- from the lines to the status ----------

  /** All lines of the message belong to one Amazon order. */
  predicate OneAmazonOrder(m: Message, amazonNumber: string) {
    forall i :: 0 <= i < |m.lines| ==> m.lines[i].amazonNumber == amazonNumber
  }

  lemma FirstRows(f: OrderFile, m: Message, amazonNumber: string, j: nat)
    requires Numbered(f.lines) && m.lines != [] && NextRows(f, m).Ok? && OneAmazonOrder(m, amazonNumber)
    requires f.confirmations == map[] && j < |f.lines|
    ensures Confirmations.Accepted(NextRows(f, m).value, f.lines[j].id) == AcceptedBy(m.lines, j + 1, amazonNumber)
    ensures Confirmations.Rejected(NextRows(f, m).value, f.lines[j].id) == RejectedBy(m.lines, j + 1, amazonNumber)
  {
    var rows := NextRows(f, m).value;
    var key := ConfirmationKey(f.lines[j].id, amazonNumber);
    ItemsAreStored(f, m);
    assert PlaceSays(f, m, rows, j, amazonNumber);
    forall k | k in LineKeys(rows, f.lines[j].id)
      ensures k == key
    {
      assert PlaceSays(f, m, rows, j, k.amazonNumber);
    }
    if Mentioned(m.lines, j + 1, amazonNumber) {
      assert LineKeys(rows, f.lines[j].id) == {key};
      SumCellsSplit(rows, {key}, key, AcceptedColumn);
      SumCellsSplit(rows, {key}, key, RejectedColumn);
      assert {key} - {key} == {};
    } else {
      UnmentionedSums(m.lines, j + 1, amazonNumber);
      assert LineKeys(rows, f.lines[j].id) == {};
    }
  }

  /** The lines accept, per order line, the ordered quantity and reject nothing. */
  predicate AcceptsAll(f: OrderFile, m: Message, amazonNumber: string) {
    forall j :: 0 <= j < |f.lines| ==> AcceptsExactly(m, j, amazonNumber, f.lines[j].quantity, 0.0)
  }

  predicate RejectsAll(f: OrderFile, m: Message, amazonNumber: string) {
    forall j :: 0 <= j < |f.lines| ==> AcceptsExactly(m, j, amazonNumber, 0.0, f.lines[j].quantity)
  }

  predicate AcceptsExactly(m: Message, j: nat, amazonNumber: string, accepted: real, rejected: real) {
    AcceptedBy(m.lines, j + 1, amazonNumber) == accepted && RejectedBy(m.lines, j + 1, amazonNumber) == rejected
  }

  lemma FirstRowsOfAll(f: OrderFile, m: Message, amazonNumber: string)
    requires Numbered(f.lines) && m.lines != [] && NextRows(f, m).Ok? && OneAmazonOrder(m, amazonNumber)
    requires f.confirmations == map[]
    ensures AcceptsAll(f, m, amazonNumber) ==> AllAccepted(NextRows(f, m).value, f.lines)
    ensures RejectsAll(f, m, amazonNumber) ==> AllRejected(NextRows(f, m).value, f.lines)
  {
    var rows := NextRows(f, m).value;
    forall j | 0 <= j < |f.lines|
      ensures AcceptsExactly(m, j, amazonNumber, Confirmations.Accepted(rows, f.lines[j].id),
                             Confirmations.Rejected(rows, f.lines[j].id))
    {
      FirstRows(f, m, amazonNumber, j);
    }
  }

  /**
   A first message whose lines, however they are split, accept every ordered quantity confirms the order, and one whose
   lines reject every ordered quantity cancels it.
   */
  lemma SplitItemsDecide(f: OrderFile, m: Message, amazonNumber: string)
    requires Numbered(f.lines) && m.lines != [] && NextRows(f, m).Ok? && OneAmazonOrder(m, amazonNumber)
    requires f.confirmations == map[] && !Near(0.0, RequestedTotal(f.lines))
    ensures var status := StatusAfter(f.order, NextRows(f, m).value, f.lines);
            && (AcceptsAll(f, m, amazonNumber) ==> status == OrderStatus.Confirmed)
            && (RejectsAll(f, m, amazonNumber) ==> status == Cancelled)
  {
    FirstRowsOfAll(f, m, amazonNumber);
    if AcceptsAll(f, m, amazonNumber) {
      FullyAcceptedConfirms(f.order, NextRows(f, m).value, f.lines, EPSILON);
    }
    if RejectsAll(f, m, amazonNumber) {
      FullyRejectedCancels(f.order, NextRows(f, m).value, f.lines, EPSILON);
    }
  }
}
