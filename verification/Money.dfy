/** Decimal amounts in cXML documents: printing and parsing cents, and the running total of an order document. */
module Money {
  import opened Base
  import opened Schema
  import Submission
  import Text

  const MAX_WHOLE: int := 1_000_000_000

  // ---------- digits ----------

  predicate Digit(c: char) {
    '0' <= c <= '9'
  }

  predicate AllDigits(s: string) {
    forall i :: 0 <= i < |s| ==> Digit(s[i])
  }

  function DigitOf(n: int): char
    requires 0 <= n <= 9
  {
    (n + '0' as int) as char
  }

  /** strconv.ParseInt of a digit string. */
  function Nat(s: string): (n: int)
    requires AllDigits(s)
    ensures n >= 0
  {
    if s == "" then 0 else Nat(s[..|s| - 1]) * 10 + (s[|s| - 1] as int - '0' as int)
  }

  /** %d of a non-negative number. */
  function Digits(n: nat): string {
    if n < 10 then [DigitOf(n)] else Digits(n / 10) + [DigitOf(n % 10)]
  }

  lemma {:induction false} NatOfDigits(n: nat)
    ensures Digits(n) != "" && AllDigits(Digits(n)) && Nat(Digits(n)) == n
    ensures |Digits(n)| > 1 ==> Digits(n)[0] != '0'
  {
    if n >= 10 {
      NatOfDigits(n / 10);
      assert Digits(n)[..|Digits(n)| - 1] == Digits(n / 10);
      if n / 10 < 10 {
        assert Digits(n)[0] == DigitOf(n / 10);
      }
    } else {
      assert Digits(n)[..0] == "";
    }
  }

  // ---------- printing ----------

  /** Go's quotient truncates toward zero. */
  function Quotient(n: int): int {
    if n >= 0 then n / 100 else -((-n) / 100)
  }

  function Remainder(n: int): int {
    n - 100 * Quotient(n)
  }

  function Signed(n: int): string {
    if n >= 0 then Digits(n) else "-" + Digits(-n)
  }

  /** %02d. */
  function Padded(n: int): string {
    if 0 <= n < 10 then "0" + Digits(n) else Signed(n)
  }

  /** centsString. */
  function Print(cents: int): string {
    Signed(Quotient(cents)) + "." + Padded(Remainder(cents))
  }

  // ---------- parsing ----------

  /** Index of the first decimal point, or the length. */
  function Dot(s: string, i: nat): (r: nat)
    requires i <= |s|
    ensures i <= r <= |s|
    ensures r < |s| ==> s[r] == '.'
    ensures forall k :: i <= k < r ==> s[k] != '.'
    decreases |s| - i
  {
    if i == |s| || s[i] == '.' then i else Dot(s, i + 1)
  }

  /** ^\d+(?:\.\d{1,2})?$ */
  predicate Decimal(s: string) {
    var p := Dot(s, 0);
    && p >= 1 && AllDigits(s[..p])
    && (p < |s| ==> 1 <= |s| - p - 1 <= 2 && AllDigits(s[p + 1..]))
  }

  /** The two decimals, filled up with zeros. */
  function Fraction(s: string): (f: string)
    requires Decimal(s)
    ensures |f| == 2 && AllDigits(f)
  {
    var p := Dot(s, 0);
    if p == |s| then "00" else (s[p + 1..] + "00")[..2]
  }

  /** parseCents. */
  function Parse(raw: string): Option<int> {
    var s := Text.Trim(raw);
    if !Decimal(s) then None
    else
      var whole := Nat(s[..Dot(s, 0)]);
      if whole > MAX_WHOLE then None else Some(whole * 100 + Nat(Fraction(s)))
  }

  // ---------- round trips ----------

  lemma TwoDigits(s: string)
    requires |s| == 2 && AllDigits(s)
    ensures 0 <= Nat(s) < 100
    ensures Nat(s) == (s[0] as int - '0' as int) * 10 + (s[1] as int - '0' as int)
  {
    assert s[..1][..0] == "" && s[..1][0] == s[0];
    assert Nat(s[..1]) == Nat(s[..1][..0]) * 10 + (s[0] as int - '0' as int);
  }

  /** Both decimals are always printed. */
  lemma PaddedFraction(n: int)
    requires 0 <= n < 100
    ensures |Padded(n)| == 2 && AllDigits(Padded(n)) && Nat(Padded(n)) == n
  {
    NatOfDigits(n);
    if n < 10 {
      assert Padded(n) == ['0', DigitOf(n)];
    } else {
      assert Digits(n) == [DigitOf(n / 10)] + [DigitOf(n % 10)];
    }
    TwoDigits(Padded(n));
  }

  /** Text that neither starts nor ends with white space is its own trimmed form. */
  lemma TrimNothing(s: string)
    requires s != "" && !Text.Space(s[0]) && !Text.Space(s[|s| - 1])
    ensures Text.Trim(s) == s
  {
    assert Text.Start(s, 0) == 0;
    assert Text.End(s, 0, |s|) == |s|;
  }

  lemma {:induction false} DotAfterDigits(s: string, i: nat, p: nat)
    requires i <= p < |s| && s[p] == '.' && forall k :: i <= k < p ==> s[k] != '.'
    ensures Dot(s, i) == p
    decreases p - i
  {
    if i < p {
      DotAfterDigits(s, i + 1, p);
    }
  }

  lemma PrintedParts(cents: nat)
    ensures Print(cents) == Digits(cents / 100) + "." + Padded(cents % 100)
    ensures Digits(cents / 100) != "" && AllDigits(Digits(cents / 100)) && Nat(Digits(cents / 100)) == cents / 100
    ensures |Padded(cents % 100)| == 2 && AllDigits(Padded(cents % 100)) && Nat(Padded(cents % 100)) == cents % 100
  {
    assert Remainder(cents) == cents % 100;
    NatOfDigits(cents / 100);
    PaddedFraction(cents % 100);
  }

  /** Whole part, point and two decimals are found again. */
  lemma PartsFound(whole: string, decimals: string)
    requires whole != "" && AllDigits(whole) && |decimals| == 2 && AllDigits(decimals)
    ensures var s := whole + "." + decimals;
            Text.Trim(s) == s && Dot(s, 0) == |whole| && s[..|whole|] == whole && Decimal(s) && Fraction(s) == decimals
  {
    var s := whole + "." + decimals;
    assert s[|whole|] == '.' && s[..|whole|] == whole && s[|whole| + 1..] == decimals;
    DotAfterDigits(s, 0, |whole|);
    assert Digit(s[0]) && s[|s| - 1] == decimals[1];
    TrimNothing(s);
    assert (decimals + "00")[..2] == decimals;
  }

  /** A negative amount is printed with a sign, which no amount may contain. */
  lemma NegativeRejected(cents: int)
    requires cents < 0
    ensures Parse(Print(cents)).None?
  {
    var s := Print(cents);
    var t := Text.Trim(s);
    assert '-' in s by {
      if Quotient(cents) < 0 {
        assert s[0] == '-';
      } else {
        assert Remainder(cents) < 0;
        assert s[|Signed(Quotient(cents))| + 1] == '-';
      }
    }
    TrimKeeps(s, '-');
    if Decimal(t) {
      DecimalCharacters(t);
      assert false;
    }
  }

  lemma DecimalCharacters(s: string)
    requires Decimal(s)
    ensures forall c :: c in s ==> Digit(c) || c == '.'
  {
    var p := Dot(s, 0);
    forall k | 0 <= k < |s|
      ensures Digit(s[k]) || s[k] == '.'
    {
      if k < p {
        assert s[..p][k] == s[k];
      } else if k > p {
        assert s[p + 1..][k - p - 1] == s[k];
      }
    }
  }

  /** Trimming removes white space only. */
  lemma TrimKeeps(s: string, c: char)
    requires c in s && !Text.Space(c)
    ensures c in Text.Trim(s)
  {
    Text.TrimMeaning(s);
    var i :| 0 <= i < |s| && s[i] == c;
    var a := Text.Start(s, 0);
    assert Text.Trim(s)[i - a] == c;
  }

  /** Printing and parsing is the identity exactly on the amounts the parser admits. */
  lemma ParsePrint(cents: int)
    ensures Parse(Print(cents)) == Some(cents) <==> 0 <= cents <= MAX_WHOLE * 100 + 99
  {
    if cents < 0 {
      NegativeRejected(cents);
    } else {
      PrintedParts(cents);
      PartsFound(Digits(cents / 100), Padded(cents % 100));
    }
  }

  /** The printed form is canonical: no leading zero before another digit, always two decimals. */
  lemma PrintIsCanonical(cents: nat)
    ensures var s := Print(cents);
            && Decimal(s) && |s| == Dot(s, 0) + 3
            && (Dot(s, 0) > 1 ==> s[0] != '0')
  {
    PrintedParts(cents);
    PartsFound(Digits(cents / 100), Padded(cents % 100));
    NatOfDigits(cents / 100);
  }

  /** An accepted text has a canonical form of the same value, which parses back to it and prints to itself. */
  lemma PrintParse(raw: string)
    requires Parse(raw).Some?
    ensures 0 <= Parse(raw).value <= MAX_WHOLE * 100 + 99
    ensures Parse(Print(Parse(raw).value)) == Parse(raw)
    ensures forall other :: Parse(other) == Parse(raw) ==> Print(Parse(other).value) == Print(Parse(raw).value)
  {
    var s := Text.Trim(raw);
    TwoDigits(Fraction(s));
    ParsePrint(Parse(raw).value);
  }

  /** The value of an accepted text, read digit by digit: whole part, tenths and hundredths. */
  lemma ParsedValue(raw: string)
    requires Parse(raw).Some?
    ensures var s := Text.Trim(raw);
            var p := Dot(s, 0);
            Parse(raw).value == Nat(s[..p]) * 100
                              + (if p + 1 < |s| then (s[p + 1] as int - '0' as int) * 10 else 0)
                              + (if p + 2 < |s| then s[p + 2] as int - '0' as int else 0)
  {
    var s := Text.Trim(raw);
    var p := Dot(s, 0);
    var f := Fraction(s);
    TwoDigits(f);
    if p < |s| {
      assert f[0] == s[p + 1];
      assert f[1] == if p + 2 < |s| then s[p + 2] else '0';
    }
  }

  // ---------- the order document ----------

  datatype DocumentLine = DocumentLine(number: int, part: string, auxiliary: string, description: string, quantity: int,
      unit: string, amount: string)

  predicate Sendable(line: PayloadLine) {
    && 1 <= line.quantity <= 999 && line.part != "" && line.auxiliary != ""
    && 0 <= line.priceCents <= MAX_WHOLE
  }

  /** The document line of a payload line, numbered from 1. */
  function ToDocumentLine(line: PayloadLine, index: nat): DocumentLine {
    DocumentLine(index + 1, line.part, line.auxiliary, line.description, line.quantity, line.unit,
                 Print(line.priceCents))
  }

  datatype Document = Document(lines: seq<DocumentLine>, total: string)

  /** The document lines of all payload lines. */
  function ToDocumentLines(lines: seq<PayloadLine>): (r: seq<DocumentLine>)
    ensures |r| == |lines|
  {
    if lines == []
    then [] else ToDocumentLines(lines[..|lines| - 1]) + [ToDocumentLine(lines[|lines| - 1], |lines| - 1)]
  }

  predicate AllSendable(lines: seq<PayloadLine>) {
    forall i :: 0 <= i < |lines| ==> Sendable(lines[i])
  }

  /** The line loop of Submit: document lines and running total; one unusable line refuses the whole order. */
  method WriteDocument(lines: seq<PayloadLine>) returns (r: Option<Document>)
    ensures r.Some? <==> 1 <= |lines| <= 50 && AllSendable(lines)
    ensures r.Some? ==> r.value == Document(ToDocumentLines(lines), Print(Submission.PayloadTotal(lines)))
  {
    if |lines| == 0 || |lines| > 50 {
      return None;
    }
    var items: seq<DocumentLine> := [];
    var total := 0;
    for index := 0 to |lines|
      invariant AllSendable(lines[..index])
      invariant items == ToDocumentLines(lines[..index])
      invariant total == Submission.PayloadTotal(lines[..index])
    {
      var line := lines[index];
      if || line.quantity < 1
         || line.quantity > 999 || |line.part| == 0 || |line.auxiliary| == 0 || line.priceCents < 0
         || line.priceCents > MAX_WHOLE
      {
        assert !Sendable(lines[index]);
        return None;
      }
      assert lines[..index + 1][..index] == lines[..index];
      total := total + line.quantity * line.priceCents;
      items := items + [ToDocumentLine(line, index)];
    }
    assert lines[..|lines|] == lines;
    return Some(Document(items, Print(total)));
  }

  lemma {:induction false} DocumentLineAt(lines: seq<PayloadLine>, i: nat)
    requires i < |lines|
    ensures ToDocumentLines(lines)[i] == ToDocumentLine(lines[i], i)
  {
    if i < |lines| - 1 {
      DocumentLineAt(lines[..|lines| - 1], i);
    }
  }

  /** Every document line names the goods of its payload line, and its amount is read back as the unit price. */
  lemma AmountsReadBack(lines: seq<PayloadLine>, i: nat)
    requires AllSendable(lines) && i < |lines|
    ensures var d := ToDocumentLines(lines)[i];
            && d.number == i + 1 && d.part == lines[i].part && d.auxiliary == lines[i].auxiliary
            && d.description == lines[i].description && d.quantity == lines[i].quantity && d.unit == lines[i].unit
            && Parse(d.amount) == Some(lines[i].priceCents)
  {
    DocumentLineAt(lines, i);
    assert Sendable(lines[i]);
    ParsePrint(lines[i].priceCents);
  }

  /** What the readiness check of an Amazon order admits, the document can carry. */
  lemma ReadyIsSendable(l: Line)
    requires Submission.AmazonLine(l)
    ensures Sendable(Submission.ToPayloadLine(l))
  {
    Text.TrimMeaning(l.part);
    Text.TrimMeaning(l.auxiliary);
  }
}
