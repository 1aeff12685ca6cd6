/** ASCII text primitives: trimming, case folding and blankness. */
module Text {

  predicate Space(c: char) {
    c == ' ' || c == '\t' || c == '\n' || c == '\r' || c == '\U{000B}' || c == '\U{000C}'
  }

  /** Index of the first character at or after `i` that is not white space. */
  function Start(s: string, i: nat): (r: nat)
    requires i <= |s|
    ensures i <= r <= |s|
    decreases |s| - i
  {
    if i < |s| && Space(s[i]) then Start(s, i + 1) else i
  }

  /** One past the last character before `j` that is not white space. */
  function End(s: string, i: nat, j: nat): (r: nat)
    requires i <= j <= |s|
    ensures i <= r <= j
    decreases j
  {
    if i < j && Space(s[j - 1]) then End(s, i, j - 1) else j
  }

  /** strings.TrimSpace on ASCII text. */
  function Trim(s: string): string {
    s[Start(s, 0)..End(s, Start(s, 0), |s|)]
  }

  predicate Blank(s: string) {
    Start(s, 0) == |s|
  }

  function UpperChar(c: char): char {
    if 'a' <= c <= 'z' then ((c as int) - 32) as char else c
  }

  function LowerChar(c: char): char {
    if 'A' <= c <= 'Z' then ((c as int) + 32) as char else c
  }

  /** strings.ToUpper on ASCII text. */
  function Upper(s: string): string {
    seq(|s|, i requires 0 <= i < |s| => UpperChar(s[i]))
  }

  /** strings.ToLower on ASCII text. */
  function Lower(s: string): string {
    seq(|s|, i requires 0 <= i < |s| => LowerChar(s[i]))
  }

  /** The form in which supplier article numbers are compared. */
  function Article(s: string): string {
    Upper(Trim(s))
  }

  lemma {:induction false} StartStops(s: string, i: nat)
    requires i <= |s|
    ensures Start(s, i) < |s| ==> !Space(s[Start(s, i)])
    ensures forall k :: i <= k < Start(s, i) ==> Space(s[k])
    decreases |s| - i
  {
    if i < |s| && Space(s[i]) {
      StartStops(s, i + 1);
    }
  }

  lemma {:induction false} EndStops(s: string, i: nat, j: nat)
    requires i <= j <= |s|
    ensures i < End(s, i, j) ==> !Space(s[End(s, i, j) - 1])
    ensures forall k :: End(s, i, j) <= k < j ==> Space(s[k])
    decreases j
  {
    if i < j && Space(s[j - 1]) {
      EndStops(s, i, j - 1);
    }
  }

  /**
   What trimming removes is white space, what it keeps starts and ends with none; so trimming again changes nothing.
   */
  lemma TrimMeaning(s: string)
    ensures Trim(s) != "" ==> !Space(Trim(s)[0]) && !Space(Trim(s)[|Trim(s)| - 1])
    ensures forall k :: 0 <= k < Start(s, 0) || End(s, Start(s, 0), |s|) <= k < |s| ==> Space(s[k])
    ensures Trim(Trim(s)) == Trim(s)
    ensures Blank(s) <==> Trim(s) == ""
  {
    StartStops(s, 0);
    EndStops(s, Start(s, 0), |s|);
    var t := Trim(s);
    if t == "" {
      assert Start(s, 0) == |s|;
    } else {
      assert Start(t, 0) == 0 && End(t, 0, |t|) == |t|;
    }
  }

  /** White space is the blank and the five control characters from tab to carriage return. */
  lemma SpaceMeans(c: char)
    ensures Space(c) <==> c as int == 32 || 9 <= c as int <= 13
  {
  }

  // ---------- case ----------

  const SMALL := "abcdefghijklmnopqrstuvwxyz"
  const CAPITAL := "ABCDEFGHIJKLMNOPQRSTUVWXYZ"

  /** Two spellings of one letter, or the same character. */
  predicate SameLetter(c: char, d: char) {
    c == d || exists i :: 0 <= i < 26 && Spells(i, c) && Spells(i, d)
  }

  predicate Spells(i: nat, c: char)
    requires i < 26
  {
    c == SMALL[i] || c == CAPITAL[i]
  }

  predicate SameIgnoringCase(s: string, t: string) {
    |s| == |t| && forall i :: 0 <= i < |s| ==> SameLetter(s[i], t[i])
  }

  lemma Alphabet(i: nat)
    requires i < 26
    ensures SMALL[i] as int == 'a' as int + i && CAPITAL[i] as int == 'A' as int + i
  {
  }

  lemma SpellsMeans(i: nat, c: char)
    requires i < 26
    ensures Spells(i, c) <==> c as int == 'a' as int + i || c as int == 'A' as int + i
  {
    Alphabet(i);
  }

  /** The number of a letter, or more. */
  function Letter(c: char): nat {
    if 'a' <= c <= 'z' then c as int - 'a' as int else if 'A' <= c <= 'Z' then c as int - 'A' as int else 26
  }

  lemma SameLetterMeans(c: char, d: char)
    ensures SameLetter(c, d) <==> c == d || (Letter(c) == Letter(d) && Letter(c) < 26)
  {
    forall i: nat | i < 26
      ensures Spells(i, c) <==> Letter(c) == i
      ensures Spells(i, d) <==> Letter(d) == i
    {
      SpellsMeans(i, c);
      SpellsMeans(i, d);
    }
    if Letter(c) == Letter(d) < 26 {
      assert Spells(Letter(c), c) && Spells(Letter(c), d);
    }
  }

  lemma LettersMatch(c: char, d: char)
    ensures UpperChar(c) == UpperChar(d) <==> SameLetter(c, d)
    ensures LowerChar(c) == LowerChar(d) <==> SameLetter(c, d)
  {
    SameLetterMeans(c, d);
  }

  /** Raising and lowering the case both identify exactly the texts that differ in the case of letters only. */
  lemma CaseFolds(s: string, t: string)
    ensures Upper(s) == Upper(t) <==> SameIgnoringCase(s, t)
    ensures Lower(s) == Lower(t) <==> SameIgnoringCase(s, t)
  {
    forall i | 0 <= i < |s| && i < |t|
      ensures Upper(s)[i] == Upper(t)[i] <==> SameLetter(s[i], t[i])
      ensures Lower(s)[i] == Lower(t)[i] <==> SameLetter(s[i], t[i])
    {
      LettersMatch(s[i], t[i]);
    }
    assert |Upper(s)| == |s| && |Upper(t)| == |t| && |Lower(s)| == |s| && |Lower(t)| == |t|;
  }

  /** Article numbers are the same exactly if they differ in case and in blanks around them only. */
  lemma ArticlesMatch(s: string, t: string)
    ensures Article(s) == Article(t) <==> SameIgnoringCase(Trim(s), Trim(t))
  {
    CaseFolds(Trim(s), Trim(t));
  }
}
