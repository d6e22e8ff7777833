/** Item identifiers of the gallery.

    Each image gets the id `"{page}-{index}"`: the page number and the index
    within the page, written in decimal and joined by a dash. This module
    renders natural numbers in decimal the way a JavaScript template literal
    does for a non-negative integer below 10^21 (from there on JavaScript
    switches to exponent notation, which is not modelled), builds the id,
    parses it back, and proves that two different (page, index) pairs never
    share an id.
 */
module ItemIds {

  datatype Option<T> = None | Some(value: T)

  predicate IsDigit(c: char) {
    '0' <= c <= '9'
  }

  predicate AllDigits(s: string) {
    forall i :: 0 <= i < |s| ==> IsDigit(s[i])
  }

  /** The numeric value of a decimal digit character. */
  function DigitValue(c: char): (d: nat)
    requires IsDigit(c)
    ensures d < 10
  {
    c as int - '0' as int
  }

  /** The decimal digit character for a value below ten. */
  function DigitChar(d: nat): (c: char)
    requires d < 10
    ensures IsDigit(c) && DigitValue(c) == d
  {
    ('0' as int + d) as char
  }

  /** The decimal rendering of `n`: at least one character, digits only,
      no leading zero. */
  function Decimal(n: nat): (s: string)
    ensures |s| >= 1 && AllDigits(s)
    ensures s[0] == '0' ==> n == 0
    decreases n
  {
    if n < 10 then [DigitChar(n)] else Decimal(n / 10) + [DigitChar(n % 10)]
  }

  /** The value of a string of decimal digits (most significant first). */
  function ValueOf(s: string): nat
    requires AllDigits(s)
    decreases |s|
  {
    if s == [] then 0 else ValueOf(s[..|s| - 1]) * 10 + DigitValue(s[|s| - 1])
  }

  /** Reading back a decimal rendering gives the number it was made from. */
  lemma {:induction false} ValueOfDecimal(n: nat)
    ensures ValueOf(Decimal(n)) == n
    decreases n
  {
    if n >= 10 {
      var s := Decimal(n);
      assert s[..|s| - 1] == Decimal(n / 10);
      ValueOfDecimal(n / 10);
    }
  }

  lemma DecimalInjective(m: nat, n: nat)
    requires Decimal(m) == Decimal(n)
    ensures m == n
  {
    ValueOfDecimal(m);
    ValueOfDecimal(n);
  }

  /** The id of item `index` of page `page`: `"{page}-{index}"`. Parsing
      it gives back the page and the index. */
  function Id(page: nat, index: nat): (s: string)
    ensures ParseId(s) == Some((page, index))
  {
    ParseDashJoined(Decimal(page), Decimal(index));
    ValueOfDecimal(page);
    ValueOfDecimal(index);
    Decimal(page) + "-" + Decimal(index)
  }

  /** The position of the first dash in `s`, or `|s|` when there is none. */
  function FirstDash(s: string): (k: nat)
    ensures k <= |s|
    ensures k < |s| ==> s[k] == '-'
    ensures forall i :: 0 <= i < k ==> s[i] != '-'
    decreases |s|
  {
    if s == [] then 0 else if s[0] == '-' then 0 else 1 + FirstDash(s[1..])
  }

  /** Splits an id at its first dash and reads both halves as decimal
      numbers; `None` when the string has no dash or a half is not made of
      digits. */
  function ParseId(s: string): Option<(nat, nat)> {
    var k := FirstDash(s);
    if k < |s| && AllDigits(s[..k]) && AllDigits(s[k + 1..]) then
      Some((ValueOf(s[..k]), ValueOf(s[k + 1..])))
    else
      None
  }

  /** Two digit strings joined by a dash split back at that dash. */
  lemma ParseDashJoined(a: string, b: string)
    requires AllDigits(a) && AllDigits(b)
    ensures ParseId(a + "-" + b) == Some((ValueOf(a), ValueOf(b)))
  {
    var s := a + "-" + b;
    assert s[|a|] == '-';
    assert forall j :: 0 <= j < |a| ==> s[j] == a[j];
    var k := FirstDash(s);
    assert k == |a|;
    assert s[..k] == a;
    assert s[k + 1..] == b;
  }

  /** Different (page, index) pairs have different ids. */
  lemma IdInjective(page: nat, index: nat, page': nat, index': nat)
    requires Id(page, index) == Id(page', index')
    ensures page == page' && index == index'
  {
    assert ParseId(Id(page, index)) == ParseId(Id(page', index'));
  }
}
