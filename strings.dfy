/** Text helpers of the `/api/data` handler: the decimal rendering Python and
    SQLite give an integer (request keys such as `columns[3][data]`, and an
    integer column matched against text), the substring test that stands for
    `LIKE '%text%'`, and the order in which the database sorts text. */
module Strings {

  /** Outcome of a three-way comparison. */
  datatype Ordering = Less | Equal | Greater {
    /** The outcome of comparing the same two values the other way round. */
    function Flip(): Ordering {
      match this
      case Less => Greater
      case Equal => Equal
      case Greater => Less
    }
  }

  predicate IsDigit(c: char) {
    '0' <= c <= '9'
  }

  function Digit(d: nat): (c: char)
    requires d < 10
    ensures IsDigit(c) && c as int == '0' as int + d
  {
    "0123456789"[d]
  }

  /** Decimal digits of `n`, most significant first, without leading zeros. */
  function NatToString(n: nat): (s: string)
    ensures |s| >= 1
    ensures forall k :: 0 <= k < |s| ==> IsDigit(s[k])
    ensures n < 10 <==> |s| == 1
  {
    if n < 10 then [Digit(n)] else NatToString(n / 10) + [Digit(n % 10)]
  }

  /** How an integer is printed: a minus sign before the digits of its magnitude. */
  function IntToString(i: int): string {
    if i < 0 then "-" + NatToString(-i) else NatToString(i)
  }

  function Pow10(k: nat): (p: nat)
    ensures p >= 1
  {
    if k == 0 then 1 else 10 * Pow10(k - 1)
  }

  /** A number printed with `k` digits is below `10^k`; this bounds every index scan. */
  lemma {:induction false} NatToStringBound(n: nat)
    ensures n < Pow10(|NatToString(n)|)
  {
    if n >= 10 {
      NatToStringBound(n / 10);
      var k := |NatToString(n / 10)|;
      assert |NatToString(n)| == k + 1;
      assert n / 10 + 1 <= Pow10(k);
      assert n < 10 * (n / 10 + 1);
    }
  }

  /** `pat` occurs in `text`: the model of `text LIKE '%pat%'`. */
  predicate Contains(text: string, pat: string) {
    exists k :: 0 <= k <= |text| && OccursAt(text, pat, k)
  }

  /** `pat` is found in `text` starting at position `k`. */
  predicate OccursAt(text: string, pat: string, k: int) {
    0 <= k && k + |pat| <= |text| && text[k..k + |pat|] == pat
  }

  /** The empty pattern occurs in every text. */
  lemma ContainsEmpty(text: string)
    ensures Contains(text, "")
  {
    assert OccursAt(text, "", 0);
  }

  /** A text without the pattern's first character does not contain the pattern. */
  lemma MissingFirstChar(text: string, pat: string)
    requires |pat| > 0 && pat[0] !in text
    ensures !Contains(text, pat)
  {
  }

  predicate StartsWith(s: string, prefix: string) {
    |prefix| <= |s| && s[..|prefix|] == prefix
  }

  /** Lexicographic order on character codes: the database's binary collation. */
  function CompareStrings(a: string, b: string): Ordering {
    if a == [] && b == [] then Equal
    else if a == [] then Less
    else if b == [] then Greater
    else if a[0] < b[0] then Less
    else if b[0] < a[0] then Greater
    else CompareStrings(a[1..], b[1..])
  }

  lemma {:induction false} CompareStringsFlip(a: string, b: string)
    ensures CompareStrings(b, a) == CompareStrings(a, b).Flip()
  {
    if a != [] && b != [] && a[0] == b[0] {
      CompareStringsFlip(a[1..], b[1..]);
    }
  }

  lemma {:induction false} CompareStringsEqual(a: string, b: string)
    ensures CompareStrings(a, b) == Equal <==> a == b
  {
    if a != [] && b != [] && a[0] == b[0] {
      CompareStringsEqual(a[1..], b[1..]);
      assert a == [a[0]] + a[1..];
      assert b == [b[0]] + b[1..];
    }
  }

  lemma {:induction false} CompareStringsTransitive(a: string, b: string, c: string)
    requires CompareStrings(a, b) != Greater && CompareStrings(b, c) != Greater
    ensures CompareStrings(a, c) != Greater
  {
    if a != [] && b != [] && c != [] && a[0] == b[0] == c[0] {
      CompareStringsTransitive(a[1..], b[1..], c[1..]);
    }
  }
}
