/**
  The two pieces of Python string behaviour the air-quality endpoint relies on:
  `str.lower()` for the cache key and decimal formatting of an integer inside an
  f-string.
 */
module PyStr {

  /** Upper-case letters of Basic Latin and Latin-1 (À to Þ, except ×), each 32 code points below its lower case. */
  predicate IsUpper(c: char)
  {
    ('A' <= c <= 'Z') || ('À' <= c <= 'Þ' && c != '×')
  }

  /** Lower-case letters of Basic Latin and Latin-1 that have an upper case in `IsUpper` (à to þ, except ÷). */
  predicate IsLower(c: char)
  {
    ('a' <= c <= 'z') || ('à' <= c <= 'þ' && c != '÷')
  }

  /** One character of `str.lower()`: only upper-case letters change, each into a lower-case letter. */
  function LowerChar(c: char): (d: char)
    ensures !IsUpper(d)
    ensures d != c <==> IsUpper(c)
    ensures IsUpper(c) ==> IsLower(d)
  {
    if IsUpper(c) then (c as int + 32) as char else c
  }

  /** `str.lower()`, character by character. */
  function Lower(s: string): string
  {
    if s == [] then [] else [LowerChar(s[0])] + Lower(s[1..])
  }

  /** Lower-casing keeps the length and maps each character on its own. */
  lemma {:induction false} LowerAt(s: string)
    ensures |Lower(s)| == |s|
    ensures forall i :: 0 <= i < |s| ==> Lower(s)[i] == LowerChar(s[i])
  {
    if s != [] {
      LowerAt(s[1..]);
    }
  }

  /** A lower-cased character has no upper case left. */
  lemma LowerCharIdempotent(c: char)
    ensures LowerChar(LowerChar(c)) == LowerChar(c)
  {
  }

  /** Lower-casing twice is lower-casing once, so a normalized key normalizes to itself. */
  lemma LowerIdempotent(s: string)
    ensures Lower(Lower(s)) == Lower(s)
  {
    LowerAt(s);
    LowerAt(Lower(s));
    forall i | 0 <= i < |s| ensures Lower(Lower(s))[i] == Lower(s)[i] {
      LowerCharIdempotent(s[i]);
    }
  }

  /** Only the empty string lower-cases to the empty string. */
  lemma LowerEmptyIff(s: string)
    ensures Lower(s) == [] <==> s == []
  {
    LowerAt(s);
  }

  function DigitChar(d: nat): char
    requires d < 10
  {
    "0123456789"[d]
  }

  function DigitValue(c: char): nat
  {
    if '0' <= c <= '9' then c as nat - '0' as nat else 0
  }

  /** Decimal digits of a natural number, most significant first, without leading zeros. */
  function Decimal(n: nat): (s: string)
    ensures |s| > 0
    ensures forall i :: 0 <= i < |s| ==> '0' <= s[i] <= '9'
    ensures s[0] == '0' ==> n == 0
  {
    if n < 10 then [DigitChar(n)] else Decimal(n / 10) + [DigitChar(n % 10)]
  }

  /** Reads a string of decimal digits back as a number. */
  function ParseDecimal(s: string): nat
  {
    if s == [] then 0 else 10 * ParseDecimal(s[..|s| - 1]) + DigitValue(s[|s| - 1])
  }

  /** Formatting a number and reading it back gives the number again. */
  lemma {:induction false} DecimalRoundTrip(n: nat)
    ensures ParseDecimal(Decimal(n)) == n
  {
    var s := Decimal(n);
    if n >= 10 {
      DecimalRoundTrip(n / 10);
      assert s[..|s| - 1] == Decimal(n / 10);
    }
  }
}
