/** Text as the C++ code handles it: a `std::string` is a sequence of `char`s, and `char` is a
    signed byte on the usual ABIs, so bytes 0x80..0xFF take part in arithmetic as -128..-1. */
module CText {

  type CChar = c: int | -128 <= c < 128
  type CString = seq<CChar>

  const Newline: CChar := 10
  const Comma: CChar := 44
  const Zero: CChar := 48

  /** The bytes of an ASCII string literal. */
  function Lit(s: string): CString
    requires forall i :: 0 <= i < |s| ==> s[i] as int < 128
  {
    seq(|s|, i requires 0 <= i < |s| => s[i] as int)
  }

  predicate IsDigit(c: CChar) {
    Zero <= c < Zero + 10
  }

  /** What `std::ostream << n` writes for an unsigned `n`: its decimal digits, most significant first. */
  function Decimal(n: nat): (r: CString)
    ensures |r| >= 1
    ensures forall i :: 0 <= i < |r| ==> IsDigit(r[i])
    ensures n > 0 ==> r[0] != Zero
  {
    if n < 10 then [Zero + n] else Decimal(n / 10) + [Zero + n % 10]
  }

  /** The number a string of decimal digits denotes. */
  function DecimalValue(s: CString): nat
    requires forall i :: 0 <= i < |s| ==> IsDigit(s[i])
  {
    if s == [] then 0
    else
      var last := s[|s| - 1];
      assert IsDigit(last);
      DecimalValue(s[..|s| - 1]) * 10 + (last - Zero) as nat
  }

  /** Reading back what `Decimal` wrote gives the number. */
  lemma {:induction false} DecimalRoundTrip(n: nat)
    ensures DecimalValue(Decimal(n)) == n
  {
    if n >= 10 {
      var s := Decimal(n);
      assert s[..|s| - 1] == Decimal(n / 10);
      DecimalRoundTrip(n / 10);
    }
  }

  /** The index of the first `c` in `s`, or |s| when there is none. */
  function IndexOf(s: CString, c: CChar): (k: nat)
    ensures k <= |s|
    ensures k < |s| ==> s[k] == c
    ensures forall i :: 0 <= i < k ==> s[i] != c
  {
    if s == [] then 0 else if s[0] == c then 0 else 1 + IndexOf(s[1..], c)
  }

  lemma {:induction false} IndexOfAfter(a: CString, c: CChar, b: CString)
    requires forall i :: 0 <= i < |a| ==> a[i] != c
    ensures IndexOf(a + [c] + b, c) == |a|
  {
    if a != [] {
      assert (a + [c] + b)[1..] == a[1..] + [c] + b;
      IndexOfAfter(a[1..], c, b);
    }
  }
}
