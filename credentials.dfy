/**
 * Password digests and one-time codes as the controller uses them
 * (backend/controllers/user-controller.js). The model assumes bcrypt to be
 * an injective digest, so that `bcrypt.compare(p, d)` holds exactly when `d`
 * is the digest of `p`; real bcrypt reads only the first 72 bytes of a
 * password, and its salt and cost factor are not modelled either. A one-time code is the number
 * `Math.floor(100000 + Math.random() * 900000)`, taken here as an input in
 * 100000..999999, and is stored and compared as its decimal string.
 */
module Credentials {
  /** The stored form of a password. */
  datatype Digest = Bcrypt(secret: string)

  /** `bcrypt.hash(password, 10)`. */
  function Hash(password: string): Digest { Bcrypt(password) }

  /** `bcrypt.compare(password, digest)`. */
  predicate Compare(password: string, d: Digest) { Hash(password) == d }

  /** A digest admits exactly the password it was made from. */
  lemma CompareAdmitsOnlyItsPassword(p: string, q: string)
    ensures Compare(p, Hash(q)) <==> p == q
  {
  }

  /** The codes `Math.floor(100000 + Math.random() * 900000)` can produce. */
  type OtpCode = n: nat | 100000 <= n <= 999999 witness 100000

  function DigitChar(d: nat): char
    requires d < 10
  {
    ('0' as int + d) as char
  }

  predicate IsDigit(c: char) { '0' <= c <= '9' }

  function DigitValue(c: char): nat
    requires IsDigit(c)
  {
    c as int - '0' as int
  }

  /** `n.toString()` for a natural number: its decimal digits, most significant first. */
  function DecimalString(n: nat): string
    decreases n
  {
    if n < 10 then [DigitChar(n)] else DecimalString(n / 10) + [DigitChar(n % 10)]
  }

  /** Reads a string of decimal digits back into its number. */
  function ParseDecimal(s: string): nat
    requires forall i :: 0 <= i < |s| ==> IsDigit(s[i])
  {
    if s == [] then 0 else 10 * ParseDecimal(s[..|s| - 1]) + DigitValue(s[|s| - 1])
  }

  function Pow10(k: nat): nat
  {
    if k == 0 then 1 else 10 * Pow10(k - 1)
  }

  /** The decimal string is made of digits and reads back to the number it came from. */
  lemma {:induction false} DecimalRoundTrip(n: nat)
    ensures forall i :: 0 <= i < |DecimalString(n)| ==> IsDigit(DecimalString(n)[i])
    ensures ParseDecimal(DecimalString(n)) == n
    decreases n
  {
    if n >= 10 {
      DecimalRoundTrip(n / 10);
      var s := DecimalString(n);
      assert s[..|s| - 1] == DecimalString(n / 10);
    }
  }

  /** A number with k + 1 digits has a decimal string of length k + 1. */
  lemma {:induction false} DecimalLength(n: nat, k: nat)
    requires Pow10(k) <= n < Pow10(k + 1)
    ensures |DecimalString(n)| == k + 1
    decreases k
  {
    if k > 0 {
      DecimalLength(n / 10, k - 1);
    }
  }

  /**
   * Every one-time code is six decimal digits, and two codes have the same
   * string exactly when they are the same code: comparing the strings, as
   * verifyOtp does, is comparing the codes.
   */
  lemma {:induction false} OtpStrings(a: OtpCode, b: OtpCode)
    ensures |DecimalString(a)| == 6
    ensures forall i :: 0 <= i < 6 ==> IsDigit(DecimalString(a)[i])
    ensures DecimalString(a) == DecimalString(b) <==> a == b
  {
    assert Pow10(5) == 100000 && Pow10(6) == 1000000;
    DecimalLength(a, 5);
    DecimalRoundTrip(a);
    DecimalRoundTrip(b);
  }
}
