/** Small vocabulary shared by the models: an option type, and the C string
    conventions (termination at the first NUL byte, copies cut to a buffer). */
module Common {

  datatype Option<+T> = None | Some(value: T)

  /** DATA_MAX_NAME_LEN of src/daemon/globals.h. */
  const NAME_LEN: nat := 128

  /** What C code sees of a counted byte string: everything before the first NUL. */
  function CString(s: string): (r: string)
    ensures r <= s
    ensures '\0' !in r
    ensures |r| < |s| ==> s[|r|] == '\0'
  {
    if s == "" || s[0] == '\0' then "" else [s[0]] + CString(s[1..])
  }

  /** The text left by sstrncpy in a buffer of `size` bytes. */
  function Cut(s: string, size: nat): (r: string)
    requires 0 < size
    ensures r <= s && |r| < size
    ensures |r| < |s| ==> |r| == size - 1
  {
    if |s| < size then s else s[..size - 1]
  }

  function Min(a: nat, b: nat): (r: nat)
    ensures r <= a && r <= b && (r == a || r == b)
  {
    if a < b then a else b
  }

  /** printf("%d") of a natural number. */
  function Decimal(n: nat): string {
    var digit := ['0' + (n % 10) as char];
    if n < 10 then digit else Decimal(n / 10) + digit
  }

  /** The number that a text of decimal digits denotes. */
  function Denoted(digits: string): int {
    if digits == "" then 0
    else 10 * Denoted(digits[..|digits| - 1]) + (digits[|digits| - 1] as int - '0' as int)
  }

  /** It is printed in digits, without leading zeros. */
  lemma {:induction false} DecimalMeaning(n: nat)
    ensures Denoted(Decimal(n)) == n
    ensures forall c :: c in Decimal(n) ==> '0' <= c <= '9'
    ensures Decimal(n) != "" && (n > 0 ==> Decimal(n)[0] != '0') && (n == 0 ==> Decimal(n) == "0")
  {
    var digit := ['0' + (n % 10) as char];
    if n < 10 {
      assert Denoted(digit[..0]) == 0;
    } else {
      DecimalMeaning(n / 10);
      assert Decimal(n)[..|Decimal(n)| - 1] == Decimal(n / 10);
    }
  }

  /** Output produced in two parts, or cut short in either of them. */
  lemma Extended<T>(o: seq<T>, m1: seq<T>, m2: seq<T>, x: seq<T>)
    ensures (o + m1) + m2 == o + (m1 + m2)
    ensures o <= x <= o + m1 ==> o <= x <= o + (m1 + m2)
    ensures o + m1 <= x <= (o + m1) + m2 ==> o <= x <= o + (m1 + m2)
  {
    assert (o + m1) + m2 == o + (m1 + m2);
  }
}
