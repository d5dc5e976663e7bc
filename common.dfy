/** Small value types shared by the models of the sink library and its test runner. */
module Common {

  /** A value that may be absent: a null C value, a missing structure field, an unset option. */
  datatype Option<T> = None | Some(value: T)

  /** An unsigned 8-bit value (guint8 / uint8_t). */
  newtype byte = x: int | 0 <= x < 256

  /** The largest value of the unsigned 32-bit types (guint / uint32_t). */
  const MaxU32: int := 0xFFFF_FFFF

  /** An unsigned 32-bit value. */
  type uint32 = x: int | 0 <= x <= MaxU32

  /** s begins with prefix (g_str_has_prefix, str.startswith). */
  predicate HasPrefix(s: string, prefix: string)
  {
    |prefix| <= |s| && s[..|prefix|] == prefix
  }

  /** Returns the value inside an option, or the default when it is absent. */
  function GetOr<T>(o: Option<T>, default: T): (r: T)
    ensures o.Some? ==> r == o.value
    ensures o.None? ==> r == default
  {
    match o
    case Some(v) => v
    case None => default
  }

  // ---------------------------------------------------------------------------
  // Decimal rendering of integers (std::to_string, Python's str)
  // ---------------------------------------------------------------------------

  predicate IsDigits(s: string)
  {
    forall i :: 0 <= i < |s| ==> '0' <= s[i] <= '9'
  }

  /** A decimal numeral: an optional minus sign followed by at least one digit. */
  predicate IsDecimal(s: string)
  {
    |s| >= 1 && if s[0] == '-' then |s| >= 2 && IsDigits(s[1..]) else IsDigits(s)
  }

  function DigitChar(d: nat): (c: char)
    requires d < 10
    ensures '0' <= c <= '9' && c as int - '0' as int == d
  {
    ('0' as int + d) as char
  }

  /** The digits of n, most significant first. */
  function NatDigits(n: nat): (s: string)
    ensures |s| >= 1 && IsDigits(s)
    ensures s[0] == '0' ==> n == 0
    decreases n
  {
    if n < 10 then [DigitChar(n)] else NatDigits(n / 10) + [DigitChar(n % 10)]
  }

  function DecimalString(i: int): (s: string)
    ensures |s| >= 1 && (s[0] == '-' <==> i < 0)
  {
    if i < 0 then "-" + NatDigits(-i) else NatDigits(i)
  }

  /** The value of a string of digits (the reference reading of a numeral). */
  function ParseNat(s: string): nat
    requires IsDigits(s)
    decreases |s|
  {
    if s == [] then 0 else ParseNat(s[..|s| - 1]) * 10 + (s[|s| - 1] as int - '0' as int)
  }

  function ParseDecimal(s: string): int
    requires IsDecimal(s)
  {
    if s[0] == '-' then 0 - ParseNat(s[1..]) as int else ParseNat(s)
  }

  lemma {:induction false} ParseNatDigits(n: nat)
    ensures ParseNat(NatDigits(n)) == n
    decreases n
  {
    if n >= 10 {
      var p := NatDigits(n / 10);
      var s := p + [DigitChar(n % 10)];
      assert s[..|s| - 1] == p;
      ParseNatDigits(n / 10);
    }
  }

  /** Reading the rendered line number back gives the line number. */
  lemma DecimalRoundTrip(i: int)
    ensures IsDecimal(DecimalString(i)) && ParseDecimal(DecimalString(i)) == i
  {
    if i < 0 {
      var d := NatDigits(-i);
      assert ("-" + d)[1..] == d;
      ParseNatDigits(-i);
    } else {
      ParseNatDigits(i);
    }
  }
}
