/** Normalisation of a portfolio identifier to an integer, as the program's
    `int(id)` does: an integer stays as it is and a numeric string is read in
    decimal. Only an optional sign followed by ASCII digits is accepted as a
    string; anything else is the `ValueError` of `int`. */
module ProductIds {
  import opened Records

  predicate IsDigit(c: char) {
    '0' <= c <= '9'
  }

  predicate AllDigits(s: string) {
    forall i :: 0 <= i < |s| ==> IsDigit(s[i])
  }

  function DigitValue(c: char): (d: nat)
    requires IsDigit(c)
    ensures d < 10
  {
    c as int - '0' as int
  }

  function DigitChar(d: nat): (c: char)
    requires d < 10
    ensures IsDigit(c) && DigitValue(c) == d
  {
    ('0' as int + d) as char
  }

  /** The value of a string of decimal digits, most significant first. */
  function DigitsValue(s: string): nat
    requires AllDigits(s)
  {
    if s == [] then 0 else 10 * DigitsValue(s[..|s| - 1]) + DigitValue(s[|s| - 1])
  }

  /** Python's `int(s)` on a string: an optional sign and at least one digit.
      A plain run of digits is read in decimal, and the sign decides the sign. */
  function ParseInt(s: string): (r: Option<int>)
    ensures r.Some? ==> s != [] && AllDigits(s[1..]) && (IsDigit(s[0]) || |s| >= 2)
    ensures s != [] && AllDigits(s) ==> r == Some(DigitsValue(s))
    ensures r.Some? && s[0] == '-' ==> r.value <= 0
    ensures r.Some? && s[0] != '-' ==> r.value >= 0
  {
    if |s| >= 2 && (s[0] == '+' || s[0] == '-') && AllDigits(s[1..]) then
      var magnitude: int := DigitsValue(s[1..]);
      Some(if s[0] == '-' then -magnitude else magnitude)
    else if s != [] && AllDigits(s) then
      Some(DigitsValue(s))
    else
      None
  }

  /** The identifier as the program uses it after `id = int(id)`: an integer is
      left alone (so normalising twice changes nothing), a string is parsed, and
      a string that does not parse is the `ValueError` of `int`. */
  function Normalize(id: PositionId): (r: Result<int>)
    ensures id.IntId? ==> r == Ok(id.n)
    ensures id.StrId? ==> (r.Ok? <==> ParseInt(id.s).Some?)
    ensures r.Ok? && id.StrId? ==> r.value == ParseInt(id.s).value
    ensures r.Fail? ==> id.StrId? && r.error == BadProductId(id.s)
  {
    match id
    case IntId(n) => Ok(n)
    case StrId(s) =>
      match ParseInt(s)
      case Some(n) => Ok(n)
      case None => Fail(BadProductId(s))
  }

  /** The canonical decimal digits of a natural number, as `str` writes them. */
  function NatDigits(n: nat): (s: string)
    ensures s != [] && AllDigits(s)
  {
    if n < 10 then [DigitChar(n)] else NatDigits(n / 10) + [DigitChar(n % 10)]
  }

  /** The decimal text of an integer, as `str` writes it. */
  function DecimalString(n: int): (s: string)
    ensures s != []
  {
    if n < 0 then "-" + NatDigits(-n) else NatDigits(n)
  }

  lemma {:induction false} NatDigitsValue(n: nat)
    ensures DigitsValue(NatDigits(n)) == n
  {
    var s := NatDigits(n);
    if n >= 10 {
      NatDigitsValue(n / 10);
      assert s[..|s| - 1] == NatDigits(n / 10);
    }
  }

  /** Reading back the decimal text of any integer gives that integer. */
  lemma ParseDecimalString(n: int)
    ensures ParseInt(DecimalString(n)) == Some(n)
  {
    var s := DecimalString(n);
    NatDigitsValue(if n < 0 then -n else n);
    if n < 0 {
      assert s[1..] == NatDigits(-n);
      assert s[0] == '-';
    } else {
      assert s[0] != '-' && s[0] != '+';
    }
  }

  /** Normalisation is representation-agnostic: the string form and the integer
      form of the same identifier select the same key. */
  lemma NormalizeAgnostic(n: int)
    ensures Normalize(StrId(DecimalString(n))) == Normalize(IntId(n)) == Ok(n)
  {
    ParseDecimalString(n);
  }

  /** Any run of leading zeros, and an explicit sign, leave the identifier as
      `int` reads it. */
  lemma NormalizePaddedForms(n: nat, z: string)
    requires forall i :: 0 <= i < |z| ==> z[i] == '0'
    ensures Normalize(StrId(z + NatDigits(n))) == Ok(n)
    ensures Normalize(StrId("+" + z + NatDigits(n))) == Ok(n)
    ensures Normalize(StrId("-" + z + NatDigits(n))) == Ok(-(n as int))
  {
    var d := NatDigits(n);
    NatDigitsValue(n);
    ZerosThenDigits(z, d);
    assert ("+" + z + d)[1..] == z + d;
    assert ("-" + z + d)[1..] == z + d;
  }

  /** A leading zero does not change the value of a digit string. */
  lemma {:induction false} LeadingZero(d: string)
    requires AllDigits(d)
    ensures AllDigits("0" + d) && DigitsValue("0" + d) == DigitsValue(d)
  {
    var z := "0" + d;
    if d != [] {
      assert z[..|z| - 1] == "0" + d[..|d| - 1];
      LeadingZero(d[..|d| - 1]);
    } else {
      assert z[..0] == [];
    }
  }

  /** Nor does any run of leading zeros. */
  lemma {:induction false} ZerosThenDigits(z: string, d: string)
    requires forall i :: 0 <= i < |z| ==> z[i] == '0'
    requires AllDigits(d)
    ensures AllDigits(z + d) && DigitsValue(z + d) == DigitsValue(d)
  {
    if z != [] {
      ZerosThenDigits(z[1..], d);
      LeadingZero(z[1..] + d);
      assert z + d == "0" + (z[1..] + d);
    } else {
      assert z + d == d;
    }
  }

  /** A string that is not an optionally signed run of digits is refused,
      including a bare sign. */
  lemma NormalizeRefuses(s: string)
    requires s == [] || s == "+" || s == "-" || (s[0] != '+' && s[0] != '-' && !AllDigits(s))
    ensures Normalize(StrId(s)) == Fail(BadProductId(s))
  {
  }
}
