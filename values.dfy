/** Scalar values shared by the user record and the decoded button payloads.

    A user record column and a JSON payload value are both one of: NULL/None,
    a string, an integer or a boolean. Payload values are written into
    columns unchanged (set_teacher, send_teacher), so one type serves both. */
module Values {

  datatype Option<+T> = None | Some(value: T)

  datatype Val = Null | Str(s: string) | Int(i: int) | Flag(b: bool)

  /** Python truthiness of a column value (`not user.show_groups`, `schedule or ...`). */
  predicate Truthy(v: Val)
  {
    match v
    case Null => false
    case Str(s) => s != ""
    case Int(i) => i != 0
    case Flag(b) => b
  }

  predicate IsDigit(c: char)
  {
    '0' <= c <= '9'
  }

  function DigitValue(c: char): (d: nat)
    requires IsDigit(c)
    ensures d < 10 && (d == 0 <==> c == '0')
  {
    (c as int - '0' as int) as nat
  }

  function DigitChar(d: nat): (c: char)
    requires d < 10
    ensures IsDigit(c) && DigitValue(c) == d && c as int == '0' as int + d
  {
    ('0' as int + d) as char
  }

  /** Decimal digits of n, most significant first, no leading zeros ("0" for 0). */
  function NatToString(n: nat): (s: string)
    ensures |s| > 0
    ensures forall k :: 0 <= k < |s| ==> IsDigit(s[k])
    ensures |s| > 1 ==> s[0] != '0'
  {
    if n < 10 then [DigitChar(n)] else NatToString(n / 10) + [DigitChar(n % 10)]
  }

  /** Value of a string of decimal digits. */
  function DigitsValue(s: string): nat
    requires forall k :: 0 <= k < |s| ==> IsDigit(s[k])
  {
    if s == [] then 0 else DigitsValue(s[..|s| - 1]) * 10 + DigitValue(s[|s| - 1])
  }

  lemma DigitsValueTwo(s: string)
    requires |s| == 2 && IsDigit(s[0]) && IsDigit(s[1])
    ensures DigitsValue(s) == 10 * DigitValue(s[0]) + DigitValue(s[1])
  {
    var t := s[..1];
    assert t == [s[0]] && t[..0] == [];
    assert DigitsValue(t) == DigitValue(s[0]);
  }

  lemma DigitsValueFour(s: string)
    requires |s| == 4 && forall k :: 0 <= k < 4 ==> IsDigit(s[k])
    ensures DigitsValue(s) == 1000 * DigitValue(s[0]) + 100 * DigitValue(s[1]) + 10 * DigitValue(s[2]) + DigitValue(s[3])
  {
    var t := s[..3];
    assert t[..2] == s[..2];
    DigitsValueTwo(s[..2]);
    assert DigitsValue(t) == DigitsValue(s[..2]) * 10 + DigitValue(s[2]);
  }

  lemma {:induction false} NatToStringValue(n: nat)
    ensures DigitsValue(NatToString(n)) == n
  {
    var s := NatToString(n);
    if n >= 10 {
      NatToStringValue(n / 10);
      assert s[..|s| - 1] == NatToString(n / 10);
    }
  }

  /** Python's `str()` of an integer. */
  function IntToString(i: int): (s: string)
    ensures |s| > 0
    ensures i >= 0 ==> s == NatToString(i)
    ensures i < 0 ==> s[0] == '-' && s[1..] == NatToString(-i)
  {
    if i < 0 then "-" + NatToString(-i) else NatToString(i)
  }

  /** Python's `str()` of a value, as used by `"{}".format(v)` and f-strings. */
  function Show(v: Val): string
  {
    match v
    case Null => "None"
    case Str(s) => s
    case Int(i) => IntToString(i)
    case Flag(b) => if b then "True" else "False"
  }
}
