/** Values shared by the components: an optional value, JavaScript truthiness
    of the values the components test, and the `String(x)` rendering of a
    record id. */
module Common {

  datatype Option<+T> = None | Some(value: T)

  /** A record id as the data carries it: a JavaScript number (the fixtures
      use integers) or a string. */
  datatype Id = NumId(n: int) | StrId(s: string)

  /** An optional string as JavaScript sees it: `undefined`/`null` or a string. */
  predicate StringTruthy(s: Option<string>)
  {
    s.Some? && s.value != ""
  }

  /** `!!id`: the number 0 and the empty string are falsy. */
  predicate IdTruthy(id: Option<Id>)
  {
    match id
    case None => false
    case Some(NumId(n)) => n != 0
    case Some(StrId(s)) => s != ""
  }

  predicate IsDigit(c: char)
  {
    '0' <= c <= '9'
  }

  function DigitChar(d: nat): (c: char)
    requires d < 10
    ensures IsDigit(c)
  {
    "0123456789"[d]
  }

  /** The value of a decimal digit. */
  function DigitValue(c: char): (d: nat)
    requires IsDigit(c)
    ensures d < 10 && DigitChar(d) == c
  {
    var d := (c as int) - ('0' as int);
    assert "0123456789"[d] == c;
    d
  }

  /** The number a string of decimal digits denotes, most significant digit
      first; the empty string denotes 0. */
  function DecimalValue(s: string): nat
    requires forall i :: 0 <= i < |s| ==> IsDigit(s[i])
  {
    if s == [] then 0 else DecimalValue(s[..|s| - 1]) * 10 + DigitValue(s[|s| - 1])
  }

  /** Decimal rendering of a natural number, most significant digit first. */
  function NatToString(n: nat): (r: string)
    ensures |r| > 0
    ensures forall i :: 0 <= i < |r| ==> IsDigit(r[i])
    ensures n < 10 <==> |r| == 1
  {
    if n < 10 then [DigitChar(n)] else NatToString(n / 10) + [DigitChar(n % 10)]
  }

  /** Reading the rendering back gives the number. */
  lemma {:induction false} NatToStringValue(n: nat)
    ensures DecimalValue(NatToString(n)) == n
  {
    var r := NatToString(n);
    if n >= 10 {
      NatToStringValue(n / 10);
      assert r[..|r| - 1] == NatToString(n / 10);
      assert DigitValue(r[|r| - 1]) == n % 10 by {
        assert DigitChar(DigitValue(r[|r| - 1])) == DigitChar(n % 10);
      }
    } else {
      assert r[..0] == [];
      assert DigitChar(DigitValue(r[0])) == DigitChar(n);
    }
  }

  /** A string with an optional leading minus sign followed by decimal digits. */
  predicate IntShaped(s: string)
  {
    |s| > 0 && (s[0] == '-' || IsDigit(s[0])) && forall i :: 1 <= i < |s| ==> IsDigit(s[i])
  }

  /** The integer such a string denotes. */
  function IntValue(s: string): int
    requires IntShaped(s)
  {
    if s[0] == '-' then 0 - (DecimalValue(s[1..]) as int) else DecimalValue(s)
  }

  /** `String(n)` for an integer `n`: an optional minus sign, then the digits;
      reading it back gives `n`. */
  function IntToString(n: int): (r: string)
    ensures IntShaped(r) && IntValue(r) == n
    ensures (r[0] == '-') <==> n < 0
  {
    if n < 0 then
      NatToStringValue(-n);
      assert ("-" + NatToString(-n))[1..] == NatToString(-n);
      "-" + NatToString(-n)
    else
      NatToStringValue(n);
      NatToString(n)
  }

  /** Different integers render as different strings. */
  lemma IntToStringInjective(a: int, b: int)
    ensures IntToString(a) == IntToString(b) <==> a == b
  {
  }

  /** `String(id)`. */
  function IdString(id: Id): (s: string)
    ensures id.StrId? ==> s == id.s
    ensures id.NumId? ==> IntShaped(s) && IntValue(s) == id.n
  {
    match id
    case NumId(n) => IntToString(n)
    case StrId(s) => s
  }

  /** `String(id)` for a field that may be missing: `String(undefined)`. A
      `null` id, which would render as "null", is not distinguished. */
  function IdText(id: Option<Id>): (s: string)
    ensures id.Some? ==> s == IdString(id.value)
    ensures s == "undefined" <==> id.None? || id == Some(StrId("undefined"))
  {
    match id
    case None => "undefined"
    case Some(i) => IdString(i)
  }

  /** A project record as stored and cached. Every field may be missing
      from the data, and the components test them for truthiness. The
      record may carry a GitHub link under two keys: `Github`, the one the
      details page fills in, and `github`, the one its anchor reads. */
  datatype Project = Project(
    id: Option<Id>,
    img: Option<string>,
    title: Option<string>,
    description: Option<string>,
    link: Option<string>,
    Github: Option<string>,
    github: Option<string>,
    Features: Option<seq<string>>,
    TechStack: Option<seq<string>>)

  /** `list?.length || 0`: the length of a list that may be missing. */
  function LengthOrZero<T>(l: Option<seq<T>>): (n: nat)
    ensures l.None? ==> n == 0
    ensures l.Some? ==> n == |l.value|
  {
    if l.Some? then |l.value| else 0
  }
}
