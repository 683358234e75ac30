/** Small vocabulary shared by every module: optional values, MongoDB document fields,
    Python truthiness of optional strings, ASCII lower-casing, day arithmetic on instants
    counted in seconds, and the decimal rendering of an integer. */
module Common {

  datatype Option<+T> = None | Some(value: T) {
    function GetOr(default: T): T {
      match this
      case Some(v) => v
      case None => default
    }
  }

  /** A field of a stored document as MongoDB keeps it: missing, explicitly null, or set. */
  datatype Field<+T> = Absent | Null | Set(value: T) {
    /** What reading the key yields: None for a missing key and for a stored null alike. */
    function Get(): Option<T> {
      if Set? then Some(value) else None
    }
  }

  /** The outcome of a request handler: a value, or the HTTP status of the error it raises. */
  datatype Response<+R> = Ok(value: R) | HttpError(status: int)

  function Max(a: int, b: int): int {
    if a < b then b else a
  }

  /** Python truthiness of an optional string: None and "" are false. */
  predicate Truthy(s: Option<string>) {
    s.Some? && s.value != ""
  }

  /** Python `a or b` on optional strings. */
  function Or(a: Option<string>, b: Option<string>): (r: Option<string>)
    ensures Truthy(a) ==> r == a
    ensures !Truthy(a) ==> r == b
  {
    if Truthy(a) then a else b
  }

  function LowerChar(c: char): char {
    if 'A' <= c <= 'Z' then (c as int + 32) as char else c
  }

  /** `str.lower()`, restricted to the ASCII letters. */
  function Lower(s: string): (r: string)
    ensures |r| == |s|
    ensures forall i | 0 <= i < |s| :: r[i] == LowerChar(s[i])
  {
    seq(|s|, i requires 0 <= i < |s| => LowerChar(s[i]))
  }

  lemma LowerIdempotent(s: string)
    ensures Lower(Lower(s)) == Lower(s)
  {
  }

  /** Instants and durations are whole seconds. */
  const SECONDS_PER_DAY: int := 86400

  /** `timedelta(days=d)` in seconds. */
  function Days(d: int): int {
    d * SECONDS_PER_DAY
  }

  /** `timedelta(seconds=delta).days`: Python floors, and so does Dafny's `/` for a positive divisor. */
  function WholeDays(delta: int): (r: int)
    ensures Days(r) <= delta < Days(r + 1)
  {
    delta / SECONDS_PER_DAY
  }

  lemma WholeDaysShift(delta: int, d: int)
    ensures WholeDays(delta + Days(d)) == WholeDays(delta) + d
  {
    var q := WholeDays(delta);
    assert Days(q + d) <= delta + Days(d) < Days(q + d + 1);
    WholeDaysUnique(delta + Days(d), q + d);
  }

  lemma WholeDaysUnique(delta: int, q: int)
    requires Days(q) <= delta < Days(q + 1)
    ensures WholeDays(delta) == q
  {
  }

  function DigitChar(d: nat): char
    requires d < 10
  {
    "0123456789"[d]
  }

  predicate IsDigit(c: char) {
    '0' <= c <= '9'
  }

  /** `str(n)` for a natural number. */
  function NatToDecimal(n: nat): (r: string)
    ensures |r| >= 1
    ensures forall i | 0 <= i < |r| :: IsDigit(r[i])
    decreases n
  {
    if n < 10 then [DigitChar(n)] else NatToDecimal(n / 10) + [DigitChar(n % 10)]
  }

  /** `str(i)` for any integer. */
  function IntToDecimal(i: int): (r: string)
    ensures |r| >= 1
    ensures forall k | 0 <= k < |r| :: IsDigit(r[k]) || r[k] == '-'
  {
    if i < 0 then "-" + NatToDecimal(-i) else NatToDecimal(i)
  }

  lemma NatToDecimalSingleDigit(n: nat)
    ensures |NatToDecimal(n)| == 1 <==> n < 10
  {
    if n >= 10 {
      assert |NatToDecimal(n / 10)| >= 1;
    }
  }

  lemma {:induction false} NatToDecimalInjective(a: nat, b: nat)
    requires NatToDecimal(a) == NatToDecimal(b)
    ensures a == b
    decreases a
  {
    var s := NatToDecimal(a);
    NatToDecimalSingleDigit(a);
    NatToDecimalSingleDigit(b);
    if a < 10 {
      assert DigitChar(a) == s[0] == DigitChar(b);
    } else {
      var pa, pb := NatToDecimal(a / 10), NatToDecimal(b / 10);
      assert s == pa + [DigitChar(a % 10)] == pb + [DigitChar(b % 10)];
      assert DigitChar(a % 10) == s[|s| - 1] == DigitChar(b % 10);
      assert pa == s[..|s| - 1] == pb;
      NatToDecimalInjective(a / 10, b / 10);
    }
  }

  lemma IntToDecimalSign(i: int)
    ensures IntToDecimal(i)[0] == '-' <==> i < 0
  {
    if i >= 0 {
      assert IsDigit(NatToDecimal(i)[0]);
    }
  }

  lemma IntToDecimalInjective(a: int, b: int)
    requires IntToDecimal(a) == IntToDecimal(b)
    ensures a == b
  {
    var s := IntToDecimal(a);
    IntToDecimalSign(a);
    IntToDecimalSign(b);
    if a < 0 {
      assert NatToDecimal(-a) == s[1..] == NatToDecimal(-b);
      NatToDecimalInjective(-a, -b);
    } else {
      NatToDecimalInjective(a, b);
    }
  }

  /** In `a + [sep] + b` with no separator in `b`, the last separator stands at index |a|. */
  lemma LastSeparatorAt(a: string, b: string, sep: char)
    requires sep !in b
    ensures (a + [sep] + b)[|a|] == sep
    ensures forall j | |a| < j < |a| + 1 + |b| :: (a + [sep] + b)[j] != sep
  {
    var x := a + [sep] + b;
    forall j | |a| < j < |a| + 1 + |b|
      ensures x[j] != sep
    {
      assert x[j] == b[j - |a| - 1];
    }
  }

  /** Splitting `a + [sep] + b` at its last separator is unambiguous when `b` holds no separator. */
  lemma SplitAtLastSeparator(a1: string, b1: string, a2: string, b2: string, sep: char)
    requires sep !in b1 && sep !in b2
    requires a1 + [sep] + b1 == a2 + [sep] + b2
    ensures a1 == a2 && b1 == b2
  {
    var x := a1 + [sep] + b1;
    LastSeparatorAt(a1, b1, sep);
    LastSeparatorAt(a2, b2, sep);
    assert |a1| == |a2|;
    assert a1 == x[..|a1|] == a2;
    assert b1 == x[|a1| + 1..] == b2;
  }
}
