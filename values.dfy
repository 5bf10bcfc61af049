/** Run-time values of the statemachine language as JavaScript holds them:
    a `number` or a `boolean` (`Literal.val: boolean | number`, the values an
    environment map stores), with the conversions the evaluators rely on. */
module Values {
  import opened Results

  datatype Value = Num(n: int) | Bool(b: bool)

  /** JavaScript's numeric conversion `Number(v)`: true is 1, false is 0. */
  function ToNumber(v: Value): (r: int)
    ensures v.Num? ==> r == v.n
    ensures v.Bool? ==> (r == 1 <==> v.b) && (r == 0 <==> !v.b)
  {
    match v
    case Num(n) => n
    case Bool(b) => if b then 1 else 0
  }

  /** JavaScript truthiness: a number is truthy unless it is 0, a boolean is itself. */
  predicate Truthy(v: Value) {
    match v
    case Num(n) => n != 0
    case Bool(b) => b
  }

  lemma {:induction false} TruthyIsNonZeroNumber(v: Value)
    ensures Truthy(v) <==> ToNumber(v) != 0
  {
    match v
    case Num(n) =>
    case Bool(b) =>
  }

  function DigitChar(d: nat): (c: char)
    requires d < 10
    ensures '0' <= c <= '9' && c as int - '0' as int == d
  {
    (d + '0' as int) as char
  }

  predicate IsDigits(s: string) {
    |s| > 0 && forall i :: 0 <= i < |s| ==> '0' <= s[i] <= '9'
  }

  /** Decimal text of a natural number, most significant digit first, no leading zero. */
  function NatToString(n: nat): (s: string)
    ensures IsDigits(s)
    ensures |s| > 1 ==> s[0] != '0'
    decreases n
  {
    if n < 10 then [DigitChar(n)] else NatToString(n / 10) + [DigitChar(n % 10)]
  }

  /** JavaScript's `${i}` for an integral number. */
  function IntToString(i: int): (s: string)
    ensures |s| > 0
    ensures i < 0 <==> s[0] == '-'
    ensures s[0] == '-' || '0' <= s[0] <= '9'
    ensures forall k :: 0 < k < |s| ==> '0' <= s[k] <= '9'
  {
    if i < 0 then "-" + NatToString(-i) else NatToString(i)
  }

  /** JavaScript's `${v}`: a number in decimal, a boolean as `true` or `false`. */
  function Text(v: Value): (s: string)
    ensures |s| > 0
    ensures v.Bool? ==> s == (if v.b then "true" else "false")
  {
    match v
    case Num(n) => IntToString(n)
    case Bool(b) => if b then "true" else "false"
  }

  /** Reads decimal digits back: the inverse used to state what the text means. */
  function DigitsValue(s: string): nat
    requires forall i :: 0 <= i < |s| ==> '0' <= s[i] <= '9'
    decreases |s|
  {
    if s == [] then 0 else DigitsValue(s[..|s| - 1]) * 10 + (s[|s| - 1] as int - '0' as int)
  }

  function ParseInt(s: string): int
    requires |s| > 0
    requires forall k :: 0 < k < |s| ==> '0' <= s[k] <= '9'
    requires s[0] == '-' || '0' <= s[0] <= '9'
  {
    if s[0] == '-' then -(DigitsValue(s[1..]) as int) else DigitsValue(s)
  }

  lemma {:induction false} NatToStringRoundTrip(n: nat)
    ensures DigitsValue(NatToString(n)) == n
    decreases n
  {
    if n >= 10 {
      NatToStringRoundTrip(n / 10);
      var s := NatToString(n);
      assert s[..|s| - 1] == NatToString(n / 10);
    }
  }

  /** The emitted decimal text denotes the number it was made from. */
  lemma IntToStringRoundTrip(i: int)
    ensures ParseInt(IntToString(i)) == i
  {
    if i < 0 {
      NatToStringRoundTrip(-i);
      assert IntToString(i)[1..] == NatToString(-i);
    } else {
      NatToStringRoundTrip(i);
    }
  }

  lemma IntToStringInjective(i: int, j: int)
    requires IntToString(i) == IntToString(j)
    ensures i == j
  {
    IntToStringRoundTrip(i);
    IntToStringRoundTrip(j);
  }

  /** Reads the text `${v}` back into a value: `true`, `false` or an optionally negative decimal. */
  function ReadValue(s: string): Option<Value> {
    if s == "true" then Some(Bool(true))
    else if s == "false" then Some(Bool(false))
    else if |s| > 0 && (s[0] == '-' || '0' <= s[0] <= '9') && forall k :: 0 < k < |s| ==> '0' <= s[k] <= '9'
    then Some(Num(ParseInt(s)))
    else None
  }

  /** The text of a value reads back as that value. */
  lemma TextRoundTrip(v: Value)
    ensures ReadValue(Text(v)) == Some(v)
  {
    match v
    case Num(n) =>
      IntToStringRoundTrip(n);
      var s := IntToString(n);
      assert s != "true" && s != "false" by {
        assert s[0] == '-' || '0' <= s[0] <= '9';
      }
    case Bool(b) =>
  }
}
