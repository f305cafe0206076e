/** The order of an operation field: its explicit order, or else the number its name ends
    with (getOperationOrder and getLastInt). */
module Order {
  import opened Errors
  import opened Fields

  /** ASCII decimal digits. */
  predicate IsDigit(c: char) {
    '0' <= c <= '9'
  }

  predicate AllDigits(s: string) {
    forall i :: 0 <= i < |s| ==> IsDigit(s[i])
  }

  predicate EndsWithDigit(s: string) {
    |s| > 0 && IsDigit(s[|s| - 1])
  }

  /** The decimal value of a string of digits. */
  function DigitsValue(s: string): nat
    requires AllDigits(s)
  {
    if s == [] then 0 else 10 * DigitsValue(s[..|s| - 1]) + (s[|s| - 1] as int - '0' as int)
  }

  function DigitChar(d: nat): (c: char)
    requires d < 10
    ensures IsDigit(c) && c as int - '0' as int == d
  {
    ('0' as int + d) as char
  }

  /** The decimal numeral of `n`, without leading zeros. */
  function Decimal(n: nat): (s: string)
    ensures |s| >= 1 && AllDigits(s)
    ensures DigitsValue(s) == n
  {
    if n < 10 then [DigitChar(n)]
    else
      var s := Decimal(n / 10) + [DigitChar(n % 10)];
      assert s[..|s| - 1] == Decimal(n / 10);
      s
  }

  /** Where the maximal trailing run of digits of `s` starts. */
  function TrailingDigitStart(s: string): (k: nat)
    ensures k <= |s|
    ensures AllDigits(s[k..])
    ensures k == 0 || !IsDigit(s[k - 1])
  {
    if s == [] || !IsDigit(s[|s| - 1]) then |s|
    else
      var k := TrailingDigitStart(s[..|s| - 1]);
      assert forall i :: k <= i < |s| - 1 ==> s[i] == s[..|s| - 1][i];
      k
  }

  /** The maximal trailing run of digits of `s` (empty when `s` does not end with a digit). */
  function TrailingDigits(s: string): (d: string)
    ensures AllDigits(d)
  {
    s[TrailingDigitStart(s)..]
  }

  /** Integer.parseInt on a string of digits: it rejects the empty string and values above
      Integer.MAX_VALUE. */
  function ParseInt(s: string): (r: Result<int>)
    requires AllDigits(s)
    ensures r.Err? <==> s == [] || DigitsValue(s) > INT_MAX
    ensures r.Err? ==> r.error == NumberFormat(s)
    ensures r.Ok? ==> r.value == DigitsValue(s) <= INT_MAX
  {
    if s == [] || DigitsValue(s) > INT_MAX then Err(NumberFormat(s)) else Ok(DigitsValue(s))
  }

  /** What getLastInt returns or throws. */
  function LastInt(s: string): (r: Result<int>)
    ensures r == Ok(-1) <==> |s| > 0 && !IsDigit(s[|s| - 1])
    ensures EndsWithDigit(s) ==> r == ParseInt(TrailingDigits(s))
    ensures s == [] ==> r == Err(NumberFormat([]))
  {
    var k := TrailingDigitStart(s);
    if k == |s| && s != [] then Ok(-1) else ParseInt(s[k..])
  }

  /** A name made of a prefix that does not end with a digit and a run of digits: the run is
      what getLastInt parses. */
  lemma LastIntOfSplit(prefix: string, digits: string)
    requires !EndsWithDigit(prefix)
    requires digits != [] && AllDigits(digits)
    ensures TrailingDigits(prefix + digits) == digits
    ensures LastInt(prefix + digits) == ParseInt(digits)
  {
    var s := prefix + digits;
    var k := TrailingDigitStart(s);
    assert k == |prefix| by {
      assert forall i :: |prefix| <= i < |s| ==> s[i] == digits[i - |prefix|];
      assert forall i :: k <= i < |s| ==> s[i] == s[k..][i - k];
      assert |prefix| > 0 ==> s[|prefix| - 1] == prefix[|prefix| - 1];
    }
    assert s[k..] == digits;
  }

  /** A name that ends with the numeral of `n` after a non-digit yields `n`, so long as `n`
      fits in an int. */
  lemma {:induction false} LastIntOfNumeral(prefix: string, n: nat)
    requires !EndsWithDigit(prefix)
    requires n <= INT_MAX
    ensures LastInt(prefix + Decimal(n)) == Ok(n)
  {
    LastIntOfSplit(prefix, Decimal(n));
  }

  /** The loop of getLastInt: walk back from the end while the characters are digits. */
  method GetLastInt(line: string) returns (r: Result<int>)
    ensures r == LastInt(line)
  {
    var offset := |line|;
    var i := |line| - 1;
    while i >= 0
      invariant -1 <= i < |line|
      invariant offset == i + 1
      invariant AllDigits(line[offset..])
    {
      if IsDigit(line[i]) {
        offset := offset - 1;
      } else {
        if offset == |line| {
          // no digit at the end
          return Ok(-1);
        }
        return ParseInt(line[offset..]);
      }
      i := i - 1;
    }
    return ParseInt(line[offset..]);
  }

  /** getOperationOrder: the explicit order when it is not negative; otherwise the number the
      field name ends with, which must exist and fit in an int. */
  function GetOperationOrder(f: Field): (r: Result<int>)
    ensures r.Ok? ==> r.value >= 0
    ensures f.order >= 0 ==> r == Ok(f.order)
    ensures f.order < 0 ==>
              (r.Ok? <==> EndsWithDigit(f.name) && DigitsValue(TrailingDigits(f.name)) <= INT_MAX)
    ensures f.order < 0 && r.Ok? ==> r.value == DigitsValue(TrailingDigits(f.name))
    ensures f.order < 0 && !EndsWithDigit(f.name) && f.name != [] ==> r == Err(NoImplicitOrder)
  {
    if f.order >= 0 then Ok(f.order)
    else
      match LastInt(f.name)
      case Err(e) => Err(e)
      case Ok(v) => if v < 0 then Err(NoImplicitOrder) else Ok(v)
  }
}
