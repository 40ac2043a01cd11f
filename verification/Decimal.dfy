/** Decimal printing of token roles in a fixed buffer. */
module Decimal {
  import opened Curve

  type byte = n: int | 0 <= n < 256

  const ZERO: byte := 48
  const BUFFER_SIZE: nat := 20

  /******* Specification *******/

  /** The decimal digits of a number, most significant first. */
  function Digits(n: nat): (s: seq<byte>)
    ensures |s| > 0
  {
    if n < 10 then [ZERO + n] else Digits(n / 10) + [ZERO + n % 10]
  }

  predicate IsDigit(b: byte) {
    ZERO <= b <= ZERO + 9
  }

  /** The number a digit string denotes. */
  function Value(s: seq<byte>): int {
    if s == [] then 0 else 10 * Value(s[..|s| - 1]) + (s[|s| - 1] - ZERO)
  }

  /** Digits only, at least one, and no leading zero except in "0" itself. */
  predicate Canonical(s: seq<byte>) {
    |s| > 0 && (forall i :: 0 <= i < |s| ==> IsDigit(s[i])) && (s[0] == ZERO ==> |s| == 1)
  }


  /** Reading the printed digits back gives the number, and the digits are canonical. */
  lemma {:induction false} DigitsRead(n: nat)
    ensures Value(Digits(n)) == n && Canonical(Digits(n))
    ensures n > 0 ==> Digits(n)[0] != ZERO
  {
    if n < 10 {
      assert Digits(n)[..0] == [];
    } else {
      DigitsRead(n / 10);
    }
  }

  lemma {:induction false} ValuePositive(s: seq<byte>)
    requires Canonical(s) && s[0] != ZERO
    ensures Value(s) > 0
  {
    if |s| == 1 {
      assert s[..0] == [];
    } else {
      ValuePositive(s[..|s| - 1]);
    }
  }

  /** A canonical string is the only one with its value. */
  lemma {:induction false} CanonicalUnique(s: seq<byte>)
    requires Canonical(s)
    ensures Value(s) >= 0 && Digits(Value(s)) == s
  {
    if |s| == 1 {
      assert s[..0] == [];
    } else {
      var t := s[..|s| - 1];
      assert s == t + [s[|s| - 1]];
      CanonicalUnique(t);
      ValuePositive(t);
      assert Value(s) / 10 == Value(t) && Value(s) % 10 == s[|s| - 1] - ZERO;
    }
  }

  /** A number has `k` digits or fewer exactly when it is below ten to the `k`. */
  lemma {:induction false} DigitsLength(n: nat, k: nat)
    requires k > 0
    ensures |Digits(n)| <= k <==> n < Power10(k)
  {
    if n < 10 {
      Power10AtLeast(k);
    } else if k > 1 {
      DigitsLength(n / 10, k - 1);
    }
  }

  function Power10(k: nat): nat {
    if k == 0 then 1 else 10 * Power10(k - 1)
  }

  lemma {:induction false} Power10AtLeast(k: nat)
    requires k > 0
    ensures Power10(k) >= 10
  {
    if k > 1 {
      Power10AtLeast(k - 1);
    }
  }

  /** Every `u32` fits in ten digits, half of the buffer. */
  lemma U32Length(value: u32)
    ensures |Digits(value)| <= 10 < BUFFER_SIZE
  {
    assert Power10(5) == 100000;
    assert Power10(10) == 100000 * Power10(5);
    DigitsLength(value, 10);
  }

  /******* The printer *******/

  /** Fills the buffer from right to left; `i` ends exactly at 0. */
  method U32ToDecimalBytes(value: u32) returns (bytes: seq<byte>)
    ensures bytes == Digits(value) && |bytes| <= 10
  {
    if value == 0 {
      return [ZERO];
    }
    U32Length(value);
    var temp, length := value, 0;
    while temp > 0
      invariant 0 <= temp
      invariant temp > 0 ==> length + |Digits(temp)| == |Digits(value)|
      invariant temp == 0 ==> length == |Digits(value)|
      invariant 0 <= length
    {
      length := length + 1;
      temp := temp / 10;
    }

    var buffer := new byte[BUFFER_SIZE](_ => 0);
    var i, rest := length, value;
    while rest > 0
      invariant 0 <= rest && 0 <= i <= length
      invariant rest > 0 ==> i == |Digits(rest)| && Digits(value) == Digits(rest) + buffer[i..length]
      invariant rest == 0 ==> i == 0 && Digits(value) == buffer[..length]
    {
      i := i - 1;
      buffer[i] := ZERO + rest % 10;
      assert buffer[i..length] == [buffer[i]] + buffer[i + 1..length];
      rest := rest / 10;
    }
    assert i == 0;
    return buffer[..length];
  }
}
