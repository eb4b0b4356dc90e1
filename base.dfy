/** Vocabulary shared by the whole model: the exceptions the Java code raises,
    a Result type standing for "returns normally or throws", Java's truncating
    integer division, and the decimal conversions Java performs when an int is
    concatenated to a String or read back by Integer.parseInt. */
module Base {

  /** The exceptions of the Java program, by class; plus two outcomes that the
      Java program reaches by never returning. */
  datatype Error =
    | IllegalArgument   // IllegalArgumentException
    | IllegalState      // IllegalStateException
    | NullPointer       // NullPointerException (unboxing null, a call on null)
    | RuntimeError      // RuntimeException
    | IndexOutOfBounds  // ArrayIndexOutOfBoundsException
    | Arithmetic        // ArithmeticException: integer division by zero
    | NumberFormat      // NumberFormatException from Integer.parseInt
    | ScanError         // ScanErrorException
    | NoCompile         // the node has no compile method in this version of the code
    | Diverges          // the Java loop provably runs forever from this state
    | FuelExhausted     // the interpreter's step bound ran out (see README)

  /** A Java reference that may be null. */
  datatype Option<+T> = None | Some(value: T)

  /** Ok(v): the Java method returned v. Err(e): it threw e. */
  datatype Result<+T> = Ok(value: T) | Err(error: Error) {
    predicate IsFailure() {
      Err?
    }

    function PropagateFailure<U>(): Result<U>
      requires Err?
    {
      Err(error)
    }

    function Extract(): T
      requires Ok?
    {
      value
    }
  }

  // ---------------------------------------------------------------------
  // Java's int division and remainder (truncate toward zero)
  // ---------------------------------------------------------------------

  function Abs(x: int): nat {
    if x < 0 then -x else x
  }

  /** Java's `a / b`: the quotient truncated toward zero. */
  function JavaDiv(a: int, b: int): int
    requires b != 0
  {
    var q := Abs(a) / Abs(b);
    if (a < 0) == (b < 0) then q else -q
  }

  /** Java's `a % b`: the remainder takes the sign of the dividend. */
  function JavaRem(a: int, b: int): int
    requires b != 0
  {
    var r := Abs(a) % Abs(b);
    if a < 0 then -r else r
  }

  /** Java's division law: quotient times divisor plus remainder gives the
      dividend back; the remainder is smaller than the divisor in magnitude
      and is zero or carries the dividend's sign. */
  lemma JavaDivRem(a: int, b: int)
    requires b != 0
    ensures JavaDiv(a, b) * b + JavaRem(a, b) == a
    ensures Abs(JavaRem(a, b)) < Abs(b)
    ensures JavaRem(a, b) == 0 || (JavaRem(a, b) < 0 <==> a < 0)
  {
    var A: int, B: int := Abs(a), Abs(b);
    var q := A / B;
    assert A == q * B + A % B && 0 <= A % B < B;
    var d := JavaDiv(a, b);
    if a >= 0 && b > 0 {
      assert d == q && b == B;
    } else if a >= 0 {
      assert d == -q && b == -B;
      assert (-q) * (-B) == q * B;
    } else if b > 0 {
      assert d == -q && b == B && a == -A;
      assert (-q) * B == -(q * B);
    } else {
      assert d == q && b == -B && a == -A;
      assert q * (-B) == -(q * B);
    }
  }

  /** The quotient rounds toward zero: it never overshoots the dividend. */
  lemma JavaDivTruncates(a: int, b: int)
    requires b != 0
    ensures Abs(JavaDiv(a, b)) * Abs(b) <= Abs(a)
  {
    var A: int, B: int := Abs(a), Abs(b);
    var q := A / B;
    assert A == q * B + A % B && 0 <= A % B;
    assert Abs(JavaDiv(a, b)) == q;
  }

  /** Negating the dividend negates both quotient and remainder, which is
      what sets truncation apart from Dafny's Euclidean division. */
  lemma JavaDivNegate(a: int, b: int)
    requires b != 0
    ensures JavaDiv(-a, b) == -JavaDiv(a, b) && JavaRem(-a, b) == -JavaRem(a, b)
  {
    assert Abs(-a) == Abs(a);
    if a == 0 {
      assert JavaDiv(a, b) == 0;
    }
  }

  // ---------------------------------------------------------------------
  // Decimal text of integers
  // ---------------------------------------------------------------------

  predicate IsDigitChar(c: char) {
    '0' <= c <= '9'
  }

  predicate AllDigits(s: string) {
    forall i :: 0 <= i < |s| ==> IsDigitChar(s[i])
  }

  function DigitChar(d: nat): char
    requires d < 10
  {
    (48 + d) as char
  }

  function DigitValue(c: char): nat
    requires IsDigitChar(c)
  {
    c as int - 48
  }

  /** The decimal text of n, most significant digit first, no leading zeros
      (Java's Integer.toString on a non-negative int). */
  function NatToString(n: nat): string
    decreases n
  {
    if n < 10 then [DigitChar(n)] else NatToString(n / 10) + [DigitChar(n % 10)]
  }

  /** Java's Integer.toString, which is what `"..." + i` appends. */
  function IntToString(i: int): string {
    if i < 0 then "-" + NatToString(-i) else NatToString(i)
  }

  /** The number a string of decimal digits denotes. */
  function DigitsValue(s: string): nat
    requires AllDigits(s)
  {
    if s == [] then 0 else DigitsValue(s[..|s| - 1]) * 10 + DigitValue(s[|s| - 1])
  }

  /** Reading back the text NatToString writes gives the number again. */
  lemma {:induction false} NatToStringRoundTrip(n: nat)
    ensures |NatToString(n)| > 0 && AllDigits(NatToString(n))
    ensures DigitsValue(NatToString(n)) == n
    decreases n
  {
    if n >= 10 {
      NatToStringRoundTrip(n / 10);
      var s := NatToString(n);
      assert s[..|s| - 1] == NatToString(n / 10);
    }
  }

  /** Different numbers have different decimal texts. */
  lemma NatToStringInjective(a: nat, b: nat)
    ensures NatToString(a) == NatToString(b) <==> a == b
  {
    NatToStringRoundTrip(a);
    NatToStringRoundTrip(b);
  }

  /** A label made of a fixed prefix and a number identifies the number. */
  lemma NumberedLabelInjective(prefix: string, a: nat, b: nat)
    ensures prefix + NatToString(a) == prefix + NatToString(b) <==> a == b
  {
    if prefix + NatToString(a) == prefix + NatToString(b) {
      assert (prefix + NatToString(a))[|prefix|..] == NatToString(a);
      assert (prefix + NatToString(b))[|prefix|..] == NatToString(b);
      NatToStringInjective(a, b);
    }
  }

  const IntMin: int := -0x8000_0000
  const IntMax: int := 0x7fff_ffff

  predicate InIntRange(v: int) {
    IntMin <= v <= IntMax
  }

  /** Java's Integer.parseInt for ASCII digits: an optional sign, at least one
      digit, and a value that fits in an int; anything else throws. */
  function ParseInt(s: string): Result<int> {
    if |s| == 0 then Err(NumberFormat)
    else
      var signed := s[0] == '-' || s[0] == '+';
      var digits := if signed then s[1..] else s;
      if |digits| == 0 || !AllDigits(digits) then Err(NumberFormat)
      else
        var n: int := DigitsValue(digits);
        var v := if s[0] == '-' then -n else n;
        if InIntRange(v) then Ok(v) else Err(NumberFormat)
  }

  /** Integer.parseInt reads back what Integer.toString writes, over the whole
      int range. */
  lemma ParseIntRoundTrip(i: int)
    requires InIntRange(i)
    ensures ParseInt(IntToString(i)) == Ok(i)
  {
    if i < 0 {
      NatToStringRoundTrip(-i);
      var s := IntToString(i);
      assert s[1..] == NatToString(-i);
    } else {
      NatToStringRoundTrip(i);
      assert NatToString(i)[0] != '-' && NatToString(i)[0] != '+';
    }
  }
}
