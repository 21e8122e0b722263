/**
 The probe's numbers as text: the bounded line builder with its decimal writer, and the parser of
 the environment's decimal settings, in 64-bit arithmetic.
 */
module ProbeNumbers {
  import opened Options
  import opened ProbeStream

  const LINE_BYTES: nat := 1024

  // ----- Decimal text

  predicate IsDigit(c: char) {
    '0' <= c <= '9'
  }

  function DigitOf(n: nat): char
    requires n < 10
  {
    (n as char) + '0'
  }

  function ValueOf(c: char): (d: nat)
    requires IsDigit(c)
    ensures d < 10
  {
    (c - '0') as int
  }

  function Decimal(n: nat): (text: string)
    ensures text != [] && AllDigits(text)
  {
    if n < 10 then [DigitOf(n)] else Decimal(n / 10) + [DigitOf(n % 10)]
  }

  predicate AllDigits(text: string) {
    forall c <- text :: IsDigit(c)
  }

  /** The number a digit string denotes, of any length. */
  function Number(text: string): nat
    requires AllDigits(text)
  {
    if text == [] then 0 else 10 * Number(text[..|text| - 1]) + ValueOf(text[|text| - 1])
  }

  lemma {:induction false} NumberOfDecimal(n: nat)
    ensures Number(Decimal(n)) == n
  {
    if n >= 10 {
      NumberOfDecimal(n / 10);
      assert Decimal(n)[..|Decimal(n)| - 1] == Decimal(n / 10);
    }
  }

  // ----- The parser

  /** One digit of `parse_u64`; the subtraction from the maximum and the sum wrap like the source's. */
  function Digit(result: nat, digit: nat, maximum: nat): Option<nat>
    requires digit < 10 && maximum < TWO64
  {
    if result > ((maximum - digit) % TWO64) / 10 then None else Some((result * 10 + digit) % TWO64)
  }

  function Scan(text: string, maximum: nat): Option<nat>
    requires maximum < TWO64
  {
    if text == [] then Some(0)
    else
      var before := Scan(text[..|text| - 1], maximum);
      var last := text[|text| - 1];
      if before.None? || !IsDigit(last) then None else Digit(before.value, ValueOf(last), maximum)
  }

  function Parse(text: string, minimum: nat, maximum: nat): Option<nat>
    requires maximum < TWO64
  {
    var scanned := Scan(text, maximum);
    if text != [] && scanned.Some? && minimum <= scanned.value <= maximum then scanned else None
  }

  /** What a parser should do: accept exactly the digit strings whose number is in the range. */
  ghost function Meant(text: string, minimum: nat, maximum: nat): Option<nat> {
    if text != [] && AllDigits(text) && minimum <= Number(text) <= maximum then Some(Number(text)) else None
  }

  /** With a maximum of at least 9 nothing wraps and the guard is the range check. */
  lemma DigitIsExact(result: nat, digit: nat, maximum: nat)
    requires digit < 10 && 9 <= maximum < TWO64 && result <= maximum
    ensures Digit(result, digit, maximum) == if result * 10 + digit <= maximum then Some(result * 10 + digit) else None
  {
    assert (maximum - digit) % TWO64 == maximum - digit;
  }

  lemma SplitLast(text: string)
    requires text != []
    ensures AllDigits(text) <==> AllDigits(text[..|text| - 1]) && IsDigit(text[|text| - 1])
  {
    assert text == text[..|text| - 1] + [text[|text| - 1]];
  }

  lemma {:induction false} ScanIsExact(text: string, maximum: nat)
    requires 9 <= maximum < TWO64
    ensures Scan(text, maximum) == if AllDigits(text) && Number(text) <= maximum then Some(Number(text)) else None
  {
    if text != [] {
      var front, last := text[..|text| - 1], text[|text| - 1];
      SplitLast(text);
      ScanIsExact(front, maximum);
      if AllDigits(text) && Number(front) <= maximum {
        DigitIsExact(Number(front), ValueOf(last), maximum);
      }
    }
  }

  /** With a smaller maximum the guard's subtraction wraps for every digit above it. What passes has
      only such digits after the first, */
  predicate OnlyLargeDigits(n: nat, maximum: nat) {
    n < 10 || (n % 10 > maximum && OnlyLargeDigits(n / 10, maximum))
  }

  function Shorter(n: nat, digits: nat): nat {
    if digits == 0 then n else Shorter(n / 10, digits - 1)
  }

  lemma {:induction false} ShorterKeepsLargeDigits(n: nat, digits: nat, maximum: nat)
    requires OnlyLargeDigits(n, maximum)
    ensures OnlyLargeDigits(Shorter(n, digits), maximum)
  {
    if digits > 0 {
      ShorterKeepsLargeDigits(n / 10, digits - 1, maximum);
    }
  }

  const EDGE: nat := 1_844_674_407_370_955_161

  lemma EdgeHasAZero()
    ensures Shorter(EDGE, 10) == 184_467_440
  {
  }

  /** and the only number that one more digit could still wrap around has a zero in it. */
  lemma NothingWraps(result: nat, maximum: nat)
    requires OnlyLargeDigits(result, maximum) && result * 10 < TWO64
    ensures result * 10 + 9 < TWO64
  {
    EdgeHasAZero();
    ShorterKeepsLargeDigits(result, 10, maximum);
    assert result < EDGE;
  }

  lemma SmallDigitIsExact(result: nat, digit: nat, maximum: nat)
    requires digit < 10 && maximum < 9 && OnlyLargeDigits(result, maximum)
    ensures Digit(result, digit, maximum) ==
            if (digit <= maximum && result > 0) || result * 10 >= TWO64 then None else Some(result * 10 + digit)
  {
    if digit > maximum {
      assert (maximum - digit) % TWO64 == TWO64 + maximum - digit;
    }
    if result * 10 < TWO64 {
      NothingWraps(result, maximum);
    }
  }

  lemma {:induction false} SmallScan(text: string, maximum: nat)
    requires maximum < 9
    ensures var scanned := Scan(text, maximum);
            && (scanned.Some? ==> AllDigits(text) && scanned.value == Number(text) && OnlyLargeDigits(scanned.value, maximum))
            && (AllDigits(text) && Number(text) <= maximum ==> scanned.Some?)
  {
    if text != [] {
      var front, last := text[..|text| - 1], text[|text| - 1];
      SplitLast(text);
      SmallScan(front, maximum);
      var before := Scan(front, maximum);
      if before.Some? && IsDigit(last) {
        SmallDigitIsExact(before.value, ValueOf(last), maximum);
      }
    }
  }

  /** For every 64-bit range and every text, whatever its length, the parser accepts exactly the
      digit strings whose number is in the range, although its guard can wrap. */
  lemma ParseIsExact(text: string, minimum: nat, maximum: nat)
    requires maximum < TWO64
    ensures Parse(text, minimum, maximum) == Meant(text, minimum, maximum)
  {
    if maximum >= 9 {
      ScanIsExact(text, maximum);
    } else {
      SmallScan(text, maximum);
    }
  }

  /** The text of a number is read back as that number exactly when it is in the range. */
  lemma DecimalRoundTrip(n: nat, minimum: nat, maximum: nat)
    requires maximum < TWO64
    ensures Parse(Decimal(n), minimum, maximum) == if minimum <= n <= maximum then Some(n) else None
  {
    NumberOfDecimal(n);
    ParseIsExact(Decimal(n), minimum, maximum);
  }

  /** `parse_u64`; the source's null pointer is None, and the text ends where its NUL is. */
  method ParseU64(value: Option<string>, minimum: nat, maximum: nat) returns (parsed: Option<nat>)
    requires maximum < TWO64
    ensures parsed == if value.None? then None else Meant(value.value, minimum, maximum)
  {
    if value.None? || value.value == [] {
      return None;
    }
    var text := value.value;
    ParseIsExact(text, minimum, maximum);
    var result := 0;
    for index := 0 to |text|
      invariant Scan(text[..index], maximum) == Some(result)
    {
      ScanNext(text, index, maximum);
      if !IsDigit(text[index]) || result > ((maximum - ValueOf(text[index])) % TWO64) / 10 {
        ScanStops(text, index + 1, maximum);
        return None;
      }
      result := (result * 10 + ValueOf(text[index])) % TWO64;
    }
    assert text[..|text|] == text;
    parsed := if minimum <= result <= maximum then Some(result) else None;
  }

  lemma ScanNext(text: string, index: nat, maximum: nat)
    requires index < |text| && maximum < TWO64
    ensures Scan(text[..index + 1], maximum) ==
            var before := Scan(text[..index], maximum);
            if before.None? || !IsDigit(text[index]) then None else Digit(before.value, ValueOf(text[index]), maximum)
  {
    assert text[..index + 1][..index] == text[..index];
  }

  lemma {:induction false} ScanStops(text: string, n: nat, maximum: nat)
    requires n <= |text| && maximum < TWO64 && Scan(text[..n], maximum).None?
    ensures Scan(text, maximum).None?
    decreases |text|
  {
    if n < |text| {
      assert text[..|text| - 1][..n] == text[..n];
      ScanStops(text[..|text| - 1], n, maximum);
    } else {
      assert text[..n] == text;
    }
  }

  // ----- The line builder

  datatype Line = Line(text: string, overflow: bool)

  /** A piece goes in whole, or the line has overflowed for good. */
  function Append(l: Line, piece: string): Line
    requires |l.text| <= LINE_BYTES
  {
    if l.overflow || |piece| > LINE_BYTES - |l.text| then l.(overflow := true) else l.(text := l.text + piece)
  }

  function AppendEach(l: Line, text: string): (after: Line)
    requires |l.text| <= LINE_BYTES
    ensures |after.text| <= LINE_BYTES
    decreases |text|
  {
    if text == [] then l else AppendEach(Append(l, [text[0]]), text[1..])
  }

  /** Character by character a text goes in as it does in one piece, unless it overflows. */
  lemma {:induction false} EachIsWhole(l: Line, text: string)
    requires |l.text| <= LINE_BYTES && text != []
    ensures AppendEach(l, text).overflow == Append(l, text).overflow
    ensures !Append(l, text).overflow ==> AppendEach(l, text) == Append(l, text)
    decreases |text|
  {
    var next := Append(l, [text[0]]);
    if |text| > 1 {
      EachIsWhole(next, text[1..]);
      assert l.text + [text[0]] + text[1..] == l.text + text;
    } else {
      assert text == [text[0]];
      assert AppendEach(l, text) == AppendEach(next, []);
    }
  }

  function PowerOfTen(k: nat): nat {
    if k == 0 then 1 else 10 * PowerOfTen(k - 1)
  }

  lemma {:induction false} DecimalLength(n: nat, k: nat)
    requires n < PowerOfTen(k) && k > 0
    ensures |Decimal(n)| <= k
    decreases k
  {
    if n >= 10 {
      DecimalLength(n / 10, k - 1);
    }
  }

  lemma SixtyFourBitsFit()
    ensures TWO64 < PowerOfTen(20)
  {
    assert PowerOfTen(10) == 10_000_000_000;
    assert PowerOfTen(15) == 1_000_000_000_000_000;
    assert PowerOfTen(20) == 100_000_000_000_000_000_000;
  }

  function Backwards(digits: seq<char>): string {
    if digits == [] then [] else [digits[|digits| - 1]] + Backwards(digits[..|digits| - 1])
  }

  class Builder {
    var data: array<char>
    var length: nat
    var overflow: bool

    ghost predicate Valid()
      reads this
    {
      data.Length == LINE_BYTES && length <= LINE_BYTES
    }

    ghost function View(): Line
      reads this, data
      requires Valid()
    {
      Line(data[..length], overflow)
    }

    constructor ()
      ensures Valid() && fresh(data) && View() == Line([], false)
    {
      data := new char[LINE_BYTES](_ => '\0');
      length, overflow := 0, false;
    }

    /** `builder_bytes` */
    method Bytes(value: string)
      requires Valid()
      modifies this`length, this`overflow, data
      ensures Valid() && View() == Append(old(View()), value)
    {
      if overflow || |value| > LINE_BYTES - length {
        overflow := true;
        return;
      }
      for index := 0 to |value|
        invariant length == old(length) && !overflow && data[..length] == old(data[..length])
        invariant data[length..length + index] == value[..index]
      {
        data[length + index] := value[index];
        assert data[length..length + index + 1] == data[length..length + index] + [value[index]];
      }
      assert data[..length + |value|] == data[..length] + data[length..length + |value|];
      length := length + |value|;
    }

    /** `builder_u64`: digits from the last to the first into a small buffer, then out again. */
    method U64(value: nat)
      requires Valid() && value < TWO64
      modifies this`length, this`overflow, data
      ensures Valid() && View() == AppendEach(old(View()), Decimal(value))
      ensures View().overflow == Append(old(View()), Decimal(value)).overflow
      ensures !View().overflow ==> View().text == old(View()).text + Decimal(value)
    {
      EachIsWhole(View(), Decimal(value));
      var digits := new char[32];
      var count := Digits(value, digits);
      ghost var all := count;
      ghost var written := digits[..];
      while count != 0
        invariant 0 <= count <= all <= 32 && Valid()
        invariant digits[..] == written
        invariant AppendEach(old(View()), Decimal(value)) == AppendEach(View(), Backwards(digits[..count]))
      {
        count := count - 1;
        assert digits[..count + 1][..count] == digits[..count];
        assert Backwards(digits[..count + 1])[1..] == Backwards(digits[..count]);
        Bytes([digits[count]]);
      }
    }

    static method Digits(value: nat, digits: array<char>) returns (count: nat)
      requires value < TWO64 && digits.Length == 32
      modifies digits
      ensures count <= 20 && Backwards(digits[..count]) == Decimal(value)
    {
      SixtyFourBitsFit();
      DecimalLength(value, 20);
      var v := value;
      count := 0;
      ghost var taken := "";
      while true
        invariant count < |Decimal(value)| <= 20 && digits[..count] == taken
        invariant Decimal(value) == Decimal(v) + Backwards(taken)
        decreases v
      {
        OneDigitMore(value, v, taken);
        digits[count] := DigitOf(v % 10);
        taken := taken + [DigitOf(v % 10)];
        assert digits[..count + 1] == taken;
        count := count + 1;
        v := v / 10;
        if v == 0 {
          return;
        }
      }
    }
  }

  lemma BackwardsMore(digits: string, last: char)
    ensures Backwards(digits + [last]) == [last] + Backwards(digits)
  {
    assert (digits + [last])[..|digits|] == digits;
  }

  lemma Regroup(front: string, last: char, back: string)
    ensures (front + [last]) + back == front + ([last] + back)
  {
  }

  lemma LastDigit(v: nat)
    ensures v < 10 ==> Decimal(v) == [DigitOf(v % 10)]
    ensures v >= 10 ==> Decimal(v) == Decimal(v / 10) + [DigitOf(v % 10)]
  {
  }

  /** Moving the last digit of the rest over to the buffer. */
  lemma OneDigitMore(value: nat, v: nat, digits: string)
    requires Decimal(value) == Decimal(v) + Backwards(digits)
    ensures |digits| < |Decimal(value)|
    ensures v < 10 ==> Decimal(value) == Backwards(digits + [DigitOf(v % 10)])
    ensures v >= 10 ==> Decimal(value) == Decimal(v / 10) + Backwards(digits + [DigitOf(v % 10)])
                        && |digits| + 1 < |Decimal(value)|
  {
    var back, last := Backwards(digits), DigitOf(v % 10);
    var more := Backwards(digits + [last]);
    LastDigit(v);
    BackwardsMore(digits, last);
    BackwardsLength(digits);
    if v < 10 {
      assert Decimal(value) == [last] + back == more;
    } else {
      var front := Decimal(v / 10);
      Regroup(front, last, back);
      assert Decimal(value) == front + more;
      assert |more| == 1 + |digits| && |front| > 0;
    }
  }

  lemma {:induction false} BackwardsLength(digits: seq<char>)
    ensures |Backwards(digits)| == |digits|
  {
    if digits != [] {
      BackwardsLength(digits[..|digits| - 1]);
    }
  }
}
