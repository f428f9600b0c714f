/** Sequence numbers as text (internal/store/store.go, itoa, padLeft and formatSequence; internal/lock/manager.go, the
    digit loop of TryLock). Names are compared as Go compares strings, character by character from the front. */
module Decimal {

  const WIDTH: nat := 10
  const BOUND: nat := 10_000_000_000

  predicate IsDigit(c: char) {
    '0' <= c <= '9'
  }

  ghost predicate Digits(s: string) {
    forall i :: 0 <= i < |s| ==> IsDigit(s[i])
  }

  function Digit(d: nat): (c: char)
    requires d < 10
    ensures IsDigit(c) && DigitValue(c) == d
  {
    ('0' as int + d) as char
  }

  function DigitValue(c: char): (d: nat)
    requires IsDigit(c)
    ensures d < 10
  {
    c as int - '0' as int
  }

  function Itoa(n: nat): string {
    if n < 10 then [Digit(n)] else Itoa(n / 10) + [Digit(n % 10)]
  }

  function Repeat(c: char, n: nat): (s: string)
    ensures |s| == n && forall i :: 0 <= i < n ==> s[i] == c
  {
    seq(n, _ => c)
  }

  function Padded(s: string, length: nat, pad: char): string {
    if |s| >= length then s else Repeat(pad, length - |s|) + s
  }

  /** The suffix of a sequential node. The nested replacements in front of it come out empty. */
  function Format(n: nat): string {
    Padded(Itoa(n), WIDTH, '0')
  }

  /** What the digit loop reads. */
  ghost function Parse(s: string): nat
    requires Digits(s)
  {
    if s == "" then 0 else Parse(s[..|s| - 1]) * 10 + DigitValue(s[|s| - 1])
  }

  predicate Less(a: string, b: string) {
    b != "" && (a == "" || a[0] < b[0] || (a[0] == b[0] && Less(a[1..], b[1..])))
  }

  // The loops of the source.

  method ItoaLoop(n: nat) returns (s: string)
    ensures s == Itoa(n)
  {
    if n == 0 {
      return "0";
    }
    var rest := n;
    s := "";
    while rest > 0
      invariant if rest == 0 then s == Itoa(n) else Itoa(n) == Itoa(rest) + s
    {
      s := [Digit(rest % 10)] + s;
      rest := rest / 10;
    }
  }

  method PadLeft(s: string, length: nat, pad: char) returns (r: string)
    ensures r == Padded(s, length, pad)
  {
    if |s| >= length {
      return s;
    }
    var buffer := new char[length](_ => ' ');
    var shift := length - |s|;
    for i := 0 to shift
      invariant forall k :: 0 <= k < i ==> buffer[k] == pad
    {
      buffer[i] := pad;
    }
    for i := 0 to |s|
      invariant forall k :: 0 <= k < shift ==> buffer[k] == pad
      invariant forall k :: 0 <= k < i ==> buffer[shift + k] == s[k]
    {
      buffer[shift + i] := s[i];
    }
    r := buffer[..];
  }

  method ParseLoop(s: string) returns (n: nat)
    requires Digits(s)
    ensures n == Parse(s)
  {
    n := 0;
    for i := 0 to |s|
      invariant n == Parse(s[..i])
    {
      assert s[..i + 1][..i] == s[..i];
      n := n * 10 + DigitValue(s[i]);
    }
    assert s[..|s|] == s;
  }

  // Round trip.

  lemma {:induction false} ItoaParses(n: nat)
    ensures Digits(Itoa(n)) && Parse(Itoa(n)) == n && Itoa(n) != ""
  {
    if n >= 10 {
      ItoaParses(n / 10);
      var s := Itoa(n);
      assert s[..|s| - 1] == Itoa(n / 10);
    } else {
      assert Itoa(n)[..0] == "";
    }
  }

  lemma {:induction false} LeadingZeros(k: nat, s: string)
    requires Digits(s)
    ensures Digits(Repeat('0', k) + s) && Parse(Repeat('0', k) + s) == Parse(s)
  {
    var padded := Repeat('0', k) + s;
    if s != "" {
      LeadingZeros(k, s[..|s| - 1]);
      assert padded[..|padded| - 1] == Repeat('0', k) + s[..|s| - 1];
    } else if k > 0 {
      LeadingZeros(k - 1, s);
      assert padded[..|padded| - 1] == Repeat('0', k - 1) + s;
    }
  }

  /** The digit loop recovers the number that was formatted, whatever its size. */
  lemma FormatParses(n: nat)
    ensures Digits(Format(n)) && Parse(Format(n)) == n
  {
    ItoaParses(n);
    if |Itoa(n)| < WIDTH {
      LeadingZeros(WIDTH - |Itoa(n)|, Itoa(n));
    }
  }

  lemma FormatInjective(a: nat, b: nat)
    ensures Format(a) == Format(b) <==> a == b
  {
    FormatParses(a);
    FormatParses(b);
  }

  // Order.

  lemma {:induction false} LessSnoc(a: string, b: string, x: char, y: char)
    requires |a| == |b|
    ensures Less(a + [x], b + [y]) <==> Less(a, b) || (a == b && x < y)
  {
    if a != "" {
      assert (a + [x])[1..] == a[1..] + [x] && (b + [y])[1..] == b[1..] + [y];
      LessSnoc(a[1..], b[1..], x, y);
      assert a == b <==> a[0] == b[0] && a[1..] == b[1..] by {
        assert a == [a[0]] + a[1..] && b == [b[0]] + b[1..];
      }
    } else {
      assert a + [x] == [x] && b + [y] == [y];
    }
  }

  /** Digit strings of one length are ordered like their values. */
  lemma {:induction false} SameLengthOrder(a: string, b: string)
    requires |a| == |b| && Digits(a) && Digits(b)
    ensures Less(a, b) <==> Parse(a) < Parse(b)
    ensures a == b <==> Parse(a) == Parse(b)
  {
    if a != "" {
      var k := |a| - 1;
      SameLengthOrder(a[..k], b[..k]);
      assert a == a[..k] + [a[k]] && b == b[..k] + [b[k]];
      LessSnoc(a[..k], b[..k], a[k], b[k]);
    }
  }

  ghost function Power(k: nat): nat {
    if k == 0 then 1 else 10 * Power(k - 1)
  }

  lemma {:induction false} ItoaLength(n: nat, k: nat)
    requires k >= 1
    ensures |Itoa(n)| <= k <==> n < Power(k)
  {
    if k == 1 {
      assert Power(1) == 10 * Power(0) == 10;
      ItoaParses(n / 10);
    } else if n >= 10 {
      ItoaLength(n / 10, k - 1);
    } else {
      PowerGrows(k);
    }
  }

  lemma {:induction false} PowerGrows(k: nat)
    requires k >= 1
    ensures Power(k) >= 10
  {
    if k > 1 {
      PowerGrows(k - 1);
    }
  }

  lemma PowerOfTen()
    ensures Power(WIDTH) == BOUND
  {
    assert Power(2) == 100;
    assert Power(4) == 10_000;
    assert Power(6) == 1_000_000;
    assert Power(8) == 100_000_000;
  }

  /** The padded text has the fixed width exactly below the bound. */
  lemma FormatWidth(n: nat)
    ensures |Format(n)| == WIDTH <==> n < BOUND
    ensures |Format(n)| >= WIDTH
  {
    ItoaLength(n, WIDTH);
    PowerOfTen();
  }

  /** Below the bound, padded text is ordered exactly like the numbers. */
  lemma FormatOrder(a: nat, b: nat)
    requires a < BOUND && b < BOUND
    ensures Less(Format(a), Format(b)) <==> a < b
  {
    FormatWidth(a);
    FormatWidth(b);
    FormatParses(a);
    FormatParses(b);
    SameLengthOrder(Format(a), Format(b));
  }

  lemma {:induction false} NinesAndPower(k: nat)
    ensures Itoa(Power(k)) == ['1'] + Repeat('0', k)
    ensures k >= 1 ==> Itoa(Power(k) - 1) == Repeat('9', k)
  {
    if k == 0 {
      assert Itoa(1) == ['1'] + Repeat('0', 0);
    } else {
      NinesAndPower(k - 1);
      assert Power(k) / 10 == Power(k - 1) && Power(k) % 10 == 0;
      assert ['1'] + Repeat('0', k - 1) + ['0'] == ['1'] + Repeat('0', k);
      if k == 1 {
        assert Itoa(9) == Repeat('9', 1);
      } else {
        PowerGrows(k - 1);
        assert (Power(k) - 1) / 10 == Power(k - 1) - 1 && (Power(k) - 1) % 10 == 9;
        assert Repeat('9', k - 1) + ['9'] == Repeat('9', k);
      }
      PowerGrows(k);
    }
  }

  /** The bound is tight: the first number past it sorts before its predecessor. */
  lemma BoundIsTight()
    ensures Less(Format(BOUND), Format(BOUND - 1))
    ensures Format(BOUND)[0] == '1' && Format(BOUND - 1)[0] == '9'
  {
    NinesAndPower(WIDTH);
    PowerOfTen();
  }

  lemma {:induction false} LessPrefix(p: string, a: string, b: string)
    ensures Less(p + a, p + b) <==> Less(a, b)
  {
    if p == "" {
      assert p + a == a && p + b == b;
    } else {
      assert (p + a)[1..] == p[1..] + a && (p + b)[1..] == p[1..] + b;
      LessPrefix(p[1..], a, b);
    }
  }

  lemma {:induction false} LessIsTotal(a: string, b: string)
    ensures Less(a, b) || a == b || Less(b, a)
    ensures !(Less(a, b) && Less(b, a)) && (a == b ==> !Less(a, b))
  {
    if a != "" && b != "" && a[0] == b[0] {
      LessIsTotal(a[1..], b[1..]);
      assert a == [a[0]] + a[1..] && b == [b[0]] + b[1..];
    }
  }

  lemma {:induction false} LessIsTransitive(a: string, b: string, c: string)
    requires Less(a, b) && Less(b, c)
    ensures Less(a, c)
  {
    if a != "" && a[0] == b[0] == c[0] {
      LessIsTransitive(a[1..], b[1..], c[1..]);
    }
  }
}
