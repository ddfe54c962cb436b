/** Decimal text: String(n), padStart, parsing back, and the order of strings. */
module Text {

  lemma Assoc<T>(a: seq<T>, b: seq<T>, c: seq<T>)
    ensures (a + b) + c == a + (b + c)
  {
  }

  function Digit(d: nat): char
    requires d < 10
  {
    '0' + d as char
  }

  predicate IsDigit(c: char)
  {
    '0' <= c <= '9'
  }

  predicate Digits(s: string)
  {
    forall i :: 0 <= i < |s| ==> IsDigit(s[i])
  }

  function DigitValue(c: char): nat
    requires IsDigit(c)
  {
    c as int - '0' as int
  }

  /** String(n) of a natural number. */
  function Dec(n: nat): (s: string)
    ensures |s| > 0 && Digits(s)
  {
    if n < 10 then [Digit(n)] else Dec(n / 10) + [Digit(n % 10)]
  }

  function Zeros(n: nat): (s: string)
    ensures |s| == n && Digits(s)
  {
    seq(n, _ => '0')
  }

  /** s.padStart(width, '0') */
  function PadStart(s: string, width: nat): string
  {
    if |s| >= width then s else Zeros(width - |s|) + s
  }

  /** The number a string of digits denotes. */
  function NatOf(s: string): nat
    requires Digits(s)
  {
    if s == [] then 0 else 10 * NatOf(s[..|s| - 1]) + DigitValue(s[|s| - 1])
  }

  lemma {:induction false} DecParses(n: nat)
    ensures NatOf(Dec(n)) == n
  {
    if n >= 10 {
      DecParses(n / 10);
      assert Dec(n)[..|Dec(n)| - 1] == Dec(n / 10);
    }
  }

  lemma {:induction false} ZerosVanish(k: nat, s: string)
    requires Digits(s)
    ensures NatOf(Zeros(k) + s) == NatOf(s)
  {
    var t := Zeros(k) + s;
    if s != [] {
      ZerosVanish(k, s[..|s| - 1]);
      assert t[..|t| - 1] == Zeros(k) + s[..|s| - 1];
    } else if k > 0 {
      ZerosVanish(k - 1, s);
      assert t[..k - 1] == Zeros(k - 1) + s;
    }
  }

  /** Padding does not change the number. */
  lemma PaddedParses(n: nat, width: nat)
    ensures Digits(PadStart(Dec(n), width)) && NatOf(PadStart(Dec(n), width)) == n
  {
    DecParses(n);
    if |Dec(n)| < width {
      ZerosVanish(width - |Dec(n)|, Dec(n));
    }
  }

  function Pow10(w: nat): nat
  {
    if w == 0 then 1 else 10 * Pow10(w - 1)
  }

  /** A number has at most w digits exactly when it is below the w-th power of ten. */
  lemma {:induction false} DecLength(n: nat, w: nat)
    requires w > 0
    ensures |Dec(n)| <= w <==> n < Pow10(w)
  {
    if w == 1 {
      assert Pow10(1) == 10;
    } else if n < 10 {
      PowPositive(w - 1);
    } else {
      DecLength(n / 10, w - 1);
    }
  }

  lemma {:induction false} PowPositive(w: nat)
    ensures Pow10(w) >= 1
  {
    if w > 0 {
      PowPositive(w - 1);
    }
  }

  lemma PaddedLength(n: nat, w: nat)
    requires w > 0
    ensures |PadStart(Dec(n), w)| >= w
    ensures |PadStart(Dec(n), w)| == w <==> n < Pow10(w)
  {
    DecLength(n, w);
  }

  // ---------------------------------------------------------------- the order of strings

  /** Lexicographic order by code points. */
  predicate Less(a: string, b: string)
  {
    b != [] && (a == [] || a[0] < b[0] || (a[0] == b[0] && Less(a[1..], b[1..])))
  }

  lemma {:induction false} LessAfter(p: string, a: string, b: string)
    ensures Less(p + a, p + b) <==> Less(a, b)
  {
    if p == [] {
      assert p + a == a && p + b == b;
    } else {
      LessAfter(p[1..], a, b);
      assert (p + a)[1..] == p[1..] + a && (p + b)[1..] == p[1..] + b;
    }
  }

  lemma TenTimes(x: nat, p: nat)
    ensures x * (10 * p) == 10 * (x * p)
  {
  }

  lemma {:induction false} NatOfHead(s: string)
    requires Digits(s) && s != []
    ensures NatOf(s) == DigitValue(s[0]) * Pow10(|s| - 1) + NatOf(s[1..])
    ensures NatOf(s[1..]) < Pow10(|s| - 1)
  {
    if |s| == 1 {
      assert s[..0] == [] && s[1..] == [];
    } else {
      var front := s[..|s| - 1];
      NatOfHead(front);
      assert s[1..][..|s| - 2] == front[1..];
      assert Pow10(|s| - 1) == 10 * Pow10(|s| - 2);
      TenTimes(DigitValue(s[0]), Pow10(|s| - 2));
    }
  }

  lemma HeadDecides(x: nat, y: nat, p: nat, r: nat, q: nat)
    requires r < p && q < p
    ensures x < y ==> x * p + r < y * p + q
    ensures x > y ==> x * p + r > y * p + q
  {
    if x < y {
      assert (x + 1) * p <= y * p;
    } else if y < x {
      assert (y + 1) * p <= x * p;
    }
  }

  /** On digit strings of one length the order of strings is the order of numbers. */
  lemma {:induction false} LessIsNumeric(a: string, b: string)
    requires Digits(a) && Digits(b) && |a| == |b|
    ensures Less(a, b) <==> NatOf(a) < NatOf(b)
  {
    hide NatOf, Pow10;
    if a == [] {
      assert a == b;
    } else {
      NatOfHead(a);
      NatOfHead(b);
      LessIsNumeric(a[1..], b[1..]);
      HeadDecides(DigitValue(a[0]), DigitValue(b[0]), Pow10(|a| - 1), NatOf(a[1..]), NatOf(b[1..]));
    }
  }

  // ---------------------------------------------------------------- split, startsWith, parseInt

  predicate StartsWith(s: string, prefix: string)
  {
    |prefix| <= |s| && s[..|prefix|] == prefix
  }

  function Split(s: string, separator: char): seq<string>
  {
    if s == [] then [[]]
    else
      var rest := Split(s[1..], separator);
      if s[0] == separator then [[]] + rest
      else if rest == [] then [[s[0]]]
      else [[s[0]] + rest[0]] + rest[1..]
  }

  lemma {:induction false} SplitAt(a: string, separator: char, b: string)
    requires separator !in a
    ensures Split(a, separator) == [a]
    ensures Split(a + [separator] + b, separator) == [a] + Split(b, separator)
  {
    var s := a + [separator] + b;
    if a == [] {
      assert s[1..] == b;
    } else {
      SplitAt(a[1..], separator, b);
      assert s[1..] == a[1..] + [separator] + b;
      assert a == [a[0]] + a[1..];
    }
  }

  function LeadingDigits(s: string): (r: string)
    ensures Digits(r) && |r| <= |s|
  {
    if s == [] || !IsDigit(s[0]) then [] else [s[0]] + LeadingDigits(s[1..])
  }

  lemma {:induction false} LeadingDigitsThen(digits: string, rest: string)
    requires Digits(digits) && (rest == [] || !IsDigit(rest[0]))
    ensures LeadingDigits(digits + rest) == digits
  {
    if digits == [] {
      assert digits + rest == rest;
    } else {
      LeadingDigitsThen(digits[1..], rest);
      assert (digits + rest)[1..] == digits[1..] + rest;
    }
  }
}
