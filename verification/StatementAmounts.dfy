/** Amounts in bank statement files: which of comma and point is the decimal separator, and which groups thousands. */
module StatementAmounts {
  import opened Results
  import opened Text
  import opened CsvRows

  /** units divided by ten to the power of scale. */
  datatype Decimal = Decimal(units: int, scale: nat)

  // ---------------------------------------------------------------- the string operations

  function TrimStart(s: string): string
  {
    if s == [] || !IsSpace(s[0]) then s else TrimStart(s[1..])
  }

  function TrimEnd(s: string): string
  {
    if s == [] || !IsSpace(s[|s| - 1]) then s else TrimEnd(s[..|s| - 1])
  }

  /** replace(/\s+/g, '') */
  function Squeeze(s: string): string
  {
    if s == [] then [] else (if IsSpace(s[0]) then [] else [s[0]]) + Squeeze(s[1..])
  }

  function LastIndex(s: string, c: char): (i: int)
    ensures -1 <= i < |s|
  {
    if s == [] then -1 else if s[|s| - 1] == c then |s| - 1 else LastIndex(s[..|s| - 1], c)
  }

  /** Every occurrence removed. */
  function Without(s: string, c: char): string
  {
    if s == [] then [] else (if s[0] == c then [] else [s[0]]) + Without(s[1..], c)
  }

  function ReplaceFirst(s: string, c: char, d: char): string
  {
    if s == [] then [] else if s[0] == c then [d] + s[1..] else [s[0]] + ReplaceFirst(s[1..], c, d)
  }

  /** Number(s) of an unsigned text of digits and at most one point; an empty text is 0, any other is not a number. */
  function Number(s: string): Option<Decimal>
  {
    var parts := Split(s, '.');
    if s == [] then Some(Decimal(0, 0))
    else if |parts| == 1 && Digits(s) then Some(Decimal(NatOf(s), 0))
    else if |parts| == 2 && Digits(parts[0] + parts[1]) && parts[0] + parts[1] != []
    then Some(Decimal(NatOf(parts[0] + parts[1]), |parts[1]|))
    else None
  }

  // ---------------------------------------------------------------- parseDecimal

  /** The text handed to Number: grouping removed, the decimal separator a point. */
  function Normalized(s: string): string
  {
    var lastComma, lastPoint := LastIndex(s, ','), LastIndex(s, '.');
    if lastComma > -1 && lastPoint > -1 then
      if lastComma > lastPoint then ReplaceFirst(Without(s, '.'), ',', '.') else Without(s, ',')
    else if lastComma > -1 && 1 <= |s| - lastComma - 1 <= 3 then ReplaceFirst(Without(s, '.'), ',', '.')
    else Without(s, ',')
  }

  function ParseUnsigned(s: string, negative: bool): Option<Decimal>
  {
    var number := Number(Normalized(s));
    if number.None? then None
    else Some(number.value.(units := if negative then -number.value.units else number.value.units))
  }

  function ParseTrimmed(trimmed: string): Option<Decimal>
  {
    if trimmed == [] then None
    else
      var parenthesised := trimmed[0] == '(' && trimmed[|trimmed| - 1] == ')';
      ParseSigned(Squeeze(if parenthesised then trimmed[Clip(trimmed)..|trimmed| - 1] else trimmed), parenthesised)
  }

  function ParseSigned(inner: string, parenthesised: bool): Option<Decimal>
  {
    if inner != [] && inner[0] == '+' then ParseUnsigned(inner[1..], parenthesised)
    else if inner != [] && inner[0] == '-' then ParseUnsigned(inner[1..], !parenthesised)
    else ParseUnsigned(inner, parenthesised)
  }

  /** None where the parser throws. */
  function ParseDecimal(value: string): Option<Decimal>
  {
    ParseTrimmed(TrimEnd(TrimStart(value)))
  }

  /** slice(1, -1) of a single character is empty. */
  function Clip(s: string): (k: nat)
    requires s != []
    ensures k <= |s| - 1
  {
    if |s| == 1 then 0 else 1
  }

  // ---------------------------------------------------------------- amounts as banks print them

  /** Digits, starting with one, possibly grouped. */
  predicate Whole(s: string, group: char)
  {
    s != [] && IsDigit(s[0]) && forall c :: c in s ==> IsDigit(c) || c == group
  }

  predicate Separators(group: char, point: char)
  {
    (group == ',' && point == '.') || (group == '.' && point == ',')
  }

  datatype Sign = Plain | Plus | Minus | Parentheses

  function Signed(sign: Sign, s: string): string
  {
    match sign
    case Plain => s
    case Plus => "+" + s
    case Minus => "-" + s
    case Parentheses => "(" + s + ")"
  }

  // ---------------------------------------------------------------- what the operations do to them

  lemma {:induction false} WithoutConcat(a: string, b: string, c: char)
    ensures Without(a + b, c) == Without(a, c) + Without(b, c)
  {
    if a == [] {
      assert a + b == b;
    } else {
      WithoutConcat(a[1..], b, c);
      assert (a + b)[1..] == a[1..] + b && (a + b)[0] == a[0];
      var head := if a[0] == c then [] else [a[0]];
      assert Without(a, c) == head + Without(a[1..], c) && Without(a + b, c) == head + Without(a[1..] + b, c);
      hide Without;
      Assoc(head, Without(a[1..], c), Without(b, c));
    }
  }

  lemma {:induction false} WithoutAbsent(s: string, c: char)
    requires c !in s
    ensures Without(s, c) == s
  {
    if s != [] {
      WithoutAbsent(s[1..], c);
    }
  }

  lemma {:induction false} WithoutMembers(s: string, c: char)
    ensures forall x :: x in Without(s, c) <==> x in s && x != c
  {
    if s != [] {
      WithoutMembers(s[1..], c);
      assert s == [s[0]] + s[1..];
    }
  }

  /** What is left of a grouped number are its digits, at least one. */
  lemma UngroupedDigits(whole: string, group: char)
    requires Whole(whole, group) && !IsDigit(group)
    ensures Digits(Without(whole, group)) && Without(whole, group) != []
  {
    WithoutMembers(whole, group);
    assert whole[0] in Without(whole, group);
    forall i | 0 <= i < |Without(whole, group)| ensures IsDigit(Without(whole, group)[i]) {
      assert Without(whole, group)[i] in Without(whole, group);
    }
  }

  lemma {:induction false} ReplaceAt(a: string, c: char, d: char, b: string)
    requires c !in a
    ensures ReplaceFirst(a + [c] + b, c, d) == a + [d] + b
  {
    var s := a + [c] + b;
    if a == [] {
      assert s == [c] + b && s[1..] == b;
    } else {
      ReplaceAt(a[1..], c, d, b);
      assert s[1..] == a[1..] + [c] + b;
    }
  }

  lemma {:induction false} LastIndexAt(a: string, c: char, b: string)
    requires c !in b
    ensures LastIndex(a + [c] + b, c) == |a|
    ensures c !in a ==> LastIndex(a, c) == -1
    decreases |a| + |b|
  {
    var s := a + [c] + b;
    if b != [] {
      var front := b[..|b| - 1];
      LastIndexAt(a, c, front);
      assert s[..|s| - 1] == a + [c] + front;
    } else if a != [] {
      LastIndexAt(a[..|a| - 1], c, []);
    }
  }

  /** The last occurrence of another character lies before, or there is none. */
  lemma {:induction false} LastIndexBefore(a: string, b: string, c: char)
    requires c !in b
    ensures LastIndex(a + b, c) == LastIndex(a, c) && (LastIndex(a, c) == -1 <==> c !in a)
    decreases |a| + |b|
  {
    var s := a + b;
    if b != [] {
      LastIndexBefore(a, b[..|b| - 1], c);
      assert s[..|s| - 1] == a + b[..|b| - 1];
    } else {
      assert s == a;
      if a != [] {
        LastIndexBefore(a[..|a| - 1], [], c);
        assert a[..|a| - 1] + [] == a[..|a| - 1];
      }
    }
  }

  lemma NumberOfPoint(a: string, b: string)
    requires Digits(a) && Digits(b) && a + b != []
    ensures Number(a + "." + b) == Some(Decimal(NatOf(a + b), |b|))
  {
    hide Split, NatOf;
    assert '.' !in a && '.' !in b;
    SplitAt(a, '.', b);
    SplitAt(b, '.', []);
    assert a + "." + b == a + ['.'] + b;
  }

  lemma DigitsConcat(a: string, b: string)
    requires Digits(a) && Digits(b)
    ensures Digits(a + b)
  {
  }

  // ---------------------------------------------------------------- reading them back

  /** The decimal separator is recognised: a lone comma only in front of one to three digits. */
  predicate Recognised(whole: string, group: char, point: char, decimals: string)
  {
    point == '.' || group in whole || 1 <= |decimals| <= 3
  }

  /** Recognised, the separators end up where Number expects them; otherwise the comma is dropped. */
  lemma NormalizedAmount(whole: string, group: char, point: char, decimals: string)
    requires Separators(group, point) && Whole(whole, group) && Digits(decimals)
    ensures Normalized(whole + [point] + decimals)
         == Without(whole, group) + (if Recognised(whole, group, point, decimals) then "." else "") + decimals
  {
    hide LastIndex, Without, ReplaceFirst;
    var s := whole + [point] + decimals;
    assert point !in decimals && group !in decimals && group !in [point] + decimals;
    LastIndexAt(whole, point, decimals);
    LastIndexBefore(whole, [point] + decimals, group);
    assert s == whole + ([point] + decimals);
    WithoutConcat(whole, [point] + decimals, group);
    WithoutAbsent([point] + decimals, group);
    var digits := Without(whole, group);
    assert Without(s, group) == digits + [point] + decimals;
    WithoutMembers(whole, group);
    assert point !in digits;
    ReplaceAt(digits, point, '.', decimals);
    if !Recognised(whole, group, point, decimals) {
      WithoutAbsent(whole, group);
      WithoutMiddle(whole, ',', decimals);
    }
  }

  /** A text without whitespace passes through trimming and squeezing. */
  predicate Dense(s: string)
  {
    forall i :: 0 <= i < |s| ==> !IsSpace(s[i])
  }

  lemma {:induction false} DenseSqueezed(s: string)
    requires Dense(s)
    ensures Squeeze(s) == s && TrimEnd(TrimStart(s)) == s
  {
    if s != [] {
      DenseSqueezed(s[1..]);
      assert s == [s[0]] + s[1..];
    }
  }

  lemma {:induction false} SqueezeConcat(a: string, b: string)
    ensures Squeeze(a + b) == Squeeze(a) + Squeeze(b)
  {
    if a == [] {
      assert a + b == b;
    } else {
      SqueezeConcat(a[1..], b);
      assert (a + b)[1..] == a[1..] + b && (a + b)[0] == a[0];
      Assoc(if IsSpace(a[0]) then [] else [a[0]], Squeeze(a[1..]), Squeeze(b));
    }
  }

  lemma {:induction false} SqueezedIsDense(s: string)
    ensures Dense(Squeeze(s))
  {
    if s != [] {
      SqueezedIsDense(s[1..]);
    }
  }

  lemma {:induction false} TrimmedStart(s: string)
    ensures Squeeze(TrimStart(s)) == Squeeze(s)
    ensures TrimStart(s) == [] || !IsSpace(TrimStart(s)[0])
  {
    if s != [] && IsSpace(s[0]) {
      TrimmedStart(s[1..]);
    }
  }

  lemma {:induction false} TrimmedEnd(s: string)
    requires s == [] || !IsSpace(s[0])
    ensures Squeeze(TrimEnd(s)) == Squeeze(s)
    ensures var t := TrimEnd(s); t == [] || (!IsSpace(t[0]) && !IsSpace(t[|t| - 1]))
  {
    if s != [] && IsSpace(s[|s| - 1]) {
      var front := s[..|s| - 1];
      TrimmedEnd(front);
      SqueezeConcat(front, [s[|s| - 1]]);
      assert s == front + [s[|s| - 1]];
    }
  }

  /** A text without space at its ends, squeezed: its ends stay, and so does what is squeezed of what is between. */
  lemma SqueezedEnds(t: string)
    requires |t| >= 2 && !IsSpace(t[0]) && !IsSpace(t[|t| - 1])
    ensures Squeeze(t) == [t[0]] + Squeeze(t[1..|t| - 1]) + [t[|t| - 1]]
  {
    var middle, last := t[1..|t| - 1], t[|t| - 1];
    SolidKept(t[0]);
    SolidKept(last);
    hide Squeeze, IsSpace;
    SqueezeConcat([t[0]] + middle, [last]);
    SqueezeConcat([t[0]], middle);
    assert t == [t[0]] + middle + [last];
  }

  lemma SolidKept(c: char)
    requires !IsSpace(c)
    ensures Squeeze([c]) == [c]
  {
  }

  lemma SqueezedTrimmed(t: string)
    requires t == [] || (!IsSpace(t[0]) && !IsSpace(t[|t| - 1]))
    ensures ParseTrimmed(t) == ParseTrimmed(Squeeze(t))
  {
    hide ParseSigned;
    if |t| >= 2 {
      var middle := t[1..|t| - 1];
      SqueezedEnds(t);
      SqueezedIsDense(t);
      SqueezedIsDense(middle);
      DenseSqueezed(Squeeze(t));
      DenseSqueezed(Squeeze(middle));
      hide Squeeze;
      assert Squeeze(t)[1..|Squeeze(t)| - 1] == Squeeze(middle);
    } else {
      assert t == [] || t == [t[0]];
    }
  }

  /** Parsing looks at the text without its spaces. */
  lemma SqueezedParses(s: string)
    ensures ParseDecimal(s) == ParseDecimal(Squeeze(s))
  {
    hide TrimStart, TrimEnd, Squeeze, ParseTrimmed;
    TrimmedStart(s);
    TrimmedEnd(TrimStart(s));
    SqueezedIsDense(s);
    DenseSqueezed(Squeeze(s));
    SqueezedTrimmed(TrimEnd(TrimStart(s)));
  }

  lemma SpaceSqueezed(space: char)
    requires IsSpace(space)
    ensures Squeeze([space]) == []
  {
  }

  /** A space of any kind, anywhere in the text, does not matter. */
  lemma SpacesDoNotMatter(a: string, space: char, b: string)
    requires IsSpace(space)
    ensures ParseDecimal(a + [space] + b) == ParseDecimal(a + b)
  {
    hide Squeeze, ParseDecimal;
    SqueezedParses(a + [space] + b);
    SqueezedParses(a + b);
    SqueezeConcat(a + [space], b);
    SqueezeConcat(a, [space]);
    SqueezeConcat(a, b);
    SpaceSqueezed(space);
    assert Squeeze(a) + [] == Squeeze(a);
  }

  lemma SignedDense(sign: Sign, body: string)
    requires Dense(body)
    ensures Dense(Signed(sign, body))
  {
    assert !IsSpace('+') && !IsSpace('-') && !IsSpace('(') && !IsSpace(')');
    hide IsSpace;
  }

  /** The sign in front or the parentheses around decide the sign and nothing else. */
  lemma SignDecides(sign: Sign, body: string)
    requires Dense(body) && body != [] && IsDigit(body[0]) && body[|body| - 1] != ')'
    ensures ParseDecimal(Signed(sign, body)) == ParseUnsigned(body, sign == Minus || sign == Parentheses)
  {
    hide ParseUnsigned, Squeeze, TrimStart, TrimEnd;
    var s := Signed(sign, body);
    SignedDense(sign, body);
    DenseSqueezed(s);
    DenseSqueezed(body);
    assert body == s || body == s[1..] || body == s[1..|s| - 1];
  }

  /**
    Any grouping, either separator, any number of decimals, any sign: the amount is read as it is meant, except that
    a lone comma in front of four digits or more is dropped and the digits are read as a whole number.
  */
  lemma AmountReadsBack(sign: Sign, whole: string, group: char, point: char, decimals: string)
    requires Separators(group, point) && Whole(whole, group) && Digits(decimals)
    ensures Digits(Without(whole, group) + decimals)
    ensures var units: int := NatOf(Without(whole, group) + decimals);
      ParseDecimal(Signed(sign, whole + [point] + decimals))
        == Some(Decimal(if sign == Minus || sign == Parentheses then -units else units,
                        if Recognised(whole, group, point, decimals) then |decimals| else 0))
  {
    hide Normalized, Without, Number, NatOf, ParseDecimal, Signed, Recognised;
    var body := whole + [point] + decimals;
    UngroupedDigits(whole, group);
    DigitsConcat(Without(whole, group), decimals);
    NormalizedAmount(whole, group, point, decimals);
    if Recognised(whole, group, point, decimals) {
      NumberOfPoint(Without(whole, group), decimals);
    } else {
      NumberOfDigits(Without(whole, group) + decimals);
      assert Without(whole, group) + "" + decimals == Without(whole, group) + decimals;
    }
    PrintedDense(whole, group, point, decimals);
    hide Dense, Whole, Separators, Digits;
    SignDecides(sign, body);
  }

  lemma PrintedDense(whole: string, group: char, point: char, decimals: string)
    requires Separators(group, point) && Whole(whole, group) && Digits(decimals)
    ensures var body := whole + [point] + decimals;
      Dense(body) && body != [] && IsDigit(body[0]) && body[|body| - 1] != ')'
  {
    forall i | 0 <= i < |whole| ensures !IsSpace(whole[i]) {
      assert whole[i] in whole;
    }
  }

  lemma NumberOfDigits(s: string)
    requires Digits(s) && s != []
    ensures Number(s) == Some(Decimal(NatOf(s), 0))
  {
    assert '.' !in s;
    SplitNone(s, '.');
  }

  /** It is read with its value if and only if the separator is recognised, there are no decimals, or it is zero. */
  lemma AmountKeepsItsValue(whole: string, group: char, point: char, decimals: string)
    requires Separators(group, point) && Whole(whole, group) && Digits(decimals)
    ensures Digits(Without(whole, group) + decimals)
    ensures var units := NatOf(Without(whole, group) + decimals);
      var parsed := ParseDecimal(whole + [point] + decimals);
      && parsed.Some?
      && (parsed.value.units * Pow10(|decimals|) == units * Pow10(parsed.value.scale)
          <==> Recognised(whole, group, point, decimals) || decimals == [] || units == 0)
  {
    hide ParseDecimal, Without, NatOf, Recognised, Pow10;
    AmountReadsBack(Plain, whole, group, point, decimals);
    UngroupedDigits(whole, group);
    assert Signed(Plain, whole + [point] + decimals) == whole + [point] + decimals;
    PowAboveOne(|decimals|);
    var units := NatOf(Without(whole, group) + decimals);
    Scaled(units, Pow10(|decimals|));
  }

  lemma Scaled(n: nat, p: nat)
    requires p >= 1
    ensures n * p == n * 1 <==> p == 1 || n == 0
  {
    if p > 1 && n > 0 {
      assert n * p == n * (p - 1) + n && n * (p - 1) >= 1 * 1;
    }
  }

  lemma PowAboveOne(w: nat)
    ensures Pow10(0) == 1 && Pow10(w) >= 1 && (Pow10(w) == 1 <==> w == 0)
  {
    PowPositive(w);
    if w > 0 {
      PowPositive(w - 1);
    }
  }

  // ---------------------------------------------------------------- whole amounts

  /** The value is this whole number. */
  predicate IsWhole(d: Decimal, n: int)
  {
    d.units == n * Pow10(d.scale)
  }

  /** Thousands grouped: behind the last separator come exactly three digits. */
  predicate Grouped(whole: string, group: char)
  {
    Whole(whole, group) && (group in whole ==> LastIndex(whole, group) == |whole| - 4)
  }

  lemma {:induction false} SplitNone(s: string, c: char)
    requires c !in s
    ensures Split(s, c) == [s]
  {
    SplitAt(s, c, []);
  }

  lemma {:induction false} LastIndexSplits(s: string, c: char)
    requires c in s
    ensures 0 <= LastIndex(s, c) && s[LastIndex(s, c)] == c && c !in s[LastIndex(s, c) + 1..]
  {
    var n := |s| - 1;
    if s[n] != c {
      LastIndexSplits(s[..n], c);
      assert s == s[..n] + [s[n]];
      assert s[LastIndex(s, c) + 1..] == s[..n][LastIndex(s, c) + 1..] + [s[n]];
    }
  }

  /** What a grouped whole number becomes: the last separator is taken for the decimal one. */
  lemma NormalizedWhole(front: string, group: char, last: string)
    requires (group == ',' || group == '.') && Whole(front, group) && Digits(last) && |last| == 3
    ensures Normalized(front + [group] + last) ==
      if group == '.' || group !in front then front + "." + last else ReplaceFirst(front + [group] + last, ',', '.')
  {
    hide LastIndex, Without, ReplaceFirst;
    var s, other := front + [group] + last, if group == ',' then '.' else ',';
    assert group !in last && other !in front && other !in s;
    LastIndexAt(front, group, last);
    LastIndexBefore(s, [], other);
    assert s + [] == s;
    WithoutAbsent(s, other);
    if group == ',' && group !in front {
      ReplaceAt(front, ',', '.', last);
    }
  }

  lemma {:induction false} SplitLength(s: string, c: char)
    ensures |Split(s, c)| >= 1
    ensures |Split(s, c)| == 1 <==> c !in s
  {
    if s != [] {
      SplitLength(s[1..], c);
      assert s == [s[0]] + s[1..];
    }
  }

  /** A second separator leaves a text that is no number. */
  lemma TwoSeparators(front: string, group: char, last: string)
    requires (group == ',' || group == '.') && Whole(front, group) && group in front && Digits(last) && |last| == 3
    ensures Number(Normalized(front + [group] + last)) == None
  {
    hide Normalized, Split, NatOf;
    NormalizedWhole(front, group, last);
    if group == '.' {
      LastIndexSplits(front, '.');
      var k := LastIndex(front, '.');
      var a, b := front[..k], front[k + 1..];
      assert front == a + ['.'] + b;
      assert front + "." + last == a + ['.'] + (b + ['.'] + last);
      PointsCount(a, b, last);
    } else {
      FirstComma(front, last);
    }
  }

  lemma {:induction false} PointsCount(a: string, b: string, c: string)
    ensures |Split(a + ['.'] + (b + ['.'] + c), '.')| >= 3
  {
    var s := a + ['.'] + (b + ['.'] + c);
    if a == [] {
      assert s[1..] == b + ['.'] + c;
      SplitPoint(b, c);
    } else {
      PointsCount(a[1..], b, c);
      assert s[1..] == a[1..] + ['.'] + (b + ['.'] + c);
    }
  }

  lemma {:induction false} SplitPoint(b: string, c: string)
    ensures |Split(b + ['.'] + c, '.')| >= 2
  {
    SplitLength(b + ['.'] + c, '.');
    assert (b + ['.'] + c)[|b|] == '.';
  }

  /** Only the first of two commas is replaced; the other one stays in the way. */
  lemma {:induction false} FirstComma(front: string, last: string)
    requires Whole(front, ',') && ',' in front
    ensures Number(ReplaceFirst(front + "," + last, ',', '.')) == None
  {
    var k := FirstIndex(front, ',');
    var a, b := front[..k], front[k + 1..] + "," + last;
    assert front + "," + last == a + [','] + b;
    ReplaceAt(a, ',', '.', b);
    assert '.' !in a by {
      forall c | c in a ensures c in front {
      }
    }
    assert b[|front[k + 1..]|] == ',';
    SplitAt(a, '.', b);
    var s := a + ['.'] + b;
    assert s[k] == '.';
    if |Split(s, '.')| == 2 {
      SplitLength(b, '.');
      SplitNone(b, '.');
      assert (a + b)[k + |front[k + 1..]|] == ',';
    }
  }

  function FirstIndex(s: string, c: char): (k: nat)
    requires c in s
    ensures k < |s| && s[k] == c && c !in s[..k]
  {
    if s[0] == c then 0
    else
      var k := FirstIndex(s[1..], c);
      assert s[..k + 1] == [s[0]] + s[1..][..k];
      k + 1
  }

  /** A grouped number before and behind its last separator. */
  lemma LastGroup(whole: string, group: char) returns (front: string, last: string)
    requires (group == ',' || group == '.') && Grouped(whole, group) && group in whole
    ensures whole == front + [group] + last && Whole(front, group) && Digits(last) && |last| == 3
  {
    LastIndexSplits(whole, group);
    hide LastIndex;
    var k := LastIndex(whole, group);
    front, last := whole[..k], whole[k + 1..];
    forall c | c in front ensures c in whole {
    }
    forall i | 0 <= i < |last| ensures IsDigit(last[i]) {
      assert last[i] in whole && last[i] in last;
    }
  }

  lemma SeparatedWhole(front: string, group: char, last: string)
    requires (group == ',' || group == '.') && Whole(front, group) && Digits(last) && |last| == 3
    requires Digits(Without(front + [group] + last, group)) && NatOf(Without(front + [group] + last, group)) > 0
    ensures var whole := front + [group] + last;
      var parsed := Number(Normalized(whole));
      parsed.None? || !IsWhole(parsed.value, NatOf(Without(whole, group)))
  {
    hide Normalized, Without, Number, NatOf, IsWhole;
    if group in front {
      TwoSeparators(front, group, last);
    } else {
      NormalizedWhole(front, group, last);
      OneSeparator(front, group, last);
    }
  }

  /**
    A whole amount above zero with thousands separators is never read as it is meant: one separator is taken for the
    decimal one, a second one makes the parser throw. It is read back if and only if it has no separator.
  */
  lemma WholeReadsBack(whole: string, group: char)
    requires (group == ',' || group == '.') && Grouped(whole, group)
    requires Digits(Without(whole, group)) && NatOf(Without(whole, group)) > 0
    ensures var parsed := ParseDecimal(whole);
      (parsed.Some? && IsWhole(parsed.value, NatOf(Without(whole, group)))) <==> group !in whole
  {
    hide Normalized, Without, Number, NatOf, ParseDecimal, LastIndex, Signed, Grouped;
    WholeUnsigned(whole, group);
    if group in whole {
      var front, last := LastGroup(whole, group);
      SeparatedWhole(front, group, last);
    } else {
      PlainDigits(whole, group);
    }
  }

  lemma WholeUnsigned(whole: string, group: char)
    requires (group == ',' || group == '.') && Grouped(whole, group)
    ensures Whole(whole, group) && ParseDecimal(whole) == Number(Normalized(whole))
  {
    hide Normalized, Number, ParseDecimal, LastIndex;
    forall i | 0 <= i < |whole| ensures !IsSpace(whole[i]) && whole[i] != ')' {
      assert whole[i] in whole;
    }
    SignDecides(Plain, whole);
    assert Signed(Plain, whole) == whole;
  }

  lemma PlainDigits(whole: string, group: char)
    requires (group == ',' || group == '.') && Whole(whole, group) && group !in whole
    requires Digits(Without(whole, group))
    ensures Without(whole, group) == whole && Digits(whole)
    ensures Number(Normalized(whole)) == Some(Decimal(NatOf(Without(whole, group)), 0))
    ensures Pow10(0) == 1
  {
    WithoutAbsent(whole, group);
    assert ',' !in whole && '.' !in whole by {
      forall c | c in whole ensures IsDigit(c) {
      }
    }
    LastIndexBefore(whole, [], ',');
    LastIndexBefore(whole, [], '.');
    assert whole + [] == whole;
    WithoutAbsent(whole, ',');
    SplitNone(whole, '.');
  }

  lemma WithoutMiddle(front: string, c: char, last: string)
    requires c !in front && c !in last
    ensures Without(front + [c] + last, c) == front + last
  {
    WithoutHead(last, c);
    hide Without;
    WithoutAbsent(front, c);
    WithoutAbsent(last, c);
    WithoutConcat(front, [c] + last, c);
    Assoc(front, [c], last);
  }

  lemma WithoutHead(s: string, c: char)
    ensures Without([c] + s, c) == Without(s, c)
  {
    assert ([c] + s)[1..] == s;
  }

  lemma OneSeparator(front: string, group: char, last: string)
    requires (group == ',' || group == '.') && Whole(front, group) && group !in front && Digits(last) && |last| == 3
    requires Digits(Without(front + [group] + last, group)) && NatOf(Without(front + [group] + last, group)) > 0
    ensures var n := NatOf(Without(front + [group] + last, group));
      var parsed := Number(front + "." + last);
      parsed == Some(Decimal(n, 3)) && !IsWhole(parsed.value, n)
  {
    hide Number, NatOf, Without;
    forall i | 0 <= i < |front| ensures IsDigit(front[i]) {
      assert front[i] in front;
    }
    assert group !in last;
    WithoutMiddle(front, group, last);
    NumberOfPoint(front, last);
    Thousand();
    hide Pow10;
  }

  lemma Thousand()
    ensures Pow10(3) == 1000
  {
  }
}
