/** UTF-8 byte lengths and PDF literal strings (section 7.3.4.2 of ISO 32000-1). */
module PdfText {
  import opened Results
  import opened Text

  // ---------------------------------------------------------------- UTF-8

  type Byte = n: nat | n < 256

  function EncodeChar(c: char): seq<Byte>
  {
    var n := c as int;
    if n < 0x80 then [n]
    else if n < 0x800 then [0xC0 + n / 64, 0x80 + n % 64]
    else if n < 0x10000 then [0xE0 + n / 4096, 0x80 + n / 64 % 64, 0x80 + n % 64]
    else [0xF0 + n / 262144, 0x80 + n / 4096 % 64, 0x80 + n / 64 % 64, 0x80 + n % 64]
  }

  /** Buffer.from(s, 'utf8') */
  function Utf8(s: string): seq<Byte>
  {
    if s == [] then [] else EncodeChar(s[0]) + Utf8(s[1..])
  }

  function ByteLength(s: string): nat
  {
    |Utf8(s)|
  }

  lemma {:induction false} Utf8Concat(a: string, b: string)
    ensures Utf8(a + b) == Utf8(a) + Utf8(b)
  {
    hide EncodeChar;
    if a == [] {
      assert a + b == b;
    } else {
      Utf8Concat(a[1..], b);
      assert (a + b)[1..] == a[1..] + b;
      Assoc(EncodeChar(a[0]), Utf8(a[1..]), Utf8(b));
    }
  }

  predicate Ascii(s: string)
  {
    forall i :: 0 <= i < |s| ==> s[i] as int < 0x80
  }

  lemma {:induction false} AsciiLength(s: string)
    requires Ascii(s)
    ensures ByteLength(s) == |s|
  {
    if s != [] {
      AsciiLength(s[1..]);
    }
  }

  // ---------------------------------------------------------------- escaping

  function ReplaceChar(s: string, c: char, sub: string): string
  {
    if s == [] then [] else (if s[0] == c then sub else [s[0]]) + ReplaceChar(s[1..], c, sub)
  }

  /** The three replacements of escapePdfText, one after the other. */
  function Escape(s: string): string
  {
    ReplaceChar(ReplaceChar(ReplaceChar(s, '\\', "\\\\"), '(', "\\("), ')', "\\)")
  }

  predicate Special(c: char)
  {
    c == '\\' || c == '(' || c == ')'
  }

  function EscapeOnce(s: string): string
  {
    if s == [] then [] else (if Special(s[0]) then ['\\', s[0]] else [s[0]]) + EscapeOnce(s[1..])
  }

  lemma {:induction false} ReplaceConcat(a: string, b: string, c: char, sub: string)
    ensures ReplaceChar(a + b, c, sub) == ReplaceChar(a, c, sub) + ReplaceChar(b, c, sub)
  {
    if a == [] {
      assert a + b == b;
    } else {
      ReplaceConcat(a[1..], b, c, sub);
      assert (a + b)[1..] == a[1..] + b;
      Assoc(if a[0] == c then sub else [a[0]], ReplaceChar(a[1..], c, sub), ReplaceChar(b, c, sub));
    }
  }

  lemma ReplaceShort(c: char, d: char, e: char, sub: string)
    ensures ReplaceChar([c], e, sub) == if c == e then sub else [c]
    ensures ReplaceChar([c, d], e, sub) == (if c == e then sub else [c]) + (if d == e then sub else [d])
  {
    assert [c][1..] == [] && [c, d][1..] == [d] && [d][1..] == [];
    assert sub + [] == sub && [c] + [] == [c] && [d] + [] == [d];
  }

  lemma EscapeChar(c: char)
    ensures Escape([c]) == EscapeOnce([c])
  {
    ReplaceShort(c, c, '\\', "\\\\");
    ReplaceShort('\\', '\\', '(', "\\(");
    ReplaceShort('\\', '\\', ')', "\\)");
    ReplaceShort('\\', '(', ')', "\\)");
    ReplaceShort(c, c, '(', "\\(");
    ReplaceShort(c, c, ')', "\\)");
    assert [c][1..] == [];
  }

  /** No replacement touches what an earlier one wrote. */
  lemma {:induction false} EscapeIsOnePass(s: string)
    ensures Escape(s) == EscapeOnce(s)
  {
    if s != [] {
      EscapeIsOnePass(s[1..]);
      EscapeChar(s[0]);
      assert s == [s[0]] + s[1..];
      ReplaceConcat([s[0]], s[1..], '\\', "\\\\");
      ReplaceConcat(ReplaceChar([s[0]], '\\', "\\\\"), ReplaceChar(s[1..], '\\', "\\\\"), '(', "\\(");
      ReplaceConcat(ReplaceChar(ReplaceChar([s[0]], '\\', "\\\\"), '(', "\\("),
                    ReplaceChar(ReplaceChar(s[1..], '\\', "\\\\"), '(', "\\("), ')', "\\)");
      assert EscapeOnce([s[0]]) + EscapeOnce(s[1..]) == EscapeOnce(s);
    }
  }

  // ---------------------------------------------------------------- reading a literal string

  function OctalRun(s: string, most: nat): nat
  {
    if most == 0 || s == [] || !('0' <= s[0] <= '7') then 0 else 1 + OctalRun(s[1..], most - 1)
  }

  function Octal(s: string): nat
  {
    if s == [] then 0 else 8 * Octal(s[..|s| - 1]) + (s[|s| - 1] as int % 8)
  }

  /** The text up to the closing parenthesis and what follows it (section 7.3.4.2 of ISO 32000-1). */
  function ReadLiteral(s: string, depth: nat, text: string): Option<(string, string)>
    decreases |s|
  {
    if s == [] then None
    else if s[0] == '\\' then ReadEscape(s[1..], depth, text)
    else if s[0] == ')' && depth == 0 then Some((text, s[1..]))
    else if s[0] == ')' then ReadLiteral(s[1..], depth - 1, text + [')'])
    else if s[0] == '(' then ReadLiteral(s[1..], depth + 1, text + ['('])
    else if s[0] == '\r' then
      ReadLiteral(s[if |s| > 1 && s[1] == '\n' then 2 else 1..], depth, text + ['\n'])
    else ReadLiteral(s[1..], depth, text + [s[0]])
  }

  function ReadEscape(s: string, depth: nat, text: string): Option<(string, string)>
    decreases |s|
  {
    if s == [] then None
    else
      var digits := OctalRun(s, 3);
      if 0 < digits <= |s| then ReadLiteral(s[digits..], depth, text + [(Octal(s[..digits]) % 256) as char])
      else if s[0] == '\n' then ReadLiteral(s[1..], depth, text)
      else if s[0] == '\r' then ReadLiteral(s[if |s| > 1 && s[1] == '\n' then 2 else 1..], depth, text)
      else
        var c := if s[0] == 'n' then '\n' else if s[0] == 'r' then '\r' else if s[0] == 't' then '\t'
                 else if s[0] == 'b' then 8 as char else if s[0] == 'f' then 12 as char else s[0];
        ReadLiteral(s[1..], depth, text + [c])
  }

  /** A line break inside a literal string is read as a line feed, however it is written. */
  function NormalizeBreaks(s: string): string
  {
    if s == [] then []
    else if s[0] == '\r' then
      ['\n'] + NormalizeBreaks(s[if |s| > 1 && s[1] == '\n' then 2 else 1..])
    else [s[0]] + NormalizeBreaks(s[1..])
  }

  lemma ReadPlain(c: char, rest: string, text: string)
    requires !Special(c) && c != '\r'
    ensures ReadLiteral([c] + rest, 0, text) == ReadLiteral(rest, 0, text + [c])
  {
    assert ([c] + rest)[1..] == rest;
  }

  lemma ReadSpecial(c: char, rest: string, text: string)
    requires Special(c)
    ensures ReadLiteral(['\\', c] + rest, 0, text) == ReadLiteral(rest, 0, text + [c])
  {
    assert (['\\', c] + rest)[1..] == [c] + rest && ([c] + rest)[1..] == rest;
  }

  lemma ReadReturn(rest: string, text: string)
    ensures ReadLiteral(['\r', '\n'] + rest, 0, text) == ReadLiteral(rest, 0, text + ['\n'])
    ensures (rest == [] || rest[0] != '\n') ==>
      ReadLiteral(['\r'] + rest, 0, text) == ReadLiteral(rest, 0, text + ['\n'])
  {
    assert (['\r', '\n'] + rest)[2..] == rest && (['\r'] + rest)[1..] == rest;
  }

  lemma EscapeHead(s: string, rest: string, text: string, c: char)
    requires s != []
    ensures EscapeOnce(s) + rest == (if Special(s[0]) then ['\\', s[0]] else [s[0]]) + (EscapeOnce(s[1..]) + rest)
    ensures text + [c] + NormalizeBreaks(s[1..]) == text + ([c] + NormalizeBreaks(s[1..]))
  {
    hide Special, NormalizeBreaks;
    Assoc(if Special(s[0]) then ['\\', s[0]] else [s[0]], EscapeOnce(s[1..]), rest);
    Assoc(text, [c], NormalizeBreaks(s[1..]));
  }

  lemma ReadEscapedReturn(s: string, rest: string, text: string)
    requires s != [] && s[0] == '\r'
    ensures var k := if |s| > 1 && s[1] == '\n' then 2 else 1;
      ReadLiteral(EscapeOnce(s) + ([')'] + rest), 0, text)
        == ReadLiteral(EscapeOnce(s[k..]) + ([')'] + rest), 0, text + ['\n'])
  {
    hide ReadLiteral;
    var after := EscapeOnce(s[1..]) + ([')'] + rest);
    EscapeHead(s, [')'] + rest, text, '\n');
    if |s| > 1 && s[1] == '\n' {
      var later := EscapeOnce(s[2..]) + ([')'] + rest);
      assert s[1..][1..] == s[2..];
      EscapeHead(s[1..], [')'] + rest, text, '\n');
      assert ['\r'] + (['\n'] + later) == ['\r', '\n'] + later;
      ReadReturn(later, text);
    } else {
      assert |s| > 1 ==> after[0] != '\n';
      ReadReturn(after, text);
    }
  }

  lemma {:induction false} ReadEscaped(s: string, rest: string, text: string)
    ensures ReadLiteral(EscapeOnce(s) + ([')'] + rest), 0, text) == Some((text + NormalizeBreaks(s), rest))
    decreases |s|
  {
    if s == [] {
      assert (EscapeOnce(s) + ([')'] + rest))[1..] == rest && text + [] == text;
    } else {
      hide ReadLiteral, EscapeOnce, Special;
      EscapeHead(s, [')'] + rest, text, s[0]);
      if s[0] == '\r' {
        var k := if |s| > 1 && s[1] == '\n' then 2 else 1;
        ReadEscapedReturn(s, rest, text);
        ReadEscaped(s[k..], rest, text + ['\n']);
        Assoc(text, ['\n'], NormalizeBreaks(s[k..]));
      } else {
        ReadEscaped(s[1..], rest, text + [s[0]]);
        if Special(s[0]) {
          ReadSpecial(s[0], EscapeOnce(s[1..]) + ([')'] + rest), text);
        } else {
          ReadPlain(s[0], EscapeOnce(s[1..]) + ([')'] + rest), text);
        }
      }
    }
  }

  /** Reading a literal string undoes escapePdfText, up to its line breaks. */
  lemma LiteralRoundTrip(s: string, rest: string)
    ensures ReadLiteral(Escape(s) + ([')'] + rest), 0, []) == Some((NormalizeBreaks(s), rest))
  {
    EscapeIsOnePass(s);
    ReadEscaped(s, rest, []);
    assert [] + NormalizeBreaks(s) == NormalizeBreaks(s);
  }

  /** It does so exactly on text without carriage returns. */
  lemma {:induction false} NormalIffNoReturn(s: string)
    ensures NormalizeBreaks(s) == s <==> '\r' !in s
    decreases |s|
  {
    if s != [] {
      assert s == [s[0]] + s[1..];
      NormalIffNoReturn(s[1..]);
      if s[0] != '\r' {
        assert NormalizeBreaks(s)[1..] == NormalizeBreaks(s[1..]);
      } else {
        assert NormalizeBreaks(s)[0] == '\n';
      }
    }
  }
}
