/** The Python built-ins that the core relies on, written out on Dafny values:
    slicing, `str.join`, `str.split`, `str.replace` of one character,
    `in` on strings, `str.find`, ASCII `lower`/`upper`, `str()` of an integer and
    `int()` of a string or an integer. */
module Builtins {
  import opened Wrappers

  function Min(a: int, b: int): int { if a <= b then a else b }

  function Max(a: int, b: int): int { if a >= b then a else b }

  // ---------------------------------------------------------------------------
  // Slicing
  // ---------------------------------------------------------------------------

  /** Python's `xs[:n]`: a non-negative `n` keeps at most `n` leading items,
      a negative `n` drops `-n` trailing items. */
  function SliceTo<T>(xs: seq<T>, n: int): (r: seq<T>)
    ensures |r| <= |xs| && r == xs[..|r|]
    ensures n >= 0 ==> |r| == Min(n, |xs|)
    ensures n < 0 ==> |r| == Max(0, |xs| + n)
  {
    if n >= 0 then xs[..Min(n, |xs|)] else xs[..Max(0, |xs| + n)]
  }

  /** `s[:limit] + marker if len(s) > limit else s`: the shape shared by the
      context truncation and the description preview. */
  function CutWithMarker(s: string, limit: nat, marker: string): (r: string)
    ensures |s| <= limit ==> r == s
    ensures |s| > limit ==> |r| == limit + |marker| && r[..limit] == s[..limit] && r[limit..] == marker
    ensures |r| <= limit + |marker|
  {
    if |s| > limit then s[..limit] + marker else s
  }

  lemma ConcatParts<T>(a: seq<T>, b: seq<T>)
    ensures (a + b)[..|a|] == a && (a + b)[|a|..] == b
  {
  }

  /** The pieces of a formatted string written one after another. */
  function Concat(parts: seq<string>): string
  {
    if parts == [] then "" else parts[0] + Concat(parts[1..])
  }

  /** Where the `k`-th piece starts. */
  function Offset(parts: seq<string>, k: nat): nat
    requires k <= |parts|
  {
    |Concat(parts[..k])|
  }

  lemma {:induction false} ConcatSplit(parts: seq<string>, k: nat)
    requires k <= |parts|
    ensures Concat(parts) == Concat(parts[..k]) + Concat(parts[k..])
  {
    if k == 0 {
      assert parts[..0] == [] && parts[0..] == parts;
    } else {
      ConcatSplit(parts[1..], k - 1);
      assert parts[1..][..k - 1] == parts[..k][1..];
      assert parts[1..][k - 1..] == parts[k..];
    }
  }

  /** Each piece sits at its offset, and the next piece starts right after it. */
  lemma PieceAt(parts: seq<string>, k: nat)
    requires k < |parts|
    ensures Offset(parts, k + 1) == Offset(parts, k) + |parts[k]| <= |Concat(parts)|
    ensures Concat(parts)[Offset(parts, k)..Offset(parts, k + 1)] == parts[k]
  {
    ConcatSplit(parts, k + 1);
    ConcatSplit(parts[..k + 1], k);
    assert parts[..k + 1][..k] == parts[..k];
    assert parts[..k + 1][k..] == [parts[k]];
    assert Concat([parts[k]]) == parts[k];
    var a := Concat(parts[..k]);
    var rest := Concat(parts[k + 1..]);
    assert Concat(parts) == a + parts[k] + rest;
    ConcatParts(a + parts[k], rest);
    ConcatParts(a, parts[k]);
  }

  /** Every piece at its offset, the offsets rising by the length of each piece. */
  lemma AllPieces(parts: seq<string>)
    ensures Offset(parts, 0) == 0 && Offset(parts, |parts|) == |Concat(parts)|
    ensures forall k :: 0 <= k < |parts| ==>
              Offset(parts, k + 1) == Offset(parts, k) + |parts[k]| <= |Concat(parts)|
              && Concat(parts)[Offset(parts, k)..Offset(parts, k + 1)] == parts[k]
  {
    OffsetEnd(parts);
    forall k | 0 <= k < |parts|
      ensures Offset(parts, k + 1) == Offset(parts, k) + |parts[k]| <= |Concat(parts)|
      ensures Concat(parts)[Offset(parts, k)..Offset(parts, k + 1)] == parts[k]
    {
      PieceAt(parts, k);
    }
  }

  /** One more piece in front adds that piece in front. */
  lemma ConcatCons(p: string, rest: seq<string>)
    ensures Concat([p] + rest) == p + Concat(rest)
  {
    assert ([p] + rest)[1..] == rest;
  }

  /** Nine pieces written out are their concatenation. */
  lemma ConcatNine(p0: string, p1: string, p2: string, p3: string, p4: string,
                   p5: string, p6: string, p7: string, p8: string)
    ensures Concat([p0, p1, p2, p3, p4, p5, p6, p7, p8]) == p0 + (p1 + (p2 + (p3 + (p4 + (p5 + (p6 + (p7 + p8)))))))
  {
    var s8: seq<string> := [p8];
    ConcatCons(p8, []);
    var s7 := [p7] + s8;
    ConcatCons(p7, s8);
    var s6 := [p6] + s7;
    ConcatCons(p6, s7);
    var s5 := [p5] + s6;
    ConcatCons(p5, s6);
    var s4 := [p4] + s5;
    ConcatCons(p4, s5);
    var s3 := [p3] + s4;
    ConcatCons(p3, s4);
    var s2 := [p2] + s3;
    ConcatCons(p2, s3);
    var s1 := [p1] + s2;
    ConcatCons(p1, s2);
    var s0 := [p0] + s1;
    ConcatCons(p0, s1);
    assert s8 == [p8] + [];
    assert s0 == [p0, p1, p2, p3, p4, p5, p6, p7, p8];
  }

  /** The last offset is the whole length. */
  lemma OffsetEnd(parts: seq<string>)
    ensures Offset(parts, 0) == 0 && Offset(parts, |parts|) == |Concat(parts)|
  {
    assert parts[..|parts|] == parts;
  }

  // ---------------------------------------------------------------------------
  // join and split
  // ---------------------------------------------------------------------------

  /** Python's `sep.join(parts)`. */
  function Join(parts: seq<string>, sep: string): string
  {
    if |parts| == 0 then ""
    else if |parts| == 1 then parts[0]
    else parts[0] + sep + Join(parts[1..], sep)
  }

  lemma {:induction false} JoinAppend(parts: seq<string>, p: string, sep: string)
    requires |parts| > 0
    ensures Join(parts + [p], sep) == Join(parts, sep) + sep + p
  {
    if |parts| > 1 {
      assert (parts + [p])[1..] == parts[1..] + [p];
      JoinAppend(parts[1..], p, sep);
    }
  }

  lemma {:induction false} JoinConcat(a: seq<string>, b: seq<string>, sep: string)
    requires |a| > 0 && |b| > 0
    ensures Join(a + b, sep) == Join(a, sep) + sep + Join(b, sep)
  {
    if |a| == 1 {
      assert (a + b)[1..] == b;
    } else {
      assert (a + b)[1..] == a[1..] + b;
      JoinConcat(a[1..], b, sep);
    }
  }

  /** Python's `s.split(c)` for a one-character separator. */
  function Split(s: string, c: char): (r: seq<string>)
    ensures |r| > 0
  {
    if s == [] then [""]
    else
      var rest := Split(s[1..], c);
      if s[0] == c then [""] + rest else [[s[0]] + rest[0]] + rest[1..]
  }

  lemma {:induction false} SplitNoSeparator(s: string, c: char)
    requires c !in s
    ensures Split(s, c) == [s]
  {
    if s != [] {
      SplitNoSeparator(s[1..], c);
      assert [s[0]] + s[1..] == s;
    }
  }

  lemma {:induction false} SplitAtSeparator(a: string, c: char, b: string)
    requires c !in a
    ensures Split(a + [c] + b, c) == [a] + Split(b, c)
  {
    if a == [] {
      assert (a + [c] + b)[1..] == b;
    } else {
      assert (a + [c] + b)[1..] == a[1..] + [c] + b;
      SplitAtSeparator(a[1..], c, b);
      assert [a[0]] + a[1..] == a;
    }
  }

  /** Joining lines that hold no separator and splitting again gives the lines back. */
  lemma {:induction false} SplitJoin(lines: seq<string>, c: char)
    requires |lines| > 0
    requires forall i :: 0 <= i < |lines| ==> c !in lines[i]
    ensures Split(Join(lines, [c]), c) == lines
  {
    if |lines| == 1 {
      SplitNoSeparator(lines[0], c);
    } else {
      SplitJoin(lines[1..], c);
      SplitAtSeparator(lines[0], c, Join(lines[1..], [c]));
      assert [lines[0]] + lines[1..] == lines;
    }
  }

  // ---------------------------------------------------------------------------
  // Replacing one character
  // ---------------------------------------------------------------------------

  /** Python's `s.replace(c, with)` where `c` is a single character. */
  function ReplaceChar(s: string, c: char, with: string): (r: string)
    ensures c !in s ==> r == s
    ensures c !in with ==> c !in r
    ensures forall x :: x in r ==> x in s || x in with
  {
    if s == [] then []
    else (if s[0] == c then with else [s[0]]) + ReplaceChar(s[1..], c, with)
  }

  lemma {:induction false} ReplaceCharConcat(a: string, b: string, c: char, with: string)
    ensures ReplaceChar(a + b, c, with) == ReplaceChar(a, c, with) + ReplaceChar(b, c, with)
  {
    if a == [] {
      assert a + b == b;
    } else {
      assert (a + b)[0] == a[0];
      assert (a + b)[1..] == a[1..] + b;
      ReplaceCharConcat(a[1..], b, c, with);
    }
  }

  /** A one-character replacement keeps the length and maps each position. */
  lemma {:induction false} ReplaceCharAt(s: string, c: char, d: char)
    ensures |ReplaceChar(s, c, [d])| == |s|
    ensures forall i :: 0 <= i < |s| ==> ReplaceChar(s, c, [d])[i] == if s[i] == c then d else s[i]
  {
    if s != [] {
      ReplaceCharAt(s[1..], c, d);
    }
  }

  /** The number of times `c` occurs in `s`. */
  function Count(s: string, c: char): (n: nat)
    ensures n <= |s|
    ensures n == 0 <==> c !in s
  {
    if s == [] then 0 else (if s[0] == c then 1 else 0) + Count(s[1..], c)
  }

  lemma {:induction false} CountConcat(a: string, b: string, c: char)
    ensures Count(a + b, c) == Count(a, c) + Count(b, c)
  {
    if a == [] {
      assert a + b == b;
    } else {
      assert (a + b)[0] == a[0];
      assert (a + b)[1..] == a[1..] + b;
      CountConcat(a[1..], b, c);
    }
  }

  lemma {:induction false} ReplaceCharLength(s: string, c: char, with: string)
    ensures |ReplaceChar(s, c, with)| == |s| + Count(s, c) * (|with| - 1)
  {
    if s != [] {
      ReplaceCharLength(s[1..], c, with);
      if s[0] == c {
        calc {
          |ReplaceChar(s, c, with)|;
          |with| + |ReplaceChar(s[1..], c, with)|;
          |with| + |s| - 1 + Count(s[1..], c) * (|with| - 1);
          |s| + (Count(s[1..], c) + 1) * (|with| - 1);
        }
      }
    }
  }

  // ---------------------------------------------------------------------------
  // Substrings: `sub in s` and `s.find(sub)`
  // ---------------------------------------------------------------------------

  predicate OccursAt(s: string, sub: string, i: nat)
  {
    i + |sub| <= |s| && s[i..i + |sub|] == sub
  }

  /** Python's `sub in s` on strings. */
  predicate Contains(s: string, sub: string)
  {
    exists i: nat :: i <= |s| && OccursAt(s, sub, i)
  }

  function FindFrom(s: string, sub: string, from: nat): (r: int)
    requires from <= |s|
    decreases |s| - from
    ensures r == -1 ==> forall j: nat :: from <= j <= |s| ==> !OccursAt(s, sub, j)
    ensures r != -1 ==> from <= r <= |s| && OccursAt(s, sub, r)
    ensures r != -1 ==> forall j: nat :: from <= j < r ==> !OccursAt(s, sub, j)
  {
    if OccursAt(s, sub, from) then from
    else if from + |sub| >= |s| then -1
    else FindFrom(s, sub, from + 1)
  }

  /** Python's `s.find(sub)`: the first index at which `sub` occurs, or -1. */
  function Find(s: string, sub: string): (r: int)
    ensures r == -1 <==> !Contains(s, sub)
    ensures r != -1 ==> 0 <= r <= |s| && OccursAt(s, sub, r)
    ensures r != -1 ==> forall j: nat :: j < r ==> !OccursAt(s, sub, j)
  {
    var r := FindFrom(s, sub, 0);
    assert r != -1 ==> OccursAt(s, sub, r as nat);
    r
  }

  // ---------------------------------------------------------------------------
  // Case mapping (ASCII letters)
  // ---------------------------------------------------------------------------

  function LowerChar(c: char): char
  {
    if 'A' <= c <= 'Z' then (c as int + 32) as char else c
  }

  function UpperChar(c: char): char
  {
    if 'a' <= c <= 'z' then (c as int - 32) as char else c
  }

  /** `s.lower()` on ASCII letters. */
  function Lower(s: string): (r: string)
    ensures |r| == |s|
    ensures forall i :: 0 <= i < |s| ==> r[i] == LowerChar(s[i])
  {
    seq(|s|, i requires 0 <= i < |s| => LowerChar(s[i]))
  }

  /** `s.upper()` on ASCII letters. */
  function Upper(s: string): (r: string)
    ensures |r| == |s|
    ensures forall i :: 0 <= i < |s| ==> r[i] == UpperChar(s[i])
  {
    seq(|s|, i requires 0 <= i < |s| => UpperChar(s[i]))
  }

  /** `c * n` for a one-character string. */
  function Repeat(c: char, n: nat): (r: string)
    ensures |r| == n
    ensures forall i :: 0 <= i < n ==> r[i] == c
  {
    seq(n, _ => c)
  }

  // ---------------------------------------------------------------------------
  // str() of an integer and int() of a string
  // ---------------------------------------------------------------------------

  predicate IsDigit(c: char) { '0' <= c <= '9' }

  function DigitChar(d: nat): char
    requires d < 10
  {
    ('0' as int + d) as char
  }

  function NatToString(n: nat): (r: string)
    ensures |r| > 0
    ensures forall i :: 0 <= i < |r| ==> IsDigit(r[i])
  {
    if n < 10 then [DigitChar(n)] else NatToString(n / 10) + [DigitChar(n % 10)]
  }

  /** Python's `str(n)` for an integer. */
  function IntToString(n: int): (r: string)
    ensures |r| > 0
  {
    if n < 0 then "-" + NatToString(-n) else NatToString(n)
  }

  /** The whitespace that `int()` strips, restricted to ASCII. */
  predicate IsSpace(c: char)
  {
    c == ' ' || c == '\t' || c == '\n' || c == '\r' || c == '\U{B}' || c == '\U{C}'
  }

  function StripLeft(s: string): (r: string)
    ensures |r| <= |s| && r == s[|s| - |r|..]
    ensures r != [] ==> !IsSpace(r[0])
  {
    if s != [] && IsSpace(s[0]) then StripLeft(s[1..]) else s
  }

  function StripRight(s: string): (r: string)
    ensures |r| <= |s| && r == s[..|r|]
    ensures r != [] ==> !IsSpace(r[|r| - 1])
  {
    if s != [] && IsSpace(s[|s| - 1]) then StripRight(s[..|s| - 1]) else s
  }

  /** `s.strip()` for the whitespace above. */
  function Strip(s: string): string { StripRight(StripLeft(s)) }

  /** Digits, with single underscores allowed between two digits: what `int()`
      accepts after the sign. */
  predicate DigitGroups(t: string)
  {
    && |t| > 0
    && IsDigit(t[0])
    && IsDigit(t[|t| - 1])
    && forall i :: 0 <= i < |t| ==>
         IsDigit(t[i]) || (t[i] == '_' && 0 < i < |t| - 1 && IsDigit(t[i - 1]) && IsDigit(t[i + 1]))
  }

  /** The value of a run of digits and underscores, the underscores ignored. */
  function DigitsValue(t: string): nat
  {
    if t == [] then 0
    else if IsDigit(t[|t| - 1]) then DigitsValue(t[..|t| - 1]) * 10 + (t[|t| - 1] as int - '0' as int)
    else DigitsValue(t[..|t| - 1])
  }

  /** The argument of `int(x)`, as the JSON arguments of a tool call give it:
      an integer, a string, a float (a finite value), a boolean, or any other
      value (`None`, a list, an object), known by its Python type name. */
  datatype IntArg = IntValue(i: int) | TextValue(s: string) | FloatValue(x: real) | BoolValue(b: bool)
                  | OtherValue(typeName: string)

  /** `int(x)` of a float: the integer part, truncated toward zero. */
  function TruncateReal(x: real): (n: int)
    ensures x >= 0.0 ==> 0 <= n && n as real <= x < n as real + 1.0
    ensures x < 0.0 ==> n <= 0 && n as real - 1.0 < x <= n as real
  {
    if x >= 0.0 then x.Floor else -((-x).Floor)
  }

  /** The TypeError of `int(x)` for a value that is neither a number nor a string. */
  function NotANumber(typeName: string): string
  {
    "int() argument must be a string, a bytes-like object or a real number, not " + QuotedText(typeName)
  }

  /** A name quoted the way `repr` quotes a text with no quote, backslash or
      control character in it. */
  function QuotedText(s: string): string { "'" + s + "'" }

  /** The quote `repr(s)` uses: double quotes when the text holds `'` and no `"`. */
  function ReprQuote(s: string): char
  {
    if '\'' in s && '"' !in s then '"' else '\''
  }

  function HexDigit(n: int): char
    requires 0 <= n < 16
  {
    "0123456789abcdef"[n]
  }

  /** One character as `repr` writes it between quotes `q`: the backslash and
      the quote itself are escaped, tab, newline and carriage return get their
      short escapes, other ASCII control characters a `\xhh` escape. */
  function EscapedChar(c: char, q: char): string
  {
    if c == '\\' || c == q then ['\\', c]
    else if c == '\t' then "\\t"
    else if c == '\n' then "\\n"
    else if c == '\r' then "\\r"
    else if c < ' ' || c as int == 127 then ['\\', 'x', HexDigit(c as int / 16), HexDigit(c as int % 16)]
    else [c]
  }

  function EscapedText(s: string, q: char): string
  {
    if s == [] then "" else EscapedChar(s[0], q) + EscapedText(s[1..], q)
  }

  /** `repr(s)`: the escaped text between the chosen quotes. */
  function Repr(s: string): (r: string)
    ensures |r| >= 2 && r[0] == ReprQuote(s) && r[|r| - 1] == ReprQuote(s)
  {
    [ReprQuote(s)] + EscapedText(s, ReprQuote(s)) + [ReprQuote(s)]
  }

  /** A character `repr` writes as it is inside single quotes. */
  predicate PlainChar(c: char)
  {
    c != '\'' && c != '\\' && ' ' <= c && c as int != 127
  }

  lemma {:induction false} EscapedPlain(s: string)
    requires forall i :: 0 <= i < |s| ==> PlainChar(s[i])
    ensures EscapedText(s, '\'') == s
  {
    if s != [] {
      EscapedPlain(s[1..]);
    }
  }

  /** A text of plain characters is shown as itself between single quotes. */
  lemma PlainRepr(s: string)
    requires forall i :: 0 <= i < |s| ==> PlainChar(s[i])
    ensures Repr(s) == QuotedText(s)
  {
    EscapedPlain(s);
  }

  /** A text holding `'` but no `"` is shown between double quotes. */
  lemma ApostropheRepr()
    ensures Repr("it's") == "\"it's\""
  {
    assert '\'' in "it's" && '"' !in "it's";
    assert EscapedText("s", '"') == "s";
    assert EscapedText("'s", '"') == "'s";
    assert EscapedText("t's", '"') == "t's";
  }

  /** A tab is shown as backslash and `t`. */
  lemma TabRepr()
    ensures Repr("1\t2") == "'1\\t2'"
  {
    assert '\'' !in "1\t2";
    assert EscapedText("2", '\'') == "2";
    assert EscapedText("\t2", '\'') == "\\t2";
  }

  function InvalidLiteralPrefix(): string
  {
    "invalid literal for int() with base 10: "
  }

  /** The ValueError text of `int(s)`. CPython formats the repr with `%.200R`,
      so the repr is cut to its first 200 characters. */
  function InvalidLiteral(s: string): string
  {
    var r := Repr(s);
    InvalidLiteralPrefix() + r[..Min(200, |r|)]
  }

  /** The message is the fixed prefix followed by the first (at most 200)
      characters of the repr. Kept as a lemma so that the callers of
      `ParseInt` do not carry these facts. */
  lemma InvalidLiteralShape(s: string)
    ensures |InvalidLiteral(s)| == |InvalidLiteralPrefix()| + Min(200, |Repr(s)|)
    ensures InvalidLiteral(s)[..|InvalidLiteralPrefix()|] == InvalidLiteralPrefix()
    ensures InvalidLiteral(s)[|InvalidLiteralPrefix()|..] == Repr(s)[..Min(200, |Repr(s)|)]
  {
  }

  /** For a text of plain characters, the message quotes the text whole when
      it fits in 200 characters, and otherwise its first 199 characters after
      the opening quote, with no closing quote. */
  lemma PlainLiteralMessage(s: string)
    requires forall i :: 0 <= i < |s| ==> PlainChar(s[i])
    ensures |s| + 2 <= 200 ==> InvalidLiteral(s) == InvalidLiteralPrefix() + QuotedText(s)
    ensures |s| + 2 > 200 ==> InvalidLiteral(s) == InvalidLiteralPrefix() + "'" + s[..199]
  {
    PlainRepr(s);
    InvalidLiteralShape(s);
    var m := InvalidLiteral(s);
    assert m == m[..|InvalidLiteralPrefix()|] + m[|InvalidLiteralPrefix()|..];
    if |s| + 2 > 200 {
      assert QuotedText(s)[..200] == "'" + s[..199];
    }
  }

  /** The sign and the digits of a stripped literal. */
  function SignedBody(t: string): (bool, string)
  {
    if |t| > 0 && (t[0] == '-' || t[0] == '+') then (t[0] == '-', t[1..]) else (false, t)
  }

  /** Python's `int(x)` in base 10; `Err` carries the text of the ValueError
      or TypeError. */
  function ParseInt(x: IntArg): (r: Result<int, string>)
    ensures x.IntValue? ==> r == Ok(x.i)
    ensures x.TextValue? && r.Err? ==> r.error == InvalidLiteral(x.s)
    ensures x.FloatValue? ==> r == Ok(TruncateReal(x.x))
    ensures x.BoolValue? ==> r == Ok(if x.b then 1 else 0)
    ensures x.OtherValue? ==> r == Err(NotANumber(x.typeName))
  {
    match x
    case IntValue(i) => Ok(i)
    case FloatValue(v) => Ok(TruncateReal(v))
    case BoolValue(b) => Ok(if b then 1 else 0)
    case OtherValue(t) => Err(NotANumber(t))
    case TextValue(s) =>
      var (negative, body) := SignedBody(Strip(s));
      if DigitGroups(body) then Ok(if negative then -(DigitsValue(body) as int) else DigitsValue(body))
      else Err(InvalidLiteral(s))
  }

  lemma {:induction false} DigitsValueOfNat(n: nat)
    ensures DigitsValue(NatToString(n)) == n
  {
    if n >= 10 {
      var s := NatToString(n);
      assert s[..|s| - 1] == NatToString(n / 10);
      DigitsValueOfNat(n / 10);
    }
  }

  lemma StripUnspaced(s: string)
    requires |s| > 0 && !IsSpace(s[0]) && !IsSpace(s[|s| - 1])
    ensures Strip(s) == s
  {
  }

  lemma DigitsAreGroups(s: string)
    requires |s| > 0
    requires forall i :: 0 <= i < |s| ==> IsDigit(s[i])
    ensures DigitGroups(s)
  {
  }

  /** `int(str(n)) == n` for every integer. */
  lemma {:induction false} ParseIntToString(n: int)
    ensures ParseInt(TextValue(IntToString(n))) == Ok(n)
  {
    var m: nat := if n < 0 then -n else n;
    var digits := NatToString(m);
    DigitsAreGroups(digits);
    DigitsValueOfNat(m);
    if n < 0 {
      assert IntToString(n) == "-" + digits;
      ParseNegative(digits);
    } else {
      assert IntToString(n) == digits;
      ParsePlain(digits);
    }
  }

  lemma ParsePlain(d: string)
    requires DigitGroups(d) && !IsSpace(d[0]) && !IsSpace(d[|d| - 1])
    ensures ParseInt(TextValue(d)) == Ok(DigitsValue(d))
  {
    StripUnspaced(d);
    assert SignedBody(d) == (false, d);
    ParseSigned(d, false, d);
  }

  lemma ParseNegative(d: string)
    requires DigitGroups(d) && !IsSpace(d[|d| - 1])
    ensures ParseInt(TextValue("-" + d)) == Ok(-(DigitsValue(d) as int))
  {
    NegativeBody(d);
    ParseSigned("-" + d, true, d);
  }

  lemma NegativeBody(d: string)
    requires |d| > 0 && !IsSpace(d[|d| - 1])
    ensures SignedBody(Strip("-" + d)) == (true, d)
  {
    var s := "-" + d;
    assert s[|s| - 1] == d[|d| - 1];
    StripUnspaced(s);
    assert s[1..] == d;
  }

  /** A literal whose stripped body is a run of digit groups parses to its signed value. */
  lemma ParseSigned(s: string, negative: bool, body: string)
    requires SignedBody(Strip(s)) == (negative, body) && DigitGroups(body)
    ensures ParseInt(TextValue(s)) == Ok(if negative then -(DigitsValue(body) as int) else DigitsValue(body))
  {
  }
}
