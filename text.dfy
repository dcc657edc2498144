/**
 * The handful of JavaScript string operations the dashboard relies on:
 * `toLowerCase`, `includes`, `trim`, `split`, `replace(/"/g, "")`,
 * `parseInt` and `String(n)`.  Case folding is ASCII-only, and `trim`
 * removes the common whitespace characters listed in `IsSpace`.
 */
module Text {
  import opened Wrappers

  // ---------------------------------------------------------------------
  // Case folding and substring search
  // ---------------------------------------------------------------------

  function LowerChar(c: char): char {
    if 'A' <= c <= 'Z' then (c as int - 'A' as int + 'a' as int) as char else c
  }

  /** `s.toLowerCase()` restricted to ASCII letters. */
  function ToLower(s: string): (r: string)
    ensures |r| == |s|
    ensures forall i :: 0 <= i < |s| ==> r[i] == LowerChar(s[i])
    ensures forall i :: 0 <= i < |r| ==> !('A' <= r[i] <= 'Z')
  {
    seq(|s|, i requires 0 <= i < |s| => LowerChar(s[i]))
  }

  /** `needle` occurs in `hay` starting at index `i`. */
  predicate OccursAt(hay: string, needle: string, i: int) {
    0 <= i && i + |needle| <= |hay| && hay[i..i + |needle|] == needle
  }

  /** `hay.includes(needle)`: `needle` occurs as a contiguous block of `hay`. */
  predicate Contains(hay: string, needle: string) {
    exists i :: 0 <= i <= |hay| - |needle| && OccursAt(hay, needle, i)
  }

  /** `hay.toLowerCase().includes(needle.toLowerCase())`. */
  predicate ContainsIgnoreCase(hay: string, needle: string) {
    Contains(ToLower(hay), ToLower(needle))
  }

  lemma ContainsEmpty(hay: string)
    ensures Contains(hay, "")
  {
    assert OccursAt(hay, "", 0);
  }

  lemma ContainsSelf(s: string)
    ensures Contains(s, s)
  {
    assert OccursAt(s, s, 0);
  }

  // ---------------------------------------------------------------------
  // trim and quote stripping
  // ---------------------------------------------------------------------

  /** The characters `String.prototype.trim` removes that the model knows of. */
  predicate IsSpace(c: char) {
    c == ' ' || c == '\t' || c == '\n' || c == '\r' || c == '\U{0B}' || c == '\U{0C}'
    || c == '\U{A0}' || c == '\U{FEFF}'
  }

  function TrimStart(s: string): (r: string)
    ensures |r| <= |s| && r == s[|s| - |r|..]
    ensures r == [] || !IsSpace(r[0])
  {
    if s != [] && IsSpace(s[0]) then TrimStart(s[1..]) else s
  }

  function TrimEnd(s: string): (r: string)
    ensures |r| <= |s| && r == s[..|r|]
    ensures r == [] || !IsSpace(r[|r| - 1])
  {
    if s != [] && IsSpace(s[|s| - 1]) then TrimEnd(s[..|s| - 1]) else s
  }

  /** `s.trim()`: the longest slice of `s` that neither starts nor ends with a space. */
  function Trim(s: string): (r: string)
    ensures r == [] || (!IsSpace(r[0]) && !IsSpace(r[|r| - 1]))
  {
    TrimEnd(TrimStart(s))
  }

  /** What `Trim` keeps is a slice of its input. */
  lemma TrimContained(s: string)
    ensures Contains(s, Trim(s))
  {
    var t := TrimStart(s);
    var r := TrimEnd(t);
    assert r == s[|s| - |t|..][..|r|] == s[|s| - |t|..|s| - |t| + |r|];
    assert OccursAt(s, r, |s| - |t|);
  }

  /** `TrimStart` removes only white space. */
  lemma {:induction false} TrimStartSpaces(s: string)
    ensures forall k :: 0 <= k < |s| - |TrimStart(s)| ==> IsSpace(s[k])
  {
    if s != [] && IsSpace(s[0]) {
      TrimStartSpaces(s[1..]);
      assert forall k :: 1 <= k < |s| ==> s[k] == s[1..][k - 1];
    }
  }

  /** `TrimEnd` removes only white space. */
  lemma {:induction false} TrimEndSpaces(s: string)
    ensures forall k :: |TrimEnd(s)| <= k < |s| ==> IsSpace(s[k])
  {
    if s != [] && IsSpace(s[|s| - 1]) {
      TrimEndSpaces(s[..|s| - 1]);
    }
  }

  /**
   * `s.trim()` exactly: `s` is white space, then the trimmed text, then
   * white space, and the trimmed text neither starts nor ends with white
   * space.
   */
  lemma TrimExact(s: string)
    ensures exists i :: OccursAt(s, Trim(s), i) &&
              (forall k :: 0 <= k < i ==> IsSpace(s[k])) &&
              (forall k :: i + |Trim(s)| <= k < |s| ==> IsSpace(s[k]))
    ensures Trim(s) == [] || (!IsSpace(Trim(s)[0]) && !IsSpace(Trim(s)[|Trim(s)| - 1]))
  {
    var i := |s| - |TrimStart(s)|;
    TrimAt(s);
    TrimStartSpaces(s);
    TrimTailSpaces(s);
    assert OccursAt(s, Trim(s), i) && (forall k :: 0 <= k < i ==> IsSpace(s[k])) &&
           (forall k :: i + |Trim(s)| <= k < |s| ==> IsSpace(s[k]));
  }

  /** The trimmed text is the slice `s[i..j]` whose outside is white space, and whose ends are not. */
  lemma TrimSpan(s: string)
    ensures exists i, j :: 0 <= i <= j <= |s| && Trim(s) == s[i..j] &&
              (forall k :: 0 <= k < i ==> IsSpace(s[k])) && (forall k :: j <= k < |s| ==> IsSpace(s[k])) &&
              (i == j || (!IsSpace(s[i]) && !IsSpace(s[j - 1])))
  {
    var i := |s| - |TrimStart(s)|;
    var j := i + |Trim(s)|;
    TrimAt(s);
    TrimStartSpaces(s);
    TrimTailSpaces(s);
    assert Trim(s) == s[i..j];
    if i < j {
      assert Trim(s)[0] == s[i] && Trim(s)[|Trim(s)| - 1] == s[j - 1];
    }
  }

  lemma TrimAt(s: string)
    ensures OccursAt(s, Trim(s), |s| - |TrimStart(s)|)
  {
    var t := TrimStart(s);
    var r := TrimEnd(t);
    SliceOfSuffix(s, |s| - |t|, |r|);
  }

  lemma SliceOfSuffix(s: string, i: nat, n: nat)
    requires i + n <= |s|
    ensures s[i..][..n] == s[i..i + n]
  {
  }

  /** Everything after the trimmed text is white space. */
  lemma TrimTailSpaces(s: string)
    ensures forall k :: |s| - |TrimStart(s)| + |Trim(s)| <= k < |s| ==> IsSpace(s[k])
  {
    var t := TrimStart(s);
    var i := |s| - |t|;
    TrimEndSpaces(t);
    assert t == s[i..];
    forall k | i + |Trim(s)| <= k < |s|
      ensures IsSpace(s[k])
    {
      assert s[k] == t[k - i];
    }
  }

  /** `s.replace(/"/g, "")`. */
  function StripQuotes(s: string): (r: string)
    ensures '"' !in r
    ensures forall c :: c in r <==> c in s && c != '"'
    ensures forall c :: multiset(r)[c] == if c == '"' then 0 else multiset(s)[c]
  {
    if s == [] then []
    else
      var rest := StripQuotes(s[1..]);
      assert s == [s[0]] + s[1..];
      if s[0] == '"' then rest else [s[0]] + rest
  }

  /** A single character is dropped exactly when it is `"`. */
  lemma StripQuotesChar(c: char)
    ensures StripQuotes([c]) == if c == '"' then [] else [c]
  {
    assert [c][1..] == [];
  }

  /**
   * Removing quotes works piece by piece, so with `StripQuotesChar` it
   * keeps the other characters in their order.
   */
  lemma {:induction false} StripQuotesAppend(a: string, b: string)
    ensures StripQuotes(a + b) == StripQuotes(a) + StripQuotes(b)
  {
    if a == [] {
      assert a + b == b;
    } else {
      assert (a + b)[0] == a[0];
      assert (a + b)[1..] == a[1..] + b;
      StripQuotesAppend(a[1..], b);
    }
  }

  // ---------------------------------------------------------------------
  // split and join
  // ---------------------------------------------------------------------

  /**
   * `s.split(sep)` for a one-character separator: every occurrence of `sep`
   * ends a piece, so the result always has one more piece than `s` has
   * separators, and empty pieces are kept.
   */
  function Split(s: string, sep: char): (r: seq<string>)
    ensures |r| >= 1
    ensures forall k :: 0 <= k < |r| ==> sep !in r[k]
  {
    if s == [] then [[]]
    else
      var rest := Split(s[1..], sep);
      if s[0] == sep then [[]] + rest
      else [[s[0]] + rest[0]] + rest[1..]
  }

  /** `parts.join(sep)`. */
  function Join(parts: seq<string>, sep: char): string
    requires |parts| >= 1
  {
    if |parts| == 1 then parts[0] else parts[0] + [sep] + Join(parts[1..], sep)
  }

  /** Splitting and re-joining gives back the original string. */
  lemma {:induction false} JoinSplit(s: string, sep: char)
    ensures Join(Split(s, sep), sep) == s
  {
    if s != [] {
      var rest := Split(s[1..], sep);
      JoinSplit(s[1..], sep);
      if s[0] == sep {
        JoinEmptyHead(rest, sep);
      } else {
        JoinExtendHead(s[0], rest, sep);
      }
      HeadTail(s);
    }
  }

  /** Joining after an empty first part puts the separator in front. */
  lemma JoinEmptyHead(parts: seq<string>, sep: char)
    requires |parts| >= 1
    ensures Join([[]] + parts, sep) == [sep] + Join(parts, sep)
  {
    assert ([[]] + parts)[1..] == parts;
  }

  /** Prefixing the first part with `c` prefixes the joined string with `c`. */
  lemma JoinExtendHead(c: char, parts: seq<string>, sep: char)
    requires |parts| >= 1
    ensures Join([[c] + parts[0]] + parts[1..], sep) == [c] + Join(parts, sep)
  {
    var r := [[c] + parts[0]] + parts[1..];
    if |parts| > 1 {
      assert r[1..] == parts[1..];
    }
  }

  lemma HeadTail(s: string)
    requires s != []
    ensures s == [s[0]] + s[1..]
  {
  }

  /** A string without the separator splits into itself alone. */
  lemma {:induction false} SplitNoSep(s: string, sep: char)
    requires sep !in s
    ensures Split(s, sep) == [s]
  {
    if s != [] {
      SplitNoSep(s[1..], sep);
      assert [s[0]] + s[1..] == s;
    }
  }

  /** A piece without the separator, followed by the separator, splits off as one piece. */
  lemma {:induction false} SplitPiece(a: string, b: string, sep: char)
    requires sep !in a
    ensures Split(a + [sep] + b, sep) == [a] + Split(b, sep)
  {
    var s := a + [sep] + b;
    if a == [] {
      assert s[1..] == b;
    } else {
      assert s[1..] == a[1..] + [sep] + b;
      SplitPiece(a[1..], b, sep);
      assert [a[0]] + a[1..] == a;
    }
  }

  /** Joining pieces free of the separator and splitting again gives the pieces back. */
  lemma {:induction false} SplitJoin(parts: seq<string>, sep: char)
    requires |parts| >= 1
    requires forall i :: 0 <= i < |parts| ==> sep !in parts[i]
    ensures Split(Join(parts, sep), sep) == parts
  {
    if |parts| == 1 {
      SplitNoSep(parts[0], sep);
    } else {
      SplitJoin(parts[1..], sep);
      SplitPiece(parts[0], Join(parts[1..], sep), sep);
      assert [parts[0]] + parts[1..] == parts;
    }
  }

  /** `s.split(sep).slice(-1)[0]`: the text after the last separator. */
  function LastSegment(s: string, sep: char): (r: string)
    ensures sep !in r
    ensures |r| <= |s| && r == s[|s| - |r|..]
    ensures |r| == |s| || s[|s| - |r| - 1] == sep
  {
    var parts := Split(s, sep);
    JoinSplit(s, sep);
    if |parts| > 1 then
      JoinLast(parts, sep);
      LastAfterSep(Join(parts[..|parts| - 1], sep), sep, parts[|parts| - 1]);
      parts[|parts| - 1]
    else
      parts[0]
  }

  /** Joining at least two pieces ends with the separator and the last piece. */
  lemma {:induction false} JoinLast(parts: seq<string>, sep: char)
    requires |parts| >= 2
    ensures Join(parts, sep) == Join(parts[..|parts| - 1], sep) + [sep] + parts[|parts| - 1]
  {
    var n := |parts|;
    if n > 2 {
      var tail := parts[1..];
      JoinLast(tail, sep);
      assert parts[..n - 1][1..] == tail[..|tail| - 1];
      assert parts[..n - 1][0] == parts[0];
      assert tail[|tail| - 1] == parts[n - 1];
    } else {
      assert parts[1..] == [parts[1]];
      assert parts[..1] == [parts[0]];
    }
  }

  lemma LastAfterSep(p: string, sep: char, r: string)
    ensures var s := p + [sep] + r;
            |r| < |s| && r == s[|s| - |r|..] && s[|s| - |r| - 1] == sep
  {
    var s := p + [sep] + r;
    assert s[|p| + 1..] == r;
    assert s[|p|] == sep;
  }

  // ---------------------------------------------------------------------
  // Decimal integers: String(n) and parseInt
  // ---------------------------------------------------------------------

  predicate IsDigit(c: char) { '0' <= c <= '9' }

  function DigitValue(c: char): nat
    requires IsDigit(c)
  {
    c as int - '0' as int
  }

  function DigitChar(d: nat): (c: char)
    requires d < 10
    ensures IsDigit(c) && DigitValue(c) == d
  {
    ('0' as int + d) as char
  }

  /** The decimal digits of `n`, without leading zeros (`String(n)` for n >= 0). */
  function NatToString(n: nat): (r: string)
    ensures |r| >= 1
    ensures forall i :: 0 <= i < |r| ==> IsDigit(r[i])
    decreases n
  {
    if n < 10 then [DigitChar(n)] else NatToString(n / 10) + [DigitChar(n % 10)]
  }

  /** `String(i)` for an integer. */
  function IntToString(i: int): string {
    if i < 0 then "-" + NatToString(-i) else NatToString(i)
  }

  /** The value of a non-empty string of digits. */
  function DigitsValue(s: string): nat
    requires forall i :: 0 <= i < |s| ==> IsDigit(s[i])
  {
    if s == [] then 0 else DigitsValue(s[..|s| - 1]) * 10 + DigitValue(s[|s| - 1])
  }

  /** The longest prefix of `s` made of digits. */
  function DigitPrefix(s: string): (r: string)
    ensures |r| <= |s| && r == s[..|r|]
    ensures forall i :: 0 <= i < |r| ==> IsDigit(s[i])
    ensures |r| == |s| || !IsDigit(s[|r|])
  {
    if s != [] && IsDigit(s[0]) then [s[0]] + DigitPrefix(s[1..]) else []
  }

  /** A hexadecimal digit, either case. */
  predicate IsHexDigit(c: char) { IsDigit(c) || 'a' <= c <= 'f' || 'A' <= c <= 'F' }

  function HexDigitValue(c: char): (v: nat)
    requires IsHexDigit(c)
    ensures v < 16
  {
    if IsDigit(c) then DigitValue(c)
    else if 'a' <= c <= 'f' then c as int - 'a' as int + 10
    else c as int - 'A' as int + 10
  }

  /** The value of a string of hexadecimal digits. */
  function HexValue(s: string): nat
    requires forall i :: 0 <= i < |s| ==> IsHexDigit(s[i])
  {
    if s == [] then 0 else HexValue(s[..|s| - 1]) * 16 + HexDigitValue(s[|s| - 1])
  }

  /** The longest prefix of `s` made of hexadecimal digits. */
  function HexPrefix(s: string): (r: string)
    ensures |r| <= |s| && r == s[..|r|]
    ensures forall i :: 0 <= i < |r| ==> IsHexDigit(s[i])
  {
    if s != [] && IsHexDigit(s[0]) then [s[0]] + HexPrefix(s[1..]) else []
  }

  /** `0x` or `0X`, which switches `parseInt` without a radix to base 16. */
  predicate HasHexPrefix(s: string) {
    |s| >= 2 && s[0] == '0' && (s[1] == 'x' || s[1] == 'X')
  }

  /**
   * `parseInt(s)` without a radix: leading white space, an optional sign,
   * then either `0x`/`0X` and the longest run of hexadecimal digits, or
   * the longest run of decimal digits; `None` stands for `NaN` (no digits).
   */
  function ParseInt(s: string): (r: Option<int>)
    ensures r.Some? ==> exists i :: 0 <= i < |s| && IsDigit(s[i])
  {
    var t := TrimStart(s);
    var r := ParseSigned(t);
    assert r.Some? ==> exists i :: 0 <= i < |s| && IsDigit(s[i]) by {
      if r.Some? {
        if IsDigit(t[0]) {
          assert t[0] == s[|s| - |t|];
        } else {
          assert t[1] == s[|s| - |t| + 1];
        }
      }
    }
    r
  }

  /** `parseInt` once the leading white space is gone. */
  function ParseSigned(t: string): (r: Option<int>)
    ensures r.Some? ==> |t| > 0 && (IsDigit(t[0]) || (|t| > 1 && IsDigit(t[1])))
  {
    var neg := t != [] && t[0] == '-';
    var body := if t != [] && (t[0] == '-' || t[0] == '+') then t[1..] else t;
    if HasHexPrefix(body) then
      var hs := HexPrefix(body[2..]);
      if hs == [] then None else Some(Signed(neg, HexValue(hs)))
    else
      var ds := DigitPrefix(body);
      if ds == [] then None else Some(Signed(neg, DigitsValue(ds)))
  }

  /** White space before a non-space text is what `TrimStart` removes. */
  lemma {:induction false} TrimStartOfSpaces(ws: string, u: string)
    requires forall i :: 0 <= i < |ws| ==> IsSpace(ws[i])
    requires u == [] || !IsSpace(u[0])
    ensures TrimStart(ws + u) == u
  {
    if ws != [] {
      assert (ws + u)[1..] == ws[1..] + u;
      TrimStartOfSpaces(ws[1..], u);
    } else {
      assert ws + u == u;
    }
  }

  /** The digit run stops at the first character that is not a digit. */
  lemma {:induction false} DigitPrefixOf(ds: string, rest: string)
    requires forall i :: 0 <= i < |ds| ==> IsDigit(ds[i])
    requires rest == [] || !IsDigit(rest[0])
    ensures DigitPrefix(ds + rest) == ds
  {
    if ds != [] {
      assert (ds + rest)[1..] == ds[1..] + rest;
      DigitPrefixOf(ds[1..], rest);
    } else {
      assert ds + rest == rest;
    }
  }

  /** A digit run's value with its sign. */
  function Signed(neg: bool, v: nat): int {
    if neg then -(v as int) else v as int
  }

  /** A digit run `0` followed by `x` or `X`: what `parseInt` reads as a hexadecimal prefix. */
  predicate HexMarkAfter(ds: string, rest: string) {
    ds == "0" && rest != [] && (rest[0] == 'x' || rest[0] == 'X')
  }

  /** A digit run that is not `0` then `x` does not start a hexadecimal number. */
  lemma NoHexPrefix(ds: string, rest: string)
    requires ds != [] && forall i :: 0 <= i < |ds| ==> IsDigit(ds[i])
    requires !HexMarkAfter(ds, rest)
    ensures !HasHexPrefix(ds + rest)
  {
    if |ds| >= 2 {
      assert (ds + rest)[1] == ds[1];
    } else if rest != [] {
      assert ds == [ds[0]];
      assert (ds + rest)[1] == rest[0];
    }
  }

  /** A text starting with a digit, and not `0x`, reads as the value of its digit run. */
  lemma ParseUnsignedOf(t: string, ds: string)
    requires ds != [] && forall i :: 0 <= i < |ds| ==> IsDigit(ds[i])
    requires t != [] && IsDigit(t[0]) && DigitPrefix(t) == ds && !HasHexPrefix(t)
    ensures ParseSigned(t) == Some(Signed(false, DigitsValue(ds)))
  {
  }

  /** A text starting with a sign reads as the value of the digit run after it, with the sign. */
  lemma ParseSignOf(t: string, ds: string)
    requires ds != [] && forall i :: 0 <= i < |ds| ==> IsDigit(ds[i])
    requires t != [] && (t[0] == '-' || t[0] == '+') && DigitPrefix(t[1..]) == ds && !HasHexPrefix(t[1..])
    ensures ParseSigned(t) == Some(Signed(t[0] == '-', DigitsValue(ds)))
  {
  }

  lemma ParseBareRun(ds: string, rest: string)
    requires ds != [] && forall i :: 0 <= i < |ds| ==> IsDigit(ds[i])
    requires rest == [] || !IsDigit(rest[0])
    requires !HexMarkAfter(ds, rest)
    ensures ParseSigned(ds + rest) == Some(Signed(false, DigitsValue(ds)))
  {
    DigitPrefixOf(ds, rest);
    NoHexPrefix(ds, rest);
    assert (ds + rest)[0] == ds[0];
    ParseUnsignedOf(ds + rest, ds);
  }

  lemma ParseWithSign(c: char, ds: string, rest: string)
    requires c == '-' || c == '+'
    requires ds != [] && forall i :: 0 <= i < |ds| ==> IsDigit(ds[i])
    requires rest == [] || !IsDigit(rest[0])
    requires !HexMarkAfter(ds, rest)
    ensures ParseSigned([c] + ds + rest) == Some(Signed(c == '-', DigitsValue(ds)))
  {
    DigitPrefixOf(ds, rest);
    NoHexPrefix(ds, rest);
    ConsTail(c, ds, rest);
    ParseSignOf([c] + ds + rest, ds);
  }

  lemma EmptyConcat(a: string, b: string)
    ensures "" + a + b == a + b
  {
  }

  lemma ConsTail(c: char, a: string, b: string)
    ensures ([c] + a + b)[0] == c && ([c] + a + b)[1..] == a + b
  {
    assert [c] + a + b == [c] + (a + b);
  }

  /** An optional sign and a run of digits, followed by a non-digit, read as the run's value with the sign. */
  lemma ParseSignedValue(sign: string, ds: string, rest: string)
    requires sign == "" || sign == "+" || sign == "-"
    requires ds != [] && forall i :: 0 <= i < |ds| ==> IsDigit(ds[i])
    requires rest == [] || !IsDigit(rest[0])
    requires !HexMarkAfter(ds, rest)
    ensures ParseSigned(sign + ds + rest) == Some(Signed(sign == "-", DigitsValue(ds)))
  {
    if sign == "" {
      EmptyConcat(ds, rest);
      ParseBareRun(ds, rest);
    } else if sign == "+" {
      ParseWithSign('+', ds, rest);
    } else {
      ParseWithSign('-', ds, rest);
    }
  }

  lemma ConcatRegroup(a: string, b: string, c: string, d: string)
    ensures a + b + c + d == a + (b + c + d)
  {
  }

  /** An optional sign followed by a digit run starts with a non-space. */
  lemma SignedRunHead(sign: string, ds: string, rest: string)
    requires sign == "" || sign == "+" || sign == "-"
    requires ds != [] && IsDigit(ds[0])
    ensures !IsSpace((sign + ds + rest)[0])
  {
    assert (sign + ds + rest)[0] == if sign == "" then ds[0] else sign[0];
  }

  /** Leading white space does not change what `parseInt` reads. */
  lemma ParseIntAfterSpaces(ws: string, u: string)
    requires forall i :: 0 <= i < |ws| ==> IsSpace(ws[i])
    requires u == [] || !IsSpace(u[0])
    ensures ParseInt(ws + u) == ParseSigned(u)
  {
    TrimStartOfSpaces(ws, u);
  }

  /**
   * `parseInt` reads leading white space, an optional sign and a run of
   * digits, ignores what follows, and gives the run's value with the sign;
   * a run `0` followed by `x` or `X` is the hexadecimal case below.
   */
  lemma ParseIntValue(ws: string, sign: string, ds: string, rest: string)
    requires forall i :: 0 <= i < |ws| ==> IsSpace(ws[i])
    requires sign == "" || sign == "+" || sign == "-"
    requires ds != [] && forall i :: 0 <= i < |ds| ==> IsDigit(ds[i])
    requires rest == [] || !IsDigit(rest[0])
    requires !HexMarkAfter(ds, rest)
    ensures ParseInt(ws + sign + ds + rest) == Some(Signed(sign == "-", DigitsValue(ds)))
  {
    ConcatRegroup(ws, sign, ds, rest);
    SignedRunHead(sign, ds, rest);
    ParseIntAfterSpaces(ws, sign + ds + rest);
    ParseSignedValue(sign, ds, rest);
  }

  /** With no digit after the white space and the optional sign, `parseInt` gives `NaN`. */
  lemma ParseIntNoDigits(ws: string, sign: string, rest: string)
    requires forall i :: 0 <= i < |ws| ==> IsSpace(ws[i])
    requires sign == "" || sign == "+" || sign == "-"
    requires rest == [] || !IsDigit(rest[0])
    requires sign == "" ==> rest == [] || (!IsSpace(rest[0]) && rest[0] != '+' && rest[0] != '-')
    ensures ParseInt(ws + sign + rest) == None
  {
    ParseSignedNoDigits(sign, rest);
    Regroup3(ws, sign, rest);
    ParseIntVia(ws, sign + rest, ws + sign + rest, None);
  }

  /** An optional sign followed by no digit is `NaN`, and starts with a non-space. */
  lemma ParseSignedNoDigits(sign: string, rest: string)
    requires sign == "" || sign == "+" || sign == "-"
    requires rest == [] || !IsDigit(rest[0])
    requires sign == "" ==> rest == [] || (!IsSpace(rest[0]) && rest[0] != '+' && rest[0] != '-')
    ensures ParseSigned(sign + rest) == None
    ensures sign + rest == [] || !IsSpace((sign + rest)[0])
  {
    var u := sign + rest;
    if sign != "" {
      assert sign == [sign[0]];
      assert u[1..] == rest;
    } else {
      assert u == rest;
    }
  }


  /** The hexadecimal run stops at the first character that is not a hexadecimal digit. */
  lemma {:induction false} HexPrefixOf(hs: string, rest: string)
    requires forall i :: 0 <= i < |hs| ==> IsHexDigit(hs[i])
    requires rest == [] || !IsHexDigit(rest[0])
    ensures HexPrefix(hs + rest) == hs
  {
    if hs != [] {
      assert (hs + rest)[1..] == hs[1..] + rest;
      HexPrefixOf(hs[1..], rest);
    } else {
      assert hs + rest == rest;
    }
  }

  /** What follows the sign in a text of a sign, `0`, `x` and `tail`. */
  lemma HexBody(sign: string, x: char, tail: string)
    requires sign == "" || sign == "+" || sign == "-"
    ensures var t := sign + (['0', x] + tail);
            var body := if t != [] && (t[0] == '-' || t[0] == '+') then t[1..] else t;
            && body == ['0', x] + tail
            && body[2..] == tail
            && (x == 'x' || x == 'X' ==> HasHexPrefix(body))
            && (t != [] && t[0] == '-' <==> sign == "-")
  {
    var u := ['0', x] + tail;
    assert u[2..] == tail;
    if sign != "" {
      assert (sign + u)[1..] == u;
    }
  }

  /** `0x` or `0X` and a run of hexadecimal digits, after an optional sign, read as the run's value in base 16. */
  lemma ParseSignedHex(sign: string, x: char, hs: string, rest: string)
    requires sign == "" || sign == "+" || sign == "-"
    requires x == 'x' || x == 'X'
    requires hs != [] && forall i :: 0 <= i < |hs| ==> IsHexDigit(hs[i])
    requires rest == [] || !IsHexDigit(rest[0])
    ensures ParseSigned(sign + (['0', x] + (hs + rest))) == Some(Signed(sign == "-", HexValue(hs)))
  {
    HexBody(sign, x, hs + rest);
    HexPrefixOf(hs, rest);
    ParseSignedHexOf(sign + (['0', x] + (hs + rest)), hs);
  }

  /** A text whose part after the sign starts with `0x` and a hexadecimal run reads as that run in base 16. */
  lemma ParseSignedHexOf(t: string, hs: string)
    requires hs != [] && forall i :: 0 <= i < |hs| ==> IsHexDigit(hs[i])
    requires var body := if t != [] && (t[0] == '-' || t[0] == '+') then t[1..] else t;
             HasHexPrefix(body) && HexPrefix(body[2..]) == hs
    ensures ParseSigned(t) == Some(Signed(t != [] && t[0] == '-', HexValue(hs)))
  {
  }

  /** `0x` or `0X` and no hexadecimal digit, after an optional sign, is `NaN`. */
  lemma ParseSignedHexEmpty(sign: string, x: char, rest: string)
    requires sign == "" || sign == "+" || sign == "-"
    requires x == 'x' || x == 'X'
    requires rest == [] || !IsHexDigit(rest[0])
    ensures ParseSigned(sign + (['0', x] + rest)) == None
  {
    HexBody(sign, x, rest);
  }

  /** A text of an optional sign and then `0` starts with a non-space. */
  lemma HexHead(sign: string, x: char, tail: string)
    requires sign == "" || sign == "+" || sign == "-"
    ensures !IsSpace((sign + (['0', x] + tail))[0])
  {
    assert (sign + (['0', x] + tail))[0] == if sign == "" then '0' else sign[0];
  }

  /** `parseInt` of white space and then `u` is what `u` parses to. */
  lemma ParseIntVia(ws: string, u: string, s: string, v: Option<int>)
    requires forall i :: 0 <= i < |ws| ==> IsSpace(ws[i])
    requires u == [] || !IsSpace(u[0])
    requires s == ws + u && ParseSigned(u) == v
    ensures ParseInt(s) == v
  {
    ParseIntAfterSpaces(ws, u);
  }

  /** `parseInt` reads `0x` or `0X` after the white space and the optional sign as base 16. */
  lemma ParseIntHex(ws: string, sign: string, x: char, hs: string, rest: string)
    requires forall i :: 0 <= i < |ws| ==> IsSpace(ws[i])
    requires sign == "" || sign == "+" || sign == "-"
    requires x == 'x' || x == 'X'
    requires hs != [] && forall i :: 0 <= i < |hs| ==> IsHexDigit(hs[i])
    requires rest == [] || !IsHexDigit(rest[0])
    ensures ParseInt(ws + sign + ['0', x] + hs + rest) == Some(Signed(sign == "-", HexValue(hs)))
  {
    var u := sign + (['0', x] + (hs + rest));
    Regroup5(ws, sign, ['0', x], hs, rest);
    HexHead(sign, x, hs + rest);
    ParseSignedHex(sign, x, hs, rest);
    ParseIntVia(ws, u, ws + sign + ['0', x] + hs + rest, Some(Signed(sign == "-", HexValue(hs))));
  }

  /** `0x` or `0X` with no hexadecimal digit after it gives `NaN`. */
  lemma ParseIntHexNoDigits(ws: string, sign: string, x: char, rest: string)
    requires forall i :: 0 <= i < |ws| ==> IsSpace(ws[i])
    requires sign == "" || sign == "+" || sign == "-"
    requires x == 'x' || x == 'X'
    requires rest == [] || !IsHexDigit(rest[0])
    ensures ParseInt(ws + sign + ['0', x] + rest) == None
  {
    var u := sign + (['0', x] + rest);
    Regroup4(ws, sign, ['0', x], rest);
    HexHead(sign, x, rest);
    ParseSignedHexEmpty(sign, x, rest);
    ParseIntVia(ws, u, ws + sign + ['0', x] + rest, None);
  }

  lemma Regroup3(a: string, b: string, c: string)
    ensures a + b + c == a + (b + c)
  {
  }

  lemma Regroup4(a: string, b: string, c: string, d: string)
    ensures a + b + c + d == a + (b + (c + d))
  {
  }

  lemma Regroup5(a: string, b: string, c: string, d: string, e: string)
    ensures a + b + c + d + e == a + (b + (c + (d + e)))
  {
  }

  lemma {:induction false} DigitsOfNat(n: nat)
    ensures DigitsValue(NatToString(n)) == n
    decreases n
  {
    if n >= 10 {
      DigitsOfNat(n / 10);
      var r := NatToString(n);
      assert r[..|r| - 1] == NatToString(n / 10);
    }
  }

  lemma {:induction false} DigitPrefixAll(s: string)
    requires forall i :: 0 <= i < |s| ==> IsDigit(s[i])
    ensures DigitPrefix(s) == s
  {
    if s != [] {
      DigitPrefixAll(s[1..]);
    }
  }

  /** `parseInt(String(n)) == n`. */
  lemma ParseNatToString(n: nat)
    ensures ParseInt(NatToString(n)) == Some(n)
  {
    var s := NatToString(n);
    assert !IsSpace(s[0]);
    assert TrimStart(s) == s;
    DigitPrefixAll(s);
    DigitsOfNat(n);
  }

  /** `parseInt("+" + String(n)) == n`. */
  lemma ParsePlusNat(n: nat)
    ensures ParseInt("+" + NatToString(n)) == Some(n as int)
  {
    var s := NatToString(n);
    var t := "+" + s;
    assert TrimStart(t) == t;
    assert t[1..] == s;
    DigitPrefixAll(s);
    DigitsOfNat(n);
  }

  /** `parseInt("-" + String(n)) == -n`. */
  lemma ParseMinusNat(n: nat)
    ensures ParseInt("-" + NatToString(n)) == Some(-(n as int))
  {
    var s := NatToString(n);
    var t := "-" + s;
    assert TrimStart(t) == t;
    assert t[1..] == s;
    DigitPrefixAll(s);
    DigitsOfNat(n);
  }

  /** `parseInt(String(i)) == i` for every integer. */
  lemma ParseIntToString(i: int)
    ensures ParseInt(IntToString(i)) == Some(i)
  {
    var s := IntToString(i);
    if i < 0 {
      var n: nat := -i;
      assert s == "-" + NatToString(n);
      ParseMinusNat(n);
    } else {
      assert s == NatToString(i);
      ParseNatToString(i);
    }
  }
}
