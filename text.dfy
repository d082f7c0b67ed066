/**
 * The string operations of Python and JavaScript that the modelled code relies on:
 * `split` with and without a split limit, `join`, `startswith`/`endswith`, substring
 * membership, `lower()`, `strip()`, `replace` of one character, `str(int)`, `int(str)` and
 * `repr(str)`.
 */
module Text {
  import opened Wrappers

  /** Lower-casing of one character; only the ASCII letters A-Z change. */
  function LowerChar(c: char): char {
    if 'A' <= c <= 'Z' then (c as int + 32) as char else c
  }

  /** `s.lower()` / `s.toLowerCase()` on ASCII letters. */
  function Lower(s: string): (r: string)
    ensures |r| == |s|
    ensures forall i :: 0 <= i < |s| ==> r[i] == LowerChar(s[i])
  {
    if |s| == 0 then [] else [LowerChar(s[0])] + Lower(s[1..])
  }

  predicate StartsWith(s: string, prefix: string) {
    |prefix| <= |s| && s[..|prefix|] == prefix
  }

  predicate EndsWith(s: string, suffix: string) {
    |suffix| <= |s| && s[|s| - |suffix|..] == suffix
  }

  /** Python's `part in s` for strings. */
  predicate Contains(s: string, part: string)
    decreases |s|
  {
    StartsWith(s, part) || (|s| > 0 && Contains(s[1..], part))
  }

  /**
   * `s.split(c)` in Python and in JavaScript for a one-character separator: the
   * pieces between the separators, in order, and always at least one piece.
   */
  function Split(s: string, c: char): (parts: seq<string>)
    ensures |parts| >= 1
    ensures forall i :: 0 <= i < |parts| ==> c !in parts[i]
  {
    if |s| == 0 then [""]
    else
      var rest := Split(s[1..], c);
      if s[0] == c then [""] + rest else [[s[0]] + rest[0]] + rest[1..]
  }

  /**
   * Python's `s.split(c, n)`: at most `n` splits, from the left; the last piece
   * keeps any further separators.
   */
  function SplitN(s: string, c: char, n: nat): (parts: seq<string>)
    ensures 1 <= |parts| <= n + 1
    ensures n > 0 ==> c !in parts[0]
  {
    if n == 0 || |s| == 0 then [s]
    else
      var rest := SplitN(s[1..], c, if s[0] == c then n - 1 else n);
      if s[0] == c then [""] + rest else [[s[0]] + rest[0]] + rest[1..]
  }

  /** `sep.join(parts)` / `parts.join(sep)`. */
  function Join(parts: seq<string>, sep: string): string {
    if |parts| == 0 then ""
    else if |parts| == 1 then parts[0]
    else parts[0] + sep + Join(parts[1..], sep)
  }

  /** Every character of `s` as a one-character string, in order (iterating a Python str). */
  function Chars(s: string): (r: seq<string>)
    ensures |r| == |s|
    ensures forall i :: 0 <= i < |s| ==> r[i] == [s[i]]
  {
    if |s| == 0 then [] else [[s[0]]] + Chars(s[1..])
  }

  /** `s.replace(from, to)` for one-character arguments. */
  function ReplaceChar(s: string, from: char, to: char): (r: string)
    ensures |r| == |s|
    ensures forall i :: 0 <= i < |s| ==> r[i] == if s[i] == from then to else s[i]
  {
    if |s| == 0 then [] else [if s[0] == from then to else s[0]] + ReplaceChar(s[1..], from, to)
  }

  function DigitChar(d: nat): char
    requires d < 10
  {
    "0123456789"[d]
  }

  /** `str(n)` for a non-negative integer. */
  function Decimal(n: nat): string
    decreases n
  {
    if n < 10 then [DigitChar(n)] else Decimal(n / 10) + [DigitChar(n % 10)]
  }

  /** `str(i)` for any integer: a "-" before the digits of a negative one. */
  function IntText(i: int): string {
    if i < 0 then "-" + Decimal(-i) else Decimal(i)
  }

  predicate IsDigit(c: char) {
    '0' <= c <= '9'
  }

  predicate AllDigits(s: string) {
    forall i :: 0 <= i < |s| ==> IsDigit(s[i])
  }

  /** The value of a string of ASCII digits, most significant digit first. */
  function DigitsValue(s: string): nat
    requires AllDigits(s)
  {
    if |s| == 0 then 0 else DigitsValue(s[..|s| - 1]) * 10 + (s[|s| - 1] as int - '0' as int)
  }

  /**
   * `int(s)` in base 10: optional surrounding whitespace, an optional sign and at
   * least one ASCII digit; None where `int` raises ValueError.
   */
  function ParseInt(s: string): Option<int> {
    var t := Strip(s);
    var signed := |t| > 0 && (t[0] == '-' || t[0] == '+');
    var digits := if signed then t[1..] else t;
    if |digits| > 0 && AllDigits(digits) then
      var v: int := DigitsValue(digits);
      Some(if signed && t[0] == '-' then -v else v)
    else None
  }

  /** The characters Python's `str.isspace()` accepts, which `str.strip()` removes. */
  predicate IsSpace(c: char) {
    || c == ' '
    || '\t' <= c <= '\r'
    || '\U{1C}' <= c <= '\U{1F}'
    || c == '\U{85}' || c == '\U{A0}' || c == '\U{1680}'
    || '\U{2000}' <= c <= '\U{200A}'
    || c == '\U{2028}' || c == '\U{2029}' || c == '\U{202F}' || c == '\U{205F}' || c == '\U{3000}'
  }

  function TrimStart(s: string): string {
    if |s| > 0 && IsSpace(s[0]) then TrimStart(s[1..]) else s
  }

  function TrimEnd(s: string): string {
    if |s| > 0 && IsSpace(s[|s| - 1]) then TrimEnd(s[..|s| - 1]) else s
  }

  /** Python's `s.strip()` with no argument. */
  function Strip(s: string): string {
    TrimEnd(TrimStart(s))
  }

  predicate AllSpace(s: string) {
    forall i :: 0 <= i < |s| ==> IsSpace(s[i])
  }

  // ---------------------------------------------------------------------------
  // Lemmas

  /** Concatenation is associative; stated apart so that proofs need not unfold the parts. */
  lemma AppendAssoc<T>(x: seq<T>, y: seq<T>, z: seq<T>)
    ensures (x + y) + z == x + (y + z)
  {
  }

  /** Taking one more element of `s` appends it; the rest of `s` follows. */
  lemma TakeOneMore<T>(s: seq<T>, i: nat)
    requires i < |s|
    ensures s[..i + 1] == s[..i] + [s[i]]
    ensures s[..i + 1] + s[i + 1..] == s
  {
  }

  lemma {:induction false} LowerHasNoUpper(s: string)
    ensures forall i :: 0 <= i < |s| ==> !('A' <= Lower(s)[i] <= 'Z')
  {
  }

  /** Lower-casing twice is lower-casing once. */
  lemma LowerIdempotent(s: string)
    ensures Lower(Lower(s)) == Lower(s)
  {
    assert forall i :: 0 <= i < |s| ==> LowerChar(LowerChar(s[i])) == LowerChar(s[i]);
  }

  /** Lower-casing leaves a string without upper-case letters as it is. */
  lemma LowerWithoutUpper(s: string)
    requires forall i :: 0 <= i < |s| ==> !('A' <= s[i] <= 'Z')
    ensures Lower(s) == s
  {
  }

  /** Lower-casing works character by character, so it distributes over concatenation. */
  lemma LowerAppend(a: string, b: string)
    ensures Lower(a + b) == Lower(a) + Lower(b)
  {
    forall i | 0 <= i < |a| + |b|
      ensures Lower(a + b)[i] == (Lower(a) + Lower(b))[i]
    {
      if i < |a| {
        assert (a + b)[i] == a[i];
      } else {
        assert (a + b)[i] == b[i - |a|];
      }
    }
  }


  /** Joining the pieces of a split with the separator gives back the string. */
  lemma {:induction false} JoinSplit(s: string, c: char)
    ensures Join(Split(s, c), [c]) == s
  {
    if |s| > 0 {
      var rest := Split(s[1..], c);
      JoinSplit(s[1..], c);
      if s[0] == c {
        assert Split(s, c) == [""] + rest;
        assert ([""] + rest)[1..] == rest;
      } else {
        var parts := [[s[0]] + rest[0]] + rest[1..];
        assert Split(s, c) == parts;
        if |rest| > 1 {
          assert parts[1..] == rest[1..];
          assert Join(rest, [c]) == rest[0] + [c] + Join(rest[1..], [c]);
        }
        assert s == [s[0]] + s[1..];
      }
    }
  }

  /** A separator between `a` and `b` splits exactly there. */
  lemma {:induction false} SplitConcat(a: string, b: string, c: char)
    ensures Split(a + [c] + b, c) == Split(a, c) + Split(b, c)
    decreases |a|
  {
    var s := a + [c] + b;
    var q := Split(b, c);
    if |a| == 0 {
      assert s[0] == c && s[1..] == b;
    } else {
      var tail := a[1..] + [c] + b;
      assert s[0] == a[0] && s[1..] == tail;
      SplitConcat(a[1..], b, c);
      var r := Split(a[1..], c);
      assert Split(tail, c) == r + q;
      if a[0] != c {
        FirstPieceJoins([a[0]], r, q);
      }
    }
  }

  /** Gluing onto the first piece of `r + q` when `r` is non-empty. */
  lemma FirstPieceJoins(x: string, r: seq<string>, q: seq<string>)
    requires |r| > 0
    ensures [x + (r + q)[0]] + (r + q)[1..] == ([x + r[0]] + r[1..]) + q
  {
    assert (r + q)[0] == r[0];
    assert (r + q)[1..] == r[1..] + q;
  }

  /** A string without the separator is its own single piece. */
  lemma {:induction false} SplitNoSeparator(s: string, c: char)
    requires c !in s
    ensures Split(s, c) == [s]
  {
    if |s| > 0 {
      SplitNoSeparator(s[1..], c);
      assert [s[0]] + s[1..] == s;
    }
  }

  /** Splitting gives one piece exactly when the separator does not occur. */
  lemma {:induction false} SplitSingleIff(s: string, c: char)
    ensures |Split(s, c)| == 1 <==> c !in s
  {
    if |s| > 0 {
      SplitSingleIff(s[1..], c);
      assert c in s <==> s[0] == c || c in s[1..];
    }
  }

  /** With a split limit, a separator-free first piece is cut off exactly. */
  lemma {:induction false} SplitNConcat(a: string, b: string, c: char, n: nat)
    requires n >= 1 && c !in a
    ensures SplitN(a + [c] + b, c, n) == [a] + SplitN(b, c, n - 1)
    decreases |a|
  {
    var s := a + [c] + b;
    if |a| == 0 {
      assert s[1..] == b;
    } else {
      assert s[1..] == a[1..] + [c] + b;
      SplitNConcat(a[1..], b, c, n);
      assert [a[0]] + a[1..] == a;
    }
  }

  /** Joining the pieces of a limited split with the separator gives back the string. */
  lemma {:induction false} JoinSplitN(s: string, c: char, n: nat)
    ensures Join(SplitN(s, c, n), [c]) == s
  {
    if n > 0 && |s| > 0 {
      var m := if s[0] == c then n - 1 else n;
      var rest := SplitN(s[1..], c, m);
      JoinSplitN(s[1..], c, m);
      if s[0] == c {
        assert SplitN(s, c, n) == [""] + rest;
        assert ([""] + rest)[1..] == rest;
      } else {
        var parts := [[s[0]] + rest[0]] + rest[1..];
        assert SplitN(s, c, n) == parts;
        if |rest| > 1 {
          assert parts[1..] == rest[1..];
          assert Join(rest, [c]) == rest[0] + [c] + Join(rest[1..], [c]);
        }
        assert s == [s[0]] + s[1..];
      }
    }
  }

  /** A string without the separator is not split, whatever the limit. */
  lemma {:induction false} SplitNNoSeparator(s: string, c: char, n: nat)
    requires c !in s
    ensures SplitN(s, c, n) == [s]
  {
    if n > 0 && |s| > 0 {
      SplitNNoSeparator(s[1..], c, n);
      assert [s[0]] + s[1..] == s;
    }
  }

  /** Once the separator occurs and a split is allowed, there are at least two pieces. */
  lemma {:induction false} SplitNTwoPieces(s: string, c: char, n: nat)
    requires n >= 1 && c in s
    ensures |SplitN(s, c, n)| >= 2
  {
    if s[0] != c {
      assert c in s[1..];
      SplitNTwoPieces(s[1..], c, n);
    }
  }

  lemma {:induction false} TrimStartAllSpace(s: string)
    ensures AllSpace(TrimStart(s)) <==> AllSpace(s)
    ensures TrimStart(s) == "" <==> AllSpace(s)
  {
    if |s| > 0 {
      TrimStartAllSpace(s[1..]);
      if IsSpace(s[0]) {
        assert AllSpace(s) <==> AllSpace(s[1..]);
      } else {
        assert !AllSpace(s);
      }
    }
  }

  lemma {:induction false} TrimEndEmpty(s: string)
    ensures TrimEnd(s) == "" <==> AllSpace(s)
    decreases |s|
  {
    if |s| > 0 {
      var t := s[..|s| - 1];
      TrimEndEmpty(t);
      if IsSpace(s[|s| - 1]) {
        assert AllSpace(s) <==> AllSpace(t);
      } else {
        assert !AllSpace(s);
      }
    }
  }

  /** `s.strip()` is empty exactly when every character of `s` is whitespace. */
  lemma StripEmptyIff(s: string)
    ensures Strip(s) == "" <==> AllSpace(s)
  {
    TrimStartAllSpace(s);
    TrimEndEmpty(TrimStart(s));
  }

  lemma DigitCharValue(d: nat)
    requires d < 10
    ensures IsDigit(DigitChar(d)) && DigitChar(d) as int - '0' as int == d
  {
    var digits := "0123456789";
    assert forall k :: 0 <= k < 10 ==> digits[k] as int == '0' as int + k;
  }

  /** `str(n)` is a non-empty run of digits whose value is n. */
  lemma {:induction false} DecimalDigits(n: nat)
    ensures |Decimal(n)| > 0 && AllDigits(Decimal(n)) && DigitsValue(Decimal(n)) == n
    decreases n
  {
    if n < 10 {
      DigitCharValue(n);
    } else {
      DecimalDigits(n / 10);
      DigitCharValue(n % 10);
      var s := Decimal(n);
      assert s[..|s| - 1] == Decimal(n / 10);
    }
  }

  /** Text with no whitespace at either end is its own `strip()`. */
  lemma StripUnchanged(s: string)
    requires |s| > 0 && !IsSpace(s[0]) && !IsSpace(s[|s| - 1])
    ensures Strip(s) == s
  {
  }

  /** `int(str(i)) == i`: the text of any integer, negative ones included, parses back to it. */
  lemma ParseIntText(i: int)
    ensures ParseInt(IntText(i)) == Some(i)
  {
    var n := if i < 0 then -i else i;
    DecimalDigits(n);
    var d := Decimal(n);
    assert IsDigit(d[0]) && IsDigit(d[|d| - 1]);
    var s := IntText(i);
    if i < 0 {
      assert s == "-" + d;
      assert s[1..] == d;
      StripUnchanged(s);
    } else {
      assert s == d;
      StripUnchanged(s);
    }
  }

  /** The whitespace `lstrip()` drops is a prefix of `s`. */
  lemma {:induction false} TrimStartDrops(s: string) returns (a: nat)
    ensures a <= |s| && TrimStart(s) == s[a..]
    ensures forall i :: 0 <= i < a ==> IsSpace(s[i])
  {
    if |s| > 0 && IsSpace(s[0]) {
      var b := TrimStartDrops(s[1..]);
      a := b + 1;
      assert s[1..][b..] == s[a..];
      forall i | 0 <= i < a
        ensures IsSpace(s[i])
      {
        if i > 0 {
          assert s[i] == s[1..][i - 1];
        }
      }
    } else {
      a := 0;
    }
  }

  /** The whitespace `rstrip()` drops is a suffix of `s`. */
  lemma {:induction false} TrimEndDrops(s: string) returns (b: nat)
    ensures b <= |s| && TrimEnd(s) == s[..b]
    ensures forall i :: b <= i < |s| ==> IsSpace(s[i])
    decreases |s|
  {
    if |s| > 0 && IsSpace(s[|s| - 1]) {
      var t := s[..|s| - 1];
      b := TrimEndDrops(t);
      assert t[..b] == s[..b];
      forall i | b <= i < |s|
        ensures IsSpace(s[i])
      {
        if i < |s| - 1 {
          assert s[i] == t[i];
        }
      }
    } else {
      b := |s|;
    }
  }

  /** `strip()` removes whitespace only: every other character of `s` survives it. */
  lemma StripKeeps(s: string, k: nat)
    requires k < |s| && !IsSpace(s[k])
    ensures s[k] in Strip(s)
  {
    var a := TrimStartDrops(s);
    var t := s[a..];
    var b := TrimEndDrops(t);
    assert k >= a;
    assert t[k - a] == s[k];
    assert k - a < b;
    assert Strip(s)[k - a] == s[k];
  }

  /** Text that `int` accepts holds nothing but whitespace, signs and digits. */
  lemma ParseIntChars(s: string, k: nat)
    requires ParseInt(s).Some? && k < |s|
    ensures IsSpace(s[k]) || IsDigit(s[k]) || s[k] == '-' || s[k] == '+'
  {
    if !IsSpace(s[k]) {
      StripKeeps(s, k);
      var t := Strip(s);
      var j :| 0 <= j < |t| && t[j] == s[k];
      if j > 0 && (t[0] == '-' || t[0] == '+') {
        assert t[1..][j - 1] == t[j];
      }
    }
  }

  // ---------------------------------------------------------------------------
  // repr of a string

  /** A lower-case hexadecimal digit. */
  function HexDigit(d: nat): char
    requires d < 16
  {
    if d < 10 then ('0' as int + d) as char else ('a' as int + d - 10) as char
  }

  /** The value of a lower-case hexadecimal digit. */
  function HexValue(c: char): (v: Option<nat>)
    ensures v.Some? ==> v.value < 16
  {
    if '0' <= c <= '9' then Some(c as int - '0' as int)
    else if 'a' <= c <= 'f' then Some(c as int - 'a' as int + 10)
    else None
  }

  /** The quote `repr` puts around a string: `"` only when it holds `'` and no `"`. */
  function ReprQuote(s: string): char {
    if '\'' in s && '"' !in s then '"' else '\''
  }

  /**
   * The characters `repr` writes as a `\x` escape: the ASCII controls other than tab,
   * newline and carriage return, DEL, and the Latin-1 characters that are not printable.
   */
  predicate HexEscaped(c: char) {
    (c < ' ' && c != '\t' && c != '\n' && c != '\r') || '\U{7F}' <= c <= '\U{A0}' || c == '\U{AD}'
  }

  /** How `repr` writes one character of a string it encloses in `quote`. */
  function ReprChar(c: char, quote: char): string {
    if c == quote || c == '\\' then ['\\', c]
    else if c == '\t' then "\\t"
    else if c == '\n' then "\\n"
    else if c == '\r' then "\\r"
    else if HexEscaped(c) then ['\\', 'x', HexDigit(c as int / 16), HexDigit(c as int % 16)]
    else [c]
  }

  function ReprBody(s: string, quote: char): string {
    if |s| == 0 then "" else ReprChar(s[0], quote) + ReprBody(s[1..], quote)
  }

  /** `repr(s)` for a string. */
  function Repr(s: string): string {
    var q := ReprQuote(s);
    [q] + ReprBody(s, q) + [q]
  }

  function Prepend(c: char, rest: Option<string>): Option<string> {
    if rest.Some? then Some([c] + rest.value) else None
  }

  /** Reads back the body of a quoted literal holding the escapes `repr` writes. */
  function Unescape(b: string): Option<string>
    decreases |b|
  {
    if |b| == 0 then Some("")
    else if b[0] != '\\' then Prepend(b[0], Unescape(b[1..]))
    else if |b| >= 2 && (b[1] == '\\' || b[1] == '\'' || b[1] == '"') then Prepend(b[1], Unescape(b[2..]))
    else if |b| >= 2 && b[1] == 't' then Prepend('\t', Unescape(b[2..]))
    else if |b| >= 2 && b[1] == 'n' then Prepend('\n', Unescape(b[2..]))
    else if |b| >= 2 && b[1] == 'r' then Prepend('\r', Unescape(b[2..]))
    else if |b| >= 4 && b[1] == 'x' && HexValue(b[2]).Some? && HexValue(b[3]).Some? then
      Prepend((HexValue(b[2]).value * 16 + HexValue(b[3]).value) as char, Unescape(b[4..]))
    else None
  }

  lemma HexDigitValue(d: nat)
    requires d < 16
    ensures HexValue(HexDigit(d)) == Some(d)
  {
  }

  /** Reading back one written character leaves the rest to be read. */
  lemma ReprCharUnescape(c: char, quote: char, rest: string)
    requires quote == '\'' || quote == '"'
    ensures Unescape(ReprChar(c, quote) + rest) == Prepend(c, Unescape(rest))
  {
    var w := ReprChar(c, quote);
    var b := w + rest;
    if |w| == 2 {
      assert b[2..] == rest;
    } else if |w| == 4 {
      var n := c as int;
      HexDigitValue(n / 16);
      HexDigitValue(n % 16);
      assert b[4..] == rest;
    } else {
      assert b[1..] == rest;
    }
  }

  lemma {:induction false} ReprBodyRoundTrip(s: string, quote: char)
    requires quote == '\'' || quote == '"'
    ensures Unescape(ReprBody(s, quote)) == Some(s)
  {
    if |s| > 0 {
      ReprBodyRoundTrip(s[1..], quote);
      ReprCharUnescape(s[0], quote, ReprBody(s[1..], quote));
      assert [s[0]] + s[1..] == s;
    }
  }

  /** `repr` encloses the string in its quote, and the escapes it writes read back to it. */
  lemma ReprRoundTrip(s: string)
    ensures |Repr(s)| >= 2
    ensures Repr(s)[0] == ReprQuote(s) && Repr(s)[|Repr(s)| - 1] == ReprQuote(s)
    ensures Unescape(Repr(s)[1..|Repr(s)| - 1]) == Some(s)
  {
    var q := ReprQuote(s);
    var body := ReprBody(s, q);
    assert Repr(s)[1..|Repr(s)| - 1] == body;
    ReprBodyRoundTrip(s, q);
  }

  /** Printable ASCII other than quotes and backslash. */
  predicate PlainChar(c: char) {
    ' ' <= c <= '~' && c != '\'' && c != '"' && c != '\\'
  }

  lemma {:induction false} ReprBodyPlain(s: string)
    requires forall i :: 0 <= i < |s| ==> PlainChar(s[i])
    ensures ReprBody(s, '\'') == s
  {
    if |s| > 0 {
      ReprBodyPlain(s[1..]);
      assert [s[0]] + s[1..] == s;
    }
  }

  /** A string of plain characters is written between single quotes as it is. */
  lemma ReprPlain(s: string)
    requires forall i :: 0 <= i < |s| ==> PlainChar(s[i])
    ensures Repr(s) == "'" + s + "'"
  {
    assert forall i :: 0 <= i < |s| ==> s[i] != '\'';
    ReprBodyPlain(s);
  }
}
