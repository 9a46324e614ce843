/**
 * The parts of Go's `strings`, `strconv` and `fmt` packages that the
 * modelled code relies on, over Dafny strings (sequences of Unicode
 * scalar values, i.e. Go runes).
 */
module GoText {
  import opened Wrappers

  type byte = b: int | 0 <= b < 256

  // ---------------------------------------------------------------- splitting

  /** Go's `strings.Join` for a one-character separator. */
  function Join(parts: seq<string>, sep: char): string
    requires |parts| >= 1
  {
    if |parts| == 1 then parts[0] else parts[0] + [sep] + Join(parts[1..], sep)
  }

  /**
   * Go's `strings.Split(s, string(sep))`: the pieces between separators,
   * none of which holds the separator (`SplitJoin` puts them back).
   */
  function Split(s: string, sep: char): (parts: seq<string>)
    ensures |parts| >= 1
    ensures forall i :: 0 <= i < |parts| ==> sep !in parts[i]
    decreases |s|
  {
    if |s| == 0 then [""]
    else if s[0] == sep then [""] + Split(s[1..], sep)
    else
      var rest := Split(s[1..], sep);
      [[s[0]] + rest[0]] + rest[1..]
  }

  /** Joining the pieces with the separator gives the text back. */
  lemma {:induction false} SplitJoin(s: string, sep: char)
    ensures Join(Split(s, sep), sep) == s
    decreases |s|
  {
    if |s| > 0 {
      var rest := Split(s[1..], sep);
      SplitJoin(s[1..], sep);
      assert s == [s[0]] + s[1..];
      if s[0] != sep {
        var r := Split(s, sep);
        assert r[1..] == rest[1..];
        if |rest| > 1 {
          assert Join(rest, sep) == rest[0] + [sep] + Join(rest[1..], sep);
        }
      }
    }
  }

  /** Splitting text that has a separator in it splits each side on its own. */
  lemma {:induction false} SplitAppend(a: string, b: string, sep: char)
    ensures Split(a + [sep] + b, sep) == Split(a, sep) + Split(b, sep)
    decreases |a|
  {
    if |a| == 0 {
      assert a + [sep] + b == [sep] + b;
      assert ([sep] + b)[1..] == b;
    } else {
      assert (a + [sep] + b)[1..] == a[1..] + [sep] + b;
      SplitAppend(a[1..], b, sep);
    }
  }

  /** Text without the separator is one piece. */
  lemma {:induction false} SplitWithout(s: string, sep: char)
    requires sep !in s
    ensures Split(s, sep) == [s]
    decreases |s|
  {
    if |s| > 0 {
      SplitWithout(s[1..], sep);
      assert s == [s[0]] + s[1..];
    }
  }

  /** A separator-free piece followed by the separator splits off as one part. */
  lemma SplitLead(line: string, rest: string, sep: char)
    requires sep !in line
    ensures Split(line + [sep] + rest, sep) == [line] + Split(rest, sep)
  {
    SplitAppend(line, rest, sep);
    SplitWithout(line, sep);
  }

  /** Lines written one after another, each followed by `sep`. */
  function Terminated(lines: seq<string>, sep: char): string
  {
    if |lines| == 0 then ""
    else lines[0] + [sep] + Terminated(lines[1..], sep)
  }

  /** Helper: regrouping a four-part concatenation, for the line-joining proofs. */
  lemma Regroup<T>(a: seq<T>, b: seq<T>, c: seq<T>, d: seq<T>)
    ensures a + b + c + d == a + (b + c + d)
  {
  }

  /** Writing one more line appends it and its separator. */
  lemma {:induction false} TerminatedSnoc(lines: seq<string>, line: string, sep: char)
    ensures Terminated(lines + [line], sep) == Terminated(lines, sep) + line + [sep]
  {
    if |lines| == 0 {
      assert lines + [line] == [line];
      assert Terminated([line], sep) == line + [sep] + "";
    } else {
      var rest := lines[1..];
      assert (lines + [line])[0] == lines[0] && (lines + [line])[1..] == rest + [line];
      TerminatedSnoc(rest, line, sep);
      Regroup(lines[0] + [sep], Terminated(rest, sep), line, [sep]);
    }
  }

  /** Text written as separator-terminated lines splits back into those lines and an empty tail. */
  lemma {:induction false} SplitTerminated(lines: seq<string>, sep: char)
    requires forall i :: 0 <= i < |lines| ==> sep !in lines[i]
    ensures Split(Terminated(lines, sep), sep) == lines + [""]
  {
    if |lines| > 0 {
      var rest := lines[1..];
      assert forall i :: 0 <= i < |rest| ==> rest[i] == lines[i + 1];
      SplitTerminated(rest, sep);
      SplitLead(lines[0], Terminated(rest, sep), sep);
      assert lines == [lines[0]] + rest;
    }
  }

  /** Go's `strings.Index` for one character, as an option. */
  function IndexOf(s: string, c: char): (r: Option<nat>)
    ensures r.None? <==> c !in s
    ensures r.Some? ==> r.value < |s| && s[r.value] == c && c !in s[..r.value]
  {
    if |s| == 0 then None
    else if s[0] == c then Some(0)
    else
      match IndexOf(s[1..], c)
      case None => None
      case Some(i) =>
        assert s[..i + 1] == [s[0]] + s[1..][..i];
        Some(i + 1)
  }

  /**
   * Go's `strings.SplitN(s, string(sep), 2)` with the one-piece answer as
   * None: the text before the first separator and everything after it.
   */
  function SplitFirst(s: string, sep: char): (r: Option<(string, string)>)
    ensures r.None? <==> sep !in s
    ensures r.Some? ==> s == r.value.0 + [sep] + r.value.1 && sep !in r.value.0
  {
    match IndexOf(s, sep)
    case None => None
    case Some(i) =>
      assert s == s[..i] + [sep] + s[i + 1..];
      Some((s[..i], s[i + 1..]))
  }

  /** Text with no separator before the one added splits exactly there. */
  lemma SplitFirstAt(a: string, b: string, sep: char)
    requires sep !in a
    ensures SplitFirst(a + [sep] + b, sep) == Some((a, b))
  {
    var s := a + [sep] + b;
    assert s[|a|] == sep;
    assert forall k :: 0 <= k < |a| ==> s[k] == a[k];
    assert forall j :: |a| < j <= |s| ==> s[..j][|a|] == sep;
    assert s[..|a|] == a;
    assert s[|a| + 1..] == b;
  }

  // ------------------------------------------------------------- white space

  /** Go's `unicode.IsSpace`. */
  predicate IsSpace(c: char)
  {
    var n := c as int;
    (9 <= n <= 13) || n == 0x20 || n == 0x85 || n == 0xA0 || n == 0x1680
    || (0x2000 <= n <= 0x200A) || n == 0x2028 || n == 0x2029 || n == 0x202F
    || n == 0x205F || n == 0x3000
  }

  /** The number of white-space characters `s` starts with. */
  function LeadingSpaces(s: string): (n: nat)
    ensures n <= |s|
    ensures forall i :: 0 <= i < n ==> IsSpace(s[i])
    ensures n < |s| ==> !IsSpace(s[n])
  {
    if |s| == 0 || !IsSpace(s[0]) then 0 else 1 + LeadingSpaces(s[1..])
  }

  /** The number of white-space characters `s` ends with. */
  function TrailingSpaces(s: string): (n: nat)
    ensures n <= |s|
    ensures forall i :: |s| - n <= i < |s| ==> IsSpace(s[i])
    ensures n < |s| ==> !IsSpace(s[|s| - 1 - n])
  {
    if |s| == 0 || !IsSpace(s[|s| - 1]) then 0 else 1 + TrailingSpaces(s[..|s| - 1])
  }

  /**
   * Go's `strings.TrimSpace`: the text between the leading and the
   * trailing white space. It keeps only characters of `s`, and neither
   * starts nor ends with white space.
   */
  function TrimSpace(s: string): (r: string)
    ensures |r| <= |s|
    ensures |r| > 0 ==> !IsSpace(r[0]) && !IsSpace(r[|r| - 1])
  {
    var t := s[LeadingSpaces(s)..];
    t[..|t| - TrailingSpaces(t)]
  }

  /** Trimming adds no character. */
  lemma TrimSpaceWithin(s: string)
    ensures forall c :: c in TrimSpace(s) ==> c in s
  {
    var a := LeadingSpaces(s);
    var t := s[a..];
    var r := t[..|t| - TrailingSpaces(t)];
    assert TrimSpace(s) == r;
    forall c | c in r
      ensures c in s
    {
      var k :| 0 <= k < |r| && r[k] == c;
      assert s[a + k] == c;
    }
  }

  /** Text that neither starts nor ends with white space is left as it is. */
  lemma TrimSpaceKeeps(s: string)
    requires |s| == 0 || (!IsSpace(s[0]) && !IsSpace(s[|s| - 1]))
    ensures TrimSpace(s) == s
  {
    assert LeadingSpaces(s) == 0;
    assert s[0..] == s;
    assert TrailingSpaces(s) == 0;
  }

  /** Trimming twice trims nothing more. */
  lemma TrimSpaceIdempotent(s: string)
    ensures TrimSpace(TrimSpace(s)) == TrimSpace(s)
  {
    var r := TrimSpace(s);
    assert LeadingSpaces(r) == 0;
    assert r[LeadingSpaces(r)..] == r;
    assert TrailingSpaces(r) == 0;
  }

  // --------------------------------------------------------- other rewrites

  /** Go's `strings.ReplaceAll` for a one-character pattern and replacement. */
  function ReplaceChar(s: string, from: char, to: char): (r: string)
    ensures |r| == |s|
    ensures forall i :: 0 <= i < |s| && s[i] == from ==> r[i] == to
    ensures forall i :: 0 <= i < |s| && s[i] != from ==> r[i] == s[i]
    ensures from != to ==> from !in r
  {
    seq(|s|, i requires 0 <= i < |s| => if s[i] == from then to else s[i])
  }

  /** Go's `strings.HasPrefix`. */
  predicate HasPrefix(s: string, p: string)
  {
    |p| <= |s| && s[..|p|] == p
  }

  /** Go's `strings.Contains`: `sub` occurs somewhere in `s`. */
  predicate Contains(s: string, sub: string)
    decreases |s|
  {
    HasPrefix(s, sub) || (|s| > 0 && Contains(s[1..], sub))
  }

  /** Go's `strings.ToLower`, restricted to the ASCII letters. */
  function ToLowerAscii(s: string): (r: string)
    ensures |r| == |s|
    ensures forall i :: 0 <= i < |r| ==> !('A' <= r[i] <= 'Z')
  {
    seq(|s|, i requires 0 <= i < |s| =>
      if 'A' <= s[i] <= 'Z' then (s[i] as int + 32) as char else s[i])
  }

  // ---------------------------------------------------------------- numbers

  predicate IsDigit(c: char) { '0' <= c <= '9' }

  predicate AllDigits(s: string) { forall i :: 0 <= i < |s| ==> IsDigit(s[i]) }

  function Pow10(n: nat): (p: nat)
    ensures p >= 1
  {
    if n == 0 then 1 else 10 * Pow10(n - 1)
  }

  function Digit(d: nat): (c: char)
    requires d < 10
    ensures IsDigit(c)
  {
    ('0' as int + d) as char
  }

  /** The number a string of decimal digits spells, most significant first. */
  function DigitsValue(s: string): nat
    requires AllDigits(s)
  {
    if |s| == 0 then 0 else 10 * DigitsValue(s[..|s| - 1]) + (s[|s| - 1] as int - '0' as int)
  }

  /** Decimal digits of `n`, no leading zero (`fmt`'s `%d`). */
  function NatToDigits(n: nat): (s: string)
    ensures |s| >= 1 && AllDigits(s)
    ensures DigitsValue(s) == n
    ensures |s| > 1 ==> s[0] != '0'
  {
    if n < 10 then [Digit(n)]
    else
      var s := NatToDigits(n / 10) + [Digit(n % 10)];
      assert s[..|s| - 1] == NatToDigits(n / 10);
      s
  }

  /** Exactly `width` decimal digits of `n`, zero-filled on the left. */
  function PadDigits(n: nat, width: nat): (s: string)
    requires n < Pow10(width)
    ensures |s| == width && AllDigits(s)
    ensures DigitsValue(s) == n
  {
    if width == 0 then ""
    else
      var s := PadDigits(n / 10, width - 1) + [Digit(n % 10)];
      assert s[..|s| - 1] == PadDigits(n / 10, width - 1);
      s
  }

  function Negate(neg: bool, x: real): real { if neg then -x else x }

  /** `int + frac / 10^|frac|` for the two digit runs around a decimal point. */
  function DecimalValue(ip: string, fp: string): real
    requires AllDigits(ip) && AllDigits(fp)
  {
    DigitsValue(ip) as real + DigitsValue(fp) as real / Pow10(|fp|) as real
  }

  /** Unsigned decimal notation: digits, optionally a point and more digits. */
  function ParseUnsigned(body: string): (r: Option<real>)
    ensures |body| > 0 && AllDigits(body) ==> r == Some(DigitsValue(body) as real)
    ensures r.Some? ==> r.value >= 0.0
  {
    match SplitFirst(body, '.')
    case None =>
      if |body| > 0 && AllDigits(body) then Some(DigitsValue(body) as real) else None
    case Some((ip, fp)) =>
      if AllDigits(ip) && AllDigits(fp) && |ip| + |fp| > 0 then
        Some(DecimalValue(ip, fp))
      else None
  }

  /**
   * Go's `strconv.ParseFloat(s, 64)` on plain decimal notation: an optional
   * sign, digits, optionally a point and more digits, with at least one digit
   * in all. Anything else is an error (None).
   */
  function ParseDecimal(s: string): (r: Option<real>)
    ensures |s| > 0 && AllDigits(s) ==> r == Some(DigitsValue(s) as real)
    ensures r.Some? ==> |s| > 0
    ensures r.Some? && r.value < 0.0 ==> s[0] == '-'
  {
    if |s| > 0 && (s[0] == '-' || s[0] == '+') then
      match ParseUnsigned(s[1..])
      case None => None
      case Some(v) => Some(Negate(s[0] == '-', v))
    else ParseUnsigned(s)
  }

  /** `|x| * 10^d`, rounded to the nearest integer, halves away from zero. */
  function ScaledRound(x: real, d: nat): nat
  {
    var a := if x < 0.0 then -x else x;
    (a * Pow10(d) as real + 0.5).Floor
  }

  /** The value `fmt`'s `%.<d>f` prints for `x`: `x` rounded to `d` decimals. */
  function RoundFixed(x: real, d: nat): real
  {
    Negate(x < 0.0, ScaledRound(x, d) as real / Pow10(d) as real)
  }

  /** Two digit runs around a decimal point. */
  function Pointed(ip: string, fp: string): (s: string)
    requires AllDigits(ip) && AllDigits(fp)
    ensures |s| == |ip| + 1 + |fp|
    ensures |ip| > 0 ==> IsDigit(s[0])
  {
    ip + "." + fp
  }

  /** A pointed number is digits and one point. */
  lemma PointedChars(ip: string, fp: string)
    requires AllDigits(ip) && AllDigits(fp)
    ensures forall i :: 0 <= i < |Pointed(ip, fp)| ==> IsDigit(Pointed(ip, fp)[i]) || Pointed(ip, fp)[i] == '.'
    ensures '.' in Pointed(ip, fp)
  {
    var s := Pointed(ip, fp);
    assert s[|ip|] == '.';
  }

  /** The first point of a pointed number is the one between its runs. */
  lemma PointedSplit(ip: string, fp: string)
    requires AllDigits(ip) && AllDigits(fp)
    ensures SplitFirst(Pointed(ip, fp), '.') == Some((ip, fp))
  {
    assert '.' !in ip by {
      forall i | 0 <= i < |ip| ensures ip[i] != '.' { assert IsDigit(ip[i]); }
    }
    SplitFirstAt(ip, fp, '.');
  }

  /** The digits `%.<d>f` prints for the scaled, rounded magnitude `n`. */
  function FixedDigits(n: nat, d: nat): (s: string)
    requires d > 0
    ensures |s| > 0 && IsDigit(s[0])
  {
    var p := Pow10(d);
    DivModNat(n, p);
    Pointed(NatToDigits(n / p), PadDigits(n % p, d))
  }

  /** Euclidean division of a natural number by a positive one. */
  lemma DivModNat(n: nat, p: nat)
    requires p >= 1
    ensures 0 <= n / p && 0 <= n % p < p
    ensures n == n / p * p + n % p
  {
  }

  /** `fmt.Sprintf("%.<d>f", x)`: sign, integer digits, point, `d` decimals. */
  function RenderFixed(x: real, d: nat): string
  {
    var n := ScaledRound(x, d);
    var sign := if x < 0.0 then "-" else "";
    if d == 0 then sign + NatToDigits(n) else sign + FixedDigits(n, d)
  }

  /** `%.<d>f` prints only digits, a point and a minus sign, and the point when `d > 0`. */
  lemma RenderFixedChars(x: real, d: nat)
    ensures var s := RenderFixed(x, d);
      && (forall i :: 0 <= i < |s| ==> IsDigit(s[i]) || s[i] == '.' || s[i] == '-')
      && (d > 0 ==> '.' in s)
  {
    var n := ScaledRound(x, d);
    var sign := if x < 0.0 then "-" else "";
    var s := RenderFixed(x, d);
    var body := if d == 0 then NatToDigits(n) else FixedDigits(n, d);
    assert s == sign + body;
    if d > 0 {
      var p := Pow10(d);
      DivModNat(n, p);
      PointedChars(NatToDigits(n / p), PadDigits(n % p, d));
    }
    forall i | 0 <= i < |s|
      ensures IsDigit(s[i]) || s[i] == '.' || s[i] == '-'
    {
      if i >= |sign| {
        assert s[i] == body[i - |sign|];
      }
    }
    if d > 0 {
      var k :| 0 <= k < |body| && body[k] == '.';
      assert s[|sign| + k] == '.';
    }
  }

  lemma DivModReal(n: nat, p: nat)
    requires p >= 1
    ensures (n / p) as real + (n % p) as real / p as real == n as real / p as real
  {
    var q, r := n / p, n % p;
    assert n == q * p + r;
    assert (q * p) as real == q as real * p as real;
    calc {
      n as real / p as real;
      (q as real * p as real + r as real) / p as real;
      q as real + r as real / p as real;
    }
  }

  /** The unsigned digits `%.<d>f` prints read back as `n / 10^d`. */
  lemma ParseFixedDigits(n: nat, d: nat)
    requires d > 0
    ensures ParseDecimal(FixedDigits(n, d)) == Some(n as real / Pow10(d) as real)
  {
    var p := Pow10(d);
    var body := FixedDigits(n, d);
    var ip := NatToDigits(n / p);
    var fp := PadDigits(n % p, d);
    assert body == Pointed(ip, fp);
    PointedSplit(ip, fp);
    DivModReal(n, p);
    assert DecimalValue(ip, fp) == n as real / p as real;
  }

  /** A minus sign in front of an unsigned number negates its value. */
  lemma ParseNegated(body: string, v: real)
    requires |body| > 0 && IsDigit(body[0])
    requires ParseDecimal(body) == Some(v)
    ensures ParseDecimal("-" + body) == Some(-v)
  {
    var s := "-" + body;
    assert s[0] == '-' && s[1..] == body;
    assert ParseUnsigned(body) == Some(v);
  }

  /** Reading back what `%.<d>f` printed gives the rounded value. */
  lemma ParseRenderFixed(x: real, d: nat)
    requires d > 0
    ensures ParseDecimal(RenderFixed(x, d)) == Some(RoundFixed(x, d))
  {
    var n := ScaledRound(x, d);
    var v := n as real / Pow10(d) as real;
    var body := FixedDigits(n, d);
    ParseFixedDigits(n, d);
    assert RoundFixed(x, d) == Negate(x < 0.0, v);
    if x < 0.0 {
      assert RenderFixed(x, d) == "-" + body;
      ParseNegated(body, v);
    } else {
      assert RenderFixed(x, d) == "" + body == body;
      assert ParseDecimal(body) == ParseUnsigned(body);
    }
  }

  // ------------------------------------------------------------------ UTF-8

  /** The UTF-8 encoding of one Unicode scalar value. */
  function Utf8Char(c: char): (b: seq<byte>)
    ensures 1 <= |b| <= 4
    ensures (|b| == 1) <==> c as int < 0x80
  {
    var n := c as int;
    if n < 0x80 then [n]
    else if n < 0x800 then [0xC0 + n / 64, 0x80 + n % 64]
    else if n < 0x10000 then [0xE0 + n / 4096, 0x80 + (n / 64) % 64, 0x80 + n % 64]
    else [0xF0 + n / 262144, 0x80 + (n / 4096) % 64, 0x80 + (n / 64) % 64, 0x80 + n % 64]
  }

  /** The bytes of a Go string holding `s`. */
  function Utf8(s: string): (b: seq<byte>)
    ensures |b| >= |s|
  {
    if |s| == 0 then [] else Utf8Char(s[0]) + Utf8(s[1..])
  }
}
