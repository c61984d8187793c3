/**
  The few PHP runtime semantics the plugin relies on: how a string converts to
  a boolean, `implode`, `explode` followed by taking one piece, `basename`,
  ASCII `strtolower`, `strcmp`-style string ordering and `%d` formatting.
 */
module Php {

  /** PHP's string-to-boolean conversion: only "" and "0" are false.
      `empty($s)` on a string is the negation of this. */
  predicate Truthy(s: string) {
    s != "" && s != "0"
  }

  /** `implode($glue, $pieces)`. */
  function Implode(pieces: seq<string>, glue: string): (r: string)
    ensures |pieces| == 0 ==> r == ""
    ensures |pieces| == 1 ==> r == pieces[0]
    ensures |pieces| > 0 ==> |r| == TotalLength(pieces) + (|pieces| - 1) * |glue|
  {
    if |pieces| == 0 then ""
    else if |pieces| == 1 then pieces[0]
    else pieces[0] + glue + Implode(pieces[1..], glue)
  }

  function TotalLength(pieces: seq<string>): nat {
    if |pieces| == 0 then 0 else |pieces[0]| + TotalLength(pieces[1..])
  }

  /** Imploding one more piece puts exactly one glue before it. */
  lemma {:induction false} ImplodeSnoc(pieces: seq<string>, x: string, glue: string)
    requires |pieces| > 0
    ensures Implode(pieces + [x], glue) == Implode(pieces, glue) + glue + x
  {
    if |pieces| == 1 {
      assert pieces + [x] == [pieces[0], x];
      assert (pieces + [x])[1..] == [x];
    } else {
      assert (pieces + [x])[1..] == pieces[1..] + [x];
      ImplodeSnoc(pieces[1..], x, glue);
    }
  }

  /** The piece after the last `c`: `$p = explode($c, $s); $p[count($p) - 1]`.
      When `c` does not occur this is the whole string. */
  function AfterLast(s: string, c: char): (r: string)
    ensures c !in r
    ensures |r| <= |s| && r == s[|s| - |r|..]
    ensures |r| == |s| || s[|s| - |r| - 1] == c
  {
    if |s| == 0 then ""
    else if s[|s| - 1] == c then ""
    else AfterLast(s[..|s| - 1], c) + [s[|s| - 1]]
  }

  /** `rtrim($s, '/')`: the longest prefix that does not end in a slash; every
      character dropped is a slash. */
  function StripTrailingSlashes(s: string): (r: string)
    ensures |r| <= |s| && r == s[..|r|]
    ensures |r| == 0 || r[|r| - 1] != '/'
  {
    if |s| > 0 && s[|s| - 1] == '/' then StripTrailingSlashes(s[..|s| - 1]) else s
  }

  /** Every character the strip drops is a slash, so the result is the longest
      prefix that does not end in one. */
  lemma {:induction false} StripTrailingSlashesDropsSlashes(s: string)
    ensures forall i :: |StripTrailingSlashes(s)| <= i < |s| ==> s[i] == '/'
  {
    if |s| > 0 && s[|s| - 1] == '/' {
      StripTrailingSlashesDropsSlashes(s[..|s| - 1]);
    }
  }

  /** `basename($path)` on a POSIX host: trailing slashes are dropped, then the
      component after the last slash is kept. */
  function Basename(path: string): (r: string)
    ensures '/' !in r
  {
    AfterLast(StripTrailingSlashes(path), '/')
  }

  /** `r` is the last component of `path` when the path's first `n` characters
      are what remains after dropping its trailing slashes: `r` ends at `n`, has
      no slash, and starts the kept part or follows a slash. */
  predicate IsLastComponent(path: string, n: int, r: string) {
    && |r| <= n <= |path|
    && (n == 0 || path[n - 1] != '/')
    && (forall i :: n <= i < |path| ==> path[i] == '/')
    && r == path[n - |r|..n]
    && '/' !in r
    && (|r| < n ==> path[n - |r| - 1] == '/')
  }

  /** The basename is the path's last component. */
  lemma BasenameIsLastComponent(path: string)
    ensures IsLastComponent(path, |StripTrailingSlashes(path)|, Basename(path))
  {
    var p := StripTrailingSlashes(path);
    StripTrailingSlashesDropsSlashes(path);
    assert p == path[..|p|];
    var r := Basename(path);
    assert r == p[|p| - |r|..];
    assert p[|p| - |r|..] == path[|p| - |r|..|p|];
  }

  /** An ASCII capital becomes its small letter (32 code points later); every
      other character is kept. */
  function LowerChar(c: char): char {
    if 'A' <= c <= 'Z' then (c as int + 32) as char else c
  }

  /** `strtolower`, which (since PHP 8.2) folds ASCII letters only. */
  function ToLower(s: string): (r: string)
    ensures |r| == |s|
    ensures forall i :: 0 <= i < |s| ==> r[i] == LowerChar(s[i])
  {
    seq(|s|, i requires 0 <= i < |s| => LowerChar(s[i]))
  }

  /** `r` is the piece of `s` after the last `c`, lower-cased: it folds a suffix
      of `s` of its own length, and that suffix is all of `s` or follows a `c`. */
  predicate IsLoweredLastPiece(s: string, c: char, r: string) {
    && |r| <= |s|
    && r == ToLower(s[|s| - |r|..])
    && (|r| < |s| ==> s[|s| - |r| - 1] == c)
  }

  lemma LastPieceLowered(s: string, c: char)
    ensures IsLoweredLastPiece(s, c, ToLower(AfterLast(s, c)))
  {
  }

  /** Byte-wise string comparison `strcmp($a, $b) < 0`, which is what `$a < $b`
      does for two non-numeric strings. */
  predicate StrLess(a: string, b: string) {
    if |a| == 0 then |b| > 0
    else if |b| == 0 then false
    else if a[0] != b[0] then a[0] < b[0]
    else StrLess(a[1..], b[1..])
  }

  lemma {:induction false} StrLessIrreflexive(a: string)
    ensures !StrLess(a, a)
  {
    if |a| > 0 {
      StrLessIrreflexive(a[1..]);
    }
  }

  lemma {:induction false} StrLessTransitive(a: string, b: string, c: string)
    requires StrLess(a, b) && StrLess(b, c)
    ensures StrLess(a, c)
  {
    if |a| > 0 && |b| > 0 && |c| > 0 && a[0] == b[0] && b[0] == c[0] {
      StrLessTransitive(a[1..], b[1..], c[1..]);
    }
  }

  lemma {:induction false} StrLessTotal(a: string, b: string)
    ensures a == b || StrLess(a, b) || StrLess(b, a)
  {
    if |a| > 0 && |b| > 0 && a[0] == b[0] {
      StrLessTotal(a[1..], b[1..]);
      if a[1..] == b[1..] {
        assert a == [a[0]] + a[1..] && b == [b[0]] + b[1..];
      }
    }
  }

  lemma {:induction false} StrLessAsymmetric(a: string, b: string)
    requires StrLess(a, b)
    ensures !StrLess(b, a)
  {
    if |a| > 0 && |b| > 0 && a[0] == b[0] {
      StrLessAsymmetric(a[1..], b[1..]);
    }
  }

  function DigitChar(d: nat): (c: char)
    requires d < 10
    ensures '0' <= c <= '9' && DigitValue(c) == d
  {
    ('0' as int + d) as char
  }

  function DigitValue(c: char): int {
    c as int - '0' as int
  }

  /** The number a run of decimal digits denotes, most significant first. */
  function DecimalValue(s: string): int {
    if |s| == 0 then 0 else 10 * DecimalValue(s[..|s| - 1]) + DigitValue(s[|s| - 1])
  }

  /** `%d` of a natural number: its decimal digits, most significant first. */
  function NatToString(n: nat): (r: string)
    ensures |r| > 0
    ensures forall i :: 0 <= i < |r| ==> '0' <= r[i] <= '9'
    decreases n
  {
    if n < 10 then [DigitChar(n)] else NatToString(n / 10) + [DigitChar(n % 10)]
  }

  /** The digits read back as the number, and there is no leading zero. */
  lemma {:induction false} NatToStringDecodes(n: nat)
    ensures DecimalValue(NatToString(n)) == n
    ensures NatToString(n)[0] == '0' ==> n == 0 && |NatToString(n)| == 1
    decreases n
  {
    if n >= 10 {
      NatToStringDecodes(n / 10);
      var r := NatToString(n);
      assert r[..|r| - 1] == NatToString(n / 10);
    }
  }

  /** `sprintf('%d', $n)`: a minus sign before the digits of a negative number. */
  function IntToString(n: int): (r: string)
    ensures |r| > 0
  {
    if n < 0 then "-" + NatToString(-n) else NatToString(n)
  }

  /** The printed integer reads back as the number: digits alone for a
      non-negative one, a minus sign and the digits of its magnitude otherwise. */
  lemma IntToStringDecodes(n: int)
    ensures var r := IntToString(n);
      && (n >= 0 ==> r[0] != '-' && DecimalValue(r) == n)
      && (n < 0 ==> |r| > 1 && r[0] == '-' && DecimalValue(r[1..]) == -n)
      && (forall i :: 0 <= i < |r| && (i > 0 || n >= 0) ==> '0' <= r[i] <= '9')
  {
    if n < 0 {
      NatToStringDecodes(-n);
      assert IntToString(n)[1..] == NatToString(-n);
    } else {
      NatToStringDecodes(n);
    }
  }

  /** Different numbers print differently. */
  lemma IntToStringInjective(m: int, n: int)
    requires IntToString(m) == IntToString(n)
    ensures m == n
  {
    IntToStringDecodes(m);
    IntToStringDecodes(n);
    if m < 0 && n < 0 {
      assert IntToString(m)[1..] == IntToString(n)[1..];
    }
  }
}
