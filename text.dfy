/** The optional value used wherever Python has `None` for "absent". */
module Optional {
  datatype Option<+T> = None | Some(value: T)
}

/**
 * Text rendering used by the splitter: Python's `str()` of an integer and the
 * `'{:0>w}'` format specification (fill with '0', align right, width w).
 */
module Text {

  predicate IsDigit(c: char) {
    '0' <= c <= '9'
  }

  predicate AllDigits(s: string) {
    forall i :: 0 <= i < |s| ==> IsDigit(s[i])
  }

  function DigitChar(d: nat): (c: char)
    requires d < 10
    ensures IsDigit(c) && c as int - '0' as int == d
  {
    ('0' as int + d) as char
  }

  /** Python's `str(n)` for a non-negative integer: decimal digits, no leading zero. */
  function NatToString(n: nat): (s: string)
    ensures |s| >= 1 && AllDigits(s)
    ensures |s| > 1 ==> s[0] != '0'
    decreases n
  {
    if n < 10 then [DigitChar(n)] else NatToString(n / 10) + [DigitChar(n % 10)]
  }

  /** The number a string of decimal digits denotes. */
  function DigitsValue(s: string): nat
    requires AllDigits(s)
  {
    if s == [] then 0 else DigitsValue(s[..|s| - 1]) * 10 + (s[|s| - 1] as int - '0' as int)
  }

  /** Rendering a number and reading it back gives the number: the rendering is exact. */
  lemma {:induction false} NatToStringRoundTrip(n: nat)
    ensures DigitsValue(NatToString(n)) == n
  {
    if n >= 10 {
      NatToStringRoundTrip(n / 10);
      var s := NatToString(n);
      assert s[..|s| - 1] == NatToString(n / 10);
    }
  }

  /** Python's `str(i)` for any integer: a minus sign before the digits of a negative one. */
  function IntToString(i: int): string {
    if i < 0 then "-" + NatToString(-i) else NatToString(i)
  }

  /** `str(i)` is exact: the digits denote `|i|`, and a sign is written exactly for a negative `i`. */
  lemma {:induction false} IntToStringDecimal(i: int)
    ensures var s := IntToString(i);
      |s| >= 1
      && (i >= 0 <==> IsDigit(s[0]))
      && (i >= 0 ==> AllDigits(s) && DigitsValue(s) == i)
      && (i < 0 ==> s[0] == '-' && AllDigits(s[1..]) && DigitsValue(s[1..]) == -i)
  {
    if i < 0 {
      NatToStringRoundTrip(-i);
      assert IntToString(i)[1..] == NatToString(-i);
    } else {
      NatToStringRoundTrip(i);
    }
  }

  /**
   * `'{:0>w}'.format(s)`: `s` right-aligned in a field of width `w` filled
   * with '0'. The field grows to hold a longer `s`; nothing is cut off.
   */
  function PadLeft(s: string, width: nat): string {
    if |s| >= width then s else seq(width - |s|, _ => '0') + s
  }

  /** The padded text is `s` behind as many '0' as the width lacks, and never shorter than `s`. */
  lemma {:induction false} PadLeftShape(s: string, width: nat)
    ensures var r := PadLeft(s, width);
      |r| == (if |s| < width then width else |s|)
      && r[|r| - |s|..] == s
      && forall i :: 0 <= i < |r| - |s| ==> r[i] == '0'
  {
    var r := PadLeft(s, width);
    assert r[|r| - |s|..] == s;
  }
}

/** POSIX path helpers: `posixpath.basename` and a two-argument `os.path.join`. */
module Paths {

  /** `posixpath.basename(p)`: everything after the last '/', or all of `p`. */
  function Basename(p: string): string {
    if p == [] || p[|p| - 1] == '/' then [] else Basename(p[..|p| - 1]) + [p[|p| - 1]]
  }

  /** The basename holds no '/', ends `p`, and is all of `p` or follows a '/'. */
  lemma {:induction false} BasenameIsLastComponent(p: string)
    ensures var b := Basename(p);
      '/' !in b && |b| <= |p| && p[|p| - |b|..] == b
      && (|b| < |p| ==> p[|p| - |b| - 1] == '/')
  {
    if p != [] && p[|p| - 1] != '/' {
      var q, c := p[..|p| - 1], p[|p| - 1];
      assert p == q + [c];
      BasenameIsLastComponent(q);
      var b := Basename(q);
      assert Basename(p) == b + [c];
      assert p[|p| - |b| - 1..] == q[|q| - |b|..] + [c];
    }
  }

  /**
   * `os.path.join(a, b)` on POSIX: an absolute `b` replaces `a`; otherwise a
   * '/' is inserted unless `a` is empty or already ends with one.
   */
  function Join(a: string, b: string): string {
    if |b| > 0 && b[0] == '/' then b
    else if a == [] || a[|a| - 1] == '/' then a + b
    else a + "/" + b
  }

  /** An absolute `b` is the result; otherwise the result starts with `a`, ends with `b` and has a '/' before `b` when `a` is not empty. */
  lemma {:induction false} JoinShape(a: string, b: string)
    ensures var r := Join(a, b);
      (|b| > 0 && b[0] == '/' ==> r == b)
      && (!(|b| > 0 && b[0] == '/') ==>
            |a| + |b| <= |r| <= |a| + |b| + 1 && r[|r| - |b|..] == b && r[..|a|] == a)
      && (!(|b| > 0 && b[0] == '/') && a != [] ==> |r| > |b| && r[|r| - |b| - 1] == '/')
  {
    var r := Join(a, b);
    if !(|b| > 0 && b[0] == '/') {
      assert r[|r| - |b|..] == b;
      assert r[..|a|] == a;
    }
  }

  lemma {:induction false} BasenameAfterSlash(d: string, b: string)
    requires d == [] || d[|d| - 1] == '/'
    requires '/' !in b
    ensures Basename(d + b) == b
  {
    if b == [] {
      assert d + b == d;
    } else {
      var init, c := b[..|b| - 1], b[|b| - 1];
      assert b == init + [c];
      assert c in b;
      assert '/' !in init by {
        forall k | 0 <= k < |init| ensures init[k] != '/' {
          assert init[k] == b[k];
        }
      }
      BasenameAfterSlash(d, init);
      assert d + b == (d + init) + [c];
    }
  }

  /** Joining a directory with a file name that holds no '/' gives a path whose basename is that name. */
  lemma {:induction false} JoinBasename(dir: string, name: string)
    requires '/' !in name
    ensures Basename(Join(dir, name)) == name
  {
    if dir == [] || dir[|dir| - 1] == '/' {
      BasenameAfterSlash(dir, name);
    } else {
      assert Join(dir, name) == (dir + "/") + name;
      BasenameAfterSlash(dir + "/", name);
    }
  }
}
