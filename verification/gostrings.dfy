/**
 * Go string primitives the core relies on: byte length (`len` counts UTF-8
 * bytes, not runes), `%d` and `%v` formatting, and `strings.ReplaceAll`.
 * A Dafny `string` is a sequence of Unicode scalar values, i.e. the runes of
 * a valid UTF-8 Go string.
 */
module GoStrings {

  newtype byte = x: int | 0 <= x < 256

  function Min(a: int, b: int): int {
    if a <= b then a else b
  }

  // ---------------------------------------------------------------------
  // UTF-8 encoding and Go's len()
  // ---------------------------------------------------------------------

  /** The UTF-8 bytes of one rune. */
  function EncodeRune(c: char): (r: seq<byte>)
    ensures 1 <= |r| <= 4
    ensures |r| == 1 <==> (c as int) < 0x80
  {
    var v := c as int;
    if v < 0x80 then [v as byte]
    else if v < 0x800 then [(0xC0 + v / 0x40) as byte, (0x80 + v % 0x40) as byte]
    else if v < 0x10000 then
      [(0xE0 + v / 0x1000) as byte, (0x80 + (v / 0x40) % 0x40) as byte, (0x80 + v % 0x40) as byte]
    else
      [(0xF0 + (v / 0x40000) % 8) as byte, (0x80 + (v / 0x1000) % 0x40) as byte,
       (0x80 + (v / 0x40) % 0x40) as byte, (0x80 + v % 0x40) as byte]
  }

  /** The bytes of a Go string holding the runes `s`. */
  function Utf8(s: string): seq<byte>
  {
    if |s| == 0 then [] else EncodeRune(s[0]) + Utf8(s[1..])
  }

  /** Go's `len(s)`: the number of UTF-8 bytes. */
  function Utf8Len(s: string): nat
  {
    |Utf8(s)|
  }

  /** Encoding distributes over concatenation, so `len(a + b) == len(a) + len(b)`. */
  lemma {:induction false} Utf8Append(a: string, b: string)
    ensures Utf8(a + b) == Utf8(a) + Utf8(b)
    ensures Utf8Len(a + b) == Utf8Len(a) + Utf8Len(b)
    decreases |a|
  {
    if |a| > 0 {
      assert (a + b)[1..] == a[1..] + b;
      Utf8Append(a[1..], b);
    } else {
      assert a + b == b;
    }
  }

  /** A string has between one and four bytes per rune. */
  lemma {:induction false} Utf8LenBounds(s: string)
    ensures |s| <= Utf8Len(s) <= 4 * |s|
    decreases |s|
  {
    if |s| > 0 {
      Utf8LenBounds(s[1..]);
    }
  }

  ghost predicate IsAscii(s: string) {
    forall i :: 0 <= i < |s| ==> (s[i] as int) < 0x80
  }

  /** On ASCII text bytes and runes coincide. */
  lemma {:induction false} AsciiUtf8Len(s: string)
    requires IsAscii(s)
    ensures Utf8Len(s) == |s|
    decreases |s|
  {
    if |s| > 0 {
      AsciiUtf8Len(s[1..]);
    }
  }

  // ---------------------------------------------------------------------
  // %d
  // ---------------------------------------------------------------------

  predicate IsDigit(c: char) {
    '0' <= c <= '9'
  }

  function DigitChar(d: nat): (c: char)
    requires d < 10
    ensures IsDigit(c) && (c as int) - ('0' as int) == d
  {
    (('0' as int) + d) as char
  }

  /** `%d` of a non-negative integer: decimal digits, no leading zero. */
  function NatToString(n: nat): (s: string)
    ensures |s| >= 1
    ensures forall i :: 0 <= i < |s| ==> IsDigit(s[i])
    ensures s[0] == '0' ==> n == 0
    decreases n
  {
    if n < 10 then [DigitChar(n)] else NatToString(n / 10) + [DigitChar(n % 10)]
  }

  /** `%d` of any integer. */
  function IntToString(i: int): string
  {
    if i < 0 then "-" + NatToString(-i) else NatToString(i)
  }

  /** The value of a string of decimal digits. */
  function ParseDecimal(s: string): nat
    requires forall i :: 0 <= i < |s| ==> IsDigit(s[i])
  {
    if |s| == 0 then 0
    else
      assert IsDigit(s[|s| - 1]);
      10 * ParseDecimal(s[..|s| - 1]) + ((s[|s| - 1] as int) - ('0' as int))
  }

  /** Printing a number with `%d` loses nothing: parsing gives it back. */
  lemma {:induction false} DecimalRoundTrip(n: nat)
    ensures ParseDecimal(NatToString(n)) == n
    decreases n
  {
    if n >= 10 {
      var s := NatToString(n);
      assert s[..|s| - 1] == NatToString(n / 10);
      DecimalRoundTrip(n / 10);
    }
  }

  // ---------------------------------------------------------------------
  // %v of a []string
  // ---------------------------------------------------------------------

  function JoinSpace(xs: seq<string>): string
  {
    if |xs| == 0 then "" else if |xs| == 1 then xs[0] else xs[0] + " " + JoinSpace(xs[1..])
  }

  /** `%v` of a string slice: the elements separated by blanks, in brackets. */
  function FormatStringSlice(xs: seq<string>): (s: string)
    ensures |s| >= 2 && s[0] == '[' && s[|s| - 1] == ']'
    ensures |xs| == 0 ==> s == "[]"
    ensures |xs| == 1 ==> s == "[" + xs[0] + "]"
  {
    "[" + JoinSpace(xs) + "]"
  }

  /** Appending an element adds a blank and the element before the closing bracket. */
  lemma {:induction false} JoinSpaceSnoc(xs: seq<string>, x: string)
    requires |xs| > 0
    ensures JoinSpace(xs + [x]) == JoinSpace(xs) + " " + x
    decreases |xs|
  {
    if |xs| == 1 {
      assert (xs + [x])[1..] == [x];
    } else {
      assert (xs + [x])[1..] == xs[1..] + [x];
      JoinSpaceSnoc(xs[1..], x);
    }
  }

  /**
   * Together with the one-element case, this fixes `%v` of any non-empty
   * slice: the elements in order, one blank between neighbours, in brackets.
   */
  lemma FormatStringSliceSnoc(xs: seq<string>, x: string)
    requires |xs| > 0
    ensures var s := FormatStringSlice(xs);
      FormatStringSlice(xs + [x]) == s[..|s| - 1] + " " + x + "]"
  {
    JoinSpaceSnoc(xs, x);
    var s := FormatStringSlice(xs);
    assert s[..|s| - 1] == "[" + JoinSpace(xs);
  }

  // ---------------------------------------------------------------------
  // strings.ReplaceAll
  // ---------------------------------------------------------------------

  /**
   * Go's `strings.ReplaceAll(s, pat, rep)` for a non-empty pattern: scans left
   * to right and replaces non-overlapping occurrences.
   */
  function ReplaceAll(s: string, pat: string, rep: string): string
    requires |pat| > 0
    decreases |s|
  {
    if |s| == 0 then ""
    else if pat <= s then rep + ReplaceAll(s[|pat|..], pat, rep)
    else [s[0]] + ReplaceAll(s[1..], pat, rep)
  }

  /** The first rune of a replacement result. */
  lemma ReplaceAllHead(s: string, pat: string, rep: string)
    requires |pat| > 0 && |rep| > 0 && |s| > 0
    ensures |ReplaceAll(s, pat, rep)| > 0
    ensures ReplaceAll(s, pat, rep)[0] == if pat <= s then rep[0] else s[0]
  {
  }

  /** A string in which the pattern's first rune never occurs is left as is. */
  lemma {:induction false} ReplaceAllAbsent(s: string, pat: string, rep: string)
    requires |pat| > 0
    requires forall i :: 0 <= i < |s| ==> s[i] != pat[0]
    ensures ReplaceAll(s, pat, rep) == s
    decreases |s|
  {
    if |s| > 0 {
      assert !(pat <= s) by { assert s[0] != pat[0]; }
      ReplaceAllAbsent(s[1..], pat, rep);
    }
  }

  /** A prefix free of the pattern's first rune is copied through unchanged. */
  lemma {:induction false} ReplaceAllSkip(x: string, y: string, pat: string, rep: string)
    requires |pat| > 0
    requires forall i :: 0 <= i < |x| ==> x[i] != pat[0]
    ensures ReplaceAll(x + y, pat, rep) == x + ReplaceAll(y, pat, rep)
    decreases |x|
  {
    if |x| == 0 {
      assert x + y == y;
    } else {
      assert !(pat <= x + y) by { assert (x + y)[0] == x[0]; }
      assert (x + y)[1..] == x[1..] + y;
      ReplaceAllSkip(x[1..], y, pat, rep);
    }
  }

  /** `s` holds no "- " (a dash followed by a blank). */
  ghost predicate NoDashBlank(s: string) {
    forall i :: 0 <= i < |s| - 1 ==> !(s[i] == '-' && s[i + 1] == ' ')
  }

  /**
   * Replacing every "- " by a text that has no dash, does not start with a
   * blank and ends with one leaves no "- " behind.
   */
  lemma {:induction false} ReplaceDashBlankRemovesAll(s: string, rep: string)
    requires |rep| > 0 && rep[0] != ' ' && rep[|rep| - 1] == ' '
    requires forall i :: 0 <= i < |rep| ==> rep[i] != '-'
    ensures NoDashBlank(ReplaceAll(s, "- ", rep))
    decreases |s|
  {
    if |s| == 0 {
      return;
    }
    var r := ReplaceAll(s, "- ", rep);
    if "- " <= s {
      var tail := ReplaceAll(s[2..], "- ", rep);
      ReplaceDashBlankRemovesAll(s[2..], rep);
      assert r == rep + tail;
      forall i | 0 <= i < |r| - 1
        ensures !(r[i] == '-' && r[i + 1] == ' ')
      {
        if i < |rep| {
          assert r[i] == rep[i];
        } else {
          assert r[i] == tail[i - |rep|];
        }
      }
    } else {
      var tail := ReplaceAll(s[1..], "- ", rep);
      ReplaceDashBlankRemovesAll(s[1..], rep);
      assert r == [s[0]] + tail;
      if s[0] == '-' && |s| > 1 {
        assert s[1] != ' ' by { assert !("- " <= s); }
        ReplaceAllHead(s[1..], "- ", rep);
      }
      forall i | 0 <= i < |r| - 1
        ensures !(r[i] == '-' && r[i + 1] == ' ')
      {
        if i > 0 {
          assert r[i] == tail[i - 1] && r[i + 1] == tail[i];
        }
      }
    }
  }

  /** Collapsing "**" into "*" never creates a "- ". */
  lemma {:induction false} CollapseStarsKeepsNoDashBlank(s: string)
    requires NoDashBlank(s)
    ensures NoDashBlank(ReplaceAll(s, "**", "*"))
    decreases |s|
  {
    if |s| == 0 {
      return;
    }
    var r := ReplaceAll(s, "**", "*");
    if "**" <= s {
      var tail := ReplaceAll(s[2..], "**", "*");
      CollapseStarsKeepsNoDashBlank(s[2..]);
      assert r == "*" + tail;
      forall i | 0 <= i < |r| - 1
        ensures !(r[i] == '-' && r[i + 1] == ' ')
      {
        if i > 0 {
          assert r[i] == tail[i - 1] && r[i + 1] == tail[i];
        }
      }
    } else {
      var tail := ReplaceAll(s[1..], "**", "*");
      CollapseStarsKeepsNoDashBlank(s[1..]);
      assert r == [s[0]] + tail;
      if s[0] == '-' && |s| > 1 {
        assert s[1] != ' ';
        ReplaceAllHead(s[1..], "**", "*");
      }
      forall i | 0 <= i < |r| - 1
        ensures !(r[i] == '-' && r[i + 1] == ' ')
      {
        if i > 0 {
          assert r[i] == tail[i - 1] && r[i + 1] == tail[i];
        }
      }
    }
  }
}
