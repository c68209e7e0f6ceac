/**
 * String operations the backend and the pages rely on: Python's `str.split`
 * with an explicit separator, substring search (`in` on Python strings,
 * `includes` on JavaScript strings), decimal rendering of an HTTP status and
 * Python's `str.strip`.
 */
module Text {

  predicate StartsWith(s: string, prefix: string) {
    |prefix| <= |s| && s[..|prefix|] == prefix
  }

  // ---------------------------------------------------------------------------
  // Splitting on a one-character separator
  // ---------------------------------------------------------------------------

  /**
   * Python's `s.split(sep)` for a one-character `sep`: every separator ends a
   * piece, so adjacent separators and a trailing separator give empty pieces,
   * and there is always at least one piece.
   */
  function Split(s: string, sep: char): (pieces: seq<string>)
    ensures |pieces| >= 1
    ensures forall i :: 0 <= i < |pieces| ==> sep !in pieces[i]
    decreases |s|
  {
    if s == [] then [""]
    else
      var rest := Split(s[1..], sep);
      if s[0] == sep then [""] + rest
      else [[s[0]] + rest[0]] + rest[1..]
  }

  /** Python's `sep.join(pieces)`, the inverse of Split. */
  function Join(pieces: seq<string>, sep: char): string
    requires |pieces| >= 1
    decreases |pieces|
  {
    if |pieces| == 1 then pieces[0] else pieces[0] + [sep] + Join(pieces[1..], sep)
  }

  lemma {:induction false} JoinPrepend(c: string, pieces: seq<string>, sep: char)
    requires |pieces| >= 1
    ensures Join([c + pieces[0]] + pieces[1..], sep) == c + Join(pieces, sep)
  {
    var p := [c + pieces[0]] + pieces[1..];
    assert p[1..] == pieces[1..];
  }

  /** Joining the pieces back with the separator gives the original string. */
  lemma {:induction false} JoinSplit(s: string, sep: char)
    ensures Join(Split(s, sep), sep) == s
    decreases |s|
  {
    if s != [] {
      var rest := Split(s[1..], sep);
      JoinSplit(s[1..], sep);
      if s[0] == sep {
        assert ([""] + rest)[1..] == rest;
        assert Split(s, sep) == [""] + rest;
      } else {
        JoinPrepend([s[0]], rest, sep);
        assert [s[0]] + s[1..] == s;
      }
    }
  }

  /** A piece free of the separator, followed by the separator, becomes the first piece. */
  lemma {:induction false} SplitAfterPiece(a: string, b: string, sep: char)
    requires sep !in a
    ensures Split(a + [sep] + b, sep) == [a] + Split(b, sep)
    decreases |a|
  {
    var s := a + [sep] + b;
    if a == [] {
      assert s[0] == sep && s[1..] == b;
    } else {
      assert s[0] == a[0] && s[1..] == a[1..] + [sep] + b;
      SplitAfterPiece(a[1..], b, sep);
      assert [a[0]] + a[1..] == a;
    }
  }

  /** A string without the separator is a single piece. */
  lemma {:induction false} SplitWhole(a: string, sep: char)
    requires sep !in a
    ensures Split(a, sep) == [a]
    decreases |a|
  {
    if a != [] {
      SplitWhole(a[1..], sep);
      assert [a[0]] + a[1..] == a;
    }
  }

  /** Splitting a join of separator-free pieces gives the pieces back. */
  lemma {:induction false} SplitJoin(pieces: seq<string>, sep: char)
    requires |pieces| >= 1
    requires forall i :: 0 <= i < |pieces| ==> sep !in pieces[i]
    ensures Split(Join(pieces, sep), sep) == pieces
    decreases |pieces|
  {
    if |pieces| == 1 {
      SplitWhole(pieces[0], sep);
    } else {
      SplitJoin(pieces[1..], sep);
      SplitAfterPiece(pieces[0], Join(pieces[1..], sep), sep);
      assert [pieces[0]] + pieces[1..] == pieces;
    }
  }

  /**
   * The first piece is the longest separator-free prefix: it is followed by
   * the separator or by the end of the string.
   */
  lemma {:induction false} FirstPiece(s: string, sep: char)
    ensures StartsWith(s, Split(s, sep)[0])
    ensures |Split(s, sep)[0]| == |s| || s[|Split(s, sep)[0]|] == sep
    decreases |s|
  {
    if s != [] && s[0] != sep {
      FirstPiece(s[1..], sep);
    }
  }

  // ---------------------------------------------------------------------------
  // Substring search
  // ---------------------------------------------------------------------------

  /** `needle` occurs in `s` starting at position `k`. */
  predicate OccursAt(s: string, needle: string, k: nat) {
    k + |needle| <= |s| && s[k..k + |needle|] == needle
  }

  /** Python's `needle in s` and JavaScript's `s.includes(needle)` on strings. */
  function Contains(s: string, needle: string): (found: bool)
    ensures found <==> exists k: nat :: OccursAt(s, needle, k)
    decreases |s|
  {
    if StartsWith(s, needle) then
      assert OccursAt(s, needle, 0);
      true
    else if s == [] then
      false
    else
      var found := Contains(s[1..], needle);
      assert found ==> exists k: nat :: OccursAt(s, needle, k) by {
        if found {
          var j: nat :| OccursAt(s[1..], needle, j);
          assert OccursAt(s, needle, j + 1);
        }
      }
      assert (exists k: nat :: OccursAt(s, needle, k)) ==> found by {
        if exists k: nat :: OccursAt(s, needle, k) {
          var k: nat :| OccursAt(s, needle, k);
          assert k != 0;
          assert OccursAt(s[1..], needle, k - 1);
        }
      }
      found
  }

  /** A text lacking the needle's first character does not contain the needle. */
  lemma AbsentFirstChar(s: string, needle: string)
    requires |needle| > 0 && needle[0] !in s
    ensures !Contains(s, needle)
  {
    forall k: nat | k + |needle| <= |s|
      ensures !OccursAt(s, needle, k)
    {
      assert s[k..k + |needle|][0] == s[k];
    }
  }

  /** A text contains whatever it starts with. */
  lemma ContainsPrefix(prefix: string, rest: string)
    ensures Contains(prefix + rest, prefix)
  {
    assert OccursAt(prefix + rest, prefix, 0);
  }

  /** A text contains whatever it ends with. */
  lemma ContainsSuffix(front: string, suffix: string)
    ensures Contains(front + suffix, suffix)
  {
    assert OccursAt(front + suffix, suffix, |front|);
  }

  // ---------------------------------------------------------------------------
  // Decimal rendering of a non-negative integer (`${status}` in JavaScript)
  // ---------------------------------------------------------------------------

  predicate IsDigit(c: char) {
    '0' <= c <= '9'
  }

  function DigitChar(d: nat): (c: char)
    requires d < 10
    ensures IsDigit(c) && DigitValue(c) == d
  {
    (d + '0' as int) as char
  }

  /** The decimal digits of `n`, most significant first, with no leading zero. */
  function Decimal(n: nat): (s: string)
    ensures |s| >= 1
    ensures forall i :: 0 <= i < |s| ==> IsDigit(s[i])
    ensures s[0] == '0' ==> n == 0
    decreases n
  {
    if n < 10 then [DigitChar(n)] else Decimal(n / 10) + [DigitChar(n % 10)]
  }

  function DigitValue(c: char): (d: nat)
    requires IsDigit(c)
    ensures d < 10
  {
    c as int - '0' as int
  }

  /** The number a string of decimal digits denotes. */
  function DecimalValue(s: string): nat
    requires forall i :: 0 <= i < |s| ==> IsDigit(s[i])
    decreases |s|
  {
    if s == [] then 0 else DecimalValue(s[..|s| - 1]) * 10 + DigitValue(s[|s| - 1])
  }

  /** The rendering can be read back, so the status shown is the status received. */
  lemma {:induction false} DecimalRoundTrip(n: nat)
    ensures DecimalValue(Decimal(n)) == n
    decreases n
  {
    if n >= 10 {
      DecimalRoundTrip(n / 10);
      var s := Decimal(n);
      assert s[..|s| - 1] == Decimal(n / 10);
    }
  }

  // ---------------------------------------------------------------------------
  // Python's str.strip()
  // ---------------------------------------------------------------------------

  /** The characters for which Python's `str.isspace()` holds. */
  predicate IsSpace(c: char) {
    c == ' ' || '\t' <= c <= '\r' || '\U{1C}' <= c <= '\U{1F}' || c == '\U{85}' || c == '\U{A0}'
    || c == '\U{1680}' || '\U{2000}' <= c <= '\U{200A}' || c == '\U{2028}' || c == '\U{2029}'
    || c == '\U{202F}' || c == '\U{205F}' || c == '\U{3000}'
  }

  /** Python's `s.lstrip()`: the suffix that starts at the first non-space. */
  function StripStart(s: string): (r: string)
    ensures |r| <= |s| && r == s[|s| - |r|..]
    ensures forall i :: 0 <= i < |s| - |r| ==> IsSpace(s[i])
    ensures r != [] ==> !IsSpace(r[0])
    decreases |s|
  {
    if s != [] && IsSpace(s[0]) then StripStart(s[1..]) else s
  }

  /** Python's `s.rstrip()`: the prefix that ends at the last non-space. */
  function StripEnd(s: string): (r: string)
    ensures |r| <= |s| && r == s[..|r|]
    ensures forall i :: |r| <= i < |s| ==> IsSpace(s[i])
    ensures r != [] ==> !IsSpace(r[|r| - 1])
    decreases |s|
  {
    if s != [] && IsSpace(s[|s| - 1]) then StripEnd(s[..|s| - 1]) else s
  }

  /** Python's `s.strip()`. */
  function Strip(s: string): string {
    StripEnd(StripStart(s))
  }

  /** `not s.strip()`: the text is empty or whitespace only. */
  predicate IsBlank(s: string) {
    Strip(s) == ""
  }

  /** Stripping leaves nothing exactly when every character is whitespace. */
  lemma BlankIffAllSpace(s: string)
    ensures IsBlank(s) <==> forall i :: 0 <= i < |s| ==> IsSpace(s[i])
  {
    var t := StripStart(s);
    if t != [] {
      assert !IsSpace(s[|s| - |t|]);
    }
  }
}
