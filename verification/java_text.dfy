/**
 * The few java.lang and android.text string operations the core relies on,
 * over `string` (a sequence of Unicode scalar values; surrogate pairs, which a
 * Java `String` counts as two units, are not modelled):
 * `TextUtils.isEmpty`, `toLowerCase(Locale.ENGLISH)` on ASCII letters,
 * `String.split` with a one-character separator, `String.valueOf(long)` and
 * `Long.valueOf(String)`.
 */
module JavaText {
  import opened Wrappers

  /** `TextUtils.isEmpty`: a null reference (None) or the empty string. */
  predicate IsEmpty(s: Option<string>) {
    s == None || s == Some("")
  }

  // ---------------------------------------------------------------------
  // Lower-casing
  // ---------------------------------------------------------------------

  /** Lower-cases an ASCII capital; every other character is kept. */
  function LowerChar(c: char): char {
    if 'A' <= c <= 'Z' then (c as int + 32) as char else c
  }

  predicate IsAsciiLetter(c: char) {
    'A' <= c <= 'Z' || 'a' <= c <= 'z'
  }

  function ToLower(s: string): (r: string)
    ensures |r| == |s|
    ensures forall i :: 0 <= i < |s| ==> r[i] == LowerChar(s[i])
  {
    if s == [] then [] else [LowerChar(s[0])] + ToLower(s[1..])
  }

  /** Two strings are equal ignoring case exactly when they agree letter by letter. */
  lemma LowerEqPointwise(a: string, b: string)
    ensures ToLower(a) == ToLower(b) <==>
            |a| == |b| && forall i :: 0 <= i < |a| ==> LowerChar(a[i]) == LowerChar(b[i])
  {
    var la, lb := ToLower(a), ToLower(b);
    if la == lb {
      forall i | 0 <= i < |a|
        ensures LowerChar(a[i]) == LowerChar(b[i])
      {
        assert la[i] == lb[i];
      }
    }
    if |a| == |b| && forall i :: 0 <= i < |a| ==> LowerChar(a[i]) == LowerChar(b[i]) {
      assert |la| == |lb|;
      forall i | 0 <= i < |la|
        ensures la[i] == lb[i]
      {
      }
    }
  }

  /** Lower-casing never maps another character onto a non-letter. */
  lemma LowerCharOfNonLetter(c: char, sep: char)
    requires !IsAsciiLetter(sep)
    ensures LowerChar(c) == sep <==> c == sep
  {
  }

  // ---------------------------------------------------------------------
  // String.split
  // ---------------------------------------------------------------------

  /** The substrings of `s` between consecutive occurrences of `sep`, empty ones included. */
  function Pieces(s: string, sep: char): (ps: seq<string>)
    ensures |ps| >= 1
    ensures forall i :: 0 <= i < |ps| ==> sep !in ps[i]
    decreases |s|
  {
    if s == [] then [[]]
    else
      var rest := Pieces(s[1..], sep);
      if s[0] == sep then [[]] + rest
      else [[s[0]] + rest[0]] + rest[1..]
  }

  /** Glues pieces back together, with `sep` between neighbours. */
  function Join(ps: seq<string>, sep: char): string
    requires |ps| >= 1
  {
    if |ps| == 1 then ps[0] else ps[0] + [sep] + Join(ps[1..], sep)
  }

  lemma {:induction false} PiecesOfSeparatorFree(s: string, sep: char)
    requires sep !in s
    ensures Pieces(s, sep) == [s]
    decreases |s|
  {
    if s != [] {
      PiecesOfSeparatorFree(s[1..], sep);
      assert [s[0]] + s[1..] == s;
    }
  }

  /** Cutting at one more separator concatenates the pieces on either side. */
  lemma {:induction false} PiecesAppend(a: string, sep: char, b: string)
    ensures Pieces(a + [sep] + b, sep) == Pieces(a, sep) + Pieces(b, sep)
    decreases |a|
  {
    var s := a + [sep] + b;
    if a == [] {
      assert s[1..] == b;
    } else {
      assert s[1..] == a[1..] + [sep] + b;
      PiecesAppend(a[1..], sep, b);
    }
  }

  /** Splitting then joining gives back the original string. */
  lemma {:induction false} JoinPieces(s: string, sep: char)
    ensures Join(Pieces(s, sep), sep) == s
    decreases |s|
  {
    if s != [] {
      var rest := Pieces(s[1..], sep);
      JoinPieces(s[1..], sep);
      if s[0] == sep {
        assert ([[]] + rest)[1..] == rest;
      } else if |rest| > 1 {
        var ps := [[s[0]] + rest[0]] + rest[1..];
        assert ps[1..] == rest[1..];
        assert Join(rest, sep) == rest[0] + [sep] + Join(rest[1..], sep);
      }
    }
  }

  /** Joining separator-free pieces then splitting gives back the pieces. */
  lemma {:induction false} PiecesJoin(ps: seq<string>, sep: char)
    requires |ps| >= 1
    requires forall i :: 0 <= i < |ps| ==> sep !in ps[i]
    ensures Pieces(Join(ps, sep), sep) == ps
    decreases |ps|
  {
    PiecesOfSeparatorFree(ps[0], sep);
    if |ps| > 1 {
      PiecesJoin(ps[1..], sep);
      PiecesAppend(ps[0], sep, Join(ps[1..], sep));
      assert [ps[0]] + ps[1..] == ps;
    }
  }

  /** Removes the empty strings at the end of a list of pieces. */
  function DropTrailingEmpty(ps: seq<string>): (r: seq<string>)
    ensures r <= ps
    ensures r == [] || r[|r| - 1] != []
    ensures forall i :: |r| <= i < |ps| ==> ps[i] == []
  {
    if ps == [] then []
    else if ps[|ps| - 1] == [] then DropTrailingEmpty(ps[..|ps| - 1])
    else ps
  }

  /**
   * `s.split(sep)` for a separator that is not a regular-expression
   * metacharacter: when the separator does not occur the result is `[s]`
   * (so `"".split(",")` is `[""]`); otherwise the pieces, with trailing empty
   * strings dropped (so `",".split(",")` is `[]`).
   */
  function Split(s: string, sep: char): (parts: seq<string>)
    ensures forall i :: 0 <= i < |parts| ==> sep !in parts[i]
    ensures sep !in s ==> parts == [s]
    ensures sep in s ==> parts <= Pieces(s, sep) && (parts == [] || parts[|parts| - 1] != [])
    ensures sep in s ==> forall i :: |parts| <= i < |Pieces(s, sep)| ==> Pieces(s, sep)[i] == []
  {
    if sep !in s then [s] else DropTrailingEmpty(Pieces(s, sep))
  }

  /** Trailing-empty removal of a longer list keeps the removal of its prefix. */
  lemma {:induction false} DropTrailingEmptyPrefix(x: seq<string>, y: seq<string>)
    ensures DropTrailingEmpty(x) <= DropTrailingEmpty(x + y)
    decreases |y|
  {
    if y == [] {
      assert x + y == x;
    } else if y[|y| - 1] == [] {
      assert (x + y)[..|x + y| - 1] == x + y[..|y| - 1];
      DropTrailingEmptyPrefix(x, y[..|y| - 1]);
    }
  }

  /** Letter-case-equal piece lists lose the same number of trailing empties. */
  lemma {:induction false} DropTrailingEmptyLowerEq(x: seq<string>, y: seq<string>)
    requires |x| == |y|
    requires forall i :: 0 <= i < |x| ==> ToLower(x[i]) == ToLower(y[i])
    ensures |DropTrailingEmpty(x)| == |DropTrailingEmpty(y)|
    decreases |x|
  {
    if x != [] {
      var n := |x| - 1;
      assert |x[n]| == |ToLower(x[n])| == |ToLower(y[n])| == |y[n]|;
      if x[n] == [] {
        DropTrailingEmptyLowerEq(x[..n], y[..n]);
      }
    }
  }

  /** Strings equal up to letter case are cut at the same places. */
  lemma {:induction false} PiecesLowerEq(a: string, b: string, sep: char)
    requires !IsAsciiLetter(sep)
    requires ToLower(a) == ToLower(b)
    ensures |Pieces(a, sep)| == |Pieces(b, sep)|
    ensures forall i :: 0 <= i < |Pieces(a, sep)| ==>
              ToLower(Pieces(a, sep)[i]) == ToLower(Pieces(b, sep)[i])
    decreases |a|
  {
    LowerEqPointwise(a, b);
    if a != [] {
      LowerEqPointwise(a[1..], b[1..]);
      PiecesLowerEq(a[1..], b[1..], sep);
      LowerCharOfNonLetter(a[0], sep);
      LowerCharOfNonLetter(b[0], sep);
      var ra, rb := Pieces(a[1..], sep), Pieces(b[1..], sep);
      if a[0] != sep {
        assert b[0] != sep;
        LowerEqPointwise(ra[0], rb[0]);
        LowerEqPointwise([a[0]] + ra[0], [b[0]] + rb[0]);
      }
    }
  }

  /** Strings equal up to letter case split into pieces equal up to letter case. */
  lemma SplitLowerEq(a: string, b: string, sep: char)
    requires !IsAsciiLetter(sep)
    requires ToLower(a) == ToLower(b)
    ensures |Split(a, sep)| == |Split(b, sep)|
    ensures forall i :: 0 <= i < |Split(a, sep)| ==>
              ToLower(Split(a, sep)[i]) == ToLower(Split(b, sep)[i])
  {
    LowerEqPointwise(a, b);
    assert sep in a <==> sep in b by {
      forall i | 0 <= i < |a|
        ensures a[i] == sep <==> b[i] == sep
      {
        LowerCharOfNonLetter(a[i], sep);
        LowerCharOfNonLetter(b[i], sep);
      }
    }
    if sep in a {
      PiecesLowerEq(a, b, sep);
      DropTrailingEmptyLowerEq(Pieces(a, sep), Pieces(b, sep));
    }
  }

  // ---------------------------------------------------------------------
  // Decimal conversion of Java longs
  // ---------------------------------------------------------------------

  const LONG_MIN: int := -0x8000_0000_0000_0000
  const LONG_MAX: int := 0x7fff_ffff_ffff_ffff

  predicate IsDigit(c: char) {
    '0' <= c <= '9'
  }

  predicate AllDigits(s: string) {
    forall i :: 0 <= i < |s| ==> IsDigit(s[i])
  }

  function DigitChar(d: int): (c: char)
    requires 0 <= d < 10
    ensures IsDigit(c)
  {
    ('0' as int + d) as char
  }

  /** The value of a non-empty run of ASCII decimal digits. */
  function DigitsValue(s: string): (v: nat)
    requires AllDigits(s)
  {
    if s == [] then 0
    else DigitsValue(s[..|s| - 1]) * 10 + (s[|s| - 1] as int - '0' as int)
  }

  /** The decimal digits of a natural number, most significant first, without leading zeros. */
  function Digits(n: nat): (s: string)
    ensures |s| >= 1 && AllDigits(s)
    ensures |s| > 1 ==> s[0] != '0'
  {
    if n < 10 then [DigitChar(n)] else Digits(n / 10) + [DigitChar(n % 10)]
  }

  /** `String.valueOf(long)`: optional minus sign, then the digits of the magnitude. */
  function DecimalString(n: int): (s: string)
    ensures |s| >= 1
    ensures n < 0 <==> s[0] == '-'
  {
    if n < 0 then "-" + Digits(-n) else Digits(n)
  }

  /**
   * `Long.valueOf(String)` on ASCII input: an optional sign, at least one
   * digit, nothing else, and a value inside the 64-bit range; anything else
   * is a `NumberFormatException`, here `None`.
   */
  function ParseLong(s: string): (r: Option<int>)
    ensures r.Some? ==> LONG_MIN <= r.value <= LONG_MAX
    ensures r.Some? ==> |s| >= 1 && AllDigits(s[1..])
  {
    var negative := |s| > 0 && s[0] == '-';
    var signed := |s| > 0 && (s[0] == '-' || s[0] == '+');
    var body := if signed then s[1..] else s;
    if body == [] || !AllDigits(body) then None
    else
      var v: int := if negative then -(DigitsValue(body) as int) else DigitsValue(body);
      if LONG_MIN <= v <= LONG_MAX then Some(v) else None
  }

  lemma {:induction false} DigitsValueOfDigits(n: nat)
    ensures DigitsValue(Digits(n)) == n
  {
    if n >= 10 {
      DigitsValueOfDigits(n / 10);
      var s := Digits(n);
      assert s[..|s| - 1] == Digits(n / 10);
    }
  }

  /** Every long printed in decimal parses back to itself. */
  lemma DecimalRoundTrip(n: int)
    requires LONG_MIN <= n <= LONG_MAX
    ensures ParseLong(DecimalString(n)) == Some(n)
  {
    if n < 0 {
      DigitsValueOfDigits(-n);
      assert DecimalString(n)[1..] == Digits(-n);
    } else {
      DigitsValueOfDigits(n);
    }
  }
}
