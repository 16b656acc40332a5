/**
 * The world-file loader of src/loadpoly.h: a character stream with the
 * C library's end-of-file flag, the tokenizer `nextchar` that skips white
 * space and `*` comments, the signed decimal scanner `getnumber`, and
 * `loadpoly`, which allocates and fills the objects, vertices and polygons
 * of a world from the numbers it reads.
 *
 * The file is an in-memory character sequence. A character is handed to
 * the program as its code; the end-of-file value of `fgetc` is `EOF`.
 */
module LoadPoly {
  import opened Common
  import opened Poly
  import View

  /** The value `fgetc` returns once the input is exhausted. */
  const EOF: int := -1

  /** The characters `isspace` accepts: blank, tab, newline, vertical tab, form feed, carriage return. */
  predicate IsSpace(c: int)
  {
    c == 32 || 9 <= c <= 13
  }

  predicate IsDigit(c: int)
  {
    '0' as int <= c <= '9' as int
  }

  predicate AllSpace(s: seq<char>)
  {
    forall i :: 0 <= i < |s| ==> IsSpace(s[i] as int)
  }

  // ---------------------------------------------------------------------
  // The characters nextchar delivers
  // ---------------------------------------------------------------------

  /** What follows the first newline of `s`; nothing when `s` has no newline. */
  function AfterLine(s: seq<char>): (r: seq<char>)
    ensures |r| <= |s|
  {
    if s == [] then []
    else if s[0] == '\n' then s[1..]
    else AfterLine(s[1..])
  }

  /**
   * The significant characters of `s`: `s` without its white space and
   * without its comments, a comment running from a `*` up to and including
   * the next newline (or to the end of the input when there is none).
   */
  function Significant(s: seq<char>): (r: seq<char>)
    ensures |r| <= |s|
    decreases |s|
  {
    if s == [] then []
    else if IsSpace(s[0] as int) then Significant(s[1..])
    else if s[0] == '*' then Significant(AfterLine(s[1..]))
    else [s[0]] + Significant(s[1..])
  }

  /** Neither white space nor a comment mark is ever significant. */
  lemma {:induction false} SignificantHasNoBlanks(s: seq<char>)
    ensures forall i :: 0 <= i < |Significant(s)| ==> !IsSpace(Significant(s)[i] as int) && Significant(s)[i] != '*'
    decreases |s|
  {
    if s != [] {
      if IsSpace(s[0] as int) {
        SignificantHasNoBlanks(s[1..]);
      } else if s[0] == '*' {
        SignificantHasNoBlanks(AfterLine(s[1..]));
      } else {
        SignificantHasNoBlanks(s[1..]);
        var r := Significant(s[1..]);
        assert Significant(s) == [s[0]] + r;
        assert forall i :: 1 <= i < |Significant(s)| ==> Significant(s)[i] == r[i - 1];
      }
    }
  }

  /** White space contributes nothing. */
  lemma SignificantOfSpace(s: seq<char>)
    requires AllSpace(s)
    ensures Significant(s) == []
    decreases |s|
  {
    if s != [] {
      SignificantOfSpace(s[1..]);
    }
  }

  /** A complete comment contributes nothing and does not join or split the text around it. */
  lemma {:induction false} SignificantSkipsComment(c: seq<char>, s: seq<char>)
    requires '\n' !in c
    ensures Significant(['*'] + c + ['\n'] + s) == Significant(s)
  {
    var w := ['*'] + c + ['\n'] + s;
    assert w[1..] == c + ['\n'] + s;
    CommentEnd(c, s);
  }

  lemma {:induction false} CommentEnd(c: seq<char>, s: seq<char>)
    requires '\n' !in c
    ensures AfterLine(c + ['\n'] + s) == s
    decreases |c|
  {
    if c == [] {
      assert (c + ['\n'] + s)[0] == '\n';
      assert (c + ['\n'] + s)[1..] == s;
    } else {
      assert (c + ['\n'] + s)[0] == c[0];
      assert (c + ['\n'] + s)[1..] == c[1..] + ['\n'] + s;
      CommentEnd(c[1..], s);
    }
  }

  /** Digits are significant and pass through unchanged, in order. */
  lemma {:induction false} SignificantOfDigits(d: seq<char>, s: seq<char>)
    requires AllDigits(d)
    ensures Significant(d + s) == d + Significant(s)
    decreases |d|
  {
    if d != [] {
      assert (d + s)[0] == d[0];
      assert IsDigit(d[0] as int);
      assert (d + s)[1..] == d[1..] + s;
      assert Significant(d + s) == [d[0]] + Significant(d[1..] + s);
      assert AllDigits(d[1..]) by {
        forall i | 0 <= i < |d| - 1 ensures IsDigit(d[1..][i] as int) { assert d[1..][i] == d[i + 1]; }
      }
      SignificantOfDigits(d[1..], s);
      assert d == [d[0]] + d[1..];
    } else {
      assert d + s == s && d + Significant(s) == Significant(s);
    }
  }

  /** White space in front of the text is dropped. */
  lemma {:induction false} SignificantAfterSpace(w: seq<char>, s: seq<char>)
    requires AllSpace(w)
    ensures Significant(w + s) == Significant(s)
    decreases |w|
  {
    if w != [] {
      assert (w + s)[0] == w[0];
      assert IsSpace(w[0] as int);
      assert (w + s)[1..] == w[1..] + s;
      assert Significant(w + s) == Significant(w[1..] + s);
      assert AllSpace(w[1..]) by {
        forall i | 0 <= i < |w| - 1 ensures IsSpace(w[1..][i] as int) { assert w[1..][i] == w[i + 1]; }
      }
      SignificantAfterSpace(w[1..], s);
    } else {
      assert w + s == s;
    }
  }

  // ---------------------------------------------------------------------
  // The number getnumber reads
  // ---------------------------------------------------------------------

  predicate AllDigits(d: seq<char>)
  {
    forall i :: 0 <= i < |d| ==> IsDigit(d[i] as int)
  }

  /** The length of the run of digits that `t` starts with. */
  function DigitRun(t: seq<char>): (n: nat)
    ensures n <= |t|
    decreases |t|
  {
    if t != [] && IsDigit(t[0] as int) then 1 + DigitRun(t[1..]) else 0
  }

  /** The run is made of digits and ends at a non-digit or at the end of `t`. */
  lemma {:induction false} DigitRunIsMaximal(t: seq<char>)
    ensures AllDigits(t[..DigitRun(t)])
    ensures DigitRun(t) < |t| ==> !IsDigit(t[DigitRun(t)] as int)
    decreases |t|
  {
    if t != [] && IsDigit(t[0] as int) {
      DigitRunIsMaximal(t[1..]);
      var n := DigitRun(t);
      assert t[..n] == [t[0]] + t[1..][..n - 1];
      assert forall i :: 1 <= i < n ==> t[..n][i] == t[1..][..n - 1][i - 1];
    }
  }

  /** The base-10 value of a string of digits, the last digit being the units. */
  function Decimal(d: seq<char>): int
    decreases |d|
  {
    if d == [] then 0
    else Decimal(d[..|d| - 1]) * 10 + (d[|d| - 1] as int - '0' as int)
  }

  /** Where the digits of a number start: after its minus sign, if it has one. */
  function SignLength(t: seq<char>): nat
  {
    if t != [] && t[0] == '-' then 1 else 0
  }

  /** The number at the front of the significant characters `t`. */
  function NumberValue(t: seq<char>): int
  {
    var s := SignLength(t);
    var n := DigitRun(t[s..]);
    (if s == 1 then -1 else 1) * Decimal(t[s..][..n])
  }

  /**
   * How many significant characters reading that number takes: the sign,
   * the digits, and the first non-digit after them, which ends the number
   * and is used up with it.
   */
  function NumberLength(t: seq<char>): (k: nat)
    ensures k <= |t|
    ensures t != [] ==> k > 0
  {
    var s := SignLength(t);
    var n := DigitRun(t[s..]);
    s + n + (if s + n < |t| then 1 else 0)
  }

  /** A minus sign that no digit follows reads as 0, and the character after it is used up. */
  lemma {:induction false} MinusAloneIsZero(c: char, t: seq<char>)
    requires !IsDigit(c as int)
    ensures NumberValue(['-', c] + t) == 0 && NumberLength(['-', c] + t) == 2
  {
    var w := ['-', c] + t;
    assert w[1..][0] == c;
  }

  /** The decimal spelling of a natural number. */
  function Digits(n: nat): (d: seq<char>)
    ensures AllDigits(d) && d != []
  {
    var last := ['0', '1', '2', '3', '4', '5', '6', '7', '8', '9'][n % 10];
    if n < 10 then [last] else Digits(n / 10) + [last]
  }

  lemma {:induction false} DecimalOfDigits(n: nat)
    ensures Decimal(Digits(n)) == n
  {
    var d := Digits(n);
    assert d[..|d| - 1] == if n < 10 then [] else Digits(n / 10);
    if n >= 10 {
      DecimalOfDigits(n / 10);
    }
  }

  /**
   * Reading back a number written in decimal, with a minus sign when it is
   * negative and followed by a separator that is not a digit, gives the
   * number and uses up exactly the written characters and the separator.
   */
  lemma {:induction false} NumberRoundTrip(x: int, sep: char, rest: seq<char>)
    requires !IsDigit(sep as int) && sep != '-'
    ensures var w := (if x < 0 then ['-'] else []) + Digits(if x < 0 then -x else x);
      NumberValue(w + [sep] + rest) == x && NumberLength(w + [sep] + rest) == |w| + 1
  {
    var m: nat := if x < 0 then -x else x;
    var d := Digits(m);
    var w := (if x < 0 then ['-'] else []) + d;
    var t := w + [sep] + rest;
    var s := SignLength(t);
    assert s == |w| - |d| by {
      if x >= 0 {
        assert t[0] == d[0];
        assert IsDigit(d[0] as int);
      }
    }
    assert t[s..] == d + [sep] + rest;
    DigitRunOf(d, sep, rest);
    assert t[s..][..|d|] == d;
    DecimalOfDigits(m);
  }

  lemma {:induction false} DigitRunOf(d: seq<char>, sep: char, rest: seq<char>)
    requires AllDigits(d) && !IsDigit(sep as int)
    ensures DigitRun(d + [sep] + rest) == |d|
    decreases |d|
  {
    var t := d + [sep] + rest;
    if d == [] {
      assert t[0] == sep;
    } else {
      assert t[0] == d[0];
      assert t[1..] == d[1..] + [sep] + rest;
      DigitRunOf(d[1..], sep, rest);
    }
  }

  /** An unsigned number followed by a separator reads as its digits' value. */
  lemma {:induction false} UnsignedNumber(d: seq<char>, sep: char, rest: seq<char>)
    requires AllDigits(d) && !IsDigit(sep as int) && sep != '-'
    ensures NumberValue(d + [sep] + rest) == Decimal(d) && NumberLength(d + [sep] + rest) == |d| + 1
  {
    var t := d + [sep] + rest;
    assert SignLength(t) == 0 by {
      if d != [] { assert t[0] == d[0]; } else { assert t[0] == sep; }
    }
    assert t[0..] == t;
    DigitRunOf(d, sep, rest);
    assert t[..|d|] == d;
  }

  /** The significant characters of digits, a gap of white space and a comment, and more digits. */
  lemma {:induction false} SignificantAcrossGap(d1: seq<char>, w: seq<char>, c: seq<char>, d2: seq<char>, sep: char, rest: seq<char>)
    requires AllDigits(d1) && AllDigits(d2) && AllSpace(w) && '\n' !in c
    requires !IsSpace(sep as int) && sep != '*'
    ensures Significant(d1 + w + ['*'] + c + ['\n'] + d2 + [sep] + rest) == d1 + d2 + [sep] + Significant(rest)
  {
    var text := d1 + w + ['*'] + c + ['\n'] + d2 + [sep] + rest;
    var ss := [sep] + rest;
    var tail := d2 + ss;
    assert text == d1 + (w + (['*'] + c + ['\n'] + tail));
    SignificantOfDigits(d1, w + (['*'] + c + ['\n'] + tail));
    SignificantAfterSpace(w, ['*'] + c + ['\n'] + tail);
    SignificantSkipsComment(c, tail);
    SignificantOfDigits(d2, ss);
    assert ss[0] == sep && ss[1..] == rest;
    assert Significant(ss) == [sep] + Significant(rest);
    assert Significant(text) == d1 + (d2 + ([sep] + Significant(rest)));
  }

  lemma AllDigitsJoin(d1: seq<char>, d2: seq<char>)
    requires AllDigits(d1) && AllDigits(d2)
    ensures AllDigits(d1 + d2)
  {
    var d := d1 + d2;
    forall i | 0 <= i < |d|
      ensures IsDigit(d[i] as int)
    {
      if i < |d1| { assert d[i] == d1[i]; } else { assert d[i] == d2[i - |d1|]; }
    }
  }

  /**
   * White space and comments between digits do not end a number: the
   * digits on both sides of them make one number.
   */
  lemma {:induction false} NumberSpansGaps(d1: seq<char>, w: seq<char>, c: seq<char>, d2: seq<char>, sep: char, rest: seq<char>)
    requires AllDigits(d1) && AllDigits(d2) && AllSpace(w) && '\n' !in c
    requires !IsDigit(sep as int) && sep != '-' && !IsSpace(sep as int) && sep != '*'
    ensures var text := d1 + w + ['*'] + c + ['\n'] + d2 + [sep] + rest;
      NumberValue(Significant(text)) == Decimal(d1 + d2) &&
      Significant(text)[NumberLength(Significant(text))..] == Significant(rest)
  {
    SignificantAcrossGap(d1, w, c, d2, sep, rest);
    AllDigitsJoin(d1, d2);
    UnsignedNumber(d1 + d2, sep, Significant(rest));
    var t := d1 + d2 + [sep] + Significant(rest);
    assert t[|d1 + d2| + 1..] == Significant(rest);
  }

  /** The significant characters left after k numbers have been read from `t`. */
  function After(t: seq<char>, k: nat): seq<char>
  {
    if k == 0 then t
    else
      var a := After(t, k - 1);
      a[NumberLength(a)..]
  }

  /** The number read after k numbers have been read from `t`: number k, counting from 0. */
  function NthNumber(t: seq<char>, k: nat): int
  {
    NumberValue(After(t, k))
  }

  // ---------------------------------------------------------------------
  // Reading positions in the file
  // ---------------------------------------------------------------------

  /** The first position at or after p that does not hold white space. */
  function SpaceEnd(text: seq<char>, p: nat): (q: nat)
    requires p <= |text|
    ensures p <= q <= |text|
    ensures q < |text| ==> !IsSpace(text[q] as int)
    decreases |text| - p
  {
    if p < |text| && IsSpace(text[p] as int) then SpaceEnd(text, p + 1) else p
  }

  /** The position just after the first newline at or after p, or the end of the file when there is none. */
  function LineEnd(text: seq<char>, p: nat): (q: nat)
    requires p <= |text|
    ensures p <= q <= |text|
    decreases |text| - p
  {
    if p == |text| then p
    else if text[p] == '\n' then p + 1
    else LineEnd(text, p + 1)
  }

  /** The position of the next significant character at or after p, or the end of the file. */
  function NextSignificant(text: seq<char>, p: nat): (q: nat)
    requires p <= |text|
    ensures p <= q <= |text|
    decreases |text| - p
  {
    var q := SpaceEnd(text, p);
    if q < |text| && text[q] == '*' then NextSignificant(text, LineEnd(text, q + 1)) else q
  }

  /** Where reading one significant character from p leaves the file. */
  function NextPos(text: seq<char>, p: nat): (q: nat)
    requires p <= |text|
    ensures p < q <= |text| || q == |text|
  {
    var q := NextSignificant(text, p);
    if q < |text| then q + 1 else q
  }

  /**
   * The digit loop of getnumber from position p with `acc` accumulated:
   * the value accumulated when a significant character that is not a
   * digit (or the end) is met, and the position after that character.
   */
  function DigitsFrom(text: seq<char>, p: nat, acc: int): (r: (int, nat))
    requires p <= |text|
    ensures p <= r.1 <= |text| && (p < |text| ==> p < r.1)
    decreases |text| - p
  {
    var q := NextSignificant(text, p);
    if q < |text| && IsDigit(text[q] as int) then DigitsFrom(text, q + 1, acc * 10 + (text[q] as int - '0' as int))
    else (acc, if q < |text| then q + 1 else q)
  }

  /** getnumber from position p: the number read and the position after it. */
  function ReadNumber(text: seq<char>, p: nat): (r: (int, nat))
    requires p <= |text|
    ensures p <= r.1 <= |text| && (p < |text| ==> p < r.1)
  {
    var q := NextSignificant(text, p);
    if q < |text| && text[q] == '-' then
      var d := DigitsFrom(text, q + 1, 0);
      (-d.0, d.1)
    else DigitsFrom(text, p, 0)
  }

  /** The position after k numbers have been read from p. */
  function PosAfter(text: seq<char>, p: nat, k: nat): (q: nat)
    requires p <= |text|
    ensures p <= q <= |text|
    decreases k
  {
    if k == 0 then p else PosAfter(text, ReadNumber(text, p).1, k - 1)
  }

  /** Number k read from p, counting from 0. */
  function NthValue(text: seq<char>, p: nat, k: nat): int
    requires p <= |text|
  {
    ReadNumber(text, PosAfter(text, p, k)).0
  }

  /** The significant characters from position p on, walked position by position. */
  function SigFrom(text: seq<char>, p: nat): seq<char>
    requires p <= |text|
    decreases |text| - p
  {
    if p == |text| then []
    else if IsSpace(text[p] as int) then SigFrom(text, p + 1)
    else if text[p] == '*' then SigFrom(text, LineEnd(text, p + 1))
    else [text[p]] + SigFrom(text, p + 1)
  }

  lemma {:induction false} LineEndIsAfterLine(text: seq<char>, p: nat)
    requires p <= |text|
    ensures AfterLine(text[p..]) == text[LineEnd(text, p)..]
    decreases |text| - p
  {
    if p < |text| {
      assert text[p..][0] == text[p] && text[p..][1..] == text[p + 1..];
      if text[p] != '\n' {
        LineEndIsAfterLine(text, p + 1);
      }
    }
  }

  /** Walking the positions gives the significant characters of the rest of the file. */
  lemma {:induction false} SigFromIsSignificant(text: seq<char>, p: nat)
    requires p <= |text|
    ensures SigFrom(text, p) == Significant(text[p..])
    decreases |text| - p
  {
    if p < |text| {
      assert text[p..][0] == text[p] && text[p..][1..] == text[p + 1..];
      if IsSpace(text[p] as int) {
        SigFromIsSignificant(text, p + 1);
      } else if text[p] == '*' {
        LineEndIsAfterLine(text, p + 1);
        SigFromIsSignificant(text, LineEnd(text, p + 1));
      } else {
        SigFromIsSignificant(text, p + 1);
      }
    }
  }

  lemma {:induction false} SpaceEndSkipsSpace(text: seq<char>, p: nat)
    requires p <= |text|
    ensures SigFrom(text, p) == SigFrom(text, SpaceEnd(text, p))
    decreases |text| - p
  {
    if p < |text| && IsSpace(text[p] as int) {
      SpaceEndSkipsSpace(text, p + 1);
    }
  }

  lemma {:induction false} AllSpaceEnd(text: seq<char>, p: nat)
    requires p <= |text| && AllSpace(text[p..])
    ensures SpaceEnd(text, p) == |text|
    decreases |text| - p
  {
    if p < |text| {
      assert text[p..][0] == text[p];
      var rest := text[p + 1..];
      assert AllSpace(rest) by {
        forall i | 0 <= i < |rest| ensures IsSpace(rest[i] as int) {
          assert rest[i] == text[p..][i + 1];
        }
      }
      AllSpaceEnd(text, p + 1);
    }
  }

  /** The character at NextSignificant is the first significant character, and the rest follow it. */
  lemma {:induction false} SignificantAt(text: seq<char>, p: nat)
    requires p <= |text|
    ensures var q := NextSignificant(text, p);
      SigFrom(text, p) == if q < |text| then [text[q]] + SigFrom(text, q + 1) else []
    decreases |text| - p
  {
    var q := SpaceEnd(text, p);
    SpaceEndSkipsSpace(text, p);
    if q < |text| && text[q] == '*' {
      SignificantAt(text, LineEnd(text, q + 1));
    }
  }

  /** One more digit in front of the rest: the run, the value read and what is left, a step further. */
  lemma DigitStep(d: seq<char>, c: char, u: seq<char>)
    requires AllDigits(d) && IsDigit(c as int)
    ensures var t, n := [c] + u, DigitRun(u);
      AllDigits(d + [c]) && Decimal(d + [c]) == Decimal(d) * 10 + (c as int - '0' as int) &&
      DigitRun(t) == 1 + n && d + [c] + u[..n] == d + t[..n + 1] &&
      t[if n + 1 < |t| then n + 2 else n + 1..] == u[if n < |u| then n + 1 else n..]
  {
    AllDigitsJoin(d, [c]);
    DecimalSnoc(d, c);
    DigitRunCons(c, u);
    var n := DigitRun(u);
    assert d + [c] + u[..n] == d + ([c] + u[..n]);
  }

  lemma DecimalSnoc(d: seq<char>, c: char)
    ensures Decimal(d + [c]) == Decimal(d) * 10 + (c as int - '0' as int)
  {
    assert (d + [c])[..|d + [c]| - 1] == d;
  }

  lemma DigitRunCons(c: char, u: seq<char>)
    requires IsDigit(c as int)
    ensures var t, n := [c] + u, DigitRun(u);
      DigitRun(t) == 1 + n && [c] + u[..n] == t[..n + 1] &&
      t[if n + 1 < |t| then n + 2 else n + 1..] == u[if n < |u| then n + 1 else n..]
  {
    var t := [c] + u;
    assert t[0] == c && t[1..] == u;
  }

  /** The digit loop reads the run of digits at the front of the significant characters. */
  lemma {:induction false} DigitsFromMeaning(text: seq<char>, p: nat, d: seq<char>)
    requires p <= |text| && AllDigits(d)
    ensures var t, r := SigFrom(text, p), DigitsFrom(text, p, Decimal(d));
      var n := DigitRun(t);
      r.0 == Decimal(d + t[..n]) && SigFrom(text, r.1) == t[if n < |t| then n + 1 else n..]
    decreases |text| - p
  {
    var t := SigFrom(text, p);
    var q := NextSignificant(text, p);
    SignificantAt(text, p);
    if q < |text| && IsDigit(text[q] as int) {
      var c := text[q];
      var u := SigFrom(text, q + 1);
      assert t == [c] + u;
      DecimalSnoc(d, c);
      assert DigitsFrom(text, p, Decimal(d)) == DigitsFrom(text, q + 1, Decimal(d + [c]));
      DigitStep(d, c, u);
      DigitsFromMeaning(text, q + 1, d + [c]);
    } else {
      assert DigitsFrom(text, p, Decimal(d)) == (Decimal(d), if q < |text| then q + 1 else q);
      assert DigitRun(t) == 0;
      assert d + t[..0] == d;
      if q < |text| {
        assert t[1..] == SigFrom(text, q + 1);
      } else {
        assert t == [];
      }
    }
  }

  /** A number with a minus sign: the negated value of the digits after the sign. */
  lemma NegativeNumber(u: seq<char>)
    ensures var t, n := ['-'] + u, DigitRun(u);
      NumberValue(t) == -Decimal(u[..n]) && t[NumberLength(t)..] == u[if n < |u| then n + 1 else n..]
  {
    var t := ['-'] + u;
    assert t[0] == '-';
    assert SignLength(t) == 1;
    assert t[1..] == u;
    var n := DigitRun(u);
    assert NumberValue(t) == -1 * Decimal(u[..n]);
    assert NumberLength(t) == 1 + n + (if n < |u| then 1 else 0);
  }

  /** A number without a minus sign: the value of its digits. */
  lemma NonNegativeNumber(t: seq<char>)
    requires t == [] || t[0] != '-'
    ensures var n := DigitRun(t);
      NumberValue(t) == Decimal(t[..n]) && t[NumberLength(t)..] == t[if n < |t| then n + 1 else n..]
  {
    assert SignLength(t) == 0;
    assert t[0..] == t;
    var n := DigitRun(t);
    assert NumberValue(t) == 1 * Decimal(t[..n]);
    assert NumberLength(t) == n + (if n < |t| then 1 else 0);
  }

  /** The digit loop started afresh reads the value of the run of digits. */
  lemma DigitsFromZero(text: seq<char>, p: nat)
    requires p <= |text|
    ensures var t, r := SigFrom(text, p), DigitsFrom(text, p, 0);
      var n := DigitRun(t);
      r.0 == Decimal(t[..n]) && SigFrom(text, r.1) == t[if n < |t| then n + 1 else n..]
  {
    assert Decimal([]) == 0;
    DigitsFromMeaning(text, p, []);
    var t := SigFrom(text, p);
    assert [] + t[..DigitRun(t)] == t[..DigitRun(t)];
  }

  /** getnumber at position p reads the number at the front of the significant characters from p. */
  lemma {:induction false} ReadNumberMeaning(text: seq<char>, p: nat)
    requires p <= |text|
    ensures var t, r := SigFrom(text, p), ReadNumber(text, p);
      r.0 == NumberValue(t) && SigFrom(text, r.1) == t[NumberLength(t)..]
  {
    var t, q := SigFrom(text, p), NextSignificant(text, p);
    SignificantAt(text, p);
    if q < |text| && text[q] == '-' {
      var u := SigFrom(text, q + 1);
      assert t == ['-'] + u;
      var d := DigitsFrom(text, q + 1, 0);
      assert ReadNumber(text, p) == (-d.0, d.1);
      DigitsFromZero(text, q + 1);
      NegativeNumber(u);
    } else {
      assert ReadNumber(text, p) == DigitsFrom(text, p, 0);
      assert t == [] || t[0] != '-';
      DigitsFromZero(text, p);
      NonNegativeNumber(t);
    }
  }

  lemma AfterLast(t: seq<char>, c: nat)
    ensures After(t, c + 1) == After(t, c)[NumberLength(After(t, c))..]
  {
    var k: nat := c + 1;
    assert k - 1 == c;
  }

  /** Number k read from position p is number k of the significant characters from p. */
  lemma {:induction false} NthValueFrom(text: seq<char>, p: nat, k: nat)
    requires p <= |text|
    ensures NthValue(text, p, k) == NthNumber(SigFrom(text, p), k)
    ensures SigFrom(text, PosAfter(text, p, k)) == After(SigFrom(text, p), k)
  {
    var t := SigFrom(text, p);
    var a := PosAfter(text, p, k);
    if k > 0 {
      var c: nat := k - 1;
      var b := PosAfter(text, p, c);
      NthValueFrom(text, p, c);
      ReadNumberMeaning(text, b);
      PosAfterLast(text, p, c);
      assert a == ReadNumber(text, b).1;
      AfterLast(t, c);
      assert SigFrom(text, a) == After(t, k);
    }
    ReadNumberMeaning(text, a);
    assert NthValue(text, p, k) == ReadNumber(text, a).0;
  }

  /**
   * The numbers the loader reads are the numbers of the significant
   * characters: number k read from the start of the file is number k of
   * the file without its white space and comments.
   */
  lemma NthValueMeaning(text: seq<char>, k: nat)
    ensures NthValue(text, 0, k) == NthNumber(Significant(text), k)
  {
    NthValueFrom(text, 0, k);
    SigFromIsSignificant(text, 0);
    assert text[0..] == text;
  }

  /** Reading a numbers and then b more is reading a + b numbers. */
  lemma {:induction false} PosAfterAdd(text: seq<char>, p: nat, a: nat, b: nat)
    requires p <= |text|
    ensures PosAfter(text, PosAfter(text, p, a), b) == PosAfter(text, p, a + b)
    decreases a
  {
    if a > 0 {
      var c: nat := a - 1;
      var m: nat := c + b;
      PosAfterAdd(text, ReadNumber(text, p).1, c, b);
      assert m + 1 == a + b;
    }
  }

  /** Number k + 1 is read where number k ends. */
  lemma PosAfterLast(text: seq<char>, p: nat, k: nat)
    requires p <= |text|
    ensures PosAfter(text, p, k + 1) == ReadNumber(text, PosAfter(text, p, k)).1
  {
    PosAfterAdd(text, p, k, 1);
  }

  /** The numbers of the file from p on, read one after another until the input is used up. */
  function Tokens(text: seq<char>, p: nat): seq<int>
    requires p <= |text|
    decreases |text| - p
  {
    if p == |text| then []
    else
      var r := ReadNumber(text, p);
      [r.0] + Tokens(text, r.1)
  }

  /** Number k of `ts`; once the input is used up getnumber reads 0. */
  function Num(ts: seq<int>, k: nat): int
  {
    if k < |ts| then ts[k] else 0
  }

  /** At the end of the input every number read is 0 and nothing moves. */
  lemma {:induction false} PosAfterAtEnd(text: seq<char>, k: nat)
    ensures PosAfter(text, |text|, k) == |text| && NthValue(text, |text|, k) == 0
  {
    if k > 0 {
      PosAfterAtEnd(text, k - 1);
    }
  }

  /** Number k read from p is number k of the numbers from p. */
  lemma {:induction false} NthValueIsToken(text: seq<char>, p: nat, k: nat)
    requires p <= |text|
    ensures NthValue(text, p, k) == Num(Tokens(text, p), k)
    decreases |text| - p
  {
    if p == |text| {
      PosAfterAtEnd(text, k);
    } else if k > 0 {
      var r := ReadNumber(text, p);
      var c: nat := k - 1;
      NthValueIsToken(text, r.1, c);
      assert PosAfter(text, p, k) == PosAfter(text, r.1, c);
    }
  }

  /**
   * The numbers loadpoly reads from a file are the numbers of its
   * significant characters, in order, and 0 once they are used up.
   */
  lemma NumbersOfFile(text: seq<char>, k: nat)
    ensures Num(Tokens(text, 0), k) == NthNumber(Significant(text), k)
  {
    NthValueIsToken(text, 0, k);
    NthValueMeaning(text, k);
  }

  // ---------------------------------------------------------------------
  // The stream
  // ---------------------------------------------------------------------

  /** An open text file: its contents, the read position and the end-of-file indicator. */
  class Reader {
    const text: seq<char>
    var pos: nat
    var eof: bool
    /** The numbers of the file, and how many of them have been read. */
    ghost const tokens: seq<int>
    ghost var count: nat

    /** The indicator is set only once every character has been read. */
    ghost predicate Valid()
      reads this
    {
      pos <= |text| && (eof ==> pos == |text|)
    }

    /** The read position is just after the numbers read so far. */
    ghost predicate AtNumber()
      reads this
    {
      Valid() && tokens == Tokens(text, 0) && pos == PosAfter(text, 0, count)
    }

    constructor (text: seq<char>)
      ensures this.text == text && pos == 0 && !eof && Valid()
      ensures count == 0 && AtNumber()
    {
      this.text := text;
      pos := 0;
      eof := false;
      tokens := Tokens(text, 0);
      count := 0;
    }

    /** fgetc: the next character's code, or EOF, setting the indicator, when there is none left. */
    method Getc() returns (ch: int)
      requires Valid()
      modifies this
      ensures Valid()
      ensures old(pos) < |text| ==> ch == text[old(pos)] as int && pos == old(pos) + 1 && !eof
      ensures old(pos) == |text| ==> ch == EOF && pos == old(pos) && eof
    {
      if pos < |text| {
        ch := text[pos] as int;
        pos := pos + 1;
      } else {
        ch := EOF;
        eof := true;
      }
    }

    /** The white-space loop of nextchar: reads up to and including the first character that is not white space. */
    method SkipSpace() returns (ch: int)
      requires Valid()
      modifies this
      ensures Valid()
      ensures var q := SpaceEnd(text, old(pos));
        (q < |text| ==> ch == text[q] as int && pos == q + 1 && !eof) &&
        (q == |text| ==> ch == EOF && pos == |text| && eof)
    {
      ghost var start := pos;
      ch := Getc();
      while IsSpace(ch)
        invariant Valid() && start <= pos
        invariant ch != EOF ==> start < pos && !eof && ch == text[pos - 1] as int && SpaceEnd(text, start) == SpaceEnd(text, pos - 1)
        invariant ch == EOF ==> eof && pos == |text| && SpaceEnd(text, start) == |text|
        decreases |text| - pos, if eof then 0 else 1
      {
        ch := Getc();
      }
    }

    /** The comment loop of nextchar: reads up to and including the next newline, stopping at the end of the input. */
    method SkipComment() returns (ch: int)
      requires Valid()
      modifies this
      ensures Valid() && pos == LineEnd(text, old(pos))
      ensures ch == EOF || (ch == '\n' as int && !eof)
      ensures ch == EOF ==> eof && pos == |text|
    {
      ghost var start := pos;
      ch := Getc();
      while ch != '\n' as int && ch != EOF
        invariant Valid() && start <= pos
        invariant ch != EOF ==> start < pos && !eof && ch == text[pos - 1] as int && LineEnd(text, start) == LineEnd(text, pos - 1)
        invariant ch == EOF ==> eof && pos == |text| && LineEnd(text, start) == |text|
        decreases |text| - pos, if eof then 0 else 1
      {
        ch := Getc();
      }
    }

    /**
     * nextchar: skips white space and comments and delivers the next
     * significant character. At the end of the input it delivers EOF when
     * the call itself reaches the end through white space, and 0 when the
     * indicator was already set or the input ends inside a comment.
     */
    method NextChar() returns (ch: int)
      requires Valid()
      modifies this
      ensures Valid() && pos == NextPos(text, old(pos))
      ensures var q := NextSignificant(text, old(pos));
        (q < |text| ==> ch == text[q] as int && !eof) &&
        (q == |text| ==> (ch == EOF || ch == 0) && eof)
      ensures old(eof) ==> ch == 0
      ensures !old(eof) && AllSpace(text[old(pos)..]) ==> ch == EOF
    {
      ghost var target := NextSignificant(text, pos);
      ghost var blank := !eof && AllSpace(text[pos..]);
      ghost var start := pos;
      if blank {
        AllSpaceEnd(text, pos);
      }
      while !eof
        invariant Valid() && NextSignificant(text, pos) == target
        invariant blank ==> pos == start && !eof
        decreases |text| - pos, if eof then 0 else 1
      {
        ch := SkipSpace();
        if ch == '*' as int {
          ch := SkipComment();
        } else {
          return;
        }
      }
      ch := 0;
    }

    /**
     * The digit loop of getnumber, `first` being the character just
     * delivered: adds up digits while significant characters are digits
     * and uses up the character that ends them.
     */
    method ScanDigits(first: int) returns (num: int)
      requires Valid()
      modifies this
      ensures Valid()
      ensures IsDigit(first) ==> (num, pos) == DigitsFrom(text, old(pos), first - '0' as int)
      ensures !IsDigit(first) ==> num == 0 && pos == old(pos)
    {
      var ch := first;
      num := 0;
      ghost var result := if IsDigit(first) then DigitsFrom(text, pos, first - '0' as int) else (0, pos);
      while IsDigit(ch)
        invariant Valid()
        invariant result == if IsDigit(ch) then DigitsFrom(text, pos, num * 10 + (ch - '0' as int)) else (num, pos)
        decreases |text| - pos, if eof then 0 else 1, if IsDigit(ch) then 1 else 0
      {
        num := num * 10 + ch - '0' as int;
        ch := NextChar();
      }
    }

    /**
     * getnumber: an optional minus sign, then decimal digits up to the first
     * significant character that is not a digit, which is used up too.
     */
    method GetNumber() returns (num: int)
      requires Valid()
      modifies this
      ensures Valid() && (num, pos) == ReadNumber(text, old(pos))
    {
      var sign := 1;
      num := 0;
      var ch := NextChar();
      if ch == '-' as int {
        sign := -1;
        ch := NextChar();
      }
      num := ScanDigits(ch);
      num := num * sign;
    }

    /** getnumber seen from the numbers of the file: it delivers the next of them. */
    method Next() returns (num: int)
      requires AtNumber()
      modifies this
      ensures AtNumber() && count == old(count) + 1 && num == Num(tokens, old(count))
    {
      NthValueIsToken(text, 0, count);
      ghost var start := pos;
      ghost var next: nat := count + 1;
      PosAfterLast(text, 0, count);
      assert PosAfter(text, 0, next) == ReadNumber(text, start).1;
      assert NthValue(text, 0, count) == ReadNumber(text, start).0;
      num := GetNumber();
      count := next;
    }
  }

  // ---------------------------------------------------------------------
  // The layout of a world file, number by number
  // ---------------------------------------------------------------------

  /** Why a world cannot be loaded: a negative count, or a corner that names no vertex of its object. */
  datatype LoadError = NegativeCount | VertexOutOfRange

  /** A vertex as loadpoly leaves it: local coordinates as read, the dummy coordinates lt and wt 1, the rest 0. */
  function LoadedVertex(lx: int, ly: int, lz: int): Vertex
  {
    Vertex(lx, ly, lz, 1, 0, 0, 0, 1, 0, 0, 0, 0, 0, 0, 0)
  }

  /** The vertex whose local x, y and z are numbers k, k + 1 and k + 2. */
  function VertexAt(ts: seq<int>, k: nat): Vertex
  {
    LoadedVertex(Num(ts, k), Num(ts, k + 1), Num(ts, k + 2))
  }

  /** n vertices from number k on, three numbers each. */
  function VerticesFrom(ts: seq<int>, k: nat, n: nat): (vs: seq<Vertex>)
    ensures |vs| == n
  {
    if n == 0 then [] else VerticesFrom(ts, k, n - 1) + [VertexAt(ts, k + 3 * (n - 1))]
  }

  /** n corner indices from number k on, each naming one of `count` vertices. */
  function CornersFrom(ts: seq<int>, k: nat, n: nat, count: int): (r: Result<seq<nat>, LoadError>)
    ensures r.Success? ==> |r.value| == n
  {
    if n == 0 then Success([])
    else
      match CornersFrom(ts, k, n - 1, count)
      case Failure(e) => Failure(e)
      case Success(cs) =>
        var c := Num(ts, k + n - 1);
        if 0 <= c < count then Success(cs + [c]) else Failure(VertexOutOfRange)
  }

  /**
   * A polygon of object `owner`, which has `count` vertices, from number k
   * on: its number of corners, the corners, its color; and the number
   * after it. It may be clipped into four more vertices than it has, and
   * its sort flag starts at 0; the fields loadpoly does not set are 0.
   */
  function PolygonAt(ts: seq<int>, k: nat, owner: nat, count: int): (r: Result<(Polygon, nat), LoadError>)
    ensures r.Success? ==> k < r.value.1
  {
    var nv := Num(ts, k);
    if nv < 0 then Failure(NegativeCount)
    else
      match CornersFrom(ts, k + 1, nv, count)
      case Failure(e) => Failure(e)
      case Success(cs) =>
        Success((Polygon(owner, cs, nv + 4, Num(ts, k + 1 + nv), 0, 0, 0, 0, 0, 0, 0.0, 0), k + 2 + nv))
  }

  /** n polygons of object `owner` from number k on; the number after them. */
  function PolygonsFrom(ts: seq<int>, k: nat, n: nat, owner: nat, count: int): (r: Result<(seq<Polygon>, nat), LoadError>)
    ensures r.Success? ==> |r.value.0| == n && k <= r.value.1
  {
    if n == 0 then Success(([], k))
    else
      match PolygonsFrom(ts, k, n - 1, owner, count)
      case Failure(e) => Failure(e)
      case Success(a) =>
        match PolygonAt(ts, a.1, owner, count)
        case Failure(e) => Failure(e)
        case Success(q) => Success((a.0 + [q.0], q.1))
  }

  /** Where an object is, how it is turned, and its scale, which loadpoly uses on all three axes. */
  datatype Placement = Placement(x: int, y: int, z: int, xangle: int, yangle: int, zangle: int, scale: int)

  /** The placement in numbers k to k + 6: x, y, z, the three angles, the scale. */
  function PlacementAt(ts: seq<int>, k: nat): Placement
  {
    Placement(Num(ts, k), Num(ts, k + 1), Num(ts, k + 2), Num(ts, k + 3), Num(ts, k + 4), Num(ts, k + 5), Num(ts, k + 6))
  }

  /** An object as the file describes it. */
  datatype ObjectRecord = ObjectRecord(placement: Placement, vertices: seq<Vertex>, polygons: seq<Polygon>, convex: int)

  /**
   * Object number `owner` from number k on: x, y, z, the three angles,
   * the scale, the vertex count and the vertices, the polygon count and
   * the polygons, the convexity flag; and the number after it.
   */
  function ObjectAt(ts: seq<int>, k: nat, owner: nat): (r: Result<(ObjectRecord, nat), LoadError>)
    ensures r.Success? ==> k < r.value.1
  {
    var h := PlacementAt(ts, k);
    var nv := Num(ts, k + 7);
    if nv < 0 then Failure(NegativeCount)
    else
      var kp := k + 8 + 3 * nv;
      var np := Num(ts, kp);
      if np < 0 then Failure(NegativeCount)
      else
        match PolygonsFrom(ts, kp + 1, np, owner, nv)
        case Failure(e) => Failure(e)
        case Success(ps) => Success((ObjectRecord(h, VerticesFrom(ts, k + 8, nv), ps.0, Num(ts, ps.1)), ps.1 + 1))
  }

  /** n objects from number k on, numbered from 0; the number after them. */
  function ObjectsFrom(ts: seq<int>, k: nat, n: nat): (r: Result<(seq<ObjectRecord>, nat), LoadError>)
    ensures r.Success? ==> |r.value.0| == n && k <= r.value.1
  {
    if n == 0 then Success(([], k))
    else
      match ObjectsFrom(ts, k, n - 1)
      case Failure(e) => Failure(e)
      case Success(a) =>
        match ObjectAt(ts, a.1, n - 1)
        case Failure(e) => Failure(e)
        case Success(o) => Success((a.0 + [o.0], o.1))
  }

  /** The world the numbers describe: the number of objects, then the objects. */
  function WorldAt(ts: seq<int>): Result<seq<ObjectRecord>, LoadError>
  {
    var n := Num(ts, 0);
    if n < 0 then Failure(NegativeCount)
    else
      match ObjectsFrom(ts, 1, n)
      case Failure(e) => Failure(e)
      case Success(a) => Success(a.0)
  }

  /** The number of polygons of all the objects. */
  function PolygonTotal(objs: seq<ObjectRecord>): nat
  {
    if objs == [] then 0 else PolygonTotal(objs[..|objs| - 1]) + |objs[|objs| - 1].polygons|
  }

  // ---------------------------------------------------------------------
  // What the layout means
  // ---------------------------------------------------------------------

  /** Vertex j of the n vertices from number k has numbers k + 3j, k + 3j + 1 and k + 3j + 2 for its local coordinates. */
  lemma {:induction false} VerticesFromMeaning(ts: seq<int>, k: nat, n: nat)
    ensures forall j :: 0 <= j < n ==> VerticesFrom(ts, k, n)[j] == VertexAt(ts, k + 3 * j)
  {
    if n > 0 {
      var m: nat := n - 1;
      VerticesFromMeaning(ts, k, m);
      var a := VerticesFrom(ts, k, m);
      var last := VertexAt(ts, k + 3 * m);
      assert VerticesFrom(ts, k, n) == a + [last];
      forall j | 0 <= j < n
        ensures VerticesFrom(ts, k, n)[j] == VertexAt(ts, k + 3 * j)
      {
        if j < m {
          assert (a + [last])[j] == a[j];
        } else {
          assert (a + [last])[j] == last;
        }
      }
    }
  }

  /** Every vertex loaded has 1 for its dummy coordinates lt and wt. */
  lemma VerticesHaveUnitDummies(ts: seq<int>, k: nat, n: nat)
    ensures forall j :: 0 <= j < n ==> VerticesFrom(ts, k, n)[j].lt == 1 && VerticesFrom(ts, k, n)[j].wt == 1
  {
    VerticesFromMeaning(ts, k, n);
  }

  /** Numbers k up to k + n name vertices of an object with `count` vertices. */
  predicate InRange(ts: seq<int>, k: nat, n: int, count: int)
  {
    forall i :: k <= i < k + n ==> 0 <= Num(ts, i) < count
  }

  /**
   * The corners load exactly when each of the n numbers names one of the
   * `count` vertices, and then corner j is number k + j.
   */
  lemma {:induction false} CornersFromMeaning(ts: seq<int>, k: nat, n: nat, count: int)
    ensures CornersFrom(ts, k, n, count).Success? <==> InRange(ts, k, n, count)
    ensures CornersFrom(ts, k, n, count).Success? ==> forall j :: 0 <= j < n ==> CornersFrom(ts, k, n, count).value[j] == Num(ts, k + j)
  {
    if n > 0 {
      var m: nat := n - 1;
      var e: nat := k + m;
      CornersFromMeaning(ts, k, m, count);
      var c := Num(ts, e);
      assert k + n - 1 == e;
      assert InRange(ts, k, n, count) <==> InRange(ts, k, m, count) && 0 <= c < count;
      var r := CornersFrom(ts, k, n, count);
      if r.Success? {
        var a := CornersFrom(ts, k, m, count).value;
        assert r.value == a + [c];
        forall j | 0 <= j < n
          ensures r.value[j] == Num(ts, k + j)
        {
          if j < m {
            assert (a + [c])[j] == a[j];
          } else {
            assert (a + [c])[j] == c;
          }
        }
      }
    }
  }

  /**
   * What loadpoly makes of a polygon of object `owner` with `count`
   * vertices: it belongs to that object, its corners name vertices of it,
   * it may be clipped into four more vertices than it has, and it is not
   * yet sorted.
   */
  predicate WellFormed(q: Polygon, owner: nat, count: int)
  {
    q.owner == owner && q.IndicesBelow(count) &&
    q.numberOfClippedVertices == q.NumberOfVertices() + 4 && q.sortflag == 0
  }

  /**
   * A polygon from number k loads exactly when its count nv is not
   * negative and the nv numbers after it name vertices of its object; then
   * it has those corners and the color after them, it is well formed, and
   * the next polygon starts nv + 2 numbers on.
   */
  lemma PolygonAtMeaning(ts: seq<int>, k: nat, owner: nat, count: int)
    ensures var nv := Num(ts, k);
      PolygonAt(ts, k, owner, count).Success? <==> nv >= 0 && InRange(ts, k + 1, nv, count)
    ensures var r, nv := PolygonAt(ts, k, owner, count), Num(ts, k);
      r.Success? ==>
        WellFormed(r.value.0, owner, count) && r.value.0.NumberOfVertices() == nv &&
        (forall j :: 0 <= j < nv ==> r.value.0.vertex[j] == Num(ts, k + 1 + j)) &&
        r.value.0.color == Num(ts, k + 1 + nv) && r.value.1 == k + 2 + nv
  {
    var nv := Num(ts, k);
    if nv >= 0 {
      CornersFromMeaning(ts, k + 1, nv, count);
      var r := PolygonAt(ts, k, owner, count);
      if r.Success? {
        var q := r.value.0;
        assert q.vertex == CornersFrom(ts, k + 1, nv, count).value;
        forall j | 0 <= j < |q.vertex|
          ensures q.vertex[j] < count
        {
          assert q.vertex[j] == Num(ts, k + 1 + j);
        }
      }
    }
  }

  /** Every polygon of the n loaded from number k is well formed. */
  lemma {:induction false} PolygonsFromWellFormed(ts: seq<int>, k: nat, n: nat, owner: nat, count: int)
    requires PolygonsFrom(ts, k, n, owner, count).Success?
    ensures forall i :: 0 <= i < n ==> WellFormed(PolygonsFrom(ts, k, n, owner, count).value.0[i], owner, count)
  {
    if n > 0 {
      var m: nat := n - 1;
      var a := PolygonsFrom(ts, k, m, owner, count).value;
      PolygonsFromWellFormed(ts, k, m, owner, count);
      PolygonAtMeaning(ts, a.1, owner, count);
      var last := PolygonAt(ts, a.1, owner, count).value.0;
      assert PolygonsFrom(ts, k, n, owner, count).value.0 == a.0 + [last];
      forall i | 0 <= i < n
        ensures WellFormed((a.0 + [last])[i], owner, count)
      {
        if i < m {
          assert (a.0 + [last])[i] == a.0[i];
        } else {
          assert (a.0 + [last])[i] == last;
        }
      }
    }
  }

  /**
   * An object record the loader accepts: its vertices have unit dummy
   * coordinates, and its polygons belong to it and name only its vertices.
   */
  predicate Loaded(rec: ObjectRecord, owner: nat)
  {
    (forall j :: 0 <= j < |rec.vertices| ==> rec.vertices[j].lt == 1 && rec.vertices[j].wt == 1) &&
    (forall i :: 0 <= i < |rec.polygons| ==> WellFormed(rec.polygons[i], owner, |rec.vertices|))
  }

  /**
   * An object loads well formed, with as many vertices as number k + 7
   * says and as many polygons as the number after the vertices says.
   */
  lemma ObjectAtLoaded(ts: seq<int>, k: nat, owner: nat)
    requires ObjectAt(ts, k, owner).Success?
    ensures var rec, nv := ObjectAt(ts, k, owner).value.0, Num(ts, k + 7);
      Loaded(rec, owner) && |rec.vertices| == nv && |rec.polygons| == Num(ts, k + 8 + 3 * nv) &&
      rec.placement.scale == Num(ts, k + 6)
  {
    var nv := Num(ts, k + 7);
    var kp := k + 8 + 3 * nv;
    VerticesHaveUnitDummies(ts, k + 8, nv);
    PolygonsFromWellFormed(ts, kp + 1, Num(ts, kp), owner, nv);
  }

  lemma LoadedSnoc(objs: seq<ObjectRecord>, last: ObjectRecord)
    requires forall i :: 0 <= i < |objs| ==> Loaded(objs[i], i)
    requires Loaded(last, |objs|)
    ensures forall i :: 0 <= i < |objs| + 1 ==> Loaded((objs + [last])[i], i)
  {
    forall i | 0 <= i < |objs| + 1
      ensures Loaded((objs + [last])[i], i)
    {
      if i < |objs| {
        assert (objs + [last])[i] == objs[i];
      } else {
        assert (objs + [last])[i] == last;
      }
    }
  }

  /** Every object of those loaded is well formed, object i owning the polygons of record i. */
  lemma {:induction false} ObjectsFromLoaded(ts: seq<int>, k: nat, n: nat)
    requires ObjectsFrom(ts, k, n).Success?
    ensures forall i :: 0 <= i < n ==> Loaded(ObjectsFrom(ts, k, n).value.0[i], i)
  {
    if n > 0 {
      var m: nat := n - 1;
      var a := ObjectsFrom(ts, k, m).value;
      ObjectsFromLoaded(ts, k, m);
      ObjectAtLoaded(ts, a.1, m);
      var last := ObjectAt(ts, a.1, m).value.0;
      LoadedSnoc(a.0, last);
      assert ObjectsFrom(ts, k, n).value.0 == a.0 + [last];
    }
  }

  /** A world that loads has as many objects as its first number says, each of them well formed. */
  lemma WorldLoaded(ts: seq<int>)
    requires WorldAt(ts).Success?
    ensures var objs := WorldAt(ts).value;
      |objs| == Num(ts, 0) && forall i :: 0 <= i < |objs| ==> Loaded(objs[i], i)
  {
    ObjectsFromLoaded(ts, 1, Num(ts, 0));
  }

  /** Once corners fail to load, more corners fail too. */
  lemma {:induction false} CornersFailureStays(ts: seq<int>, k: nat, i: nat, n: nat, count: int)
    requires i <= n && CornersFrom(ts, k, i, count).Failure?
    ensures CornersFrom(ts, k, n, count) == CornersFrom(ts, k, i, count)
  {
    if i < n {
      CornersFailureStays(ts, k, i, n - 1, count);
    }
  }

  /** Once polygons fail to load, more polygons fail too. */
  lemma {:induction false} PolygonsFailureStays(ts: seq<int>, k: nat, i: nat, n: nat, owner: nat, count: int)
    requires i <= n && PolygonsFrom(ts, k, i, owner, count).Failure?
    ensures PolygonsFrom(ts, k, n, owner, count) == PolygonsFrom(ts, k, i, owner, count)
  {
    if i < n {
      PolygonsFailureStays(ts, k, i, n - 1, owner, count);
    }
  }

  /** Once objects fail to load, more objects fail too. */
  lemma {:induction false} ObjectsFailureStays(ts: seq<int>, k: nat, i: nat, n: nat)
    requires i <= n && ObjectsFrom(ts, k, i).Failure?
    ensures ObjectsFrom(ts, k, n) == ObjectsFrom(ts, k, i)
  {
    if i < n {
      ObjectsFailureStays(ts, k, i, n - 1);
    }
  }

  // ---------------------------------------------------------------------
  // loadpoly
  // ---------------------------------------------------------------------

  lemma VerticesFromSnoc(ts: seq<int>, k: nat, i: nat)
    ensures VerticesFrom(ts, k, i + 1) == VerticesFrom(ts, k, i) + [VertexAt(ts, k + 3 * i)]
  {
    var j: nat := i + 1;
    assert j - 1 == i;
  }

  lemma SnocVertex(ts: seq<int>, k: nat, i: nat, b: nat, done: seq<Vertex>, v: Vertex)
    requires done == VerticesFrom(ts, k, i) && b == k + 3 * i && v == VertexAt(ts, b)
    ensures done + [v] == VerticesFrom(ts, k, i + 1)
  {
    VerticesFromSnoc(ts, k, i);
  }

  /** One pass of the vertex loop of loadpoly: local x, y and z as read, dummy coordinates 1. */
  method ReadVertex(r: Reader) returns (v: Vertex)
    requires r.AtNumber()
    modifies r
    ensures r.AtNumber() && v == VertexAt(r.tokens, old(r.count)) && r.count == old(r.count) + 3
  {
    var lx := r.Next();
    var ly := r.Next();
    var lz := r.Next();
    v := LoadedVertex(lx, ly, lz);
  }

  /** The vertex loop of loadpoly: a new array of n vertices, three numbers each, with unit dummy coordinates. */
  method ReadVertices(r: Reader, n: nat) returns (vs: array<Vertex>)
    requires r.AtNumber()
    modifies r
    ensures r.AtNumber() && fresh(vs)
    ensures vs[..] == VerticesFrom(r.tokens, old(r.count), n) && r.count == old(r.count) + 3 * n
  {
    vs := new Vertex[n];
    ghost var k0 := r.count;
    ghost var ts := r.tokens;
    var i := 0;
    while i < n
      invariant 0 <= i <= n && r.AtNumber() && r.tokens == ts && r.count == k0 + 3 * i
      invariant vs[..i] == VerticesFrom(ts, k0, i)
    {
      ghost var done := vs[..i];
      ghost var b := r.count;
      var v := ReadVertex(r);
      vs[i] := v;
      SnocVertex(ts, k0, i, b, done, v);
      assert vs[..i + 1] == done + [v];
      i := i + 1;
    }
    assert vs[..] == vs[..n];
  }

  lemma CornerStep(ts: seq<int>, k: nat, i: nat, b: nat, done: seq<nat>, c: int, count: int)
    requires CornersFrom(ts, k, i, count) == Success(done) && b == k + i && c == Num(ts, b)
    ensures CornersFrom(ts, k, i + 1, count) == if 0 <= c < count then Success(done + [c]) else Failure(VertexOutOfRange)
  {
    var j: nat := i + 1;
    assert k + j - 1 == b;
  }

  /**
   * The corner loop of loadpoly: n vertex indices, each naming one of the
   * `count` vertices of the object, into a new array of corners.
   */
  method ReadCorners(r: Reader, n: nat, count: int) returns (res: Result<seq<nat>, LoadError>)
    requires r.AtNumber()
    modifies r
    ensures r.AtNumber()
    ensures res == CornersFrom(r.tokens, old(r.count), n, count)
    ensures res.Success? ==> r.count == old(r.count) + n
  {
    var corners := new nat[n];
    ghost var k0 := r.count;
    ghost var ts := r.tokens;
    var i := 0;
    while i < n
      invariant 0 <= i <= n && r.AtNumber() && r.tokens == ts && r.count == k0 + i
      invariant CornersFrom(ts, k0, i, count) == Success(corners[..i])
    {
      ghost var done := corners[..i];
      ghost var b := r.count;
      var c := r.Next();
      CornerStep(ts, k0, i, b, done, c, count);
      if c < 0 || c >= count {
        CornersFailureStays(ts, k0, i + 1, n, count);
        return Failure(VertexOutOfRange);
      }
      corners[i] := c;
      assert corners[..i + 1] == done + [c];
      i := i + 1;
    }
    assert corners[..] == corners[..n];
    res := Success(corners[..]);
  }

  /** One pass of the polygon loop of loadpoly, for object `owner` with `count` vertices. */
  method ReadPolygon(r: Reader, owner: nat, count: int) returns (res: Result<Polygon, LoadError>)
    requires r.AtNumber()
    modifies r
    ensures r.AtNumber()
    ensures match PolygonAt(r.tokens, old(r.count), owner, count)
      case Failure(e) => res == Failure(e)
      case Success(q) => res == Success(q.0) && r.count == q.1
  {
    ghost var k0 := r.count;
    var nv := r.Next();
    if nv < 0 {
      return Failure(NegativeCount);
    }
    var cs := ReadCorners(r, nv, count);
    if cs.Failure? {
      return Failure(cs.error);
    }
    var color := r.Next();
    res := Success(Polygon(owner, cs.value, nv + 4, color, 0, 0, 0, 0, 0, 0, 0.0, 0));
  }

  lemma PolygonSnoc(ts: seq<int>, k: nat, i: nat, owner: nat, count: int, done: seq<Polygon>, b: nat, q: Polygon, e: nat)
    requires PolygonsFrom(ts, k, i, owner, count) == Success((done, b))
    requires PolygonAt(ts, b, owner, count) == Success((q, e))
    ensures PolygonsFrom(ts, k, i + 1, owner, count) == Success((done + [q], e))
  {
    var j: nat := i + 1;
    assert j - 1 == i;
  }

  lemma PolygonFails(ts: seq<int>, k: nat, i: nat, n: nat, owner: nat, count: int, done: seq<Polygon>, b: nat)
    requires i < n
    requires PolygonsFrom(ts, k, i, owner, count) == Success((done, b))
    requires PolygonAt(ts, b, owner, count).Failure?
    ensures PolygonsFrom(ts, k, n, owner, count) == Failure(PolygonAt(ts, b, owner, count).error)
  {
    var j: nat := i + 1;
    assert j - 1 == i;
    PolygonsFailureStays(ts, k, j, n, owner, count);
  }

  /** The polygon loop of loadpoly: a new array of n polygons of object `owner`, which has `count` vertices. */
  method ReadPolygons(r: Reader, n: nat, owner: nat, count: int) returns (res: Result<array<Polygon>, LoadError>)
    requires r.AtNumber()
    modifies r
    ensures r.AtNumber()
    ensures match PolygonsFrom(r.tokens, old(r.count), n, owner, count)
      case Failure(e) => res == Failure(e)
      case Success(p) => res.Success? && fresh(res.value) && res.value[..] == p.0 && r.count == p.1
  {
    var ps := new Polygon[n];
    ghost var k0 := r.count;
    ghost var ts := r.tokens;
    var i := 0;
    while i < n
      invariant 0 <= i <= n && r.AtNumber() && r.tokens == ts
      invariant PolygonsFrom(ts, k0, i, owner, count) == Success((ps[..i], r.count))
    {
      hide PolygonsFrom;
      hide PolygonAt;
      ghost var done := ps[..i];
      ghost var b := r.count;
      var q := ReadPolygon(r, owner, count);
      if q.Failure? {
        PolygonFails(ts, k0, i, n, owner, count, done, b);
        return Failure(q.error);
      }
      PolygonSnoc(ts, k0, i, owner, count, done, b, q.value, r.count);
      ps[i] := q.value;
      assert ps[..i + 1] == done + [q.value];
      i := i + 1;
    }
    assert ps[..] == ps[..n];
    res := Success(ps);
  }

  /** The placement part of loadpoly: position, angles and scale. */
  method ReadPlacement(r: Reader) returns (h: Placement)
    requires r.AtNumber()
    modifies r
    ensures r.AtNumber() && h == PlacementAt(r.tokens, old(r.count)) && r.count == old(r.count) + 7
  {
    var x := r.Next();
    var y := r.Next();
    var z := r.Next();
    var xangle := r.Next();
    var yangle := r.Next();
    var zangle := r.Next();
    var scale := r.Next();
    h := Placement(x, y, z, xangle, yangle, zangle, scale);
  }

  /** The object `o` holds the record `rec`, with the scale on all three axes and the update flag set. */
  ghost predicate Matches(o: Object, rec: ObjectRecord)
    reads o, o.vertex, o.polygon
  {
    o.x == rec.placement.x && o.y == rec.placement.y && o.z == rec.placement.z &&
    o.xangle == rec.placement.xangle && o.yangle == rec.placement.yangle && o.zangle == rec.placement.zangle &&
    o.xscale == rec.placement.scale && o.yscale == rec.placement.scale && o.zscale == rec.placement.scale &&
    o.numberOfVertices == |rec.vertices| && o.vertex[..] == rec.vertices &&
    o.numberOfPolygons == |rec.polygons| && o.polygon[..] == rec.polygons &&
    o.convex == rec.convex && o.update == 1
  }

  /** An object that matches a loaded record keeps the invariant of its class. */
  lemma MatchesLoadedIsValid(o: Object, rec: ObjectRecord, owner: nat)
    requires Matches(o, rec) && Loaded(rec, owner)
    ensures o.Valid()
  {
    assert o.vertex.Length == |o.vertex[..]|;
    assert o.polygon.Length == |o.polygon[..]|;
    forall p | 0 <= p < o.numberOfPolygons
      ensures o.polygon[p].IndicesBelow(o.numberOfVertices)
    {
      assert o.polygon[p] == o.polygon[..][p];
    }
  }

  /** How an object record is read, piece by piece. */
  lemma ObjectAtParts(ts: seq<int>, k: nat, owner: nat, nv: int, kp: nat, np: int)
    requires nv == Num(ts, k + 7) && np == Num(ts, kp) && (nv >= 0 ==> kp == k + 8 + 3 * nv)
    ensures nv < 0 ==> ObjectAt(ts, k, owner) == Failure(NegativeCount)
    ensures nv >= 0 && np < 0 ==> ObjectAt(ts, k, owner) == Failure(NegativeCount)
    ensures nv >= 0 && np >= 0 && PolygonsFrom(ts, kp + 1, np, owner, nv).Failure? ==>
      ObjectAt(ts, k, owner) == Failure(PolygonsFrom(ts, kp + 1, np, owner, nv).error)
  {
  }

  /** The record read when every count is in order. */
  lemma ObjectAtSuccess(ts: seq<int>, k: nat, owner: nat, nv: nat, kp: nat, np: nat, ps: seq<Polygon>, e: nat)
    requires nv == Num(ts, k + 7) && kp == k + 8 + 3 * nv && np == Num(ts, kp)
    requires PolygonsFrom(ts, kp + 1, np, owner, nv) == Success((ps, e))
    ensures ObjectAt(ts, k, owner) == Success((ObjectRecord(PlacementAt(ts, k), VerticesFrom(ts, k + 8, nv), ps, Num(ts, e)), e + 1))
  {
  }

  /** The object `o`, whose arrays are `va` and `pa`, holds `rec` and keeps the invariant of its class. */
  ghost predicate Installed(o: Object, va: array<Vertex>, pa: array<Polygon>, rec: ObjectRecord)
    reads o, va, pa
  {
    o.vertex == va && o.polygon == pa && Matches(o, rec) && o.Valid()
  }

  /**
   * A new object holding a record: its placement, the scale on all three
   * axes, the vertices, the polygons, convexity, the update flag set. A
   * record as loadpoly reads it gives an object that keeps its invariant.
   */
  method NewObject(h: Placement, vs: array<Vertex>, ps: array<Polygon>, convex: int, ghost rec: ObjectRecord, ghost owner: nat)
    returns (o: Object)
    requires rec == ObjectRecord(h, vs[..], ps[..], convex) && Loaded(rec, owner)
    ensures fresh(o) && Installed(o, vs, ps, rec)
  {
    o := new Object.Filled(h.x, h.y, h.z, h.xangle, h.yangle, h.zangle, h.scale, vs, ps, convex);
    MatchesLoadedIsValid(o, rec, owner);
  }

  /**
   * One pass of the object loop of loadpoly: a new object numbered
   * `owner` with new vertex and polygon arrays, filled from the file.
   */
  method ReadObject(r: Reader, owner: nat) returns (res: Result<Object, LoadError>, ghost rec: ObjectRecord)
    requires r.AtNumber()
    modifies r
    ensures r.AtNumber()
    ensures ObjectAt(r.tokens, old(r.count), owner) == if res.Success? then Success((rec, r.count)) else Failure(res.error)
    ensures res.Success? ==>
      fresh(res.value) && fresh(res.value.vertex) && fresh(res.value.polygon) &&
      Installed(res.value, res.value.vertex, res.value.polygon, rec) == true
  {
    // The lemmas below state all this method needs of the file's grammar.
    hide ObjectAt;
    hide PolygonsFrom;
    hide VerticesFrom;
    rec := ObjectRecord(Placement(0, 0, 0, 0, 0, 0, 0), [], [], 0);
    ghost var k0 := r.count;
    ghost var ts := r.tokens;
    var h := ReadPlacement(r);
    var nv := r.Next();
    if nv < 0 {
      ObjectAtParts(ts, k0, owner, nv, 0, Num(ts, 0));
      res := Failure(NegativeCount);
      return;
    }
    ghost var kv := r.count;
    assert kv == k0 + 8;
    var vs := ReadVertices(r, nv);
    ghost var vertices := vs[..];
    assert vertices == VerticesFrom(ts, k0 + 8, nv);
    ghost var kp := r.count;
    assert kp == k0 + 8 + 3 * nv;
    var np := r.Next();
    ObjectAtParts(ts, k0, owner, nv, kp, np);
    if np < 0 {
      res := Failure(NegativeCount);
      return;
    }
    ghost var kq := r.count;
    assert kq == kp + 1;
    var ps := ReadPolygons(r, np, owner, nv);
    if ps.Failure? {
      assert PolygonsFrom(ts, kq, np, owner, nv) == Failure(ps.error);
      res := Failure(ps.error);
      return;
    }
    ghost var polygons := ps.value[..];
    ghost var e := r.count;
    assert PolygonsFrom(ts, kq, np, owner, nv) == Success((polygons, e));
    var convex := r.Next();
    assert convex == Num(ts, e);
    ObjectAtSuccess(ts, k0, owner, nv, kp, np, polygons, e);
    rec := ObjectRecord(h, vertices, polygons, convex);
    assert ObjectAt(ts, k0, owner).value.0 == rec;
    ObjectAtLoaded(ts, k0, owner);
    assert vs[..] == vertices && ps.value[..] == polygons;
    var o := NewObject(h, vs, ps.value, convex, rec, owner);
    res := Success(o);
  }

  lemma ObjectSnoc(ts: seq<int>, k: nat, i: nat, done: seq<ObjectRecord>, b: nat, rec: ObjectRecord, e: nat)
    requires ObjectsFrom(ts, k, i) == Success((done, b))
    requires ObjectAt(ts, b, i) == Success((rec, e))
    ensures ObjectsFrom(ts, k, i + 1) == Success((done + [rec], e))
    ensures PolygonTotal(done + [rec]) == PolygonTotal(done) + |rec.polygons|
  {
    var j: nat := i + 1;
    assert j - 1 == i;
    assert (done + [rec])[..|done|] == done;
  }

  lemma ObjectFails(ts: seq<int>, k: nat, i: nat, n: nat, done: seq<ObjectRecord>, b: nat)
    requires i < n
    requires ObjectsFrom(ts, k, i) == Success((done, b))
    requires ObjectAt(ts, b, i).Failure?
    ensures ObjectsFrom(ts, k, n) == Failure(ObjectAt(ts, b, i).error)
  {
    var j: nat := i + 1;
    assert j - 1 == i;
    ObjectsFailureStays(ts, k, j, n);
  }

  /** No element appears twice. */
  predicate Disjoint<T(==)>(xs: seq<T>)
  {
    forall j, l :: 0 <= j < l < |xs| ==> xs[j] != xs[l]
  }

  lemma DisjointSnoc<T>(xs: seq<T>, x: T)
    requires Disjoint(xs) && forall j :: 0 <= j < |xs| ==> xs[j] != x
    ensures Disjoint(xs + [x])
  {
    forall j, l | 0 <= j < l < |xs| + 1
      ensures (xs + [x])[j] != (xs + [x])[l]
    {
      if l < |xs| {
        assert (xs + [x])[j] == xs[j] && (xs + [x])[l] == xs[l];
      }
    }
  }

  /** Objects and their arrays, object by object, hold the records and keep the invariant of their class. */
  ghost predicate Built(objs: seq<Object>, vas: seq<array<Vertex>>, pas: seq<array<Polygon>>, recs: seq<ObjectRecord>)
    reads objs, vas, pas
    decreases |objs|
  {
    |objs| == |vas| == |pas| == |recs| &&
    (|objs| > 0 ==>
      var m := |objs| - 1;
      Built(objs[..m], vas[..m], pas[..m], recs[..m]) && Installed(objs[m], vas[m], pas[m], recs[m]))
  }

  lemma BuiltSnoc(objs: seq<Object>, vas: seq<array<Vertex>>, pas: seq<array<Polygon>>, recs: seq<ObjectRecord>,
                  o: Object, va: array<Vertex>, pa: array<Polygon>, rec: ObjectRecord)
    requires Built(objs, vas, pas, recs) == true && Installed(o, va, pa, rec) == true
    ensures Built(objs + [o], vas + [va], pas + [pa], recs + [rec])
  {
    assert (objs + [o])[..|objs|] == objs && (vas + [va])[..|objs|] == vas;
    assert (pas + [pa])[..|objs|] == pas && (recs + [rec])[..|objs|] == recs;
  }

  lemma {:induction false} BuiltAt(objs: seq<Object>, vas: seq<array<Vertex>>, pas: seq<array<Polygon>>, recs: seq<ObjectRecord>)
    requires Built(objs, vas, pas, recs)
    ensures forall j :: 0 <= j < |objs| ==> Installed(objs[j], vas[j], pas[j], recs[j])
  {
    if |objs| > 0 {
      var m := |objs| - 1;
      BuiltAt(objs[..m], vas[..m], pas[..m], recs[..m]);
      forall j | 0 <= j < |objs|
        ensures Installed(objs[j], vas[j], pas[j], recs[j])
      {
        if j < m {
          assert objs[..m][j] == objs[j] && vas[..m][j] == vas[j] && pas[..m][j] == pas[j] && recs[..m][j] == recs[j];
        }
      }
    }
  }

  /**
   * The object loop of loadpoly: n objects from the file, numbered from 0,
   * each with arrays of its own, and the number of their polygons. The
   * ghost results name each object's vertex and polygon arrays and the
   * records the objects hold.
   */
  method ReadObjects(r: Reader, n: nat)
    returns (res: Result<(seq<Object>, nat), LoadError>, ghost vas: seq<array<Vertex>>, ghost pas: seq<array<Polygon>>)
    requires r.AtNumber()
    modifies r
    ensures r.AtNumber()
    ensures match ObjectsFrom(r.tokens, old(r.count), n)
      case Failure(e) => res == Failure(e)
      case Success(a) =>
        res.Success? && |res.value.0| == |vas| == |pas| == n && res.value.1 == PolygonTotal(a.0) && r.count == a.1 &&
        (forall j :: 0 <= j < n ==> fresh(res.value.0[j]) && fresh(vas[j]) && fresh(pas[j])) &&
        Built(res.value.0, vas, pas, a.0) == true && Disjoint(res.value.0) && Disjoint(vas) && Disjoint(pas)
  {
    ghost var ts := r.tokens;
    ghost var k0 := r.count;
    var polycount := 0;
    var objs: seq<Object> := [];
    ghost var recs: seq<ObjectRecord> := [];
    vas, pas := [], [];
    var i := 0;
    while i < n
      invariant 0 <= i <= n && |objs| == |vas| == |pas| == i
      invariant r.AtNumber() && r.tokens == ts
      invariant ObjectsFrom(ts, k0, i) == Success((recs, r.count))
      invariant polycount == PolygonTotal(recs)
      invariant forall j :: 0 <= j < i ==> fresh(objs[j]) && fresh(vas[j]) && fresh(pas[j])
      invariant Built(objs, vas, pas, recs) == true
      invariant Disjoint(objs) && Disjoint(vas) && Disjoint(pas)
    {
      ghost var b := r.count;
      var o;
      ghost var rec;
      o, rec := ReadObject(r, i);
      if o.Failure? {
        ObjectFails(ts, k0, i, n, recs, b);
        return Failure(o.error), vas, pas;
      }
      ObjectSnoc(ts, k0, i, recs, b, rec, r.count);
      BuiltSnoc(objs, vas, pas, recs, o.value, o.value.vertex, o.value.polygon, rec);
      DisjointSnoc(objs, o.value);
      DisjointSnoc(vas, o.value.vertex);
      DisjointSnoc(pas, o.value.polygon);
      polycount := polycount + o.value.numberOfPolygons;
      objs := objs + [o.value];
      recs := recs + [rec];
      vas := vas + [o.value.vertex];
      pas := pas + [o.value.polygon];
      i := i + 1;
    }
    res := Success((objs, polycount));
  }

  /** How the world is read: the number of objects, then the objects. */
  lemma WorldAtParts(ts: seq<int>)
    ensures Num(ts, 0) < 0 ==> WorldAt(ts) == Failure(NegativeCount)
    ensures Num(ts, 0) >= 0 ==>
      WorldAt(ts) == match ObjectsFrom(ts, 1, Num(ts, 0))
        case Failure(e) => Failure(e)
        case Success(a) => Success(a.0)
  {
  }

  /** A world whose objects hold their records and share nothing keeps the invariant the viewer relies on. */
  lemma SeparateOf(world: World, os: seq<Object>, vas: seq<array<Vertex>>, pas: seq<array<Polygon>>, recs: seq<ObjectRecord>)
    requires world.numberOfObjects == |os| == world.obj.Length
    requires forall j :: 0 <= j < |os| ==> world.obj[j] == os[j]
    requires Built(os, vas, pas, recs) == true && Disjoint(os) && Disjoint(vas) && Disjoint(pas)
    ensures View.Separate(world)
    ensures forall j :: 0 <= j < |os| ==>
      world.obj[j].vertex == vas[j] && world.obj[j].polygon == pas[j] && Matches(world.obj[j], recs[j])
  {
    BuiltAt(os, vas, pas, recs);
  }

  /** The objects read become the objects of the world. */
  method Install(world: World, os: seq<Object>, ghost vas: seq<array<Vertex>>, ghost pas: seq<array<Polygon>>,
                 ghost recs: seq<ObjectRecord>)
    requires world.numberOfObjects == |os|
    requires Built(os, vas, pas, recs) == true && Disjoint(os) && Disjoint(vas) && Disjoint(pas)
    modifies world
    ensures world.numberOfObjects == |os| == world.obj.Length && fresh(world.obj)
    ensures forall j :: 0 <= j < |os| ==> world.obj[j] == os[j]
    ensures forall j :: 0 <= j < |os| ==>
      world.obj[j].vertex == vas[j] && world.obj[j].polygon == pas[j] && Matches(world.obj[j], recs[j])
    ensures View.Separate(world)
  {
    world.obj := new Object[|os|](j requires 0 <= j < |os| => os[j]);
    assert forall j :: 0 <= j < |os| ==> world.obj[j] == os[j];
    assert Built(os, vas, pas, recs) == true;
    SeparateOf(world, os, vas, pas, recs);
  }

  /**
   * The reading part of loadpoly: the number of objects, then the objects,
   * with the number of their polygons.
   */
  method ReadWorld(text: seq<char>)
    returns (n: int, res: Result<(seq<Object>, nat), LoadError>,
             ghost vas: seq<array<Vertex>>, ghost pas: seq<array<Polygon>>)
    ensures n == Num(Tokens(text, 0), 0)
    ensures match WorldAt(Tokens(text, 0))
      case Failure(e) => res == Failure(e)
      case Success(recs) =>
        res.Success? && |res.value.0| == |vas| == |pas| == n == |recs| && res.value.1 == PolygonTotal(recs) &&
        (forall j :: 0 <= j < n ==> fresh(res.value.0[j]) && fresh(vas[j]) && fresh(pas[j])) &&
        Built(res.value.0, vas, pas, recs) == true && Disjoint(res.value.0) && Disjoint(vas) && Disjoint(pas)
  {
    var r := new Reader(text);
    ghost var ts := r.tokens;
    n := r.Next();
    WorldAtParts(ts);
    if n < 0 {
      return n, Failure(NegativeCount), [], [];
    }
    res, vas, pas := ReadObjects(r, n);
  }

  /**
   * loadpoly: the world read from an object file, and the number of
   * polygons in it. The file is the number of objects followed by the
   * objects; a file that does not describe a world is an error.
   */
  method LoadPoly(world: World, text: seq<char>) returns (res: Result<nat, LoadError>)
    modifies world
    ensures res.Success? <==> WorldAt(Tokens(text, 0)).Success?
    ensures res.Failure? ==> res.error == WorldAt(Tokens(text, 0)).error
    ensures res.Success? ==>
      var objs := WorldAt(Tokens(text, 0)).value;
      res.value == PolygonTotal(objs) &&
      world.numberOfObjects == |objs| == world.obj.Length && fresh(world.obj) &&
      (forall i :: 0 <= i < |objs| ==>
        fresh(world.obj[i]) && fresh(world.obj[i].vertex) && fresh(world.obj[i].polygon) &&
        Matches(world.obj[i], objs[i])) &&
      View.Separate(world)
  {
    hide WorldAt;
    hide Tokens;
    var n, objs, vas, pas := ReadWorld(text);
    world.numberOfObjects := n;
    if objs.Failure? {
      return Failure(objs.error);
    }
    ghost var recs := WorldAt(Tokens(text, 0)).value;
    Install(world, objs.value.0, vas, pas, recs);
    res := Success(objs.value.1);
  }
}
