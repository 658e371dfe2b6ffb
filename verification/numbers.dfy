/** Python 2's `int(s)` on a time-series key, and `str(n)`, the form in which
    the platform writes millisecond timestamps as keys. */
module Numbers {
  import opened Outcomes

  /** The characters Python 2's str.isspace accepts: space, \t, \n, \v, \f, \r. */
  predicate IsSpace(c: char) {
    c == ' ' || ('\t' <= c <= '\r')
  }

  predicate IsDigit(c: char) {
    '0' <= c <= '9'
  }

  predicate AllDigits(s: string) {
    forall i :: 0 <= i < |s| ==> IsDigit(s[i])
  }

  predicate AllSpace(s: string) {
    forall i :: 0 <= i < |s| ==> IsSpace(s[i])
  }

  /** str.lstrip(): the suffix left after the leading whitespace. */
  function LStrip(s: string): (t: string)
    ensures |t| <= |s| && t == s[|s| - |t|..]
    ensures forall i :: 0 <= i < |s| - |t| ==> IsSpace(s[i])
    ensures |t| > 0 ==> !IsSpace(t[0])
  {
    if |s| > 0 && IsSpace(s[0]) then LStrip(s[1..]) else s
  }

  /** str.rstrip(): the prefix left before the trailing whitespace. */
  function RStrip(s: string): (t: string)
    ensures |t| <= |s| && t == s[..|t|]
    ensures forall i :: |t| <= i < |s| ==> IsSpace(s[i])
    ensures |t| > 0 ==> !IsSpace(t[|t| - 1])
  {
    if |s| > 0 && IsSpace(s[|s| - 1]) then RStrip(s[..|s| - 1]) else s
  }

  /** The value of a string of decimal digits, read most significant first. */
  function DigitsValue(s: string): (n: nat)
    requires AllDigits(s)
  {
    if s == [] then 0
    else 10 * DigitsValue(s[..|s| - 1]) + (s[|s| - 1] as int - '0' as int)
  }

  /** int(s) for a string: whitespace around the number and between its
      optional sign and its digits is ignored, then at least one decimal digit
      is needed; anything else is a ValueError (None). */
  function ParseInt(s: string): (r: Option<int>)
    ensures AllSpace(s) ==> r == None
  {
    ParseStripped(RStrip(LStrip(s)))
  }

  /** int() on a string with its surrounding whitespace removed: the sign is
      read first, and the digits may follow it after more whitespace. */
  function ParseStripped(t: string): (r: Option<int>) {
    if |t| > 0 && (t[0] == '-' || t[0] == '+') then SignedDigits(t[0], LStrip(t[1..]))
    else if |t| > 0 && AllDigits(t) then Some(DigitsValue(t))
    else None
  }

  /** The digits that follow a sign, negated after a minus. */
  function SignedDigits(sign: char, u: string): (r: Option<int>) {
    if |u| > 0 && AllDigits(u) then Some(if sign == '-' then 0 - DigitsValue(u) as int else DigitsValue(u))
    else None
  }

  function DigitChar(d: nat): (c: char)
    requires d < 10
    ensures IsDigit(c) && c as int - '0' as int == d
  {
    (d + '0' as int) as char
  }

  /** str(n) for a non-negative integer: its decimal digits without leading zeros. */
  function ShowNat(n: nat): (s: string)
    ensures |s| > 0 && AllDigits(s)
    ensures |s| > 1 ==> s[0] != '0'
  {
    if n < 10 then [DigitChar(n)] else ShowNat(n / 10) + [DigitChar(n % 10)]
  }

  /** str(n): a minus sign before the digits of a negative integer. */
  function Show(n: int): (s: string) {
    if n < 0 then "-" + ShowNat(-n) else ShowNat(n)
  }

  lemma {:induction false} DigitsOfShowNat(n: nat)
    ensures DigitsValue(ShowNat(n)) == n
  {
    if n >= 10 {
      var s := ShowNat(n);
      assert s[..|s| - 1] == ShowNat(n / 10);
      DigitsOfShowNat(n / 10);
    }
  }

  lemma NoSpaceInShow(n: int)
    ensures forall i :: 0 <= i < |Show(n)| ==> !IsSpace(Show(n)[i])
  {
    var d := ShowNat(if n < 0 then -n else n);
    assert forall i :: 0 <= i < |d| ==> IsDigit(d[i]);
  }

  /** Leading whitespace is stripped up to the first other character. */
  lemma {:induction false} LStripSpaces(w: string, q: string)
    requires AllSpace(w) && (q == [] || !IsSpace(q[0]))
    ensures LStrip(w + q) == q
    decreases |w|
  {
    if w == [] {
      assert w + q == q;
    } else {
      assert (w + q)[1..] == w[1..] + q;
      assert AllSpace(w[1..]) by {
        forall i | 0 <= i < |w[1..]| ensures IsSpace(w[1..][i]) {
          assert w[1..][i] == w[i + 1];
        }
      }
      LStripSpaces(w[1..], q);
    }
  }

  /** Trailing whitespace is stripped back to the last other character. */
  lemma {:induction false} RStripSpaces(q: string, w: string)
    requires AllSpace(w) && (q == [] || !IsSpace(q[|q| - 1]))
    ensures RStrip(q + w) == q
    decreases |w|
  {
    if w == [] {
      assert q + w == q;
    } else {
      var v := q + w;
      assert v[..|v| - 1] == q + w[..|w| - 1];
      RStripSpaces(q, w[..|w| - 1]);
    }
  }

  /** A key written as str(n) is read back by int() as n. */
  lemma ParseShow(n: int)
    ensures ParseInt(Show(n)) == Some(n)
  {
    ParsePadded(n, "", "");
    Unpadded(Show(n));
  }

  /** No whitespace on either side leaves a string as it is. */
  lemma Unpadded(s: string)
    ensures "" + s + "" == s
  {
  }

  /** The tail of a sign followed by two strings is the two strings. */
  lemma ConsTail(c: char, w: string, d: string)
    ensures |[c] + w + d| > 0 && ([c] + w + d)[0] == c && ([c] + w + d)[1..] == w + d
  {
    assert [c] + w + d == [c] + (w + d);
  }

  /** An unsigned string of digits reads as its value. */
  lemma ParseStrippedDigits(d: string)
    requires |d| > 0 && AllDigits(d)
    ensures ParseStripped(d) == Some(DigitsValue(d))
  {
    assert IsDigit(d[0]);
  }

  /** A sign, whitespace, then digits read as the digits after the sign. */
  lemma ParseStrippedSigned(sign: char, w: string, d: string)
    requires sign == '-' || sign == '+'
    requires AllSpace(w) && |d| > 0 && AllDigits(d)
    ensures ParseStripped([sign] + w + d) == SignedDigits(sign, d)
  {
    var t := [sign] + w + d;
    ConsTail(sign, w, d);
    assert LStrip(t[1..]) == d by {
      assert !IsSpace(d[0]) by { assert IsDigit(d[0]); }
      LStripSpaces(w, d);
    }
    SignedValue(t);
  }

  /** int() on a signed string reads what follows the sign and its whitespace. */
  lemma SignedValue(t: string)
    requires |t| > 0 && (t[0] == '-' || t[0] == '+')
    ensures ParseStripped(t) == SignedDigits(t[0], LStrip(t[1..]))
  {
  }

  /** Digits of value n after a sign read as n, negated after a minus. */
  lemma SignedDigitsValue(sign: char, d: string, n: int)
    requires |d| > 0 && AllDigits(d) && DigitsValue(d) == n
    ensures SignedDigits(sign, d) == Some(if sign == '-' then -n else n)
  {
  }

  /** The digits of a natural number read back as that number. */
  lemma ParseStrippedShowNat(m: nat)
    ensures ParseStripped(ShowNat(m)) == Some(m)
  {
    DigitsOfShowNat(m);
    ParseStrippedDigits(ShowNat(m));
  }

  /** A minus sign before the digits of a natural number reads as its negation. */
  lemma ParseStrippedNegative(n: int)
    requires n < 0
    ensures ParseStripped(Show(n)) == Some(n)
  {
    var d := ShowNat(-n);
    DigitsOfShowNat(-n);
    ParseStrippedSigned('-', [], d);
    SignedDigitsValue('-', d, -n);
    NothingBetween('-', d);
    assert Show(n) == ['-'] + [] + d;
  }

  /** A sign with no whitespace after it. */
  lemma NothingBetween(c: char, d: string)
    ensures [c] + [] + d == [c] + d
  {
  }

  lemma ParseStrippedShow(n: int)
    ensures ParseStripped(Show(n)) == Some(n)
  {
    if n < 0 {
      ParseStrippedNegative(n);
    } else {
      ParseStrippedShowNat(n);
    }
  }

  /** int() ignores any whitespace around an integer. */
  lemma ParsePadded(n: int, w1: string, w2: string)
    requires AllSpace(w1) && AllSpace(w2)
    ensures ParseInt(w1 + Show(n) + w2) == Some(n)
  {
    var s := Show(n);
    NoSpaceInShow(n);
    assert w1 + s + w2 == w1 + (s + w2);
    assert (s + w2)[0] == s[0];
    LStripSpaces(w1, s + w2);
    RStripSpaces(s, w2);
    ParseStrippedShow(n);
  }

  /** A string with no whitespace at either end is left alone by stripping. */
  lemma StripNothing(v: string)
    requires |v| > 0 && !IsSpace(v[0]) && !IsSpace(v[|v| - 1])
    ensures RStrip(LStrip(v)) == v
  {
  }

  /** int() also ignores whitespace between the sign and the digits. */
  lemma ParseSignedSpaced(n: nat, sign: char, w: string)
    requires sign == '-' || sign == '+'
    requires AllSpace(w)
    ensures ParseInt([sign] + w + ShowNat(n)) == Some(if sign == '-' then -(n as int) else n as int)
  {
    DigitsOfShowNat(n);
    ParseSpacedDigits(sign, w, ShowNat(n), n);
  }

  /** A sign, whitespace, then digits of value n read as n or its negation. */
  lemma ParseSpacedDigits(sign: char, w: string, d: string, n: nat)
    requires sign == '-' || sign == '+'
    requires AllSpace(w) && |d| > 0 && AllDigits(d) && DigitsValue(d) == n
    ensures ParseInt([sign] + w + d) == Some(if sign == '-' then -(n as int) else n as int)
  {
    EndsInDigit([sign] + w, d);
    StrippedAlready([sign] + w + d);
    SpacedDigitsValue(sign, w, d, n);
  }

  /** A string ending in a digit does not end in whitespace. */
  lemma EndsInDigit(p: string, d: string)
    requires |d| > 0 && AllDigits(d)
    ensures |p + d| > 0 && !IsSpace((p + d)[|p + d| - 1])
  {
    assert (p + d)[|p + d| - 1] == d[|d| - 1];
    assert IsDigit(d[|d| - 1]);
  }

  /** int() of a string with no whitespace at either end is int() of the string itself. */
  lemma StrippedAlready(v: string)
    requires |v| > 0 && !IsSpace(v[|v| - 1])
    requires v[0] == '-' || v[0] == '+'
    ensures ParseInt(v) == ParseStripped(v)
  {
    StripNothing(v);
  }

  /** The signed reading of digits of value n, with the sign split out. */
  lemma SpacedDigitsValue(sign: char, w: string, d: string, n: nat)
    requires sign == '-' || sign == '+'
    requires AllSpace(w) && |d| > 0 && AllDigits(d) && DigitsValue(d) == n
    ensures ParseStripped([sign] + w + d) == Some(if sign == '-' then -(n as int) else n as int)
  {
    ParseStrippedSigned(sign, w, d);
    SignedDigitsValue(sign, d, n);
  }

  /** Stripping whitespace keeps every other character. */
  lemma KeepsNonSpace(s: string, c: char)
    requires c in s && !IsSpace(c)
    ensures c in LStrip(s) && c in RStrip(s)
  {
    var i :| 0 <= i < |s| && s[i] == c;
    var l := LStrip(s);
    assert l[i - (|s| - |l|)] == c;
    assert RStrip(s)[i] == c;
  }

  /** A string holding a non-digit is not all digits. */
  lemma NotAllDigits(u: string, c: char)
    requires c in u && !IsDigit(c)
    ensures !AllDigits(u)
  {
    var k :| 0 <= k < |u| && u[k] == c;
  }

  /** A character other than the first is in the tail. */
  lemma InTail(t: string, c: char)
    requires c in t && |t| > 0 && c != t[0]
    ensures c in t[1..]
  {
    var j :| 0 <= j < |t| && t[j] == c;
    assert t[1..][j - 1] == c;
  }

  /** int() fails when neither the unsigned nor the signed reading is all digits. */
  lemma StrippedRejected(t: string)
    requires !AllDigits(t)
    requires |t| > 0 && (t[0] == '-' || t[0] == '+') ==> !AllDigits(LStrip(t[1..]))
    ensures ParseStripped(t) == None
  {
  }

  /** int() refuses any string holding a character that is not a digit, a
      sign or whitespace. */
  lemma ParseRejectsStray(s: string, c: char)
    requires c in s && !IsDigit(c) && !IsSpace(c) && c != '-' && c != '+'
    ensures ParseInt(s) == None
  {
    KeepsNonSpace(s, c);
    KeepsNonSpace(LStrip(s), c);
    var t := RStrip(LStrip(s));
    NotAllDigits(t, c);
    if |t| > 0 && (t[0] == '-' || t[0] == '+') {
      SignedRejected(t, c);
    }
    StrippedRejected(t);
  }

  /** A stray character after a sign stops the digits that follow it. */
  lemma SignedRejected(t: string, c: char)
    requires c in t && |t| > 0 && c != t[0] && !IsDigit(c) && !IsSpace(c)
    ensures !AllDigits(LStrip(t[1..]))
  {
    InTail(t, c);
    KeepsNonSpace(t[1..], c);
    NotAllDigits(LStrip(t[1..]), c);
  }

  /** int() refuses the empty string rather than reading it as zero. */
  lemma ParseRejectsEmpty()
    ensures ParseInt("") == None
  {
  }

  /** int() refuses a string that starts with a letter, such as "undef". */
  lemma ParseRejectsUndef()
    ensures ParseInt("undef") == None
  {
    ParseRejectsStray("undef", 'u');
  }

  /** int() refuses every decimal fraction: a point is never part of an int. */
  lemma ParseRejectsFraction(s: string)
    requires '.' in s
    ensures ParseInt(s) == None
  {
    ParseRejectsStray(s, '.');
  }

  /** What may stand before the digits: nothing, or a sign followed by whitespace. */
  predicate SignPart(p: string) {
    p == [] || ((p[0] == '-' || p[0] == '+') && AllSpace(p[1..]))
  }

  /** The strings int() accepts, cut into their four parts: whitespace, an
      optional sign with whitespace after it, at least one digit, whitespace. */
  predicate IntShape(w1: string, p: string, d: string, w2: string) {
    AllSpace(w1) && SignPart(p) && |d| > 0 && AllDigits(d) && AllSpace(w2)
  }

  /** The value of such a string: its digits, leading zeros included, negated
      after a minus. */
  function ShapeValue(p: string, d: string): (n: int)
    requires AllDigits(d)
  {
    if p != [] && p[0] == '-' then -(DigitsValue(d) as int) else DigitsValue(d)
  }

  /** int() accepts every string of that shape, with its value. */
  lemma ParseIntAccepts(w1: string, p: string, d: string, w2: string)
    requires IntShape(w1, p, d, w2)
    ensures ParseInt(w1 + p + d + w2) == Some(ShapeValue(p, d))
  {
    var v := p + d;
    EndsInDigit(p, d);
    BeginsWithNoSpace(p, d, w2);
    assert w1 + p + d + w2 == w1 + (v + w2);
    LStripSpaces(w1, v + w2);
    RStripSpaces(v, w2);
    StrippedShape(p, d);
  }

  /** A sign or a digit opens the text after the leading whitespace. */
  lemma BeginsWithNoSpace(p: string, d: string, w2: string)
    requires SignPart(p) && |d| > 0 && AllDigits(d)
    ensures |p + d + w2| > 0 && !IsSpace((p + d + w2)[0])
  {
    if p == [] {
      assert (p + d + w2)[0] == d[0];
      assert IsDigit(d[0]);
    } else {
      assert (p + d + w2)[0] == p[0];
    }
  }

  /** int() of the stripped text of that shape. */
  lemma StrippedShape(p: string, d: string)
    requires SignPart(p) && |d| > 0 && AllDigits(d)
    ensures ParseStripped(p + d) == Some(ShapeValue(p, d))
  {
    if p == [] {
      assert p + d == d;
      ParseStrippedDigits(d);
    } else {
      assert p + d == [p[0]] + p[1..] + d;
      ParseStrippedSigned(p[0], p[1..], d);
      SignedDigitsValue(p[0], d, DigitsValue(d));
    }
  }

  /** Every string int() accepts has that shape, and its value is the shape's. */
  lemma ParseIntShape(s: string, n: int)
    requires ParseInt(s) == Some(n)
    ensures exists w1, p, d, w2 :: s == w1 + p + d + w2 && IntShape(w1, p, d, w2) && n == ShapeValue(p, d)
  {
    var w1, t, w2 := StripSplit(s);
    var p, d := SplitStripped(t, n);
    Regroup(s, w1, t, w2, p, d);
    assert IntShape(w1, p, d, w2);
  }

  /** A string is its leading whitespace, its stripped text and its trailing whitespace. */
  lemma StripSplit(s: string) returns (w1: string, t: string, w2: string)
    ensures s == w1 + t + w2 && AllSpace(w1) && AllSpace(w2) && t == RStrip(LStrip(s))
  {
    w1 := LeadingSpace(s);
    w2 := TrailingSpace(LStrip(s));
    t := RStrip(LStrip(s));
    Nest(s, w1, LStrip(s), t, w2);
  }

  /** A string made of a part and a string of two parts is made of three parts. */
  lemma Nest(s: string, w1: string, l: string, t: string, w2: string)
    requires s == w1 + l && l == t + w2
    ensures s == w1 + t + w2
  {
    assert w1 + (t + w2) == w1 + t + w2;
  }

  /** The whitespace lstrip() removes. */
  lemma LeadingSpace(s: string) returns (w: string)
    ensures s == w + LStrip(s) && AllSpace(w)
  {
    var l := LStrip(s);
    w := s[..|s| - |l|];
    forall i | 0 <= i < |w| ensures IsSpace(w[i]) {
      assert w[i] == s[i];
    }
  }

  /** The whitespace rstrip() removes. */
  lemma TrailingSpace(s: string) returns (w: string)
    ensures s == RStrip(s) + w && AllSpace(w)
  {
    var t := RStrip(s);
    w := s[|t|..];
    forall i | 0 <= i < |w| ensures IsSpace(w[i]) {
      assert w[i] == s[|t| + i];
    }
  }

  /** Cutting the middle of three parts in two gives four parts. */
  lemma Regroup(s: string, w1: string, t: string, w2: string, p: string, d: string)
    requires s == w1 + t + w2 && t == p + d
    ensures s == w1 + p + d + w2
  {
    assert w1 + (p + d) + w2 == w1 + p + d + w2;
  }

  /** The stripped text int() accepts is an optional signed part, then digits. */
  lemma SplitStripped(t: string, n: int) returns (p: string, d: string)
    requires ParseStripped(t) == Some(n)
    ensures t == p + d && SignPart(p) && |d| > 0 && AllDigits(d) && n == ShapeValue(p, d)
  {
    if |t| > 0 && (t[0] == '-' || t[0] == '+') {
      SignedValue(t);
      d := LStrip(t[1..]);
      p := SignedPrefix(t);
      SignedDigitsSome(t[0], d);
    } else {
      p, d := [], t;
      assert t == p + d;
    }
  }

  /** Digits after a sign that int() accepts, and the value it gives them. */
  lemma SignedDigitsSome(sign: char, d: string)
    requires SignedDigits(sign, d).Some?
    ensures |d| > 0 && AllDigits(d)
    ensures SignedDigits(sign, d).value == (if sign == '-' then -(DigitsValue(d) as int) else DigitsValue(d))
  {
  }

  /** After a sign, the whitespace stripped off lies between the sign and the digits. */
  lemma SignedPrefix(t: string) returns (p: string)
    requires |t| > 0 && (t[0] == '-' || t[0] == '+')
    ensures t == p + LStrip(t[1..]) && SignPart(p) && p != [] && p[0] == t[0]
  {
    var w := LeadingSpace(t[1..]);
    p := [t[0]] + w;
    HeadSplit(t, w, LStrip(t[1..]));
    assert p[1..] == w;
  }

  /** A string whose tail is two parts is its head and those two parts. */
  lemma HeadSplit(t: string, w: string, d: string)
    requires |t| > 0 && t[1..] == w + d
    ensures t == [t[0]] + w + d
  {
    assert t == [t[0]] + t[1..];
  }
}
