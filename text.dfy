/** The few C library string and number routines the daemon relies on
    (strstr, strchr, strrchr, the decimal conversion of sscanf and atoi,
    and C's truncating integer division), stated over Dafny strings. */
module Text {

  datatype Option<+T> = None | Some(value: T)

  /** `pat` occurs in `s` starting at index `i`. */
  predicate OccursAt(s: string, pat: string, i: int) {
    0 <= i && i + |pat| <= |s| && s[i..i + |pat|] == pat
  }

  /** strstr from position `from` on: the first index at or after `from`
      where `pat` occurs. */
  function FindFrom(s: string, pat: string, from: nat): (r: Option<nat>)
    decreases |s| - from
    ensures r.Some? ==> from <= r.value && OccursAt(s, pat, r.value)
    ensures r.Some? ==> forall j :: from <= j < r.value ==> !OccursAt(s, pat, j)
    ensures r.None? ==> forall j :: from <= j ==> !OccursAt(s, pat, j)
  {
    if from + |pat| > |s| then None
    else if s[from..from + |pat|] == pat then Some(from)
    else FindFrom(s, pat, from + 1)
  }

  /** strstr: the first occurrence of `pat` in `s`. */
  function Find(s: string, pat: string): Option<nat> {
    FindFrom(s, pat, 0)
  }

  /** strstr(s, pat) != NULL */
  predicate Contains(s: string, pat: string) {
    Find(s, pat).Some?
  }

  lemma ContainsAt(s: string, pat: string, i: int)
    requires OccursAt(s, pat, i)
    ensures Contains(s, pat)
  {
  }

  /** strchr from position `from` on: the first index at or after `from`
      that holds `c`. */
  function FindCharFrom(s: string, c: char, from: nat): (r: Option<nat>)
    decreases |s| - from
    ensures r.Some? ==> from <= r.value < |s| && s[r.value] == c
    ensures r.Some? ==> forall j :: from <= j < r.value ==> s[j] != c
    ensures r.None? ==> forall j :: from <= j < |s| ==> s[j] != c
  {
    if from >= |s| then None
    else if s[from] == c then Some(from)
    else FindCharFrom(s, c, from + 1)
  }

  /** strchr: the first index of `c` in `s`. */
  function FindChar(s: string, c: char): Option<nat> {
    FindCharFrom(s, c, 0)
  }

  /** strrchr: the last index of `c` in `s`. */
  function LastIndexOf(s: string, c: char): (r: Option<nat>)
    ensures r.Some? ==> r.value < |s| && s[r.value] == c
    ensures r.Some? ==> forall j :: r.value < j < |s| ==> s[j] != c
    ensures r.None? ==> forall j :: 0 <= j < |s| ==> s[j] != c
  {
    if |s| == 0 then None
    else if s[|s| - 1] == c then Some(|s| - 1)
    else LastIndexOf(s[..|s| - 1], c)
  }

  /** The part of `s` that a buffer holding at most `n` characters keeps. */
  function Truncate(s: string, n: nat): string {
    if |s| <= n then s else s[..n]
  }

  /** `line[strcspn(line, "\n")] = 0`: everything before the first newline. */
  function CutAtNewline(s: string): (r: string)
    ensures r <= s && '\n' !in r
    ensures |r| < |s| ==> s[|r|] == '\n'
  {
    match FindChar(s, '\n')
    case None => s
    case Some(k) => s[..k]
  }

  /** C's isspace in the "C" locale. */
  predicate IsSpace(c: char) {
    c == ' ' || c == '\t' || c == '\n' || c == '\U{000B}' || c == '\U{000C}' || c == '\r'
  }

  predicate IsDigit(c: char) {
    '0' <= c <= '9'
  }

  /** The input after the leading white space that %d and atoi skip. */
  function SkipSpace(s: string): (r: string)
    ensures |r| <= |s| && r == s[|s| - |r|..]
    ensures |r| > 0 ==> !IsSpace(r[0])
  {
    if |s| > 0 && IsSpace(s[0]) then SkipSpace(s[1..]) else s
  }

  /** The longest prefix of `s` made of decimal digits. */
  function LeadingDigits(s: string): (r: string)
    ensures r <= s
    ensures forall i :: 0 <= i < |r| ==> IsDigit(r[i])
    ensures |r| < |s| ==> !IsDigit(s[|r|])
  {
    if |s| > 0 && IsDigit(s[0]) then [s[0]] + LeadingDigits(s[1..]) else []
  }

  /** The value of a string of decimal digits. */
  function DecimalValue(d: string): (v: nat)
    requires forall i :: 0 <= i < |d| ==> IsDigit(d[i])
  {
    if |d| == 0 then 0
    else
      assert IsDigit(d[|d| - 1]);
      DecimalValue(d[..|d| - 1]) * 10 + (d[|d| - 1] as int - '0' as int)
  }

  /** The conversion %d (and %ld) of sscanf: white space, an optional sign and
      at least one decimal digit; None when no digit follows. */
  function ScanDecimal(s: string): Option<int> {
    ScanSigned(SkipSpace(s))
  }

  /** An optional sign, then the digits. */
  function ScanSigned(t: string): Option<int> {
    if |t| > 0 && t[0] == '-' then
      Negate(ScanDigits(t[1..]))
    else if |t| > 0 && t[0] == '+' then ScanDigits(t[1..])
    else ScanDigits(t)
  }

  /** The opposite of a value read, if any. */
  function Negate(o: Option<int>): Option<int> {
    match o
    case None => None
    case Some(v) => Some(-v)
  }

  /** The value of the leading digits, None when there are none. */
  function ScanDigits(u: string): Option<int> {
    var digits := LeadingDigits(u);
    if |digits| == 0 then None else Some(DecimalValue(digits))
  }

  /** sscanf(line, "<prefix> %d", &v) == 1: the line starts with the literal
      prefix and a decimal number follows it. */
  function ScanField(line: string, prefix: string): (r: Option<int>)
    ensures r.Some? ==> prefix <= line
  {
    if prefix <= line then ScanDecimal(line[|prefix|..]) else None
  }

  /** Leading white space is skipped up to the first other character. */
  lemma {:induction false} SkipSpaceOver(blanks: string, rest: string)
    requires forall i :: 0 <= i < |blanks| ==> IsSpace(blanks[i])
    requires |rest| == 0 || !IsSpace(rest[0])
    ensures SkipSpace(blanks + rest) == rest
  {
    if |blanks| > 0 {
      assert (blanks + rest)[1..] == blanks[1..] + rest;
      SkipSpaceOver(blanks[1..], rest);
    } else {
      assert blanks + rest == rest;
    }
  }

  /** The digits end where the first non-digit starts. */
  lemma {:induction false} LeadingDigitsOver(d: string, tail: string)
    requires forall i :: 0 <= i < |d| ==> IsDigit(d[i])
    requires |tail| == 0 || !IsDigit(tail[0])
    ensures LeadingDigits(d + tail) == d
  {
    if |d| > 0 {
      assert (d + tail)[1..] == d[1..] + tail;
      LeadingDigitsOver(d[1..], tail);
      assert [d[0]] + d[1..] == d;
    } else {
      assert d + tail == tail;
    }
  }

  /** A magnitude with its sign. */
  function Signed(negative: bool, v: int): int {
    if negative then -v else v
  }

  /** The digits, then something that is not a digit. */
  lemma ScanDigitsReads(d: string, tail: string)
    requires |d| > 0 && forall i :: 0 <= i < |d| ==> IsDigit(d[i])
    requires |tail| == 0 || !IsDigit(tail[0])
    ensures ScanDigits(d + tail) == Some(DecimalValue(d))
  {
    LeadingDigitsOver(d, tail);
  }

  /** Concatenation regrouped to the right. */
  lemma Regroup(a: string, b: string, c: string, e: string)
    ensures a + b + c + e == a + (b + (c + e))
  {
  }

  /** Dropping the first character of a string. */
  lemma DropFirst(c: char, u: string)
    ensures ([c] + u)[1..] == u
  {
  }

  /** A sign character, then whatever follows it. */
  lemma ScanSignedSign(c: char, u: string)
    requires c == '+' || c == '-'
    ensures ScanSigned([c] + u) == if c == '-' then Negate(ScanDigits(u)) else ScanDigits(u)
  {
    DropFirst(c, u);
  }

  /** No sign: a digit first. */
  lemma ScanSignedUnsigned(u: string)
    requires |u| > 0 && IsDigit(u[0])
    ensures ScanSigned(u) == ScanDigits(u)
  {
  }

  /** No sign: the digits, then a tail that does not start with one. */
  lemma ScanUnsignedReads(d: string, tail: string)
    requires |d| > 0 && forall i :: 0 <= i < |d| ==> IsDigit(d[i])
    requires |tail| == 0 || !IsDigit(tail[0])
    ensures ScanSigned(d + tail) == Some(DecimalValue(d))
  {
    ScanDigitsReads(d, tail);
    assert (d + tail)[0] == d[0];
    ScanSignedUnsigned(d + tail);
  }

  /** A sign character before text whose digits read as `v`. */
  lemma ScanSignCharReads(c: char, u: string, v: int)
    requires c == '+' || c == '-'
    requires ScanDigits(u) == Some(v)
    ensures ScanSigned([c] + u) == Some(Signed(c == '-', v))
  {
    ScanSignedSign(c, u);
  }

  /** After the white space: an optional sign, then the digits. */
  lemma ScanSignedReads(sign: string, d: string, tail: string)
    requires sign == "" || sign == "+" || sign == "-"
    requires |d| > 0 && forall i :: 0 <= i < |d| ==> IsDigit(d[i])
    requires |tail| == 0 || !IsDigit(tail[0])
    ensures ScanSigned(sign + (d + tail)) == Some(Signed(sign == "-", DecimalValue(d)))
  {
    if sign == "" {
      assert sign + (d + tail) == d + tail;
      ScanUnsignedReads(d, tail);
    } else {
      assert sign == [sign[0]];
      ScanDigitsReads(d, tail);
      ScanSignCharReads(sign[0], d + tail, DecimalValue(d));
    }
  }

  /** %d reads white space, an optional sign and the digits that follow,
      and stops at the first character that is not a digit. */
  lemma ScanDecimalReads(blanks: string, sign: string, d: string, tail: string)
    requires forall i :: 0 <= i < |blanks| ==> IsSpace(blanks[i])
    requires sign == "" || sign == "+" || sign == "-"
    requires |d| > 0 && forall i :: 0 <= i < |d| ==> IsDigit(d[i])
    requires |tail| == 0 || !IsDigit(tail[0])
    ensures ScanDecimal(blanks + sign + d + tail) == Some(Signed(sign == "-", DecimalValue(d)))
  {
    Regroup(blanks, sign, d, tail);
    SignedDigitsStart(sign, d, tail);
    ScanDecimalOver(blanks, sign + (d + tail));
    ScanSignedReads(sign, d, tail);
  }

  /** An optional sign and then a digit do not start with white space. */
  lemma SignedDigitsStart(sign: string, d: string, tail: string)
    requires sign == "" || sign == "+" || sign == "-"
    requires |d| > 0 && IsDigit(d[0])
    ensures |sign + (d + tail)| > 0 && !IsSpace((sign + (d + tail))[0])
  {
    if sign == "" {
      assert (sign + (d + tail))[0] == d[0];
    } else {
      assert (sign + (d + tail))[0] == sign[0];
    }
  }

  /** %d on white space followed by text that does not start with it. */
  lemma ScanDecimalOver(blanks: string, t: string)
    requires forall i :: 0 <= i < |blanks| ==> IsSpace(blanks[i])
    requires |t| == 0 || !IsSpace(t[0])
    ensures ScanDecimal(blanks + t) == ScanSigned(t)
  {
    SkipSpaceOver(blanks, t);
  }

  /** After the white space: no digit after the optional sign. */
  lemma ScanSignedFails(sign: string, tail: string)
    requires sign == "" || sign == "+" || sign == "-"
    requires |tail| == 0 || !IsDigit(tail[0])
    requires sign == "" && |tail| > 0 ==> tail[0] != '+' && tail[0] != '-'
    ensures ScanSigned(sign + tail) == None
  {
    LeadingDigitsOver("", tail);
    assert "" + tail == tail;
    if sign == "" {
      assert sign + tail == tail;
    } else {
      assert sign == [sign[0]];
      DropFirst(sign[0], tail);
    }
  }

  /** %d fails when no digit follows the white space and the optional sign. */
  lemma ScanDecimalFails(blanks: string, sign: string, tail: string)
    requires forall i :: 0 <= i < |blanks| ==> IsSpace(blanks[i])
    requires sign == "" || sign == "+" || sign == "-"
    requires |tail| == 0 || !IsDigit(tail[0])
    requires sign == "" && |tail| > 0 ==> !IsSpace(tail[0]) && tail[0] != '+' && tail[0] != '-'
    ensures ScanDecimal(blanks + sign + tail) == None
  {
    var t := sign + tail;
    assert blanks + sign + tail == blanks + t;
    assert |t| > 0 ==> t[0] == (if sign == "" then tail[0] else sign[0]);
    SkipSpaceOver(blanks, t);
    ScanSignedFails(sign, tail);
  }

  /** `sscanf(line, "<prefix> %d", &v)` on a line made of the prefix, white
      space, digits and a tail that does not start with a digit reads the
      value of the digits. */
  lemma {:induction false} ScanFieldReads(prefix: string, blanks: string, d: string, tail: string)
    requires forall i :: 0 <= i < |blanks| ==> IsSpace(blanks[i])
    requires |d| > 0 && forall i :: 0 <= i < |d| ==> IsDigit(d[i])
    requires |tail| == 0 || !IsDigit(tail[0])
    ensures ScanField(prefix + blanks + d + tail, prefix) == Some(DecimalValue(d))
  {
    var line := prefix + blanks + d + tail;
    assert prefix <= line;
    assert line[|prefix|..] == blanks + "" + d + tail;
    ScanDecimalReads(blanks, "", d, tail);
  }

  /** The match fails on a line without the prefix, and on a line where no
      digit follows the prefix, the white space and the optional sign. */
  lemma {:induction false} ScanFieldFails(prefix: string, blanks: string, sign: string, tail: string, other: string)
    requires forall i :: 0 <= i < |blanks| ==> IsSpace(blanks[i])
    requires sign == "" || sign == "+" || sign == "-"
    requires |tail| == 0 || !IsDigit(tail[0])
    requires sign == "" && |tail| > 0 ==> !IsSpace(tail[0]) && tail[0] != '+' && tail[0] != '-'
    requires !(prefix <= other)
    ensures ScanField(prefix + blanks + sign + tail, prefix) == None
    ensures ScanField(other, prefix) == None
  {
    var line := prefix + blanks + sign + tail;
    assert prefix <= line;
    assert line[|prefix|..] == blanks + sign + tail;
    ScanDecimalFails(blanks, sign, tail);
  }

  /** atoi: the same conversion as %d, with 0 when no number is there. */
  function Atoi(s: string): int {
    match ScanDecimal(s)
    case Some(v) => v
    case None => 0
  }

  /** atoi reads the same number as %d. */
  lemma AtoiReads(blanks: string, sign: string, d: string, tail: string)
    requires forall i :: 0 <= i < |blanks| ==> IsSpace(blanks[i])
    requires sign == "" || sign == "+" || sign == "-"
    requires |d| > 0 && forall i :: 0 <= i < |d| ==> IsDigit(d[i])
    requires |tail| == 0 || !IsDigit(tail[0])
    ensures Atoi(blanks + sign + d + tail) == Signed(sign == "-", DecimalValue(d))
  {
    ScanDecimalReads(blanks, sign, d, tail);
  }

  /** C's `/` on integers, which truncates toward zero. */
  function DivTrunc(a: int, b: int): (q: int)
    requires b > 0
    ensures a >= 0 ==> 0 <= q && q * b <= a < q * b + b
    ensures a < 0 ==> q <= 0 && a <= q * b < a + b
  {
    if a >= 0 then a / b else -((-a) / b)
  }
}
