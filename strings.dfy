/** The JavaScript string built-ins the core relies on, written out:
    `split` on one character, `join`, `trim` and `toUpperCase` restricted to
    ASCII, `parseInt` with no radix, and decimal rendering of naturals. */
module Strings {
  import opened Common

  // ---------------------------------------------------------------------
  // split / join

  /** `s.split(sep)` for a one-character separator: the maximal pieces of `s`
      between separators, always at least one (possibly empty) piece. */
  function Split(s: string, sep: char): (parts: seq<string>)
    ensures |parts| >= 1
    ensures forall i :: 0 <= i < |parts| ==> sep !in parts[i]
    decreases |s|
  {
    if s == [] then [""]
    else
      var rest := Split(s[1..], sep);
      if s[0] == sep then [""] + rest
      else [[s[0]] + rest[0]] + rest[1..]
  }

  /** `s.split(sep)[i]`: `None` plays the part of `undefined`. */
  function Piece(s: string, sep: char, i: nat): Option<string>
  {
    var parts := Split(s, sep);
    if i < |parts| then Some(parts[i]) else None
  }

  /** `parts.join(sep)` */
  function Join(parts: seq<string>, sep: string): string
  {
    if |parts| == 0 then ""
    else if |parts| == 1 then parts[0]
    else parts[0] + sep + Join(parts[1..], sep)
  }

  /** Joining the pieces of a split with the same separator restores the text. */
  lemma {:induction false} JoinSplit(s: string, sep: char)
    ensures Join(Split(s, sep), [sep]) == s
  {
    if s != [] {
      var rest := Split(s[1..], sep);
      JoinSplit(s[1..], sep);
      if s[0] == sep {
        assert Split(s, sep) == [""] + rest;
        assert ([""] + rest)[1..] == rest;
      } else {
        var parts := Split(s, sep);
        assert parts == [[s[0]] + rest[0]] + rest[1..];
        if |rest| > 1 {
          assert parts[1..] == rest[1..];
          assert Join(rest, [sep]) == rest[0] + [sep] + Join(rest[1..], [sep]);
        }
      }
    }
  }

  /** Text free of the separator is a single piece that the piece after it extends. */
  lemma {:induction false} SplitPrefix(a: string, t: string, sep: char)
    requires sep !in a
    ensures Split(a + t, sep) == [a + Split(t, sep)[0]] + Split(t, sep)[1..]
    decreases |a|
  {
    var p := Split(t, sep);
    if a == [] {
      assert a + t == t;
      assert a + p[0] == p[0];
      assert [p[0]] + p[1..] == p;
    } else {
      SplitPrefix(a[1..], t, sep);
      assert (a + t)[1..] == a[1..] + t;
      assert (a + t)[0] == a[0];
      var rest := Split(a[1..] + t, sep);
      assert rest == [a[1..] + p[0]] + p[1..];
      assert rest[0] == a[1..] + p[0];
      assert rest[1..] == p[1..];
      assert [a[0]] + (a[1..] + p[0]) == a + p[0];
    }
  }

  /** Splitting a join of separator-free pieces gives the pieces back. */
  lemma {:induction false} SplitJoin(parts: seq<string>, sep: char)
    requires |parts| >= 1
    requires forall i :: 0 <= i < |parts| ==> sep !in parts[i]
    ensures Split(Join(parts, [sep]), sep) == parts
    decreases |parts|
  {
    if |parts| == 1 {
      SplitPrefix(parts[0], "", sep);
      assert parts[0] + "" == parts[0];
    } else {
      var tail := Join(parts[1..], [sep]);
      SplitJoin(parts[1..], sep);
      assert Join(parts, [sep]) == parts[0] + ([sep] + tail);
      SplitPrefix(parts[0], [sep] + tail, sep);
      assert ([sep] + tail)[1..] == tail;
      assert Split([sep] + tail, sep) == [""] + parts[1..];
      assert parts[0] + "" == parts[0];
    }
  }

  /** Text without the separator is one piece. */
  lemma NoSeparatorOnePiece(s: string, sep: char)
    requires sep !in s
    ensures Split(s, sep) == [s]
  {
    SplitPrefix(s, "", sep);
    assert s + "" == s;
  }

  /** The first piece is the text before the first separator. */
  lemma {:induction false} FirstPiece(s: string, sep: char)
    ensures |Split(s, sep)[0]| <= |s|
    ensures Split(s, sep)[0] == s[..|Split(s, sep)[0]|]
    ensures |Split(s, sep)[0]| < |s| ==> s[|Split(s, sep)[0]|] == sep
    decreases |s|
  {
    if s != [] && s[0] != sep {
      FirstPiece(s[1..], sep);
    }
  }

  /** With two pieces or more, the first piece ends at a separator and the
      remaining pieces are the pieces of the text after it. */
  lemma AfterFirstPiece(s: string, sep: char)
    requires |Split(s, sep)| >= 2
    ensures var a := |Split(s, sep)[0]|;
      a < |s| && s[..a] == Split(s, sep)[0] && s[a] == sep && Split(s, sep)[1..] == Split(s[a + 1..], sep)
  {
    var p := Split(s, sep);
    var a := |p[0]|;
    FirstPiece(s, sep);
    var t := s[a..];
    assert s == p[0] + t;
    SplitPrefix(p[0], t, sep);
    assert |Split(t, sep)| >= 2;
    assert t != [] && t[0] == sep && t[1..] == s[a + 1..];
  }

  /** The second piece is the text after the first separator, up to the next
      separator or the end. */
  lemma SecondPiece(s: string, sep: char)
    requires |Split(s, sep)| >= 2
    ensures var p := Split(s, sep);
      var a := |p[0]|;
      var b := a + 1 + |p[1]|;
      b <= |s| && s[..a] == p[0] && s[a] == sep && s[a + 1..b] == p[1] && (b < |s| ==> s[b] == sep)
  {
    var p := Split(s, sep);
    var a := |p[0]|;
    AfterFirstPiece(s, sep);
    var u := s[a + 1..];
    assert p[1] == Split(u, sep)[0];
    FirstPiece(u, sep);
  }

  // ---------------------------------------------------------------------
  // trim / toUpperCase

  /** The ASCII white-space characters that `String.prototype.trim` removes. */
  predicate IsSpace(c: char)
  {
    c == ' ' || c == '\t' || c == '\n' || c == '\r' || c == '\U{B}' || c == '\U{C}'
  }

  function TrimStart(s: string): (r: string)
    ensures |r| <= |s| && r == s[|s| - |r|..]
    ensures r == [] || !IsSpace(r[0])
    ensures forall i :: 0 <= i < |s| - |r| ==> IsSpace(s[i])
    decreases |s|
  {
    if s != [] && IsSpace(s[0]) then
      var r := TrimStart(s[1..]);
      assert s[1..][|s| - 1 - |r|..] == s[|s| - |r|..];
      assert forall i :: 1 <= i < |s| ==> s[1..][i - 1] == s[i];
      r
    else s
  }

  function TrimEnd(s: string): (r: string)
    ensures |r| <= |s| && r == s[..|r|]
    ensures r == [] || !IsSpace(r[|r| - 1])
    ensures forall i :: |r| <= i < |s| ==> IsSpace(s[i])
    decreases |s|
  {
    if s != [] && IsSpace(s[|s| - 1]) then
      var r := TrimEnd(s[..|s| - 1]);
      assert s[..|s| - 1][..|r|] == s[..|r|];
      assert forall i :: 0 <= i < |s| - 1 ==> s[..|s| - 1][i] == s[i];
      r
    else s
  }

  /** `s.trim()` */
  function Trim(s: string): string
  {
    TrimEnd(TrimStart(s))
  }

  /** A trimmed text neither starts nor ends with white space, and trimming again
      changes nothing. */
  lemma TrimIsTrimmed(s: string)
    ensures Trim(s) == [] || (!IsSpace(Trim(s)[0]) && !IsSpace(Trim(s)[|Trim(s)| - 1]))
    ensures Trim(Trim(s)) == Trim(s)
  {
    var t := TrimStart(s);
    var r := TrimEnd(t);
    if r != [] {
      assert r[0] == t[0];
    }
  }

  /** A trimmed text is a slice of the original. */
  lemma TrimIsSlice(s: string)
    ensures exists a, b :: 0 <= a <= b <= |s| && Trim(s) == s[a..b]
  {
    var t := TrimStart(s);
    var r := TrimEnd(t);
    var a := |s| - |t|;
    var b := a + |r|;
    forall i | 0 <= i < |r| ensures r[i] == s[a..b][i] {
      assert r[i] == t[i] == s[a + i];
    }
    assert Trim(s) == s[a..b];
  }

  function UpperChar(c: char): char
  {
    if 'a' <= c <= 'z' then (c as int - 32) as char else c
  }

  /** `s.toUpperCase()` on ASCII letters. */
  function ToUpper(s: string): (r: string)
    ensures |r| == |s|
    ensures forall i :: 0 <= i < |s| ==> r[i] == UpperChar(s[i]) && !('a' <= r[i] <= 'z')
  {
    seq(|s|, i requires 0 <= i < |s| => UpperChar(s[i]))
  }

  predicate NoLower(s: string)
  {
    forall i :: 0 <= i < |s| ==> !('a' <= s[i] <= 'z')
  }

  /** Upper-casing text without lower-case letters changes nothing. */
  lemma ToUpperOfNoLower(s: string)
    requires NoLower(s)
    ensures ToUpper(s) == s
  {
    forall i | 0 <= i < |s| ensures ToUpper(s)[i] == s[i] {
      assert !('a' <= s[i] <= 'z');
    }
  }

  /** Trimming cannot bring in a lower-case letter. */
  lemma TrimKeepsNoLower(s: string)
    requires NoLower(s)
    ensures NoLower(Trim(s))
  {
    var t := TrimStart(s);
    var r := TrimEnd(t);
    var a := |s| - |t|;
    assert Trim(s) == r;
    forall i | 0 <= i < |r| ensures !('a' <= r[i] <= 'z') {
      assert r[i] == t[i] == s[a + i];
    }
    assert NoLower(r);
  }

  // ---------------------------------------------------------------------
  // parseInt / decimal rendering

  /** The value of `c` as a digit of `radix` (letters count from ten), if it is one. */
  function DigitValue(c: char, radix: nat): Option<nat>
  {
    var v :=
      if '0' <= c <= '9' then c as int - '0' as int
      else if 'a' <= c <= 'z' then c as int - 'a' as int + 10
      else if 'A' <= c <= 'Z' then c as int - 'A' as int + 10
      else radix;
    if v < radix then Some(v) else None
  }

  /** The length of the longest prefix of `s` made of digits of `radix`. */
  function DigitPrefix(s: string, radix: nat): (n: nat)
    ensures n <= |s|
    ensures forall i :: 0 <= i < n ==> DigitValue(s[i], radix).Some?
    ensures n < |s| ==> DigitValue(s[n], radix).None?
  {
    if s != [] && DigitValue(s[0], radix).Some? then 1 + DigitPrefix(s[1..], radix) else 0
  }

  /** The number written by the digit string `s` in `radix`. */
  function DigitsValue(s: string, radix: nat): nat
    requires forall i :: 0 <= i < |s| ==> DigitValue(s[i], radix).Some?
  {
    if s == [] then 0
    else
      var init := s[..|s| - 1];
      assert forall i :: 0 <= i < |init| ==> init[i] == s[i];
      var high := DigitsValue(init, radix);
      ProductOfNats(high, radix);
      high * radix + DigitValue(s[|s| - 1], radix).value
  }

  lemma ProductOfNats(a: nat, b: nat)
    ensures a * b >= 0
  {
  }

  /** `parseInt(s)` with no radix: skip leading white space, read an optional sign,
      a `0x`/`0X` prefix switches to hexadecimal, then read the longest run of
      digits; `None` is `NaN` (no digit at all). */
  function ParseInt(s: string): Option<int>
  {
    var t := TrimStart(s);
    var negative := t != [] && t[0] == '-';
    var u := if t != [] && (t[0] == '-' || t[0] == '+') then t[1..] else t;
    var hex := |u| >= 2 && u[0] == '0' && (u[1] == 'x' || u[1] == 'X');
    var radix := if hex then 16 else 10;
    var digits := if hex then u[2..] else u;
    match ReadDigits(digits, radix)
    case None => None
    case Some(v) => var x: int := v; Some(if negative then -x else x)
  }

  /** The value of the longest run of `radix` digits at the start of `s`;
      `None` when `s` does not start with a digit. */
  function ReadDigits(s: string, radix: nat): Option<nat>
  {
    var n := DigitPrefix(s, radix);
    if n == 0 then None
    else
      var d := s[..n];
      assert forall i :: 0 <= i < |d| ==> d[i] == s[i];
      Some(DigitsValue(d, radix))
  }

  /** `parseInt(s) || 0`: `NaN` (and zero) become zero. */
  function ParseIntOrZero(s: string): int
  {
    ParseInt(s).GetOr(0)
  }

  function DecimalDigit(d: nat): char
    requires d < 10
  {
    ('0' as int + d) as char
  }

  /** The decimal rendering of a natural, as a template literal `${n}` writes it. */
  function NatToString(n: nat): (s: string)
    ensures |s| >= 1
    ensures forall i :: 0 <= i < |s| ==> '0' <= s[i] <= '9'
  {
    if n < 10 then [DecimalDigit(n)] else NatToString(n / 10) + [DecimalDigit(n % 10)]
  }

  lemma {:induction false} DigitsOfNatToString(n: nat)
    ensures forall i :: 0 <= i < |NatToString(n)| ==> DigitValue(NatToString(n)[i], 10).Some?
    ensures DigitsValue(NatToString(n), 10) == n
  {
    var s := NatToString(n);
    forall i | 0 <= i < |s| ensures DigitValue(s[i], 10).Some? {
      assert '0' <= s[i] <= '9';
    }
    if n >= 10 {
      DigitsOfNatToString(n / 10);
      assert s[..|s| - 1] == NatToString(n / 10);
    }
  }

  lemma {:induction false} DigitPrefixOfDigits(s: string, radix: nat)
    requires forall i :: 0 <= i < |s| ==> DigitValue(s[i], radix).Some?
    ensures DigitPrefix(s, radix) == |s|
  {
    if s != [] {
      assert DigitValue(s[0], radix).Some?;
      DigitPrefixOfDigits(s[1..], radix);
    }
  }

  /** A non-empty string of decimal digits parses to the number it writes. */
  lemma ParseIntOfDecimal(s: string)
    requires s != []
    requires forall i :: 0 <= i < |s| ==> '0' <= s[i] <= '9'
    ensures forall i :: 0 <= i < |s| ==> DigitValue(s[i], 10).Some?
    ensures ParseInt(s) == Some(DigitsValue(s, 10))
  {
    forall i | 0 <= i < |s| ensures DigitValue(s[i], 10).Some? {
      assert '0' <= s[i] <= '9';
    }
    ReadAllDigits(s, 10);
    UnsignedDecimal(s);
  }

  /** Text starting with a decimal digit other than a `0x` prefix is read in base ten. */
  lemma UnsignedDecimal(s: string)
    requires s != [] && '0' <= s[0] <= '9'
    requires |s| >= 2 ==> s[1] != 'x' && s[1] != 'X'
    ensures ParseInt(s) == match ReadDigits(s, 10) case None => None case Some(v) => Some(v)
  {
    assert !IsSpace(s[0]);
    assert TrimStart(s) == s;
  }

  lemma ReadAllDigits(s: string, radix: nat)
    requires s != []
    requires forall i :: 0 <= i < |s| ==> DigitValue(s[i], radix).Some?
    ensures ReadDigits(s, radix) == Some(DigitsValue(s, radix))
  {
    DigitPrefixOfDigits(s, radix);
    assert s[..|s|] == s;
  }

  /** `parseInt` reads back what `${n}` wrote. */
  lemma ParseIntNatToString(n: nat)
    ensures ParseInt(NatToString(n)) == Some(n)
  {
    DigitsOfNatToString(n);
    ParseIntOfDecimal(NatToString(n));
  }
}
