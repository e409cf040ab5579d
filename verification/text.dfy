/** JavaScript string operations the pages rely on, written out over
    `seq<char>`: `toLowerCase`, `includes`, `startsWith`, `trim` and
    `parseInt`. */
module Text {

  import opened Wrappers

  // ---------------------------------------------------------------------------
  // toLowerCase
  // ---------------------------------------------------------------------------

  predicate IsUpper(c: char) { 'A' <= c <= 'Z' }

  /** Lower-case a single character (the ASCII letters; see README). */
  function LowerChar(c: char): (r: char)
    ensures IsUpper(c) ==> r as int == c as int + 32
    ensures !IsUpper(c) ==> r == c
    ensures !IsUpper(r)
  {
    if IsUpper(c) then (c as int + 32) as char else c
  }

  /** `s.toLowerCase()`: the same length, character by character. */
  function Lower(s: string): (r: string)
    ensures |r| == |s|
    ensures forall i :: 0 <= i < |s| ==> r[i] == LowerChar(s[i])
  {
    seq(|s|, i requires 0 <= i < |s| => LowerChar(s[i]))
  }

  lemma LowerIdempotent(s: string)
    ensures Lower(Lower(s)) == Lower(s)
  {
  }

  // ---------------------------------------------------------------------------
  // includes / startsWith
  // ---------------------------------------------------------------------------

  /** `s.startsWith(p)`. */
  predicate StartsWith(s: string, p: string) { p <= s }

  /** `hay.includes(needle)`, scanning start positions left to right. */
  predicate Includes(hay: string, needle: string)
    ensures needle <= hay ==> Includes(hay, needle)
    ensures Includes(hay, needle) ==> |needle| <= |hay|
    decreases |hay|
  {
    needle <= hay || (hay != [] && Includes(hay[1..], needle))
  }

  /** Reference meaning of `includes`: `needle` occurs at some offset. */
  ghost predicate OccursAt(hay: string, needle: string, i: int)
  {
    0 <= i && i + |needle| <= |hay| && hay[i..i + |needle|] == needle
  }

  lemma IncludesIffOccurs(hay: string, needle: string)
    ensures Includes(hay, needle) <==> exists i :: OccursAt(hay, needle, i)
  {
    if Includes(hay, needle) {
      IncludesOccurs(hay, needle);
    }
    if exists i :: OccursAt(hay, needle, i) {
      var i :| OccursAt(hay, needle, i);
      OccursIncludes(hay, needle, i);
    }
  }

  lemma {:induction false} IncludesOccurs(hay: string, needle: string)
    requires Includes(hay, needle)
    ensures exists i :: OccursAt(hay, needle, i)
    decreases |hay|
  {
    if needle <= hay {
      assert OccursAt(hay, needle, 0);
    } else {
      IncludesOccurs(hay[1..], needle);
      var i :| OccursAt(hay[1..], needle, i);
      assert hay[i + 1..i + 1 + |needle|] == hay[1..][i..i + |needle|];
      assert OccursAt(hay, needle, i + 1);
    }
  }

  lemma {:induction false} OccursIncludes(hay: string, needle: string, i: int)
    requires OccursAt(hay, needle, i)
    ensures Includes(hay, needle)
    decreases i
  {
    if i == 0 {
      assert needle <= hay;
    } else {
      assert hay[1..][i - 1..i - 1 + |needle|] == hay[i..i + |needle|];
      OccursIncludes(hay[1..], needle, i - 1);
    }
  }

  /** The empty string is included in every string. */
  lemma IncludesEmpty(hay: string)
    ensures Includes(hay, "")
  {
  }

  // ---------------------------------------------------------------------------
  // trim
  // ---------------------------------------------------------------------------

  /** The characters `String.prototype.trim` removes: the ECMAScript
      WhiteSpace (tab, vertical tab, form feed, space, no-break space,
      byte-order mark and every Zs space) and LineTerminator characters. */
  predicate IsSpace(c: char)
  {
    c == '\t' || c == '\n' || c == '\U{000B}' || c == '\U{000C}' || c == '\r' ||
    c == ' ' || c == '\U{00A0}' || c == '\U{1680}' ||
    ('\U{2000}' <= c <= '\U{200A}') ||
    c == '\U{2028}' || c == '\U{2029}' || c == '\U{202F}' || c == '\U{205F}' ||
    c == '\U{3000}' || c == '\U{FEFF}'
  }

  /** No white space at either end. */
  predicate Trimmed(s: string)
  {
    s == [] || (!IsSpace(s[0]) && !IsSpace(s[|s| - 1]))
  }

  /** Drops the leading white space: the result is a suffix of `s`, does not
      start with white space, and everything dropped was white space. */
  function TrimStart(s: string): (r: string)
    ensures |r| <= |s| && r == s[|s| - |r|..]
    ensures r == [] || !IsSpace(r[0])
    ensures forall k :: 0 <= k < |s| - |r| ==> IsSpace(s[k])
  {
    if s != [] && IsSpace(s[0]) then TrimStart(s[1..]) else s
  }

  /** Drops the trailing white space: the result is a prefix of `s`, does not
      end with white space, and everything dropped was white space. */
  function TrimEnd(s: string): (r: string)
    ensures |r| <= |s| && r == s[..|r|]
    ensures r == [] || !IsSpace(r[|r| - 1])
    ensures forall k :: |r| <= k < |s| ==> IsSpace(s[k])
  {
    if s != [] && IsSpace(s[|s| - 1]) then TrimEnd(s[..|s| - 1]) else s
  }

  /** What `trim` may drop: `r` sits at offset `i` of `s`, and everything
      before and after it is white space. */
  ghost predicate DropsOnlySpace(s: string, r: string, i: int)
  {
    OccursAt(s, r, i) &&
    (forall k :: 0 <= k < i ==> IsSpace(s[k])) &&
    (forall k :: i + |r| <= k < |s| ==> IsSpace(s[k]))
  }

  /** `s.trim()`: a contiguous slice of `s` with no white space at either end,
      obtained by dropping only white space. */
  function Trim(s: string): (r: string)
    ensures Trimmed(r)
    ensures exists i :: DropsOnlySpace(s, r, i)
  {
    TrimDropsOnlySpace(s);
    TrimEnd(TrimStart(s))
  }

  lemma TrimDropsOnlySpace(s: string)
    ensures DropsOnlySpace(s, TrimEnd(TrimStart(s)), |s| - |TrimStart(s)|)
  {
    TrimSliceOccurs(s);
    TrimTailSpace(s);
  }

  lemma TrimSliceOccurs(s: string)
    ensures OccursAt(s, TrimEnd(TrimStart(s)), |s| - |TrimStart(s)|)
  {
    var t := TrimStart(s);
    var r := TrimEnd(t);
    PrefixOfSuffixOccurs(s, |s| - |t|, r);
  }

  /** A prefix of the suffix from offset `i` occurs at `i`. */
  lemma PrefixOfSuffixOccurs(s: string, i: int, r: string)
    requires 0 <= i <= |s| && |r| <= |s| - i && r == s[i..][..|r|]
    ensures OccursAt(s, r, i)
  {
    assert s[i..][..|r|] == s[i..i + |r|];
  }

  lemma TrimTailSpace(s: string)
    ensures var t := TrimStart(s);
      forall k :: |s| - |t| + |TrimEnd(t)| <= k < |s| ==> IsSpace(s[k])
  {
    var t := TrimStart(s);
    var r := TrimEnd(t);
    var i := |s| - |t|;
    forall k | i + |r| <= k < |s|
      ensures IsSpace(s[k])
    {
      assert s[k] == t[k - i];
    }
  }

  /** Everything `trim` keeps is the input minus white space at the ends: a
      string with a non-space character keeps it. */
  lemma TrimKeepsNonSpace(s: string, k: int)
    requires 0 <= k < |s| && !IsSpace(s[k])
    ensures exists i :: DropsOnlySpace(s, Trim(s), i) && i <= k < i + |Trim(s)|
  {
    var i :| DropsOnlySpace(s, Trim(s), i);
  }

  /** Trimming a trimmed string changes nothing, so `trim` is idempotent. */
  lemma TrimOfTrimmed(s: string)
    requires Trimmed(s)
    ensures Trim(s) == s
  {
  }

  lemma TrimIdempotent(s: string)
    ensures Trim(Trim(s)) == Trim(s)
  {
    TrimOfTrimmed(Trim(s));
  }

  // ---------------------------------------------------------------------------
  // parseInt
  // ---------------------------------------------------------------------------

  /** The value of `c` as a digit in any radix up to 36, if it is one. */
  function DigitValue(c: char): (r: Option<nat>)
    ensures r.Some? ==> r.value < 36
    ensures ('0' <= c <= '9') <==> (r.Some? && r.value < 10)
  {
    if '0' <= c <= '9' then Some(c as int - '0' as int)
    else if 'a' <= c <= 'z' then Some(c as int - 'a' as int + 10)
    else if 'A' <= c <= 'Z' then Some(c as int - 'A' as int + 10)
    else None
  }

  predicate IsDigit(c: char, radix: nat)
  {
    DigitValue(c).Some? && DigitValue(c).value < radix
  }

  /** The longest prefix of `s` made of digits of `radix`. */
  function DigitPrefix(s: string, radix: nat): (r: string)
    ensures |r| <= |s| && r == s[..|r|]
    ensures forall k :: 0 <= k < |r| ==> IsDigit(r[k], radix)
    ensures |r| < |s| ==> !IsDigit(s[|r|], radix)
  {
    if s != [] && IsDigit(s[0], radix) then [s[0]] + DigitPrefix(s[1..], radix) else []
  }

  /** The product of two naturals, whose sign the solver need not find. */
  function NatTimes(a: nat, b: nat): (r: nat)
    ensures r == a * b
  {
    assert a * b >= 0 by {
      if a > 0 && b > 0 { assert a * b >= b; }
    }
    a * b
  }

  /** The number a digit string denotes, most significant digit first. */
  function DigitsValue(ds: string, radix: nat): nat
    requires forall k :: 0 <= k < |ds| ==> IsDigit(ds[k], radix)
  {
    if ds == [] then 0
    else
      var last := ds[|ds| - 1];
      var init := ds[..|ds| - 1];
      assert forall k :: 0 <= k < |init| ==> init[k] == ds[k];
      assert IsDigit(last, radix);
      var high: nat := DigitsValue(init, radix);
      var shifted: nat := NatTimes(high, radix);
      shifted + DigitValue(last).value
  }

  /** Reads the unsigned part of a numeral: a `0x`/`0X` prefix selects
      hexadecimal when the radix is omitted (0) or 16; then the longest
      digit prefix is read, and no digit at all is NaN (`None`). */
  function ParseUnsigned(u: string, radix: nat): (r: Option<nat>)
    ensures !HasHexPrefix(u) && radix != 0 ==>
      r == (if DigitPrefix(u, radix) == [] then None else Some(DigitsValue(DigitPrefix(u, radix), radix)))
    ensures r.None? <==> DigitPrefix(if HasHexPrefix(u) && (radix == 0 || radix == 16) then u[2..] else u,
                                    if HasHexPrefix(u) && radix == 0 then 16 else if radix == 0 then 10 else radix) == []
  {
    var hex := (radix == 0 || radix == 16) && HasHexPrefix(u);
    var base := if hex then 16 else if radix == 0 then 10 else radix;
    var ds := DigitPrefix(if hex then u[2..] else u, base);
    if ds == [] then None else Some(DigitsValue(ds, base))
  }

  /** `u` starts with `0x` or `0X`. */
  predicate HasHexPrefix(u: string)
  {
    |u| >= 2 && u[0] == '0' && (u[1] == 'x' || u[1] == 'X')
  }

  /** With radix 16 or no radix, a `0x` prefix is skipped and the rest is
      read in hexadecimal. */
  lemma HexPrefixSkipped(u: string, radix: nat)
    requires radix == 0 || radix == 16
    ensures ParseUnsigned("0x" + u, radix) == ParseUnsigned("0X" + u, radix)
    ensures ParseUnsigned("0x" + u, radix) ==
      (if DigitPrefix(u, 16) == [] then None else Some(DigitsValue(DigitPrefix(u, 16), 16)))
  {
    assert ("0x" + u)[2..] == u;
    assert ("0X" + u)[2..] == u;
  }

  /** Without a `0x` prefix, an omitted radix reads decimal. */
  lemma NoRadixReadsDecimal(u: string)
    requires !HasHexPrefix(u)
    ensures ParseUnsigned(u, 0) == ParseUnsigned(u, 10)
  {
  }

  /** "0x1F" reads as 31 when the radix is omitted. */
  lemma HexSample()
    ensures ParseUnsigned("0x1F", 0) == Some(31)
  {
    HexPrefixSkipped("1F", 0);
    assert DigitPrefix("", 16) == "";
    assert DigitPrefix("F", 16) == "F";
    assert DigitPrefix("1F", 16) == "1F";
    assert DigitsValue("1", 16) == 1;
    assert "1F"[..1] == "1";
  }

  /** JavaScript `parseInt(s, radix)`, with `radix == 0` standing for an
      omitted radix (`ToInt32(undefined)` is 0). `None` is NaN. Leading
      white space is skipped and one sign is taken before the digits; a
      radix outside 2..36 gives NaN. */
  function ParseInt(s: string, radix: nat): (r: Option<int>)
    ensures radix != 0 && (radix < 2 || radix > 36) ==> r.None?
    ensures r == ParseSigned(TrimStart(s), radix)
  {
    ParseSigned(TrimStart(s), radix)
  }

  /** `parseInt` once the leading white space is gone: one optional sign,
      then the unsigned part. */
  function ParseSigned(t: string, radix: nat): (r: Option<int>)
    ensures radix != 0 && (radix < 2 || radix > 36) ==> r.None?
    ensures t != [] && t[0] == '-' && (radix == 0 || 2 <= radix <= 36) ==>
      r == (match ParseUnsigned(t[1..], radix) case None => None case Some(v) => Some(-(v as int)))
    ensures t != [] && t[0] == '+' && (radix == 0 || 2 <= radix <= 36) ==>
      r == (match ParseUnsigned(t[1..], radix) case None => None case Some(v) => Some(v as int))
  {
    var signed := t != [] && (t[0] == '-' || t[0] == '+');
    if radix != 0 && (radix < 2 || radix > 36) then None
    else match ParseUnsigned(if signed then t[1..] else t, radix)
      case None => None
      case Some(v) => Some(if signed && t[0] == '-' then -(v as int) else v)
  }

  /** Leading white space does not change what `parseInt` reads. */
  lemma ParseIntSkipsSpace(c: char, s: string, radix: nat)
    requires IsSpace(c)
    ensures ParseInt([c] + s, radix) == ParseInt(s, radix)
  {
    TrimStartSkipsSpace(c, s);
  }

  lemma TrimStartSkipsSpace(c: char, s: string)
    requires IsSpace(c)
    ensures TrimStart([c] + s) == TrimStart(s)
  {
    assert ([c] + s)[1..] == s;
  }

  /** The decimal numeral of `n`, as `String(n)` writes it. */
  function DecimalString(n: nat): (r: string)
    ensures r != []
    ensures forall k :: 0 <= k < |r| ==> '0' <= r[k] <= '9'
  {
    if n < 10 then [('0' as int + n) as char]
    else DecimalString(n / 10) + [('0' as int + n % 10) as char]
  }

  lemma {:induction false} DecimalStringValue(n: nat)
    ensures forall k :: 0 <= k < |DecimalString(n)| ==> IsDigit(DecimalString(n)[k], 10)
    ensures DigitsValue(DecimalString(n), 10) == n
  {
    var s := DecimalString(n);
    if n >= 10 {
      DecimalStringValue(n / 10);
      assert s[..|s| - 1] == DecimalString(n / 10);
    }
  }

  lemma DigitPrefixOfDigits(s: string, radix: nat)
    requires forall k :: 0 <= k < |s| ==> IsDigit(s[k], radix)
    ensures DigitPrefix(s, radix) == s
  {
  }

  lemma ParseUnsignedDecimal(n: nat, radix: nat)
    requires radix == 0 || radix == 10
    ensures ParseUnsigned(DecimalString(n), radix) == Some(n)
  {
    var s := DecimalString(n);
    DecimalStringValue(n);
    DigitPrefixOfDigits(s, 10);
    assert DigitPrefix(s, 10) == s && DigitsValue(s, 10) == n;
    assert !(|s| >= 2 && s[0] == '0' && (s[1] == 'x' || s[1] == 'X')) by {
      if |s| >= 2 {
        assert '0' <= s[1] <= '9';
      }
    }
  }

  /** `parseInt` reads back what `String(n)` writes, with radix 10 or with
      the radix omitted. */
  lemma ParseDecimalString(n: nat, radix: nat)
    requires radix == 0 || radix == 10
    ensures ParseInt(DecimalString(n), radix) == Some(n)
  {
    var s := DecimalString(n);
    assert !IsSpace(s[0]) && s[0] != '-' && s[0] != '+';
    assert TrimStart(s) == s;
    ParseUnsignedDecimal(n, radix);
  }

  /** A minus sign in front of a numeral negates the value read. */
  lemma ParseNegativeDecimalString(n: nat, radix: nat)
    requires radix == 0 || radix == 10
    ensures ParseInt(['-'] + DecimalString(n), radix) == Some(-(n as int))
  {
    var t := ['-'] + DecimalString(n);
    SignedNotTrimmed('-', DecimalString(n));
    assert t[1..] == DecimalString(n);
    ParseUnsignedDecimal(n, radix);
    NegatedRead(t, radix, n);
  }

  lemma NegatedRead(t: string, radix: nat, n: nat)
    requires radix == 0 || radix == 10
    requires t != [] && t[0] == '-' && ParseUnsigned(t[1..], radix) == Some(n)
    ensures ParseSigned(t, radix) == Some(-(n as int))
  {
  }

  /** A sign is not white space, so nothing in front of it is skipped. */
  lemma SignedNotTrimmed(sign: char, u: string)
    requires sign == '-' || sign == '+'
    ensures TrimStart([sign] + u) == [sign] + u
  {
    assert ([sign] + u)[0] == sign;
  }
}
