/**
 * The part of glibc's sscanf that the channel loader relies on: conversions
 * %[^:] (a non-empty run of characters other than ':') and %u (an unsigned
 * decimal number), separated by literal ':' characters in the format.
 * Scanning stops at the first conversion or literal that does not match;
 * the conversions matched before it keep their values.
 */
module Scanf {
  import opened Wrappers
  import opened Decimal

  /** The largest unsigned long on an LP64 target; strtoul saturates there. */
  const ULONG_MAX: int := 0xFFFF_FFFF_FFFF_FFFF

  /**
   * The text sscanf sees in a buffer: it reads the buffer as a C string, so
   * it stops at the first NUL character.
   */
  function CString(buf: string): (s: string)
    ensures s <= buf && '\0' !in s
    ensures |s| < |buf| ==> buf[|s|] == '\0'
  {
    if buf == [] || buf[0] == '\0' then [] else [buf[0]] + CString(buf[1..])
  }

  /** A buffer without NUL is seen whole. */
  lemma CStringWhole(buf: string)
    requires '\0' !in buf
    ensures CString(buf) == buf
  {
  }

  /** A conversion of the format: %[^:] or %u. */
  datatype Conversion = NonColons | Unsigned

  /** What one conversion matched. */
  datatype Field = Text(text: string) | Num(num: uint32)

  predicate ColonFree(t: string) {
    forall i :: 0 <= i < |t| ==> t[i] != ':'
  }

  /** isspace() in the C locale: the characters %u skips before its number. */
  predicate IsSpace(c: char) {
    c == ' ' || c == '\t' || c == '\n' || c == '\U{B}' || c == '\U{C}' || c == '\r'
  }

  /** A field this conversion can produce: %[^:] a non-empty colon-free text, %u a number. */
  predicate Fits(c: Conversion, f: Field) {
    match c
    case NonColons => f.Text? && f.text != [] && ColonFree(f.text)
    case Unsigned => f.Num?
  }

  /** True when the input after a field cannot extend that field. */
  predicate Ends(c: Conversion, rest: string) {
    match c
    case NonColons => rest == [] || rest[0] == ':'
    case Unsigned => rest == [] || !IsDigit(rest[0])
  }

  /** Length of the longest prefix of s without ':'. */
  function NonColonRun(s: string): (n: nat)
    ensures n <= |s| && ColonFree(s[..n])
    ensures n < |s| ==> s[n] == ':'
  {
    if s == [] || s[0] == ':' then 0 else 1 + NonColonRun(s[1..])
  }

  /** Length of the longest prefix of s made of decimal digits. */
  function DigitRun(s: string): (n: nat)
    ensures n <= |s| && AllDigits(s[..n])
    ensures n < |s| ==> !IsDigit(s[n])
  {
    if s == [] || !IsDigit(s[0]) then 0 else 1 + DigitRun(s[1..])
  }

  /** Length of the longest prefix of s made of white space. */
  function SpaceRun(s: string): (n: nat)
    ensures n <= |s| && forall i :: 0 <= i < n ==> IsSpace(s[i])
    ensures n < |s| ==> !IsSpace(s[n])
  {
    if s == [] || !IsSpace(s[0]) then 0 else 1 + SpaceRun(s[1..])
  }

  /**
   * The unsigned int that %u stores for a digit string of value v, with or
   * without a leading '-': strtoul saturates at ULONG_MAX, negates modulo
   * 2^64, and the store into an unsigned int keeps the low 32 bits.
   */
  function StoredUnsigned(negative: bool, v: nat): (r: uint32)
    ensures !negative && v < UINT_LIMIT ==> r == v
    ensures v > ULONG_MAX ==> r == UINT_LIMIT - 1
    ensures negative && 0 < v < UINT_LIMIT ==> r == UINT_LIMIT - v
  {
    var ul := if v > ULONG_MAX then ULONG_MAX
              else if negative then (ULONG_MAX + 1 - v) % (ULONG_MAX + 1)
              else v;
    ul % UINT_LIMIT
  }

  /**
   * Up to ULONG_MAX, the stored value is the signed value of the digits
   * reduced modulo 2^32, since negating modulo 2^64 leaves the low 32 bits
   * of -v as they are.
   */
  lemma StoredUnsignedWraps(negative: bool, v: nat)
    requires v <= ULONG_MAX
    ensures StoredUnsigned(negative, v) == (if negative then -(v as int) else v as int) % UINT_LIMIT
  {
  }

  /** %u: skip white space, take an optional sign, then at least one digit. */
  function ScanUnsigned(s: string): (r: Option<(uint32, string)>)
    ensures r.Some? ==> |r.value.1| < |s|
  {
    var t := s[SpaceRun(s)..];
    var signed := |t| > 0 && (t[0] == '-' || t[0] == '+');
    var u := if signed then t[1..] else t;
    var d := DigitRun(u);
    if d == 0 then None
    else Some((StoredUnsigned(signed && t[0] == '-', DigitsValue(u[..d])), u[d..]))
  }

  predicate AllSpace(ws: string) {
    forall i :: 0 <= i < |ws| ==> IsSpace(ws[i])
  }

  /** The optional sign %u accepts: nothing, '+' or '-'. */
  predicate IsSign(sign: string) {
    sign == "" || sign == "+" || sign == "-"
  }

  lemma {:induction false} SpaceRunPrefix(ws: string, t: string)
    requires AllSpace(ws) && (t == [] || !IsSpace(t[0]))
    ensures SpaceRun(ws + t) == |ws|
  {
    if ws != [] {
      assert (ws + t)[1..] == ws[1..] + t;
      SpaceRunPrefix(ws[1..], t);
    }
  }

  lemma SkipSpaces(ws: string, t: string)
    requires AllSpace(ws) && (t == [] || !IsSpace(t[0]))
    ensures (ws + t)[SpaceRun(ws + t)..] == t
  {
    SpaceRunPrefix(ws, t);
  }

  /** What %u sees after its white space and sign: the text after them, and whether it is negated. */
  lemma ScanUnsignedSkips(ws: string, sign: string, u: string)
    requires AllSpace(ws) && IsSign(sign)
    requires sign == "" ==> u == [] || !(IsSpace(u[0]) || u[0] == '+' || u[0] == '-')
    ensures ScanUnsigned(ws + (sign + u))
         == if DigitRun(u) == 0 then None
            else Some((StoredUnsigned(sign == "-", DigitsValue(u[..DigitRun(u)])), u[DigitRun(u)..]))
  {
    var t := sign + u;
    SkipSpaces(ws, t);
    if sign == "" {
      assert t == u;
    } else {
      assert t[0] == sign[0] && t[1..] == u;
    }
  }

  /**
   * %u matches white space, an optional sign and a run of digits, stores the
   * value of the digits (negated when the sign is '-'), and leaves the input
   * after the digits.
   */
  lemma ScanUnsignedReads(ws: string, sign: string, digits: string, rest: string)
    requires AllSpace(ws) && IsSign(sign)
    requires digits != [] && AllDigits(digits)
    requires rest == [] || !IsDigit(rest[0])
    ensures ScanUnsigned(ws + sign + digits + rest)
         == Some((StoredUnsigned(sign == "-", DigitsValue(digits)), rest))
  {
    var u := digits + rest;
    assert ws + sign + digits + rest == ws + (sign + u);
    assert IsDigit(u[0]);
    ScanUnsignedSkips(ws, sign, u);
    DigitsRun(digits, rest);
    assert u[..|digits|] == digits && u[|digits|..] == rest;
  }

  /** With no digit after the white space and the optional sign, %u does not match. */
  lemma ScanUnsignedFails(ws: string, sign: string, rest: string)
    requires AllSpace(ws) && IsSign(sign)
    requires rest == [] || !IsDigit(rest[0])
    requires sign == "" ==> rest == [] || !(IsSpace(rest[0]) || rest[0] == '+' || rest[0] == '-')
    ensures ScanUnsigned(ws + sign + rest) == None
  {
    assert ws + sign + rest == ws + (sign + rest);
    ScanUnsignedSkips(ws, sign, rest);
  }

  /** One conversion applied to the unread input: the field matched and the input left. */
  function Convert(s: string, c: Conversion): (r: Option<(Field, string)>)
    ensures r.Some? ==> Fits(c, r.value.0) && Ends(c, r.value.1)
    ensures r.Some? ==> |r.value.1| < |s|
  {
    match c
    case NonColons =>
      var n := NonColonRun(s);
      if n == 0 then None else Some((Text(s[..n]), s[n..]))
    case Unsigned =>
      match ScanUnsigned(s)
      case None => None
      case Some((v, rest)) =>
        var d := DigitRun(rest);
        assert rest == [] || !IsDigit(rest[0]) by {
          var t := s[SpaceRun(s)..];
          var u := if |t| > 0 && (t[0] == '-' || t[0] == '+') then t[1..] else t;
          assert rest == u[DigitRun(u)..];
        }
        Some((Num(v), rest))
  }

  /**
   * Runs the conversions over s, expecting ':' between two conversions, and
   * returns the fields matched before the first mismatch (all of them when s
   * matches the whole format).
   */
  function Run(s: string, convs: seq<Conversion>): (r: seq<Field>)
    ensures |r| <= |convs|
    ensures forall i :: 0 <= i < |r| ==> Fits(convs[i], r[i])
    decreases |convs|
  {
    if convs == [] then []
    else
      match Convert(s, convs[0])
      case None => []
      case Some((f, rest)) =>
        if |convs| > 1 && rest != [] && rest[0] == ':' then [f] + Run(rest[1..], convs[1..])
        else [f]
  }

  /** The text a field stands for in an input line. */
  function Render(f: Field): string {
    match f
    case Text(t) => t
    case Num(n) => Dec(n)
  }

  /** The input line made of the given fields joined by ':'. */
  function Line(fields: seq<Field>): string
    requires |fields| > 0
  {
    if |fields| == 1 then Render(fields[0]) else Render(fields[0]) + ":" + Line(fields[1..])
  }

  lemma {:induction false} ColonFreeRun(t: string, rest: string)
    requires ColonFree(t) && (rest == [] || rest[0] == ':')
    ensures NonColonRun(t + rest) == |t|
  {
    if t != [] {
      assert (t + rest)[1..] == t[1..] + rest;
      ColonFreeRun(t[1..], rest);
    }
  }

  lemma {:induction false} DigitsRun(t: string, rest: string)
    requires AllDigits(t) && (rest == [] || !IsDigit(rest[0]))
    ensures DigitRun(t + rest) == |t|
  {
    if t != [] {
      assert (t + rest)[1..] == t[1..] + rest;
      DigitsRun(t[1..], rest);
    }
  }

  /** A single conversion reads back the field it is given, and leaves the rest. */
  lemma ConvertRender(c: Conversion, f: Field, rest: string)
    requires Fits(c, f) && Ends(c, rest)
    ensures Convert(Render(f) + rest, c) == Some((f, rest))
  {
    var s := Render(f) + rest;
    match c
    case NonColons =>
      ColonFreeRun(f.text, rest);
      assert s[..|f.text|] == f.text && s[|f.text|..] == rest;
    case Unsigned =>
      var t := Dec(f.num);
      assert s[0] == t[0];
      assert SpaceRun(s) == 0;
      DigitsRun(t, rest);
      assert s[..|t|] == t && s[|t|..] == rest;
      DecRoundTrip(f.num);
  }

  lemma RunStep(s: string, convs: seq<Conversion>, f: Field, after: string)
    requires |convs| > 1 && Convert(s, convs[0]) == Some((f, ":" + after))
    ensures Run(s, convs) == [f] + Run(after, convs[1..])
  {
    assert (":" + after)[1..] == after;
  }

  /** Line(fields) + tail splits after the first field and the ':' that follows it. */
  lemma LineCons(fields: seq<Field>, tail: string)
    requires |fields| > 1
    ensures Line(fields) + tail == Render(fields[0]) + (":" + (Line(fields[1..]) + tail))
  {
  }

  /** The inductive step of RunLine: the first field is read back, then the rest. */
  lemma RunLineCons(fields: seq<Field>, convs: seq<Conversion>, tail: string)
    requires |fields| == |convs| > 1 && Fits(convs[0], fields[0])
    requires Run(Line(fields[1..]) + tail, convs[1..]) == fields[1..]
    ensures Run(Line(fields) + tail, convs) == fields
  {
    var after := Line(fields[1..]) + tail;
    LineCons(fields, tail);
    ConvertRender(convs[0], fields[0], ":" + after);
    RunStep(Render(fields[0]) + (":" + after), convs, fields[0], after);
    assert [fields[0]] + fields[1..] == fields;
  }

  /**
   * Scanning a line built from fields that fit the conversions gives back
   * exactly those fields, whatever follows the last one, as long as it does
   * not extend it.
   */
  lemma {:induction false} RunLine(fields: seq<Field>, convs: seq<Conversion>, tail: string)
    requires |fields| == |convs| > 0
    requires forall i :: 0 <= i < |fields| ==> Fits(convs[i], fields[i])
    requires Ends(convs[|convs| - 1], tail)
    ensures Run(Line(fields) + tail, convs) == fields
  {
    if |fields| == 1 {
      ConvertRender(convs[0], fields[0], tail);
    } else {
      RunLine(fields[1..], convs[1..], tail);
      RunLineCons(fields, convs, tail);
    }
  }
}
