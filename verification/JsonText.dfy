/** JSON strings over UTF-16 code units, as JSON.stringify writes them (section 7 of RFC 8259). */
module JsonText {
  import opened Basics
  import opened Ordering

  type Unit = n: int | 0 <= n < 0x10000

  type Text = seq<Unit>

  const QUOTE: Unit := 34
  const BACKSLASH: Unit := 92
  const LETTER_U: Unit := 117

  predicate IsHigh(u: Unit) { 0xD800 <= u <= 0xDBFF }

  predicate IsLow(u: Unit) { 0xDC00 <= u <= 0xDFFF }

  function HexDigit(n: int): Unit
    requires 0 <= n < 16
  {
    if n < 10 then 48 + n else 87 + n
  }

  function Hex4(u: Unit): (r: Text)
    ensures |r| == 4
  {
    var high := u / 16 / 16;
    [HexDigit(high / 16), HexDigit(high % 16), HexDigit(u / 16 % 16), HexDigit(u % 16)]
  }

  /** The letter after the backslash, for the units that have a short escape. */
  function ShortEscape(u: Unit): Option<Unit> {
    if u == 34 then Some(34)
    else if u == 92 then Some(92)
    else if u == 8 then Some(98)
    else if u == 12 then Some(102)
    else if u == 10 then Some(110)
    else if u == 13 then Some(114)
    else if u == 9 then Some(116)
    else None
  }

  /** One unit on its own; a surrogate here is a lone one. */
  function EscapeUnit(u: Unit): Text {
    if ShortEscape(u).Some? then [BACKSLASH, ShortEscape(u).value]
    else if u < 32 || IsHigh(u) || IsLow(u) then [BACKSLASH, LETTER_U] + Hex4(u)
    else [u]
  }

  /** A surrogate pair is written as it is, everything else unit by unit. */
  function Escape(s: Text): Text {
    if s == [] then []
    else if |s| >= 2 && IsHigh(s[0]) && IsLow(s[1]) then [s[0], s[1]] + Escape(s[2..])
    else EscapeUnit(s[0]) + Escape(s[1..])
  }

  function Quote(s: Text): Text { [QUOTE] + Escape(s) + [QUOTE] }

  // ---- Reading back ----

  datatype Read<+T> = Read(value: T, rest: Text)

  function HexValue(u: Unit): Option<int> {
    if 48 <= u <= 57 then Some(u - 48) else if 97 <= u <= 102 then Some(u - 87) else None
  }

  function Hex4Value(a: Unit, b: Unit, c: Unit, d: Unit): Option<Unit> {
    if HexValue(a).None? || HexValue(b).None? || HexValue(c).None? || HexValue(d).None? then None
    else
      var n := HexValue(a).value * 4096 + HexValue(b).value * 256 + HexValue(c).value * 16 + HexValue(d).value;
      if 0 <= n < 0x10000 then Some(n) else None
  }

  function Unescaped(u: Unit): Option<Unit> {
    if u == 34 then Some(34)
    else if u == 92 then Some(92)
    else if u == 98 then Some(8)
    else if u == 102 then Some(12)
    else if u == 110 then Some(10)
    else if u == 114 then Some(13)
    else if u == 116 then Some(9)
    else None
  }

  /** The unit at the front, escaped or not, and how many units it took; None at the closing quote. */
  function ReadUnit(out: Text): Option<Read<Unit>>
    ensures ReadUnit(out).Some? ==> |ReadUnit(out).value.rest| < |out|
  {
    if out == [] || out[0] == QUOTE then None
    else if out[0] != BACKSLASH then Some(Read(out[0], out[1..]))
    else if |out| >= 6 && out[1] == LETTER_U then
      var u := Hex4Value(out[2], out[3], out[4], out[5]);
      if u.None? then None else Some(Read(u.value, out[6..]))
    else if |out| >= 2 && Unescaped(out[1]).Some? then Some(Read(Unescaped(out[1]).value, out[2..]))
    else None
  }

  /** What follows an opening quote, up to and past the closing one. */
  function ReadString(out: Text): (r: Option<Read<Text>>)
    ensures r.Some? ==> |r.value.rest| < |out|
    decreases |out|
  {
    if out != [] && out[0] == QUOTE then Some(Read([], out[1..]))
    else
      var u := ReadUnit(out);
      if u.None? then None
      else
        var more := ReadString(u.value.rest);
        if more.None? then None else Some(Read([u.value.value] + more.value.value, more.value.rest))
  }

  lemma HexDigitRoundTrip(n: int)
    requires 0 <= n < 16
    ensures HexValue(HexDigit(n)) == Some(n)
  {
  }

  lemma Hex4RoundTrip(u: Unit)
    ensures var h := Hex4(u); Hex4Value(h[0], h[1], h[2], h[3]) == Some(u)
  {
    var rest, high := u / 16, u / 16 / 16;
    HexDigitRoundTrip(u % 16);
    HexDigitRoundTrip(rest % 16);
    HexDigitRoundTrip(high % 16);
    HexDigitRoundTrip(high / 16);
    assert u == rest * 16 + u % 16 && rest == high * 16 + rest % 16 && high == high / 16 * 16 + high % 16;
  }

  lemma UnitReadsBack(u: Unit, rest: Text)
    ensures ReadUnit(EscapeUnit(u) + rest) == Some(Read(u, rest))
    ensures (EscapeUnit(u) + rest)[0] != QUOTE
  {
    var out := EscapeUnit(u) + rest;
    Hex4RoundTrip(u);
    if ShortEscape(u).Some? {
      assert out[2..] == rest;
    } else if u < 32 || IsHigh(u) || IsLow(u) {
      assert out[6..] == rest && out[2..6] == Hex4(u);
      assert out[2] == Hex4(u)[0] && out[3] == Hex4(u)[1] && out[4] == Hex4(u)[2] && out[5] == Hex4(u)[3];
    } else {
      assert out[1..] == rest;
    }
  }

  /** One more unit in front of what reads back. */
  lemma ReadOneMore(u: Unit, out: Text, tail: Text)
    requires out != [] && out[0] != QUOTE && ReadUnit(out) == Some(Read(u, tail)) && ReadString(tail).Some?
    ensures ReadString(out) == Some(Read([u] + ReadString(tail).value.value, ReadString(tail).value.rest))
  {
  }

  /** Whatever a string holds, lone surrogates and control characters included, its text reads back as itself. */
  lemma {:induction false} StringReadsBack(s: Text, rest: Text)
    ensures ReadString(Escape(s) + [QUOTE] + rest) == Some(Read(s, rest))
    decreases |s|
  {
    hide EscapeUnit, ReadUnit;
    var out := Escape(s) + [QUOTE] + rest;
    if s == [] {
      assert out == [QUOTE] + rest && out[1..] == rest;
    } else if |s| >= 2 && IsHigh(s[0]) && IsLow(s[1]) {
      var tail := Escape(s[2..]) + [QUOTE] + rest;
      StringReadsBack(s[2..], rest);
      assert out == [s[0]] + ([s[1]] + tail);
      PlainUnit(s[1], tail);
      ReadOneMore(s[1], [s[1]] + tail, tail);
      PlainUnit(s[0], [s[1]] + tail);
      ReadOneMore(s[0], out, [s[1]] + tail);
      assert s == [s[0]] + ([s[1]] + s[2..]);
    } else {
      var tail := Escape(s[1..]) + [QUOTE] + rest;
      StringReadsBack(s[1..], rest);
      assert out == EscapeUnit(s[0]) + tail;
      UnitReadsBack(s[0], tail);
      ReadOneMore(s[0], out, tail);
      assert s == [s[0]] + s[1..];
    }
  }

  lemma PlainUnit(u: Unit, tail: Text)
    requires u != QUOTE && u != BACKSLASH
    ensures ReadUnit([u] + tail) == Some(Read(u, tail))
  {
  }

  /** Nothing unprintable is left: no control character, and every surrogate stands in a pair. */
  ghost predicate IsPrintable(out: Text) {
    && (forall i | 0 <= i < |out| :: out[i] >= 32)
    && (forall i | 0 <= i < |out| && IsHigh(out[i]) :: i + 1 < |out| && IsLow(out[i + 1]))
    && (forall i | 0 <= i < |out| && IsLow(out[i]) :: i > 0 && IsHigh(out[i - 1]))
  }

  lemma PrintableParts(a: Text, b: Text)
    requires IsPrintable(a) && IsPrintable(b)
    ensures IsPrintable(a + b)
  {
  }

  lemma UnitIsPrintable(u: Unit)
    ensures IsPrintable(EscapeUnit(u))
  {
    if ShortEscape(u).None? && (u < 32 || IsHigh(u) || IsLow(u)) {
      HexIsPlain(u);
      PrintableParts([BACKSLASH, LETTER_U], Hex4(u));
    }
  }

  lemma HexIsPlain(u: Unit)
    ensures IsPrintable(Hex4(u))
  {
  }

  lemma {:induction false} EscapedIsPrintable(s: Text)
    ensures IsPrintable(Escape(s))
    decreases |s|
  {
    if s == [] {
    } else if |s| >= 2 && IsHigh(s[0]) && IsLow(s[1]) {
      EscapedIsPrintable(s[2..]);
      PrintableParts([s[0], s[1]], Escape(s[2..]));
    } else {
      hide IsPrintable, EscapeUnit;
      EscapedIsPrintable(s[1..]);
      UnitIsPrintable(s[0]);
      PrintableParts(EscapeUnit(s[0]), Escape(s[1..]));
    }
  }

  // ---- Key order: Array.prototype.sort on strings, by code units ----

  predicate TextLess(a: Text, b: Text)
    decreases |a|
  {
    if b == [] then false
    else if a == [] then true
    else a[0] < b[0] || (a[0] == b[0] && TextLess(a[1..], b[1..]))
  }

  lemma {:induction false} TextLessTransitive(a: Text, b: Text, c: Text)
    requires TextLess(a, b) && TextLess(b, c)
    ensures TextLess(a, c)
    decreases |a|
  {
    if a != [] && a[0] == b[0] == c[0] { TextLessTransitive(a[1..], b[1..], c[1..]); }
  }

  lemma {:induction false} TextLessTotal(a: Text, b: Text)
    ensures a == b || TextLess(a, b) || TextLess(b, a)
    ensures !TextLess(a, a)
    decreases |a|
  {
    if a != [] {
      TextLessTotal(a[1..], if b == [] then [] else b[1..]);
      if b != [] && a[0] == b[0] && a[1..] == b[1..] {
        assert a == [a[0]] + a[1..] && b == [b[0]] + b[1..];
      }
    }
  }

  lemma TextOrder()
    ensures StrictTotalOrder(TextLess)
  {
    forall a: Text, b: Text ensures !TextLess(a, a) && (a == b || TextLess(a, b) || TextLess(b, a)) {
      TextLessTotal(a, b);
    }
    forall a: Text, b: Text, c: Text | TextLess(a, b) && TextLess(b, c) ensures TextLess(a, c) {
      TextLessTransitive(a, b, c);
    }
  }
}
