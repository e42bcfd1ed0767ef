/** Spelling a string inside canonical JSON, and reading it back. */
module JsonText {
  import opened Text

  /** A Python string is a sequence of code points, surrogates included. */
  type CodePoint = c: int | 0 <= c < 0x11_0000

  type Str = seq<CodePoint>

  type Unit = u: int | 0 <= u < 0x1_0000

  predicate High(c: int) { 0xD800 <= c < 0xDC00 }

  predicate Low(c: int) { 0xDC00 <= c < 0xE000 }

  // ----- UTF-16, section 2 of RFC 2781 -----

  function UnitsOf(c: CodePoint): seq<Unit>
  {
    if c < 0x1_0000 then [c]
    else [0xD800 + (c - 0x1_0000) / 0x400, 0xDC00 + (c - 0x1_0000) % 0x400]
  }

  function Units(s: Str): seq<Unit>
  {
    if s == [] then [] else UnitsOf(s[0]) + Units(s[1..])
  }

  /** No high surrogate is directly followed by a low one. Decoding JSON text never produces
      such a pair, since it joins the two into one code point. */
  predicate Joined(s: Str)
  {
    forall i :: 0 <= i < |s| - 1 ==> !(High(s[i]) && Low(s[i + 1]))
  }

  lemma {:induction false} UnitsHead(s: Str)
    requires s != []
    ensures Units(s) != [] && Units(s)[0] == UnitsOf(s[0])[0]
    ensures Low(Units(s)[0]) ==> Low(s[0])
  {
  }

  lemma {:induction false} UnitsInjective(s: Str, t: Str)
    requires Joined(s) && Joined(t) && Units(s) == Units(t)
    ensures s == t
  {
    if s == [] || t == [] {
      if s != [] { UnitsHead(s); }
      if t != [] { UnitsHead(t); }
    } else {
      assert Units(s)[..1] == Units(t)[..1];
      HeadsAgree(s, t);
      assert Units(s[1..]) == Units(s)[|UnitsOf(s[0])|..] && Units(t[1..]) == Units(t)[|UnitsOf(t[0])|..];
      UnitsInjective(s[1..], t[1..]);
      assert s == [s[0]] + s[1..] && t == [t[0]] + t[1..];
    }
  }

  lemma {:induction false} HeadsAgree(s: Str, t: Str)
    requires Joined(s) && Joined(t) && Units(s) == Units(t) && s != [] && t != []
    ensures s[0] == t[0]
  {
    if s[0] >= 0x1_0000 && t[0] < 0x1_0000 {
      PairIsNotSplit(s, t);
    } else if t[0] >= 0x1_0000 && s[0] < 0x1_0000 {
      PairIsNotSplit(t, s);
    } else if s[0] >= 0x1_0000 {
      assert Units(s)[0] == UnitsOf(s[0])[0] && Units(s)[1] == UnitsOf(s[0])[1];
      assert Units(t)[0] == UnitsOf(t[0])[0] && Units(t)[1] == UnitsOf(t[0])[1];
    } else {
      UnitsHead(s);
      UnitsHead(t);
    }
  }

  lemma {:induction false} PairIsNotSplit(s: Str, t: Str)
    requires Units(s) == Units(t) && s != [] && t != [] && s[0] >= 0x1_0000 && t[0] < 0x1_0000
    ensures !Joined(t)
  {
    assert Units(s)[0] == UnitsOf(s[0])[0] && Units(s)[1] == UnitsOf(s[0])[1];
    assert Units(t) == [t[0]] + Units(t[1..]);
    assert Low(Units(t[1..])[0]);
    UnitsHead(t[1..]);
    assert High(t[0]) && Low(t[1]);
  }

  // ----- Escapes, section 7 of RFC 8259 -----

  function HexDigit(n: int): Byte
    requires 0 <= n < 16
  {
    if n < 10 then 48 + n else 87 + n
  }

  function Hex4(u: Unit): Text
  {
    var a := u / 16;
    var b := a / 16;
    [HexDigit(b / 16), HexDigit(b % 16), HexDigit(a % 16), HexDigit(u % 16)]
  }

  lemma {:induction false} HexInjective(u: Unit, v: Unit)
    requires Hex4(u) == Hex4(v)
    ensures u == v
  {
    assert Hex4(u)[0] == Hex4(v)[0] && Hex4(u)[1] == Hex4(v)[1] && Hex4(u)[2] == Hex4(v)[2] && Hex4(u)[3] == Hex4(v)[3];
    assert u / 16 / 16 == v / 16 / 16;
    assert u / 16 == v / 16;
  }

  /** The letter of a two-character escape, or 0 when the unit has none. */
  function ShortEscape(u: Unit): Byte
  {
    if u == 34 then 34 else if u == 92 then 92 else if u == 8 then 98 else if u == 12 then 102
    else if u == 10 then 110 else if u == 13 then 114 else if u == 9 then 116 else 0
  }

  /** One unit as Python's encoder spells it: printable ASCII as itself, everything else escaped. */
  function EscapeUnit(u: Unit): (t: Text)
    ensures |t| >= 1 && t[0] != 34
    ensures forall i :: 0 <= i < |t| ==> 32 <= t[i] < 127
  {
    if ShortEscape(u) != 0 then [92, ShortEscape(u)]
    else if 32 <= u < 127 then [u]
    else [92, 117] + Hex4(u)
  }

  lemma {:induction false} EscapeUnitReadable(u: Unit, v: Unit, x: Text, y: Text)
    requires EscapeUnit(u) + x == EscapeUnit(v) + y
    ensures u == v && x == y
  {
    var a, b := EscapeUnit(u) + x, EscapeUnit(v) + y;
    assert a[0] == b[0];
    if |EscapeUnit(u)| > 1 || |EscapeUnit(v)| > 1 {
      assert a[0] == 92;
      assert a[1] == b[1] == EscapeUnit(u)[1] == EscapeUnit(v)[1];
      if |EscapeUnit(u)| == 6 {
        assert a[2..6] == Hex4(u) && b[2..6] == Hex4(v);
        HexInjective(u, v);
      }
    }
    assert x == a[|EscapeUnit(u)|..] && y == b[|EscapeUnit(v)|..];
  }

  function EscapeUnits(us: seq<Unit>): (t: Text)
    ensures forall i :: 0 <= i < |t| ==> 32 <= t[i] < 127
  {
    if us == [] then [] else EscapeUnit(us[0]) + EscapeUnits(us[1..])
  }

  const QUOTE: Byte := 34

  lemma {:induction false} EscapeUnitsStart(us: seq<Unit>, x: Text)
    ensures var a := EscapeUnits(us) + ([QUOTE] + x);
            && (a[0] == QUOTE <==> us == [])
            && (us == [] ==> a[1..] == x)
            && (us != [] ==> a == EscapeUnit(us[0]) + (EscapeUnits(us[1..]) + ([QUOTE] + x)))
  {
    var tail := [QUOTE] + x;
    if us == [] {
      assert EscapeUnits(us) + tail == tail;
    } else {
      var head, rest := EscapeUnit(us[0]), EscapeUnits(us[1..]);
      assert EscapeUnits(us) + tail == head + (rest + tail);
      assert (EscapeUnits(us) + tail)[0] == head[0];
    }
  }

  lemma {:induction false} EscapeUnitsReadable(us: seq<Unit>, vs: seq<Unit>, x: Text, y: Text)
    requires EscapeUnits(us) + ([QUOTE] + x) == EscapeUnits(vs) + ([QUOTE] + y)
    ensures us == vs && x == y
  {
    EscapeUnitsStart(us, x);
    EscapeUnitsStart(vs, y);
    if us != [] {
      EscapeUnitReadable(us[0], vs[0], EscapeUnits(us[1..]) + ([QUOTE] + x), EscapeUnits(vs[1..]) + ([QUOTE] + y));
      EscapeUnitsReadable(us[1..], vs[1..], x, y);
      assert us == [us[0]] + us[1..] && vs == [vs[0]] + vs[1..];
    }
  }

  // ----- UTF-8, section 3 of RFC 3629 -----

  predicate Surrogate(c: int) { 0xD800 <= c < 0xE000 }

  function EncodeChar(c: CodePoint): (t: Text)
    ensures |t| >= 1
    ensures c >= 0x80 ==> forall i :: 0 <= i < |t| ==> t[i] >= 0x80
  {
    var p := c / 64;
    var q := p / 64;
    if c < 0x80 then [c]
    else if c < 0x800 then [0xC0 + p, 0x80 + c % 64]
    else if c < 0x1_0000 then [0xE0 + q, 0x80 + p % 64, 0x80 + c % 64]
    else [0xF0 + q / 64, 0x80 + q % 64, 0x80 + p % 64, 0x80 + c % 64]
  }

  lemma {:induction false} EncodeCharInjective(c: CodePoint, d: CodePoint)
    requires |EncodeChar(c)| == |EncodeChar(d)|
    requires forall i :: 0 <= i < |EncodeChar(c)| ==> EncodeChar(c)[i] == EncodeChar(d)[i]
    ensures c == d
  {
    var n := |EncodeChar(c)|;
    assert EncodeChar(c)[n - 1] == EncodeChar(d)[n - 1];
    if n >= 2 {
      assert EncodeChar(c)[n - 2] == EncodeChar(d)[n - 2];
      if n >= 3 {
        assert EncodeChar(c)[n - 3] == EncodeChar(d)[n - 3];
        assert n == 4 ==> EncodeChar(c)[0] == EncodeChar(d)[0];
        assert c / 64 / 64 == d / 64 / 64;
      }
      assert c / 64 == d / 64;
    }
  }

  lemma {:induction false} EncodeCharLength(c: CodePoint, d: CodePoint)
    requires EncodeChar(c)[0] == EncodeChar(d)[0]
    ensures |EncodeChar(c)| == |EncodeChar(d)|
  {
  }

  lemma {:induction false} EncodeCharReadable(c: CodePoint, d: CodePoint, x: Text, y: Text)
    requires EncodeChar(c) + x == EncodeChar(d) + y
    ensures c == d && x == y
  {
    var a, b, n := EncodeChar(c) + x, EncodeChar(d) + y, |EncodeChar(c)|;
    assert a[0] == EncodeChar(c)[0] && b[0] == EncodeChar(d)[0];
    EncodeCharLength(c, d);
    forall i | 0 <= i < n ensures EncodeChar(c)[i] == EncodeChar(d)[i] {
      assert a[i] == EncodeChar(c)[i] && b[i] == EncodeChar(d)[i];
    }
    EncodeCharInjective(c, d);
    assert x == a[n..] && y == b[n..];
  }

  function Encode(s: Str): Text
  {
    if s == [] then [] else EncodeChar(s[0]) + Encode(s[1..])
  }

  lemma {:induction false} EncodeInjective(s: Str, t: Str)
    requires Encode(s) == Encode(t)
    ensures s == t
  {
    if s == [] || t == [] {
      assert s == t;
    } else {
      EncodeCharReadable(s[0], t[0], Encode(s[1..]), Encode(t[1..]));
      EncodeInjective(s[1..], t[1..]);
      assert s == [s[0]] + s[1..] && t == [t[0]] + t[1..];
    }
  }
}
