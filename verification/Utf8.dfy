/** UTF-8 (RFC 3629, section 3): encoding, prefix-freedom and order. */
module Utf8 {
  type Byte = b: int | 0 <= b < 256
  type Bytes = seq<Byte>
  /** A Unicode scalar value. */
  type Rune = c: int | 0 <= c < 0x110000 && !(0xD800 <= c < 0xE000)
  type Runes = seq<Rune>

  function EncodeRune(c: Rune): (e: Bytes)
    ensures 1 <= |e| <= 4
  {
    if c < 0x80 then [c]
    else if c < 0x800 then [0xC0 + c / 64, 0x80 + c % 64]
    else if c < 0x10000 then [0xE0 + c / 4096, 0x80 + c / 64 % 64, 0x80 + c % 64]
    else [0xF0 + c / 262144, 0x80 + c / 4096 % 64, 0x80 + c / 64 % 64, 0x80 + c % 64]
  }

  function Encode(s: Runes): Bytes {
    if s == [] then [] else EncodeRune(s[0]) + Encode(s[1..])
  }

  predicate Continuation(b: Byte) {
    0x80 <= b < 0xC0
  }

  // ---- order ------------------------------------------------------------------------------

  /** Lexicographic order, a proper prefix first. */
  predicate Less(a: seq<int>, b: seq<int>) {
    if b == [] then false
    else if a == [] then true
    else a[0] < b[0] || (a[0] == b[0] && Less(a[1..], b[1..]))
  }

  lemma {:induction false} LessTotal(a: seq<int>, b: seq<int>)
    ensures a == b || Less(a, b) || Less(b, a)
    ensures !(Less(a, b) && Less(b, a)) && !Less(a, a)
  {
    if a != [] && b != [] {
      LessTotal(a[1..], b[1..]);
      if a[0] == b[0] && a[1..] == b[1..] {
        assert a == [a[0]] + a[1..] && b == [b[0]] + b[1..];
      }
      LessTotal(a[1..], a[1..]);
    } else if a != [] {
      LessTotal(a[1..], a[1..]);
    }
  }

  lemma {:induction false} LessTransitive(a: seq<int>, b: seq<int>, c: seq<int>)
    requires Less(a, b) && Less(b, c)
    ensures Less(a, c)
  {
    if a != [] && a[0] == b[0] == c[0] {
      LessTransitive(a[1..], b[1..], c[1..]);
    }
  }

  lemma {:induction false} LessAfter(p: seq<int>, a: seq<int>, b: seq<int>)
    ensures Less(p + a, p + b) <==> Less(a, b)
  {
    if p == [] {
      assert p + a == a && p + b == b;
    } else {
      assert (p + a)[1..] == p[1..] + a && (p + b)[1..] == p[1..] + b;
      LessAfter(p[1..], a, b);
    }
  }

  /** The first base-64 digit, from the left, in which two numbers differ. */
  lemma DigitsDiffer(c: nat, d: nat)
    requires c < d
    ensures c / 64 <= d / 64 && c / 4096 <= d / 4096 && c / 262144 <= d / 262144
    ensures c / 64 == d / 64 ==> c % 64 < d % 64 && c / 4096 == d / 4096
    ensures c / 4096 == d / 4096 ==> c / 262144 == d / 262144
    ensures c / 4096 == d / 4096 && c / 64 != d / 64 ==> c / 64 % 64 < d / 64 % 64
    ensures c / 262144 == d / 262144 && c / 4096 != d / 4096 ==> c / 4096 % 64 < d / 4096 % 64
  {
    Quotients(c);
    Quotients(d);
  }

  lemma Quotients(c: nat)
    ensures c / 4096 == c / 64 / 64 && c / 262144 == c / 4096 / 64
    ensures c == c / 64 * 64 + c % 64 && c / 64 == c / 4096 * 64 + c / 64 % 64 && c / 4096 == c / 262144 * 64 + c / 4096 % 64
  {
  }

  /** Encodings of a larger scalar first differ at a larger byte. */
  lemma FirstDifference(c: Rune, d: Rune) returns (i: nat)
    requires c < d
    ensures i < |EncodeRune(c)| && i < |EncodeRune(d)|
    ensures EncodeRune(c)[..i] == EncodeRune(d)[..i] && EncodeRune(c)[i] < EncodeRune(d)[i]
  {
    if |EncodeRune(c)| != |EncodeRune(d)| || c < 0x80 {
      i := 0;
    } else if c < 0x800 {
      i := TwoByteDifference(c, d);
    } else if c < 0x10000 {
      i := ThreeByteDifference(c, d);
    } else {
      i := FourByteDifference(c, d);
    }
  }

  lemma TwoByteDifference(c: Rune, d: Rune) returns (i: nat)
    requires 0x80 <= c < d < 0x800
    ensures i < 2 && EncodeRune(c)[..i] == EncodeRune(d)[..i] && EncodeRune(c)[i] < EncodeRune(d)[i]
  {
    DigitsDiffer(c, d);
    i := if c / 64 == d / 64 then 1 else 0;
  }

  lemma ThreeByteDifference(c: Rune, d: Rune) returns (i: nat)
    requires 0x800 <= c < d < 0x10000
    ensures i < 3 && EncodeRune(c)[..i] == EncodeRune(d)[..i] && EncodeRune(c)[i] < EncodeRune(d)[i]
  {
    DigitsDiffer(c, d);
    i := if c / 64 == d / 64 then 2 else if c / 4096 == d / 4096 then 1 else 0;
  }

  lemma FourByteDifference(c: Rune, d: Rune) returns (i: nat)
    requires 0x10000 <= c < d
    ensures i < 4 && EncodeRune(c)[..i] == EncodeRune(d)[..i] && EncodeRune(c)[i] < EncodeRune(d)[i]
  {
    DigitsDiffer(c, d);
    i := if c / 64 == d / 64 then 3 else if c / 4096 == d / 4096 then 2 else if c / 262144 == d / 262144 then 1 else 0;
  }

  /** A larger scalar has a larger encoding, whatever follows the two. */
  lemma RuneOrder(c: Rune, d: Rune, x: Bytes, y: Bytes)
    requires c < d
    ensures Less(EncodeRune(c) + x, EncodeRune(d) + y)
  {
    var e, f := EncodeRune(c), EncodeRune(d);
    var i := FirstDifference(c, d);
    assert e + x == e[..i] + (e[i..] + x) && f + y == e[..i] + (f[i..] + y);
    LessAfter(e[..i], e[i..] + x, f[i..] + y);
  }

  lemma RunesDiffer(c: Rune, d: Rune, x: Bytes, y: Bytes)
    requires c != d
    ensures EncodeRune(c) + x != EncodeRune(d) + y
  {
    if c < d {
      RuneOrder(c, d, x, y);
    } else {
      RuneOrder(d, c, y, x);
    }
    LessTotal(EncodeRune(c) + x, EncodeRune(c) + x);
  }

  /** No encoding is a prefix of another one's continuation. */
  lemma RunePrefixFree(c: Rune, d: Rune, x: Bytes, y: Bytes)
    requires EncodeRune(c) + x == EncodeRune(d) + y
    ensures c == d && x == y
  {
    if c != d {
      RunesDiffer(c, d, x, y);
    }
    var e := EncodeRune(c);
    assert x == (e + x)[|e|..] && y == (e + y)[|e|..];
  }

  /** Comparing encodings byte by byte is comparing the strings scalar by scalar. */
  lemma {:induction false} ByteOrderIsScalarOrder(a: Runes, b: Runes)
    ensures Less(Encode(a), Encode(b)) <==> Less(a, b)
  {
    if a != [] && b != [] {
      if a[0] == b[0] {
        LessAfter(EncodeRune(a[0]), Encode(a[1..]), Encode(b[1..]));
        ByteOrderIsScalarOrder(a[1..], b[1..]);
      } else if a[0] < b[0] {
        RuneOrder(a[0], b[0], Encode(a[1..]), Encode(b[1..]));
      } else {
        RuneOrder(b[0], a[0], Encode(b[1..]), Encode(a[1..]));
        LessTotal(Encode(a), Encode(b));
      }
    }
  }

  // ---- UTF-16 -------------------------------------------------------------------------------

  /** The code units of one scalar. */
  function UnitsOfRune(c: Rune): (u: seq<int>)
    ensures u != []
  {
    if c < 0x10000 then [c] else [0xD800 + (c - 0x10000) / 1024, 0xDC00 + (c - 0x10000) % 1024]
  }

  /** The code units RFC 8785, section 3.2.3, sorts property names by. */
  function Units(s: Runes): seq<int> {
    if s == [] then []
    else UnitsOfRune(s[0]) + Units(s[1..])
  }

  /** A surrogate stands below the scalars from U+E000 on: only against those does a supplementary scalar change sides. */
  predicate Swaps(c: Rune, d: Rune) {
    (0xE000 <= c < 0x10000 <= d) || (0xE000 <= d < 0x10000 <= c)
  }

  /** The first two scalars in which the strings differ are one from U+E000 to U+FFFF and a supplementary one. */
  predicate Crosses(a: Runes, b: Runes) {
    a != [] && b != [] && if a[0] == b[0] then Crosses(a[1..], b[1..]) else Swaps(a[0], b[0])
  }

  lemma UnitOrder(c: Rune, d: Rune, x: seq<int>, y: seq<int>)
    requires c < d
    ensures Less(UnitsOfRune(c) + x, UnitsOfRune(d) + y) <==> !Swaps(c, d)
  {
    var u, v := UnitsOfRune(c) + x, UnitsOfRune(d) + y;
    if c >= 0x10000 && u[0] == v[0] {
      assert u[1..][0] == u[1] && v[1..][0] == v[1];
    }
  }

  lemma HeadOrders(c: Rune, d: Rune, x: Bytes, y: Bytes, u: seq<int>, v: seq<int>)
    requires c != d
    ensures (Less(EncodeRune(c) + x, EncodeRune(d) + y) <==> Less(UnitsOfRune(c) + u, UnitsOfRune(d) + v)) <==> !Swaps(c, d)
  {
    if c < d {
      RuneOrder(c, d, x, y);
      UnitOrder(c, d, u, v);
    } else {
      RuneOrder(d, c, y, x);
      UnitOrder(d, c, v, u);
      LessTotal(EncodeRune(c) + x, EncodeRune(d) + y);
      LessTotal(UnitsOfRune(c) + u, UnitsOfRune(d) + v);
      UnitsPrefixFree(c, d, u, v);
    }
  }

  lemma UnitsPrefixFree(c: Rune, d: Rune, u: seq<int>, v: seq<int>)
    requires c != d
    ensures UnitsOfRune(c) + u != UnitsOfRune(d) + v
  {
    var p, q := UnitsOfRune(c) + u, UnitsOfRune(d) + v;
    assert p[0] == UnitsOfRune(c)[0] && q[0] == UnitsOfRune(d)[0];
    assert c >= 0x10000 ==> p[1] == UnitsOfRune(c)[1];
    assert d >= 0x10000 ==> q[1] == UnitsOfRune(d)[1];
  }

  /** Byte order and code-unit order agree on two strings exactly when the strings do not cross. */
  lemma {:induction false} OrdersAgreeIff(a: Runes, b: Runes)
    ensures (Less(Encode(a), Encode(b)) <==> Less(Units(a), Units(b))) <==> !Crosses(a, b)
  {
    if a != [] && b != [] {
      assert Units(a) == UnitsOfRune(a[0]) + Units(a[1..]) && Units(b) == UnitsOfRune(b[0]) + Units(b[1..]);
      if a[0] == b[0] {
        LessAfter(EncodeRune(a[0]), Encode(a[1..]), Encode(b[1..]));
        LessAfter(UnitsOfRune(a[0]), Units(a[1..]), Units(b[1..]));
        OrdersAgreeIff(a[1..], b[1..]);
      } else {
        HeadOrders(a[0], b[0], Encode(a[1..]), Encode(b[1..]), Units(a[1..]), Units(b[1..]));
      }
    }
  }

  lemma {:induction false} BasicNeverCross(a: Runes, b: Runes)
    requires (forall i :: 0 <= i < |a| ==> a[i] < 0x10000) && (forall i :: 0 <= i < |b| ==> b[i] < 0x10000)
    ensures !Crosses(a, b)
  {
    if a != [] && b != [] {
      BasicNeverCross(a[1..], b[1..]);
    }
  }

  /** Names without supplementary characters, as every declared field name is, sort alike in both orders. */
  lemma BasicOrdersAgree(a: Runes, b: Runes)
    requires (forall i :: 0 <= i < |a| ==> a[i] < 0x10000) && (forall i :: 0 <= i < |b| ==> b[i] < 0x10000)
    ensures Less(Encode(a), Encode(b)) <==> Less(Units(a), Units(b))
  {
    BasicNeverCross(a, b);
    OrdersAgreeIff(a, b);
  }

  // ---- well-formed bytes --------------------------------------------------------------------

  /** The width of the well-formed sequence that begins at `i` and ends by `j`, by the table of RFC 3629, section 4;
      0 if there is none. */
  function WidthAt(b: Bytes, i: nat, j: nat): (w: nat)
    requires i <= j <= |b|
    ensures w <= 4 && i + w <= j
  {
    if i == j then 0
    else if b[i] < 0x80 then 1
    else if 0xC2 <= b[i] < 0xE0 && j - i >= 2 && Continuation(b[i + 1]) then 2
    else if 0xE0 <= b[i] < 0xF0 && j - i >= 3 && Continuation(b[i + 1]) && Continuation(b[i + 2])
            && (b[i] == 0xE0 ==> b[i + 1] >= 0xA0) && (b[i] == 0xED ==> b[i + 1] < 0xA0) then 3
    else if 0xF0 <= b[i] < 0xF5 && j - i >= 4 && Continuation(b[i + 1]) && Continuation(b[i + 2]) && Continuation(b[i + 3])
            && (b[i] == 0xF0 ==> b[i + 1] >= 0x90) && (b[i] == 0xF4 ==> b[i + 1] < 0x90) then 4
    else 0
  }

  /** The bytes from `i` to `j` are well-formed. */
  predicate ValidRange(b: Bytes, i: nat, j: nat)
    requires i <= j <= |b|
    decreases j - i
  {
    i == j || (WidthAt(b, i, j) > 0 && ValidRange(b, i + WidthAt(b, i, j), j))
  }

  predicate ValidBytes(b: Bytes) {
    ValidRange(b, 0, |b|)
  }

  /** Well-formedness depends on nothing but the bytes in the range. */
  lemma {:induction false} SameRange(b: Bytes, c: Bytes, shift: nat, i: nat, j: nat)
    requires shift <= i <= j <= |b| && j - shift <= |c|
    requires forall k :: i <= k < j ==> b[k] == c[k - shift]
    ensures WidthAt(b, i, j) == WidthAt(c, i - shift, j - shift)
    ensures ValidRange(b, i, j) <==> ValidRange(c, i - shift, j - shift)
    decreases j - i
  {
    var w := WidthAt(b, i, j);
    if i < j && w > 0 {
      SameRange(b, c, shift, i + w, j);
    }
  }

  lemma SliceIsRange(b: Bytes, i: nat, j: nat)
    requires i <= j <= |b|
    ensures ValidBytes(b[i..j]) <==> ValidRange(b, i, j)
  {
    SameRange(b, b[i..j], i, i, j);
  }

  lemma DivMod(q: nat, r: nat)
    requires r < 64
    ensures (q * 64 + r) / 64 == q && (q * 64 + r) % 64 == r
  {
  }

  function Decode2(a: Byte, b: Byte): (c: Rune)
    requires 0xC2 <= a < 0xE0 && Continuation(b)
    ensures EncodeRune(c) == [a, b]
  {
    DivMod(a - 0xC0, b - 0x80);
    (a - 0xC0) * 64 + (b - 0x80)
  }

  function Decode3(a: Byte, b: Byte, d: Byte): (c: Rune)
    requires 0xE0 <= a < 0xF0 && Continuation(b) && Continuation(d) && (a == 0xE0 ==> b >= 0xA0) && (a == 0xED ==> b < 0xA0)
    ensures EncodeRune(c) == [a, b, d]
  {
    var high: nat := (a - 0xE0) * 64 + (b - 0x80);
    DivMod(a - 0xE0, b - 0x80);
    DivMod(high, d - 0x80);
    Quotients(high * 64 + (d - 0x80));
    high * 64 + (d - 0x80)
  }

  function Decode4(a: Byte, b: Byte, d: Byte, e: Byte): (c: Rune)
    requires 0xF0 <= a < 0xF5 && Continuation(b) && Continuation(d) && Continuation(e)
    requires (a == 0xF0 ==> b >= 0x90) && (a == 0xF4 ==> b < 0x90)
    ensures EncodeRune(c) == [a, b, d, e]
  {
    var top: nat := (a - 0xF0) * 64 + (b - 0x80);
    var high: nat := top * 64 + (d - 0x80);
    DivMod(a - 0xF0, b - 0x80);
    DivMod(top, d - 0x80);
    DivMod(high, e - 0x80);
    Quotients(high * 64 + (e - 0x80));
    high * 64 + (e - 0x80)
  }

  function DecodeHead(b: Bytes, i: nat, j: nat): (c: Rune)
    requires i <= j <= |b| && WidthAt(b, i, j) > 0
    ensures EncodeRune(c) == b[i..i + WidthAt(b, i, j)]
  {
    match WidthAt(b, i, j)
    case 1 => b[i]
    case 2 => Decode2(b[i], b[i + 1])
    case 3 => Decode3(b[i], b[i + 1], b[i + 2])
    case _ => Decode4(b[i], b[i + 1], b[i + 2], b[i + 3])
  }

  lemma TwoBytes(c: Rune)
    requires 0x80 <= c < 0x800
    ensures 0xC2 <= EncodeRune(c)[0] < 0xE0 && Continuation(EncodeRune(c)[1])
  {
  }

  lemma ThreeBytes(c: Rune)
    requires 0x800 <= c < 0x10000
    ensures var e := EncodeRune(c);
      0xE0 <= e[0] < 0xF0 && Continuation(e[1]) && Continuation(e[2]) && (e[0] == 0xE0 ==> e[1] >= 0xA0) && (e[0] == 0xED ==> e[1] < 0xA0)
  {
    Quotients(c);
  }

  lemma FourBytes(c: Rune)
    requires 0x10000 <= c
    ensures var e := EncodeRune(c);
      && 0xF0 <= e[0] < 0xF5 && Continuation(e[1]) && Continuation(e[2]) && Continuation(e[3])
      && (e[0] == 0xF0 ==> e[1] >= 0x90) && (e[0] == 0xF4 ==> e[1] < 0x90)
  {
    Quotients(c);
  }

  lemma HeadWidth(c: Rune, x: Bytes)
    ensures var b := EncodeRune(c) + x; WidthAt(b, 0, |b|) == |EncodeRune(c)|
  {
    var e, b := EncodeRune(c), EncodeRune(c) + x;
    assert forall i :: 0 <= i < |e| ==> b[i] == e[i];
    if c >= 0x10000 {
      FourBytes(c);
    } else if c >= 0x800 {
      ThreeBytes(c);
    } else if c >= 0x80 {
      TwoBytes(c);
    }
  }

  /** The table accepts exactly the encodings of scalar sequences. */
  lemma {:induction false} EncodingsAreValid(s: Runes)
    ensures ValidBytes(Encode(s))
  {
    if s != [] {
      var w := |EncodeRune(s[0])|;
      HeadWidth(s[0], Encode(s[1..]));
      EncodingsAreValid(s[1..]);
      SameRange(Encode(s), Encode(s[1..]), w, w, |Encode(s)|);
    }
  }

  lemma Prepended(c: Rune, rest: Runes) returns (s: Runes)
    ensures Encode(s) == EncodeRune(c) + Encode(rest)
  {
    s := [c] + rest;
    assert s[1..] == rest;
  }

  lemma {:induction false} ValidRangesAreEncodings(b: Bytes, i: nat, j: nat) returns (s: Runes)
    requires i <= j <= |b| && ValidRange(b, i, j)
    ensures Encode(s) == b[i..j]
    decreases j - i
  {
    if i == j {
      return [];
    }
    var w := WidthAt(b, i, j);
    var rest := ValidRangesAreEncodings(b, i + w, j);
    s := Prepended(DecodeHead(b, i, j), rest);
    assert b[i..j] == b[i..i + w] + b[i + w..j];
  }

  lemma ValidBytesAreEncodings(b: Bytes) returns (s: Runes)
    requires ValidBytes(b)
    ensures Encode(s) == b
  {
    s := ValidRangesAreEncodings(b, 0, |b|);
    assert b[0..|b|] == b;
  }
}
