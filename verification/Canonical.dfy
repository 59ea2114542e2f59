/** The canonical printer of commands (contracts/wire/canonical.go), a bounded profile of RFC 8785. */
module Canonical {
  import opened Wrappers
  import opened Utf8

  /** A decoded JSON document. A number keeps its text; an object is a map, so it has no order and no duplicate key. */
  datatype Value =
    | Null
    | Bool(flag: bool)
    | Number(text: Bytes)
    | Text(runes: Runes)
    | Array(items: seq<Value>)
    | Object(members: map<Runes, Value>)

  const MAX_SAFE := 9007199254740991

  const QUOTE: Byte := 0x22
  const BACKSLASH: Byte := 0x5C
  const COMMA: Byte := 0x2C
  const COLON: Byte := 0x3A

  predicate Digit(b: Byte) {
    0x30 <= b <= 0x39
  }

  // ---- numbers -----------------------------------------------------------------------------

  function Decimal(digits: Bytes): nat
    requires forall i :: 0 <= i < |digits| ==> Digit(digits[i])
  {
    if digits == [] then 0 else
      var last := digits[|digits| - 1];
      assert Digit(last);
      10 * Decimal(digits[..|digits| - 1]) + (last - 0x30)
  }

  predicate Digits(text: Bytes) {
    text != [] && forall i :: 0 <= i < |text| ==> Digit(text[i])
  }

  /** The integer part of the JSON number grammar: no leading zero. */
  predicate Integer(text: Bytes) {
    Digits(text) && (text[0] == 0x30 ==> |text| == 1)
  }

  /** What parsing as a 64-bit integer gives, within the safe unsigned range. */
  function ParseSafe(text: Bytes): Option<nat> {
    if Digits(text) && Decimal(text) <= MAX_SAFE then Some(Decimal(text))
    else if |text| > 1 && text[0] == 0x2D && Digits(text[1..]) && Decimal(text[1..]) == 0 then Some(0)
    else None
  }

  /** Every number in the document is written as the JSON grammar writes integers; other notations never parse. */
  predicate Grammatical(v: Value)
    decreases v
  {
    match v
    case Number(text) => ParseSafe(text).Some? ==> Integer(text) || (text[0] == 0x2D && |text| > 1 && Integer(text[1..]))
    case Array(items) => forall i :: 0 <= i < |items| ==> Grammatical(items[i])
    case Object(members) => forall k :: k in members ==> Grammatical(members[k])
    case _ => true
  }

  lemma {:induction false} ZeroDigits(text: Bytes, i: nat)
    requires Digits(text) && Decimal(text) == 0 && i < |text|
    ensures text[i] == 0x30
  {
    if i < |text| - 1 {
      ZeroDigits(text[..|text| - 1], i);
    }
  }

  lemma {:induction false} DecimalPositive(text: Bytes)
    requires Integer(text) && |text| > 1
    ensures Decimal(text) >= 10
  {
    var front := text[..|text| - 1];
    if |front| > 1 {
      DecimalPositive(front);
    } else {
      assert Decimal(front) == 10 * Decimal(front[..0]) + (front[0] - 0x30);
    }
  }

  lemma {:induction false} DecimalInjective(a: Bytes, b: Bytes)
    requires Integer(a) && Integer(b) && Decimal(a) == Decimal(b)
    ensures a == b
  {
    if |a| > 1 {
      DecimalPositive(a);
    }
    if |b| > 1 {
      DecimalPositive(b);
    }
    if |a| > 1 && |b| > 1 {
      var p, q := a[..|a| - 1], b[..|b| - 1];
      assert Integer(p) && Integer(q);
      DecimalInjective(p, q);
      assert a == p + [a[|a| - 1]] && b == q + [b[|b| - 1]];
    } else {
      assert |a| == 1 ==> Decimal(a) == 10 * Decimal(a[..0]) + (a[0] - 0x30);
      assert |b| == 1 ==> Decimal(b) == 10 * Decimal(b[..0]) + (b[0] - 0x30);
    }
  }

  /** Accepted numbers with the same value have the same text, except that zero may also be written "-0". */
  lemma NumbersAgree(a: Bytes, b: Bytes)
    requires Grammatical(Number(a)) && Grammatical(Number(b)) && ParseSafe(a).Some? && ParseSafe(b).Some?
    ensures ParseSafe(a) == ParseSafe(b) <==> a == b || {a, b} == {[0x30], [0x2D, 0x30]}
  {
    assert Decimal([0x30]) == 10 * Decimal([]) + 0;
    assert [0x2D, 0x30][1..] == [0x30];
    if ParseSafe(a) == ParseSafe(b) {
      if Digits(a) && Digits(b) {
        DecimalInjective(a, b);
      } else {
        SignedZero(a);
        SignedZero(b);
      }
    }
  }

  /** A number as the command schema admits it: decimal digits, no sign, no leading zero. */
  lemma CommandNumbersAgree(a: Bytes, b: Bytes)
    requires Integer(a) && Integer(b) && ParseSafe(a).Some? && ParseSafe(b).Some?
    ensures ParseSafe(a) == ParseSafe(b) <==> a == b
  {
    if ParseSafe(a) == ParseSafe(b) {
      DecimalInjective(a, b);
    }
  }

  /** The only accepted text with a sign is "-0"; the only unsigned text for zero is "0". */
  lemma SignedZero(a: Bytes)
    requires Grammatical(Number(a)) && ParseSafe(a).Some?
    ensures !Digits(a) ==> a == [0x2D, 0x30]
    ensures Digits(a) && ParseSafe(a) == Some(0) ==> a == [0x30]
  {
    if !Digits(a) {
      ZeroDigits(a[1..], 0);
      assert a == [a[0]] + a[1..];
    } else if Decimal(a) == 0 {
      ZeroDigits(a, 0);
    }
  }

  // ---- strings -----------------------------------------------------------------------------

  function HexDigit(n: int): Byte
    requires 0 <= n < 16
  {
    if n < 10 then 0x30 + n else 0x57 + n
  }

  /** One scalar as it appears inside a string, by RFC 8785, section 3.2.2.2. */
  function EscapeRune(c: Rune): (e: Bytes)
    ensures e != []
  {
    if c == 0x22 || c == 0x5C then [BACKSLASH, c]
    else if c == 8 then [BACKSLASH, 0x62]
    else if c == 12 then [BACKSLASH, 0x66]
    else if c == 10 then [BACKSLASH, 0x6E]
    else if c == 13 then [BACKSLASH, 0x72]
    else if c == 9 then [BACKSLASH, 0x74]
    else if c < 0x20 then [BACKSLASH, 0x75, 0x30, 0x30, HexDigit(c / 16), HexDigit(c % 16)]
    else EncodeRune(c)
  }

  function EscapeRunes(s: Runes): Bytes {
    if s == [] then [] else EscapeRune(s[0]) + EscapeRunes(s[1..])
  }

  function Escaped(s: Runes): Bytes {
    [QUOTE] + EscapeRunes(s) + [QUOTE]
  }

  lemma {:induction false} EscapeAppend(s: Runes, c: Rune)
    ensures EscapeRunes(s + [c]) == EscapeRunes(s) + EscapeRune(c)
  {
    if s == [] {
      assert s + [c] == [c];
    } else {
      EscapeAppend(s[1..], c);
      assert (s + [c])[1..] == s[1..] + [c];
      Assoc(EscapeRune(s[0]), EscapeRunes(s[1..]), EscapeRune(c));
    }
  }

  /** The printer's loop over the scalars of a string. */
  method AppendJsonString(destination: Bytes, value: Runes) returns (r: Bytes)
    ensures r == destination + Escaped(value)
  {
    r := destination + [QUOTE];
    for i := 0 to |value|
      invariant r == destination + [QUOTE] + EscapeRunes(value[..i])
    {
      EscapeAppend(value[..i], value[i]);
      assert value[..i + 1] == value[..i] + [value[i]];
      Assoc(destination + [QUOTE], EscapeRunes(value[..i]), EscapeRune(value[i]));
      r := AppendCharacter(r, value[i]);
    }
    assert value[..|value|] == value;
    r := r + [QUOTE];
  }

  method AppendCharacter(destination: Bytes, c: Rune) returns (r: Bytes)
    ensures r == destination + EscapeRune(c)
  {
    var piece: Bytes := [BACKSLASH];
    if c == 0x22 || c == 0x5C {
      piece := piece + [c];
    } else if c == 8 {
      piece := piece + [0x62];
    } else if c == 12 {
      piece := piece + [0x66];
    } else if c == 10 {
      piece := piece + [0x6E];
    } else if c == 13 {
      piece := piece + [0x72];
    } else if c == 9 {
      piece := piece + [0x74];
    } else if c < 0x20 {
      piece := piece + [0x75, 0x30, 0x30] + [HexDigit(c / 16), HexDigit(c % 16)];
    } else {
      piece := EncodeRune(c);
    }
    return destination + piece;
  }

  lemma EscapePrefixFree(c: Rune, d: Rune, x: Bytes, y: Bytes)
    requires EscapeRune(c) + x == EscapeRune(d) + y
    ensures c == d && x == y
  {
    var e, f := EscapeRune(c), EscapeRune(d);
    assert (e + x)[0] == e[0] && (f + y)[0] == f[0];
    if e[0] == BACKSLASH {
      EscapeHead(c); EscapeHead(d);
      assert (e + x)[1] == e[1] && (f + y)[1] == f[1];
      assert |e| == |f|;
      assert e == (e + x)[..|e|] == (f + y)[..|e|] == f;
      assert x == (e + x)[|e|..] == (f + y)[|e|..] == y;
    } else {
      EscapeHead(c); EscapeHead(d);
      RunePrefixFree(c, d, x, y);
    }
  }

  /** A quotation mark never begins an escaped scalar, and a backslash begins exactly the escapes. */
  lemma EscapeHead(c: Rune)
    ensures var e := EscapeRune(c);
      && e[0] != QUOTE && (e[0] == BACKSLASH <==> c == 0x22 || c == 0x5C || c < 0x20)
      && (e[0] == BACKSLASH ==> |e| == if e[1] == 0x75 then 6 else 2)
  {
  }

  /** The rest of a printed string after its opening quotation mark, with what follows it. */
  function Rest(s: Runes, after: Bytes): (r: Bytes)
    ensures r != []
  {
    if s == [] then [QUOTE] + after else EscapeRune(s[0]) + Rest(s[1..], after)
  }

  lemma Assoc(a: Bytes, b: Bytes, c: Bytes)
    ensures (a + b) + c == a + (b + c)
  {
  }

  lemma {:induction false} RestOfRunes(s: Runes, after: Bytes)
    ensures EscapeRunes(s) + ([QUOTE] + after) == Rest(s, after)
  {
    if s != [] {
      RestOfRunes(s[1..], after);
      Assoc(EscapeRune(s[0]), EscapeRunes(s[1..]), [QUOTE] + after);
    }
  }

  lemma RestIsPrinted(s: Runes, after: Bytes)
    ensures Escaped(s) + after == [QUOTE] + Rest(s, after)
  {
    RestOfRunes(s, after);
    Assoc([QUOTE] + EscapeRunes(s), [QUOTE], after);
    Assoc([QUOTE], EscapeRunes(s), [QUOTE] + after);
  }

  /** A printed string tells where it ends and what it was. */
  lemma {:induction false} StringPrefixFree(a: Runes, b: Runes, x: Bytes, y: Bytes)
    requires Rest(a, x) == Rest(b, y)
    ensures a == b && x == y
  {
    if a != [] {
      EscapeHead(a[0]);
    }
    if b != [] {
      EscapeHead(b[0]);
    }
    assert Rest(a, x)[0] == Rest(b, y)[0];
    if a == [] {
      assert x == Rest(a, x)[1..] && y == Rest(b, y)[1..];
    } else {
      EscapePrefixFree(a[0], b[0], Rest(a[1..], x), Rest(b[1..], y));
      StringPrefixFree(a[1..], b[1..], x, y);
      assert a == [a[0]] + a[1..] && b == [b[0]] + b[1..];
    }
  }

  // ---- sorted keys -------------------------------------------------------------------------

  predicate Before(a: Runes, b: Runes) {
    Less(Encode(a), Encode(b))
  }

  predicate First(keys: set<Runes>, k: Runes) {
    k in keys && forall j | j in keys :: j == k || Before(k, j)
  }

  lemma FirstUnique(keys: set<Runes>, k: Runes, l: Runes)
    requires First(keys, k) && First(keys, l)
    ensures k == l
  {
    EncodingsDiffer(k, l);
  }

  lemma EncodingsDiffer(a: Runes, b: Runes)
    ensures a == b || Before(a, b) || Before(b, a)
    ensures !(Before(a, b) && Before(b, a))
  {
    ByteOrderIsScalarOrder(a, b);
    ByteOrderIsScalarOrder(b, a);
    LessTotal(a, b);
  }

  lemma {:induction false} FirstExists(keys: set<Runes>) returns (k: Runes)
    requires keys != {}
    ensures First(keys, k)
    decreases keys
  {
    var one :| one in keys;
    var others := keys - {one};
    assert forall i :: i in keys <==> i == one || i in others;
    if others == {} {
      return one;
    }
    var j := FirstExists(others);
    EncodingsDiffer(j, one);
    if Before(j, one) {
      return j;
    }
    forall i | i in others ensures Before(one, i) {
      if i != j {
        LessTransitive(Encode(one), Encode(j), Encode(i));
      }
    }
    return one;
  }

  function FirstKey(keys: set<Runes>): (k: Runes)
    requires keys != {}
    ensures First(keys, k)
  {
    assert exists k :: First(keys, k) by { var k := FirstExists(keys); }
    assert forall k, l :: First(keys, k) && First(keys, l) ==> k == l by {
      forall k, l | First(keys, k) && First(keys, l) ensures k == l { FirstUnique(keys, k, l); }
    }
    var k :| k in keys && First(keys, k);
    k
  }

  /** The keys of an object in byte order. */
  function SortedKeys(keys: set<Runes>): (sorted: seq<Runes>)
    ensures forall i :: 0 <= i < |sorted| ==> sorted[i] in keys
    ensures forall k :: k in keys ==> k in sorted
    decreases keys
  {
    if keys == {} then [] else [FirstKey(keys)] + SortedKeys(keys - {FirstKey(keys)})
  }

  lemma FirstBefore(keys: set<Runes>, k: Runes, l: Runes)
    requires First(keys, k) && l in keys && l != k
    ensures Before(k, l)
  {
  }

  lemma TailAt(keys: set<Runes>, i: nat)
    requires 0 < i < |SortedKeys(keys)|
    ensures keys != {} && SortedKeys(keys)[0] == FirstKey(keys) && i - 1 < |SortedKeys(keys - {FirstKey(keys)})|
    ensures SortedKeys(keys)[i] == SortedKeys(keys - {FirstKey(keys)})[i - 1]
  {
  }

  lemma HeadBefore(keys: set<Runes>, j: nat)
    requires 0 < j < |SortedKeys(keys)|
    ensures Before(SortedKeys(keys)[0], SortedKeys(keys)[j])
  {
    TailAt(keys, j);
    var first, l := FirstKey(keys), SortedKeys(keys)[j];
    assert l in keys - {first};
    FirstBefore(keys, first, l);
  }

  lemma {:induction false} KeysInOrder(keys: set<Runes>, i: nat, j: nat, k: Runes, l: Runes)
    requires i < j < |SortedKeys(keys)| && SortedKeys(keys)[i] == k && SortedKeys(keys)[j] == l
    ensures Before(k, l)
    decreases keys
  {
    if i == 0 {
      HeadBefore(keys, j);
    } else {
      TailAt(keys, i);
      TailAt(keys, j);
      KeysInOrder(keys - {FirstKey(keys)}, i - 1, j - 1, k, l);
    }
  }

  // ---- printing ------------------------------------------------------------------------------

  /** Every number in the value is a safe unsigned integer. */
  ghost predicate Printable(v: Value)
    decreases v
  {
    match v
    case Number(text) => ParseSafe(text).Some?
    case Array(items) => forall i :: 0 <= i < |items| ==> Printable(items[i])
    case Object(members) => forall k :: k in members ==> Printable(members[k])
    case _ => true
  }

  /** The value as printed, followed by `after`. */
  ghost function Print(v: Value, after: Bytes): Bytes
    requires Printable(v)
    decreases v, 1, 0
  {
    match v
    case Null => [0x6E, 0x75, 0x6C, 0x6C] + after
    case Bool(flag) => (if flag then [0x74, 0x72, 0x75, 0x65] else [0x66, 0x61, 0x6C, 0x73, 0x65]) + after
    case Number(text) => text + after
    case Text(runes) => [QUOTE] + Rest(runes, after)
    case Array(_) => [0x5B] + PrintItems(v, 0, after)
    case Object(members) => [0x7B] + PrintMembers(v, SortedKeys(members.Keys), 0, after)
  }

  function Separator(i: nat): Bytes {
    if i > 0 then [COMMA] else []
  }

  ghost function PrintItems(v: Value, i: nat, after: Bytes): Bytes
    requires v.Array? && Printable(v) && i <= |v.items|
    decreases v, 0, |v.items| - i
  {
    if i == |v.items| then [0x5D] + after else Separator(i) + Print(v.items[i], PrintItems(v, i + 1, after))
  }

  ghost function PrintMembers(v: Value, keys: seq<Runes>, i: nat, after: Bytes): Bytes
    requires v.Object? && Printable(v) && i <= |keys| && forall j :: 0 <= j < |keys| ==> keys[j] in v.members
    decreases v, 0, |keys| - i
  {
    if i == |keys| then [0x7D] + after
    else Separator(i) + PrintMember(keys[i], v.members[keys[i]], PrintMembers(v, keys, i + 1, after))
  }

  ghost function PrintMember(key: Runes, v: Value, after: Bytes): Bytes
    requires Printable(v)
    decreases v, 2, 0
  {
    [QUOTE] + Rest(key, [COLON] + Print(v, after))
  }

  /** The canonical bytes of a document, or the refusal of one with a number out of range. */
  ghost function Canonical(v: Value): Option<Bytes> {
    if Printable(v) then Some(Print(v, [])) else None
  }

  // ---- the printer -----------------------------------------------------------------------------

  lemma {:induction false} RestAppends(s: Runes, after: Bytes, more: Bytes)
    ensures Rest(s, after) + more == Rest(s, after + more)
  {
    if s == [] {
      Assoc([QUOTE], after, more);
    } else {
      RestAppends(s[1..], after, more);
      Assoc(EscapeRune(s[0]), Rest(s[1..], after), more);
    }
  }

  /** What follows a value does not change how the value is printed. */
  lemma {:induction false} PrintAppends(v: Value, after: Bytes, more: Bytes)
    requires Printable(v)
    ensures Print(v, after) + more == Print(v, after + more)
    decreases v, 1, 0
  {
    match v
    case Null => Assoc([0x6E, 0x75, 0x6C, 0x6C], after, more);
    case Bool(flag) => Assoc(if flag then [0x74, 0x72, 0x75, 0x65] else [0x66, 0x61, 0x6C, 0x73, 0x65], after, more);
    case Number(text) => Assoc(text, after, more);
    case Text(runes) =>
      RestAppends(runes, after, more);
      Assoc([QUOTE], Rest(runes, after), more);
    case Array(_) =>
      ItemsAppend(v, 0, after, more);
      Assoc([0x5B], PrintItems(v, 0, after), more);
    case Object(members) =>
      MembersAppend(v, SortedKeys(members.Keys), 0, after, more);
      Assoc([0x7B], PrintMembers(v, SortedKeys(members.Keys), 0, after), more);
  }

  lemma {:induction false} ItemsAppend(v: Value, i: nat, after: Bytes, more: Bytes)
    requires v.Array? && Printable(v) && i <= |v.items|
    ensures PrintItems(v, i, after) + more == PrintItems(v, i, after + more)
    decreases v, 0, |v.items| - i
  {
    if i == |v.items| {
      Assoc([0x5D], after, more);
    } else {
      var rest := PrintItems(v, i + 1, after);
      ItemsAppend(v, i + 1, after, more);
      PrintAppends(v.items[i], rest, more);
      Assoc(Separator(i), Print(v.items[i], rest), more);
    }
  }

  lemma {:induction false} MembersAppend(v: Value, keys: seq<Runes>, i: nat, after: Bytes, more: Bytes)
    requires v.Object? && Printable(v) && i <= |keys| && forall j :: 0 <= j < |keys| ==> keys[j] in v.members
    ensures PrintMembers(v, keys, i, after) + more == PrintMembers(v, keys, i, after + more)
    decreases v, 0, |keys| - i
  {
    if i == |keys| {
      Assoc([0x7D], after, more);
    } else {
      var rest := PrintMembers(v, keys, i + 1, after);
      MembersAppend(v, keys, i + 1, after, more);
      MemberAppends(keys[i], v.members[keys[i]], rest, more);
      Assoc(Separator(i), PrintMember(keys[i], v.members[keys[i]], rest), more);
    }
  }

  lemma {:induction false} MemberAppends(key: Runes, v: Value, after: Bytes, more: Bytes)
    requires Printable(v)
    ensures PrintMember(key, v, after) + more == PrintMember(key, v, after + more)
    decreases v, 2, 0
  {
    var rest := [COLON] + Print(v, after);
    PrintAppends(v, after, more);
    Assoc([COLON], Print(v, after), more);
    RestAppends(key, rest, more);
    Assoc([QUOTE], Rest(key, rest), more);
  }

  lemma NothingAfter()
    ensures forall b: Bytes {:trigger b + []} :: b + [] == b
  {
  }

  /** The printer: it appends the canonical bytes of a value, or refuses a value with a number out of range. */
  method AppendCanonical(destination: Bytes, v: Value) returns (r: Option<Bytes>)
    ensures r == if Printable(v) then Some(destination + Print(v, [])) else None
    decreases v, 2
  {
    NothingAfter();
    match v
    case Null =>
      return Some(destination + [0x6E, 0x75, 0x6C, 0x6C]);
    case Bool(flag) =>
      return Some(destination + if flag then [0x74, 0x72, 0x75, 0x65] else [0x66, 0x61, 0x6C, 0x73, 0x65]);
    case Number(text) =>
      if ParseSafe(text).None? {
        return None;
      }
      return Some(destination + text);
    case Text(runes) =>
      var printed := AppendJsonString(destination, runes);
      RestIsPrinted(runes, []);
      return Some(printed);
    case Array(_) => r := AppendItems(destination, v);
    case Object(_) => r := AppendMembers(destination, v);
  }

  /** What is printed so far and the items still to come make up the array. */
  ghost predicate ItemsDone(destination: Bytes, v: Value, i: nat, printed: Bytes)
    requires v.Array? && i <= |v.items|
  {
    && (forall k :: 0 <= k < i ==> Printable(v.items[k]))
    && (Printable(v) ==> destination + Print(v, []) == printed + PrintItems(v, i, []))
  }

  method AppendItems(destination: Bytes, v: Value) returns (r: Option<Bytes>)
    requires v.Array?
    ensures r == if Printable(v) then Some(destination + Print(v, [])) else None
    decreases v, 1
  {
    var printed := destination + [0x5B];
    ItemsStart(destination, v);
    for i := 0 to |v.items|
      invariant ItemsDone(destination, v, i, printed)
    {
      var longer := AppendItem(printed, v, i);
      if longer.None? {
        return None;
      }
      ItemPrinted(destination, v, i, printed);
      printed := longer.value;
    }
    ItemsEnd(destination, v, printed);
    return Some(printed + [0x5D]);
  }

  method AppendItem(destination: Bytes, v: Value, i: nat) returns (r: Option<Bytes>)
    requires v.Array? && i < |v.items|
    ensures r == if Printable(v.items[i]) then Some(destination + Separator(i) + Print(v.items[i], [])) else None
    decreases v, 0
  {
    var printed := destination;
    if i > 0 {
      printed := printed + [COMMA];
    }
    assert printed == destination + Separator(i);
    r := AppendCanonical(printed, v.items[i]);
  }

  lemma ItemsEnd(destination: Bytes, v: Value, printed: Bytes)
    requires v.Array? && ItemsDone(destination, v, |v.items|, printed)
    ensures Printable(v) && destination + Print(v, []) == printed + [0x5D]
  {
    NothingAfter();
  }

  lemma ItemsStart(destination: Bytes, v: Value)
    requires v.Array?
    ensures ItemsDone(destination, v, 0, destination + [0x5B])
  {
    if Printable(v) {
      Assoc(destination, [0x5B], PrintItems(v, 0, []));
    }
  }

  lemma ItemPrinted(destination: Bytes, v: Value, i: nat, before: Bytes)
    requires v.Array? && i < |v.items| && ItemsDone(destination, v, i, before) && Printable(v.items[i])
    ensures ItemsDone(destination, v, i + 1, before + Separator(i) + Print(v.items[i], []))
  {
    if Printable(v) {
      var lead, rest := before + Separator(i), PrintItems(v, i + 1, []);
      PrintAppends(v.items[i], [], rest);
      assert [] + rest == rest;
      Assoc(before, Separator(i), Print(v.items[i], rest));
      Assoc(lead, Print(v.items[i], []), rest);
    }
  }

  /** What is printed so far and the members still to come make up the object. */
  ghost predicate MembersDone(destination: Bytes, v: Value, keys: seq<Runes>, i: nat, printed: Bytes)
    requires v.Object? && keys == SortedKeys(v.members.Keys) && i <= |keys|
  {
    && (forall k :: 0 <= k < i ==> Printable(v.members[keys[k]]))
    && (Printable(v) ==> destination + Print(v, []) == printed + PrintMembers(v, keys, i, []))
  }

  method AppendMembers(destination: Bytes, v: Value) returns (r: Option<Bytes>)
    requires v.Object?
    ensures r == if Printable(v) then Some(destination + Print(v, [])) else None
    decreases v, 1
  {
    var keys := SortedKeys(v.members.Keys);
    var printed := destination + [0x7B];
    MembersStart(destination, v, keys);
    for i := 0 to |keys|
      invariant MembersDone(destination, v, keys, i, printed)
    {
      var longer := AppendMember(printed, v, keys[i], i);
      if longer.None? {
        return None;
      }
      MemberPrinted(destination, v, keys, i, printed);
      printed := longer.value;
    }
    MembersEnd(destination, v, keys, printed);
    return Some(printed + [0x7D]);
  }

  method AppendMember(destination: Bytes, v: Value, key: Runes, i: nat) returns (r: Option<Bytes>)
    requires v.Object? && key in v.members
    ensures var value := v.members[key];
      r == if Printable(value) then Some(destination + Separator(i) + Escaped(key) + [COLON] + Print(value, [])) else None
    decreases v, 0
  {
    var printed := destination;
    if i > 0 {
      printed := printed + [COMMA];
    }
    assert printed == destination + Separator(i);
    printed := AppendJsonString(printed, key);
    printed := printed + [COLON];
    r := AppendCanonical(printed, v.members[key]);
  }

  lemma MembersEnd(destination: Bytes, v: Value, keys: seq<Runes>, printed: Bytes)
    requires v.Object? && keys == SortedKeys(v.members.Keys) && MembersDone(destination, v, keys, |keys|, printed)
    ensures Printable(v) && destination + Print(v, []) == printed + [0x7D]
  {
    forall k | k in v.members ensures Printable(v.members[k]) {
      assert k in keys;
    }
    NothingAfter();
  }

  lemma MembersStart(destination: Bytes, v: Value, keys: seq<Runes>)
    requires v.Object? && keys == SortedKeys(v.members.Keys)
    ensures MembersDone(destination, v, keys, 0, destination + [0x7B])
  {
    if Printable(v) {
      Assoc(destination, [0x7B], PrintMembers(v, keys, 0, []));
    }
  }

  lemma MemberPrinted(destination: Bytes, v: Value, keys: seq<Runes>, i: nat, before: Bytes)
    requires v.Object? && keys == SortedKeys(v.members.Keys) && i < |keys| && MembersDone(destination, v, keys, i, before)
    requires Printable(v.members[keys[i]])
    ensures MembersDone(destination, v, keys, i + 1,
                        before + Separator(i) + Escaped(keys[i]) + [COLON] + Print(v.members[keys[i]], []))
  {
    if Printable(v) {
      var key, value, rest := keys[i], v.members[keys[i]], PrintMembers(v, keys, i + 1, []);
      var lead := before + Separator(i);
      PrintAppends(value, [], rest);
      assert [] + rest == rest;
      RestIsPrinted(key, [COLON] + Print(value, rest));
      Assoc(before, Separator(i), PrintMember(key, value, rest));
      Assoc(lead, Escaped(key), [COLON] + Print(value, rest));
      Assoc(lead + Escaped(key), [COLON], Print(value, rest));
      Assoc(lead + Escaped(key) + [COLON], Print(value, []), rest);
    }
  }

  // ---- reading back ----------------------------------------------------------------------------

  /** What may follow a value inside a document. */
  predicate Delimited(after: Bytes) {
    after == [] || after[0] == COMMA || after[0] == 0x5D || after[0] == 0x7D
  }

  /** The first byte of a printed value tells its kind. */
  lemma Head(v: Value, after: Bytes)
    requires Printable(v)
    ensures var p := Print(v, after);
      && p != [] && p[0] != COMMA && p[0] != 0x5D && p[0] != 0x7D
      && (v.Null? <==> p[0] == 0x6E) && (v.Bool? <==> p[0] == 0x74 || p[0] == 0x66)
      && (v.Number? <==> p[0] == 0x2D || Digit(p[0])) && (v.Text? <==> p[0] == QUOTE)
      && (v.Array? <==> p[0] == 0x5B) && (v.Object? <==> p[0] == 0x7B)
  {
  }

  lemma NumberPrefixFree(a: Bytes, b: Bytes, x: Bytes, y: Bytes)
    requires ParseSafe(a).Some? && ParseSafe(b).Some? && Delimited(x) && Delimited(y) && a + x == b + y
    ensures a == b && x == y
  {
    NotShorter(a, b, x, y);
    NotShorter(b, a, y, x);
    assert a == (a + x)[..|a|] && b == (b + y)[..|b|];
    assert x == (a + x)[|a|..] && y == (b + y)[|b|..];
  }

  lemma NotShorter(a: Bytes, b: Bytes, x: Bytes, y: Bytes)
    requires ParseSafe(a).Some? && ParseSafe(b).Some? && Delimited(x) && a + x == b + y
    ensures |a| >= |b|
  {
    if |a| < |b| {
      assert (b + y)[|a|] == b[|a|] && |a + x| > |a|;
      assert (a + x)[|a|] == x[0];
      assert Digit(b[|a|]) by {
        if !Digits(b) {
          assert b[|a|] == b[1..][|a| - 1];
        }
      }
      assert false;
    }
  }

  /** Printing is injective, and a printed value tells where it ends. */
  lemma {:induction false} PrintPrefixFree(v: Value, w: Value, x: Bytes, y: Bytes)
    requires Printable(v) && Printable(w) && Delimited(x) && Delimited(y) && Print(v, x) == Print(w, y)
    ensures v == w && x == y
    decreases v, 1, 0
  {
    Head(v, x);
    Head(w, y);
    var p, q := Print(v, x), Print(w, y);
    match v
    case Null => assert x == p[4..] && y == q[4..];
    case Bool(flag) =>
      assert w.flag == flag;
      var n := if flag then 4 else 5;
      assert x == p[n..] && y == q[n..];
    case Number(text) => NumberPrefixFree(text, w.text, x, y);
    case Text(runes) =>
      assert Rest(runes, x) == p[1..] && Rest(w.runes, y) == q[1..];
      StringPrefixFree(runes, w.runes, x, y);
    case Array(items) =>
      assert PrintItems(v, 0, x) == p[1..] && PrintItems(w, 0, y) == q[1..];
      ItemsPrefixFree(v, w, 0, x, y);
    case Object(members) =>
      var k, l := SortedKeys(members.Keys), SortedKeys(w.members.Keys);
      assert PrintMembers(v, k, 0, x) == p[1..] && PrintMembers(w, l, 0, y) == q[1..];
      MembersPrefixFree(v, w, k, l, 0, x, y);
      SameMembers(members, w.members, k);
  }

  lemma SameMembers(m: map<Runes, Value>, n: map<Runes, Value>, keys: seq<Runes>)
    requires keys == SortedKeys(m.Keys) && keys == SortedKeys(n.Keys)
    requires forall i :: 0 <= i < |keys| ==> m[keys[i]] == n[keys[i]]
    ensures m == n
  {
  }

  lemma {:induction false} ItemsPrefixFree(v: Value, w: Value, i: nat, x: Bytes, y: Bytes)
    requires v.Array? && w.Array? && Printable(v) && Printable(w) && Delimited(x) && Delimited(y)
    requires i <= |v.items| && i <= |w.items| && v.items[..i] == w.items[..i] && PrintItems(v, i, x) == PrintItems(w, i, y)
    ensures v == w && x == y
    decreases v, 0, |v.items| - i
  {
    BothEnd(v, w, i, x, y);
    if i < |v.items| {
      var after, also := PrintItems(v, i + 1, x), PrintItems(w, i + 1, y);
      ItemHead(v, i, x);
      ItemHead(w, i, y);
      ItemsDelimited(v, i + 1, x);
      ItemsDelimited(w, i + 1, y);
      PrintPrefixFree(v.items[i], w.items[i], after, also);
      assert v.items[..i + 1] == v.items[..i] + [v.items[i]] && w.items[..i + 1] == w.items[..i] + [w.items[i]];
      ItemsPrefixFree(v, w, i + 1, x, y);
    }
  }

  /** Two arrays printed alike from `i` on end together. */
  lemma BothEnd(v: Value, w: Value, i: nat, x: Bytes, y: Bytes)
    requires v.Array? && w.Array? && Printable(v) && Printable(w)
    requires i <= |v.items| && i <= |w.items| && PrintItems(v, i, x) == PrintItems(w, i, y)
    ensures i == |v.items| <==> i == |w.items|
    ensures i == |v.items| ==> x == y && (v.items[..i] == w.items[..i] ==> v == w)
  {
    var p, q := PrintItems(v, i, x), PrintItems(w, i, y);
    if i < |v.items| {
      Head(v.items[i], PrintItems(v, i + 1, x));
    }
    if i < |w.items| {
      Head(w.items[i], PrintItems(w, i + 1, y));
    }
    assert p[0] == q[0];
    if i == |v.items| {
      assert x == p[1..] && y == q[1..];
    }
  }

  lemma ItemHead(v: Value, i: nat, after: Bytes)
    requires v.Array? && Printable(v) && i < |v.items|
    ensures PrintItems(v, i, after)[|Separator(i)|..] == Print(v.items[i], PrintItems(v, i + 1, after))
  {
  }

  lemma ItemsDelimited(v: Value, i: nat, after: Bytes)
    requires v.Array? && Printable(v) && 0 < i <= |v.items|
    ensures Delimited(PrintItems(v, i, after))
  {
  }

  lemma MembersDelimited(v: Value, keys: seq<Runes>, i: nat, after: Bytes)
    requires v.Object? && Printable(v) && 0 < i <= |keys| && forall j :: 0 <= j < |keys| ==> keys[j] in v.members
    ensures Delimited(PrintMembers(v, keys, i, after))
  {
  }

  lemma SamePrefix(k: seq<Runes>, l: seq<Runes>, i: nat)
    requires i < |k| && i < |l| && k[..i] == l[..i] && k[i] == l[i]
    ensures k[..i + 1] == l[..i + 1]
  {
  }

  lemma {:induction false} MemberPrefixFree(k: Runes, l: Runes, v: Value, w: Value, x: Bytes, y: Bytes)
    requires Printable(v) && Printable(w) && Delimited(x) && Delimited(y) && PrintMember(k, v, x) == PrintMember(l, w, y)
    ensures k == l && v == w && x == y
    decreases v, 2, 0
  {
    var s, t := [COLON] + Print(v, x), [COLON] + Print(w, y);
    assert Rest(k, s) == PrintMember(k, v, x)[1..] && Rest(l, t) == PrintMember(l, w, y)[1..];
    StringPrefixFree(k, l, s, t);
    assert Print(v, x) == s[1..] && Print(w, y) == t[1..];
    PrintPrefixFree(v, w, x, y);
  }

  lemma {:induction false} MembersPrefixFree(v: Value, w: Value, k: seq<Runes>, l: seq<Runes>, i: nat, x: Bytes, y: Bytes)
    requires v.Object? && w.Object? && Printable(v) && Printable(w) && Delimited(x) && Delimited(y)
    requires (forall j :: 0 <= j < |k| ==> k[j] in v.members) && (forall j :: 0 <= j < |l| ==> l[j] in w.members)
    requires i <= |k| && i <= |l| && k[..i] == l[..i] && PrintMembers(v, k, i, x) == PrintMembers(w, l, i, y)
    ensures k == l && x == y && forall j :: i <= j < |k| ==> v.members[k[j]] == w.members[k[j]]
    decreases v, 0, |k| - i
  {
    var p, q, n := PrintMembers(v, k, i, x), PrintMembers(w, l, i, y), |Separator(i)|;
    assert p[0] == q[0];
    if i == |k| {
      assert x == p[1..] && y == q[1..];
      assert k == k[..i] && l == l[..i];
    } else if i == |l| {
      assert false;
    } else {
      var after, also := PrintMembers(v, k, i + 1, x), PrintMembers(w, l, i + 1, y);
      assert PrintMember(k[i], v.members[k[i]], after) == p[n..] && PrintMember(l[i], w.members[l[i]], also) == q[n..];
      MembersDelimited(v, k, i + 1, x);
      MembersDelimited(w, l, i + 1, y);
      MemberPrefixFree(k[i], l[i], v.members[k[i]], w.members[l[i]], after, also);
      SamePrefix(k, l, i);
      MembersPrefixFree(v, w, k, l, i + 1, x, y);
    }
  }

  /** Two accepted documents have the same canonical bytes exactly when they are the same document: key order and
      layout are forgotten, and nothing else is. */
  lemma CanonicalIsInjective(v: Value, w: Value)
    requires Canonical(v).Some? && Canonical(w).Some?
    ensures Canonical(v) == Canonical(w) <==> v == w
  {
    if Canonical(v) == Canonical(w) {
      PrintPrefixFree(v, w, [], []);
    }
  }
}
