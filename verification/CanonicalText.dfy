/**
 Canonical JSON: the values both encoders take, the key orders they sort by, and the text they
 produce. Text is a sequence of Unicode scalar values; a JSON string with a surrogate in it is
 the value `IllFormed`.
 */
module CanonicalText {
  type Scalar = c: int | 0 <= c < 0xD800 || 0xE000 <= c <= 0x10FFFF
  type Text = seq<Scalar>

  datatype Json =
    | Null
    | Bool(value: bool)
    | Int(number: int)
    | Float(approximation: real)
    | Str(text: Text)
    | IllFormed
    | Arr(items: seq<Json>)
    | Obj(members: map<Text, Json>)

  /** Python sorts keys by code point, ECMAScript by UTF-16 code unit. */
  datatype Dialect = Python | TypeScript

  // Key orders ----------------------------------------------------------------------------

  predicate LexLess(a: seq<int>, b: seq<int>) {
    b != [] && (a == [] || a[0] < b[0] || (a[0] == b[0] && LexLess(a[1..], b[1..])))
  }

  predicate Astral(c: int) { c >= 0x1_0000 }

  /** The UTF-16 code units of one scalar value. */
  function Units(c: Scalar): seq<int> {
    if Astral(c) then [0xD800 + (c - 0x1_0000) / 0x400, 0xDC00 + (c - 0x1_0000) % 0x400] else [c]
  }

  function Utf16(t: Text): seq<int> {
    if t == [] then [] else Units(t[0]) + Utf16(t[1..])
  }

  function SortKey(t: Text, d: Dialect): seq<int> {
    if d.Python? then t else Utf16(t)
  }

  predicate Less(a: Text, b: Text, d: Dialect) {
    LexLess(SortKey(a, d), SortKey(b, d))
  }

  lemma {:induction false} LexTotal(a: seq<int>, b: seq<int>)
    ensures a == b || LexLess(a, b) || LexLess(b, a)
  {
    if a != [] && b != [] && a[0] == b[0] {
      LexTotal(a[1..], b[1..]);
      assert a == [a[0]] + a[1..] && b == [b[0]] + b[1..];
    }
  }

  lemma {:induction false} LexIrreflexive(a: seq<int>)
    ensures !LexLess(a, a)
  {
    if a != [] { LexIrreflexive(a[1..]); }
  }

  lemma {:induction false} LexTransitive(a: seq<int>, b: seq<int>, c: seq<int>)
    requires LexLess(a, b) && LexLess(b, c)
    ensures LexLess(a, c)
  {
    if a != [] && a[0] == b[0] == c[0] { LexTransitive(a[1..], b[1..], c[1..]); }
  }

  lemma {:induction false} Utf16Injective(a: Text, b: Text)
    requires Utf16(a) == Utf16(b)
    ensures a == b
  {
    if a != [] && b != [] {
      var x, y := Utf16(a[1..]), Utf16(b[1..]);
      assert (Units(a[0]) + x)[0] == (Units(b[0]) + y)[0];
      if Astral(a[0]) {
        assert (Units(a[0]) + x)[1] == (Units(b[0]) + y)[1];
        assert a[0] == b[0];
      }
      assert x == (Units(a[0]) + x)[|Units(a[0])|..] == (Units(b[0]) + y)[|Units(b[0])|..] == y;
      Utf16Injective(a[1..], b[1..]);
      assert a == [a[0]] + a[1..] && b == [b[0]] + b[1..];
    }
  }

  lemma LessTotal(a: Text, b: Text, d: Dialect)
    ensures a == b || Less(a, b, d) || Less(b, a, d)
    ensures !(Less(a, b, d) && Less(b, a, d))
    ensures !Less(a, a, d)
  {
    LexTotal(SortKey(a, d), SortKey(b, d));
    LexIrreflexive(SortKey(a, d));
    if d.TypeScript? && Utf16(a) == Utf16(b) { Utf16Injective(a, b); }
    if Less(a, b, d) && Less(b, a, d) { LexTransitive(SortKey(a, d), SortKey(b, d), SortKey(a, d)); }
  }

  predicate IsLeast(k: Text, keys: set<Text>, d: Dialect) {
    k in keys && forall j :: j in keys && j != k ==> Less(k, j, d)
  }

  lemma {:induction false} LeastExists(keys: set<Text>, d: Dialect)
    requires keys != {}
    ensures exists k :: IsLeast(k, keys, d)
    decreases |keys|
  {
    var x :| x in keys;
    var rest := keys - {x};
    if rest == {} {
      assert keys == {x};
      assert IsLeast(x, keys, d);
    } else {
      LeastExists(rest, d);
      var k :| IsLeast(k, rest, d);
      LessTotal(x, k, d);
      if Less(x, k, d) {
        forall j | j in keys && j != x ensures Less(x, j, d) {
          assert j in rest;
          if j != k { LexTransitive(SortKey(x, d), SortKey(k, d), SortKey(j, d)); }
        }
        assert IsLeast(x, keys, d);
      } else {
        assert IsLeast(k, keys, d);
      }
    }
  }

  lemma LeastIsUnique(j: Text, k: Text, keys: set<Text>, d: Dialect)
    requires IsLeast(j, keys, d) && IsLeast(k, keys, d)
    ensures j == k
  {
    LessTotal(j, k, d);
  }

  function Least(keys: set<Text>, d: Dialect): (k: Text)
    requires keys != {}
    ensures IsLeast(k, keys, d)
  {
    LeastExists(keys, d);
    assert forall j, k | IsLeast(j, keys, d) && IsLeast(k, keys, d) :: j == k by {
      forall j, k | IsLeast(j, keys, d) && IsLeast(k, keys, d) ensures j == k { LeastIsUnique(j, k, keys, d); }
    }
    var k :| IsLeast(k, keys, d);
    k
  }

  predicate StrictlySorted(s: seq<Text>, d: Dialect) {
    forall i, j :: 0 <= i < j < |s| ==> Less(s[i], s[j], d)
  }

  lemma LeastFirst(k: Text, rest: seq<Text>, d: Dialect)
    requires StrictlySorted(rest, d) && forall x :: x in rest ==> Less(k, x, d)
    ensures StrictlySorted([k] + rest, d)
  {
    hide Less;
    var s := [k] + rest;
    forall i, j | 0 <= i < j < |s| ensures Less(s[i], s[j], d) {
      assert s[j] == rest[j - 1];
      if i > 0 { assert s[i] == rest[i - 1]; }
    }
  }

  /** The keys of an object in the dialect's order. */
  function SortedKeys(keys: set<Text>, d: Dialect): (s: seq<Text>)
    ensures forall k :: k in s <==> k in keys
    ensures StrictlySorted(s, d)
    decreases |keys|
  {
    if keys == {} then [] else
      var k := Least(keys, d);
      var rest := SortedKeys(keys - {k}, d);
      LeastFirst(k, rest, d);
      [k] + rest
  }

  // Text ----------------------------------------------------------------------------------------

  function Hex(n: nat): Scalar
    requires n < 16
  {
    if n < 10 then 48 + n else 87 + n
  }

  /** One scalar value inside a string literal (section 7 of RFC 8259). */
  function Escape(c: Scalar): (e: Text)
    ensures e != []
  {
    if c == 34 then [92, 34]
    else if c == 92 then [92, 92]
    else if c == 8 then [92, 98]
    else if c == 12 then [92, 102]
    else if c == 10 then [92, 110]
    else if c == 13 then [92, 114]
    else if c == 9 then [92, 116]
    else if c < 32 then [92, 117, 48, 48, Hex(c / 16), Hex(c % 16)]
    else [c]
  }

  /** The characters of a literal and its closing quote. */
  function Quoted(t: Text): (q: Text)
    ensures q != []
  {
    if t == [] then [34] else Escape(t[0]) + Quoted(t[1..])
  }

  function StringText(t: Text): Text { [34] + Quoted(t) }

  function Decimal(n: nat): (t: Text)
    ensures t != []
  {
    if n < 10 then [48 + n] else Decimal(n / 10) + [48 + n % 10]
  }

  function IntText(n: int): Text {
    if n < 0 then [45] + Decimal(-n) else Decimal(n)
  }

  /** The canonical text of a value. */
  function Encode(v: Json, d: Dialect): Text
    decreases v
  {
    match v
    case Null => [110, 117, 108, 108]
    case Bool(b) => if b then [116, 114, 117, 101] else [102, 97, 108, 115, 101]
    case Int(n) => IntText(n)
    case Float(_) => []
    case Str(t) => StringText(t)
    case IllFormed => []
    case Arr(items) => [91] + ItemsText(v, 0, d)
    case Obj(members) => [123] + MembersText(v, SortedKeys(members.Keys, d), 0, d)
  }

  function Comma(i: nat): Text { if i == 0 then [] else [44] }

  /** The items of an array from index `i`, and the closing bracket. */
  function ItemsText(v: Json, i: nat, d: Dialect): Text
    requires v.Arr? && i <= |v.items|
    decreases v, |v.items| - i
  {
    if i == |v.items| then [93] else Comma(i) + (Encode(v.items[i], d) + ItemsText(v, i + 1, d))
  }

  /** The members of an object under the keys from index `i`, and the closing brace. */
  function MembersText(v: Json, keys: seq<Text>, i: nat, d: Dialect): Text
    requires v.Obj? && i <= |keys| && forall k :: k in keys ==> k in v.members
    decreases v, |keys| - i
  {
    if i == |keys| then [125]
    else Comma(i) + (StringText(keys[i]) + ([58] + (Encode(v.members[keys[i]], d) + MembersText(v, keys, i + 1, d))))
  }

  // What is accepted ---------------------------------------------------------------------------

  const MAX_DEPTH: nat := 32
  const MAX_MEMBERS: nat := 4096

  /** Integer range of a dialect, and which texts are in normal form C. */
  datatype Rules = Rules(low: int, high: int, normal: Text -> bool)

  function RulesOf(d: Dialect, normal: Text -> bool): Rules {
    match d
    case Python => Rules(-0x8000_0000_0000_0000, 0x7FFF_FFFF_FFFF_FFFF, normal)
    case TypeScript => Rules(-0x1F_FFFF_FFFF_FFFF, 0x1F_FFFF_FFFF_FFFF, normal)
  }

  /** Every test of the encoders but the member count, for a value found at this depth. */
  predicate Fits(v: Json, depth: nat, rules: Rules)
    decreases v
  {
    && depth <= MAX_DEPTH
    && match v
       case Null => true
       case Bool(_) => true
       case Int(n) => rules.low <= n <= rules.high
       case Float(_) => false
       case Str(t) => rules.normal(t)
       case IllFormed => false
       case Arr(items) => forall i :: 0 <= i < |items| ==> Fits(items[i], depth + 1, rules)
       case Obj(members) =>
         forall k :: k in members ==> depth + 1 <= MAX_DEPTH && rules.normal(k) && Fits(members[k], depth + 1, rules)
  }

  /** How many array items and object members a value has, at every level. */
  function Count(v: Json): nat
    decreases v
  {
    match v
    case Arr(items) => |items| + CountItems(v, |items|)
    case Obj(members) => |members| + CountMembers(v, members.Keys)
    case _ => 0
  }

  function CountItems(v: Json, n: nat): nat
    requires v.Arr? && n <= |v.items|
    decreases v, n
  {
    if n == 0 then 0 else CountItems(v, n - 1) + Count(v.items[n - 1])
  }

  function CountMembers(v: Json, keys: set<Text>): nat
    requires v.Obj? && keys <= v.members.Keys
    decreases v, |keys|
  {
    if keys == {} then 0 else
      var k := Least(keys, Python);
      Count(v.members[k]) + CountMembers(v, keys - {k})
  }

  /** Accepted by the encoder of this dialect. */
  predicate Accepts(v: Json, d: Dialect, normal: Text -> bool) {
    Fits(v, 0, RulesOf(d, normal)) && Count(v) <= MAX_MEMBERS
  }
}
