/**
 What makes canonical text a name for its value: it can be read back in only one way, with or
 without a digest domain in front of it, and the two encoders agree wherever their key orders do.
 */
module CanonicalJson {
  import opened CanonicalText

  // Unique readability ----------------------------------------------------------------------

  lemma EscapeReadable(c: Scalar, d: Scalar, x: Text, y: Text)
    requires Escape(c) + x == Escape(d) + y
    ensures c == d && x == y
  {
    var a, b := Escape(c), Escape(d);
    assert (a + x)[0] == (b + y)[0];
    if a[0] == 92 {
      assert (a + x)[1] == (b + y)[1];
      if a[1] == 117 {
        assert (a + x)[4] == (b + y)[4] && (a + x)[5] == (b + y)[5];
      }
    }
    assert a == b;
    assert x == (a + x)[|a|..] && y == (b + y)[|b|..];
  }

  lemma EscapeNeverQuotes(c: Scalar)
    ensures Escape(c)[0] != 34
  {
  }

  /** A string literal ends at its own closing quote. */
  lemma {:induction false} QuotedReadable(t: Text, u: Text, r: Text, s: Text)
    requires Quoted(t) + r == Quoted(u) + s
    ensures t == u && r == s
  {
    hide Escape;
    assert (Quoted(t) + r)[0] == (Quoted(u) + s)[0];
    if t != [] { EscapeNeverQuotes(t[0]); }
    if u != [] { EscapeNeverQuotes(u[0]); }
    if t == [] {
      assert r == (Quoted(t) + r)[1..] && s == (Quoted(u) + s)[1..];
    } else {
      assert Escape(t[0]) + (Quoted(t[1..]) + r) == Quoted(t) + r;
      assert Escape(u[0]) + (Quoted(u[1..]) + s) == Quoted(u) + s;
      EscapeReadable(t[0], u[0], Quoted(t[1..]) + r, Quoted(u[1..]) + s);
      QuotedReadable(t[1..], u[1..], r, s);
      assert t == [t[0]] + t[1..] && u == [u[0]] + u[1..];
    }
  }

  predicate IsDigit(c: int) { 48 <= c <= 57 }

  /** What may follow a number: anything that does not go on with it. */
  predicate NoDigit(r: Text) { r == [] || !IsDigit(r[0]) }

  function Read(t: seq<int>): int {
    if t == [] then 0 else Read(t[..|t| - 1]) * 10 + (t[|t| - 1] - 48)
  }

  lemma {:induction false} DecimalReads(n: nat)
    ensures Read(Decimal(n)) == n && forall i :: 0 <= i < |Decimal(n)| ==> IsDigit(Decimal(n)[i])
  {
    var t := Decimal(n);
    if n < 10 {
      assert t[..0] == [];
    } else {
      DecimalReads(n / 10);
      assert t[..|t| - 1] == Decimal(n / 10);
    }
  }

  lemma RunIsNoLonger(a: Text, r: Text, b: Text, s: Text)
    requires a + r == b + s && NoDigit(s) && forall i :: 0 <= i < |a| ==> IsDigit(a[i])
    ensures |a| <= |b|
  {
    var whole := a + r;
    if |b| < |whole| { assert whole[|b|] == s[0]; }
    assert forall i :: 0 <= i < |a| ==> whole[i] == a[i];
  }

  lemma DecimalReadable(m: nat, n: nat, r: Text, s: Text)
    requires NoDigit(r) && NoDigit(s) && Decimal(m) + r == Decimal(n) + s
    ensures m == n && r == s
  {
    hide Decimal;
    DecimalReads(m);
    DecimalReads(n);
    var a, b := Decimal(m), Decimal(n);
    RunIsNoLonger(a, r, b, s);
    RunIsNoLonger(b, s, a, r);
    assert a == (a + r)[..|a|] && b == (b + s)[..|b|];
    assert r == (a + r)[|a|..] && s == (b + s)[|b|..];
  }

  lemma IntReadable(m: int, n: int, r: Text, s: Text)
    requires NoDigit(r) && NoDigit(s) && IntText(m) + r == IntText(n) + s
    ensures m == n && r == s
  {
    IntHead(m);
    IntHead(n);
    assert (IntText(m) + r)[0] == (IntText(n) + s)[0];
    hide Decimal, NoDigit, IsDigit;
    if m < 0 {
      StripHead(45, Decimal(-m), r, Decimal(-n), s);
      DecimalReadable(-m, -n, r, s);
    } else {
      DecimalReadable(m, n, r, s);
    }
  }

  lemma IntHead(n: int)
    ensures IntText(n)[0] == 45 <==> n < 0
    ensures n >= 0 ==> IsDigit(IntText(n)[0])
  {
    if n >= 0 { DecimalReads(n); }
  }

  /** Nothing in the value is refused for what it is. */
  predicate Clean(v: Json)
    decreases v
  {
    match v
    case Float(_) => false
    case IllFormed => false
    case Arr(items) => forall i :: 0 <= i < |items| ==> Clean(items[i])
    case Obj(members) => forall k :: k in members ==> Clean(members[k])
    case _ => true
  }

  lemma {:induction false} FitsIsClean(v: Json, depth: nat, rules: Rules)
    requires Fits(v, depth, rules)
    ensures Clean(v)
    decreases v
  {
    match v
    case Arr(items) =>
      forall i | 0 <= i < |items| ensures Clean(items[i]) { FitsIsClean(items[i], depth + 1, rules); }
    case Obj(members) =>
      forall k | k in members ensures Clean(members[k]) { FitsIsClean(members[k], depth + 1, rules); }
    case _ =>
  }

  /** In every object of the value the two dialects put the keys in the same order. */
  predicate SameOrder(v: Json, d: Dialect, e: Dialect)
    decreases v
  {
    match v
    case Arr(items) => forall i :: 0 <= i < |items| ==> SameOrder(items[i], d, e)
    case Obj(members) =>
      && SortedKeys(members.Keys, d) == SortedKeys(members.Keys, e)
      && forall k :: k in members ==> SameOrder(members[k], d, e)
    case _ => true
  }

  /** The first character tells the kinds of value apart. */
  function Kind(c: int): nat {
    if c == 110 then 0 else if c == 116 then 1 else if c == 102 then 2 else if c == 45 || IsDigit(c) then 3
    else if c == 34 then 4 else if c == 91 then 5 else if c == 123 then 6 else 7
  }

  function KindOf(v: Json): nat
    requires Clean(v)
  {
    match v
    case Null => 0
    case Bool(b) => if b then 1 else 2
    case Int(_) => 3
    case Str(_) => 4
    case Arr(_) => 5
    case Obj(_) => 6
  }

  lemma EncodeHead(v: Json, d: Dialect)
    requires Clean(v)
    ensures Encode(v, d) != [] && Kind(Encode(v, d)[0]) == KindOf(v)
    ensures Encode(v, d)[0] != 93 && Encode(v, d)[0] != 44
  {
    if v.Int? { IntHead(v.number); }
  }

  /**
   Reading is unique, whatever follows and whichever encoder wrote either text: the value, its
   extent and the key orders of its objects are all determined by the text.
   */
  lemma {:induction false} Readable(a: Json, d: Dialect, b: Json, e: Dialect, r: Text, s: Text)
    requires Clean(a) && Clean(b) && NoDigit(r) && NoDigit(s)
    requires Encode(a, d) + r == Encode(b, e) + s
    ensures a == b && r == s && SameOrder(a, d, e)
    decreases a
  {
    hide ItemsText, MembersText, Quoted, IntText, NoDigit, SortedKeys;
    EncodeHead(a, d);
    EncodeHead(b, e);
    assert (Encode(a, d) + r)[0] == (Encode(b, e) + s)[0];
    match a
    case Null => SameTail(Encode(a, d), r, s);
    case Bool(_) => SameTail(Encode(a, d), r, s);
    case Int(n) => IntReadable(n, b.number, r, s);
    case Str(t) =>
      StripHead(34, Quoted(t), r, Quoted(b.text), s);
      QuotedReadable(t, b.text, r, s);
    case Arr(items) =>
      StripHead(91, ItemsText(a, 0, d), r, ItemsText(b, 0, e), s);
      ItemsReadable(a, d, b, e, 0, r, s);
      assert a.items == b.items;
    case Obj(members) =>
      var j, k := SortedKeys(members.Keys, d), SortedKeys(b.members.Keys, e);
      StripHead(123, MembersText(a, j, 0, d), r, MembersText(b, k, 0, e), s);
      MembersReadable(a, j, d, b, k, e, 0, r, s);
      ObjectsAreEqual(a, j, b, k);
  }

  lemma SameTail(t: Text, r: Text, s: Text)
    requires t + r == t + s
    ensures r == s
  {
    assert r == (t + r)[|t|..] && s == (t + s)[|t|..];
  }

  lemma StripHead(c: Scalar, t: Text, r: Text, u: Text, s: Text)
    requires ([c] + t) + r == ([c] + u) + s
    ensures t + r == u + s
  {
    assert t + r == (([c] + t) + r)[1..];
    assert u + s == (([c] + u) + s)[1..];
  }

  lemma ObjectsAreEqual(a: Json, j: seq<Text>, b: Json, k: seq<Text>)
    requires a.Obj? && b.Obj? && j == k
    requires forall x :: x in j <==> x in a.members
    requires forall x :: x in k <==> x in b.members
    requires forall i :: 0 <= i < |j| ==> a.members[j[i]] == b.members[k[i]]
    ensures a == b
  {
    assert a.members.Keys == b.members.Keys;
    forall x | x in a.members ensures a.members[x] == b.members[x] {
      assert x in j;
    }
    assert a.members == b.members;
  }

  /** What starts with a comma or a closing mark cannot go on with a number. */
  lemma RestStops(v: Json, i: nat, d: Dialect, r: Text)
    requires v.Arr? && 0 < i <= |v.items|
    ensures NoDigit(ItemsText(v, i, d) + r)
  {
  }

  lemma {:induction false} ItemsReadable(a: Json, d: Dialect, b: Json, e: Dialect, i: nat, r: Text, s: Text)
    requires a.Arr? && b.Arr? && Clean(a) && Clean(b) && i <= |a.items| && i <= |b.items|
    requires ItemsText(a, i, d) + r == ItemsText(b, i, e) + s
    ensures |a.items| == |b.items| && r == s
    ensures forall k :: i <= k < |a.items| ==> a.items[k] == b.items[k] && SameOrder(a.items[k], d, e)
    decreases a, |a.items| - i
  {
    hide Encode, NoDigit;
    assert (ItemsText(a, i, d) + r)[0] == (ItemsText(b, i, e) + s)[0];
    if i < |a.items| { EncodeHead(a.items[i], d); }
    if i < |b.items| { EncodeHead(b.items[i], e); }
    if i == |a.items| {
      SameTail([93], r, s);
    } else {
      var x, y := Encode(a.items[i], d), Encode(b.items[i], e);
      var p, q := ItemsText(a, i + 1, d), ItemsText(b, i + 1, e);
      DropComma(Comma(i), x, p, r, y, q, s);
      RestStops(a, i + 1, d, r);
      RestStops(b, i + 1, e, s);
      Readable(a.items[i], d, b.items[i], e, p + r, q + s);
      ItemsReadable(a, d, b, e, i + 1, r, s);
    }
  }

  lemma DropComma(comma: Text, x: Text, p: Text, r: Text, y: Text, q: Text, s: Text)
    requires (comma + (x + p)) + r == (comma + (y + q)) + s
    ensures x + (p + r) == y + (q + s)
  {
    assert (comma + (x + p)) + r == comma + (x + (p + r));
    assert (comma + (y + q)) + s == comma + (y + (q + s));
    SameTail(comma, x + (p + r), y + (q + s));
  }

  lemma MemberStops(v: Json, keys: seq<Text>, i: nat, d: Dialect, r: Text)
    requires v.Obj? && 0 < i <= |keys| && forall k :: k in keys ==> k in v.members
    ensures NoDigit(MembersText(v, keys, i, d) + r)
  {
  }

  /** The key of one member is read, and what is left starts with its value. */
  lemma OneMember(comma: Text, j: Text, x: Text, p: Text, r: Text, k: Text, y: Text, q: Text, s: Text)
    requires (comma + (StringText(j) + ([58] + (x + p)))) + r == (comma + (StringText(k) + ([58] + (y + q)))) + s
    ensures j == k && x + (p + r) == y + (q + s)
  {
    hide Quoted;
    DropComma(comma, StringText(j), [58] + (x + p), r, StringText(k), [58] + (y + q), s);
    StripHead(34, Quoted(j), ([58] + (x + p)) + r, Quoted(k), ([58] + (y + q)) + s);
    QuotedReadable(j, k, ([58] + (x + p)) + r, ([58] + (y + q)) + s);
    DropComma([58], x, p, r, y, q, s);
  }

  lemma CleanMember(v: Json, k: Text)
    requires v.Obj? && Clean(v) && k in v.members
    ensures Clean(v.members[k])
  {
  }

  lemma {:induction false} MembersReadable(a: Json, j: seq<Text>, d: Dialect, b: Json, k: seq<Text>, e: Dialect, i: nat,
                                          r: Text, s: Text)
    requires a.Obj? && b.Obj? && Clean(a) && Clean(b) && i <= |j| && i <= |k| && j[..i] == k[..i]
    requires (forall x :: x in j ==> x in a.members) && forall x :: x in k ==> x in b.members
    requires MembersText(a, j, i, d) + r == MembersText(b, k, i, e) + s
    ensures j == k && r == s
    ensures forall n :: i <= n < |j| ==> a.members[j[n]] == b.members[k[n]] && SameOrder(a.members[j[n]], d, e)
    decreases a, |j| - i
  {
    hide Encode, NoDigit, Quoted;
    assert (MembersText(a, j, i, d) + r)[0] == (MembersText(b, k, i, e) + s)[0];
    if i == |j| {
      hide SameOrder, Clean;
      SameTail([125], r, s);
      assert j == j[..i] && k == k[..i];
    } else {
      CleanMember(a, j[i]);
      CleanMember(b, k[i]);
      hide SameOrder, Clean;
      var p, q := MembersText(a, j, i + 1, d), MembersText(b, k, i + 1, e);
      var x, y := Encode(a.members[j[i]], d), Encode(b.members[k[i]], e);
      OneMember(Comma(i), j[i], x, p, r, k[i], y, q, s);
      MemberStops(a, j, i + 1, d, r);
      MemberStops(b, k, i + 1, e, s);
      Readable(a.members[j[i]], d, b.members[k[i]], e, p + r, q + s);
      assert j[..i + 1] == j[..i] + [j[i]] && k[..i + 1] == k[..i] + [k[i]];
      MembersReadable(a, j, d, b, k, e, i + 1, r, s);
    }
  }

  /** Canonical text is injective on the values an encoder accepts. */
  lemma EncodeInjective(a: Json, b: Json, d: Dialect, normal: Text -> bool)
    requires Accepts(a, d, normal) && Accepts(b, d, normal) && Encode(a, d) == Encode(b, d)
    ensures a == b
  {
    hide Encode, Fits;
    FitsIsClean(a, 0, RulesOf(d, normal));
    FitsIsClean(b, 0, RulesOf(d, normal));
    assert Encode(a, d) + [] == Encode(b, d) + [];
    Readable(a, d, b, d, [], []);
  }

  // Digest domains -----------------------------------------------------------------------------

  predicate NoNewline(t: Text) { forall i :: 0 <= i < |t| ==> t[i] != 10 }

  lemma {:induction false} QuotedHasNoNewline(t: Text)
    ensures NoNewline(Quoted(t))
  {
    if t != [] { QuotedHasNoNewline(t[1..]); }
  }

  lemma {:induction false} EncodeHasNoNewline(v: Json, d: Dialect)
    ensures NoNewline(Encode(v, d))
    decreases v
  {
    hide SortedKeys, Quoted, ItemsText, MembersText;
    match v
    case Int(n) => IntHasNoNewline(n);
    case Str(t) => QuotedHasNoNewline(t);
    case Arr(_) => ItemsHaveNoNewline(v, 0, d);
    case Obj(members) => MembersHaveNoNewline(v, SortedKeys(members.Keys, d), 0, d);
    case _ =>
  }

  lemma IntHasNoNewline(n: int)
    ensures NoNewline(IntText(n))
  {
    DecimalReads(if n < 0 then -n else n);
  }

  lemma {:induction false} ItemsHaveNoNewline(v: Json, i: nat, d: Dialect)
    requires v.Arr? && i <= |v.items|
    ensures NoNewline(ItemsText(v, i, d))
    decreases v, |v.items| - i
  {
    hide Encode;
    if i < |v.items| {
      EncodeHasNoNewline(v.items[i], d);
      ItemsHaveNoNewline(v, i + 1, d);
    }
  }

  lemma {:induction false} MembersHaveNoNewline(v: Json, keys: seq<Text>, i: nat, d: Dialect)
    requires v.Obj? && i <= |keys| && forall k :: k in keys ==> k in v.members
    ensures NoNewline(MembersText(v, keys, i, d))
    decreases v, |keys| - i
  {
    hide Encode, Quoted;
    if i < |keys| {
      QuotedHasNoNewline(keys[i]);
      EncodeHasNoNewline(v.members[keys[i]], d);
      MembersHaveNoNewline(v, keys, i + 1, d);
    }
  }

  /** `kogg:`, the domain, `:v1` and a newline. */
  function Prefix(domain: Text): Text {
    [107, 111, 103, 103, 58] + domain + [58, 118, 49, 10]
  }

  /** What `_domain_digest` hashes, before it is encoded. */
  function DomainText(domain: Text, v: Json): Text {
    Prefix(domain) + Encode(v, Python)
  }

  lemma NoLaterNewline(whole: Text, a: Text, x: Text, at: nat)
    requires whole == a + [10] + x && NoNewline(x) && at < |whole| && whole[at] == 10
    ensures at <= |a|
  {
    assert forall i :: 0 <= i < |x| ==> whole[|a| + 1 + i] == x[i];
  }

  /** Texts without a newline are found behind the last newline. */
  lemma LastNewline(a: Text, x: Text, b: Text, y: Text)
    requires NoNewline(x) && NoNewline(y) && a + [10] + x == b + [10] + y
    ensures a == b && x == y
  {
    var whole := a + [10] + x;
    assert whole[|a|] == 10 && whole[|b|] == 10;
    NoLaterNewline(whole, a, x, |b|);
    NoLaterNewline(whole, b, y, |a|);
    assert a == whole[..|a|] && b == whole[..|b|];
    assert x == whole[|a| + 1..] && y == whole[|b| + 1..];
  }

  /** A domain digest covers exactly one domain and one value, and never a text without a domain. */
  lemma DomainTextInjective(p: Text, a: Json, q: Text, b: Json, normal: Text -> bool)
    requires Accepts(a, Python, normal) && Accepts(b, Python, normal)
    ensures DomainText(p, a) == DomainText(q, b) ==> p == q && a == b
    ensures DomainText(p, a) != Encode(b, Python)
  {
    hide Encode, Fits;
    EncodeHasNoNewline(a, Python);
    EncodeHasNoNewline(b, Python);
    var x, y := [107, 111, 103, 103, 58] + p + [58, 118, 49], [107, 111, 103, 103, 58] + q + [58, 118, 49];
    assert Prefix(p) == x + [10] && Prefix(q) == y + [10];
    assert DomainText(p, a)[|x|] == 10;
    if DomainText(p, a) == DomainText(q, b) {
      LastNewline(x, Encode(a, Python), y, Encode(b, Python));
      assert p == x[5..|x| - 3] && q == y[5..|y| - 3];
      EncodeInjective(a, b, Python, normal);
    }
  }

  // Bytes ------------------------------------------------------------------------------------------

  /** UTF-8 (section 3 of RFC 3629). */
  function Utf8Of(c: Scalar): (bytes: seq<int>)
    ensures bytes != []
  {
    if c < 0x80 then [c]
    else if c < 0x800 then [0xC0 + c / 0x40, 0x80 + c % 0x40]
    else if c < 0x1_0000 then [0xE0 + c / 0x1000, 0x80 + c / 0x40 % 0x40, 0x80 + c % 0x40]
    else [0xF0 + c / 0x4_0000, 0x80 + c / 0x1000 % 0x40, 0x80 + c / 0x40 % 0x40, 0x80 + c % 0x40]
  }

  function Utf8(t: Text): seq<int> {
    if t == [] then [] else Utf8Of(t[0]) + Utf8(t[1..])
  }

  lemma Utf8OfInjective(c: Scalar, d: Scalar)
    requires |Utf8Of(c)| == |Utf8Of(d)| && Utf8Of(c) == Utf8Of(d)
    ensures c == d
  {
    var a, b := Utf8Of(c), Utf8Of(d);
    assert a[0] == b[0];
    if |a| > 1 {
      assert a[1] == b[1];
      if |a| == 3 {
        assert a[2] == b[2];
        SixBits(c, d);
        SixBits(c / 0x40, d / 0x40);
      } else if |a| == 4 {
        assert a[2] == b[2] && a[3] == b[3];
        SixBits(c, d);
        SixBits(c / 0x40, d / 0x40);
        SixBits(c / 0x1000, d / 0x1000);
      }
    }
  }

  lemma SixBits(c: int, d: int)
    requires 0 <= c && 0 <= d
    ensures c % 0x40 == d % 0x40 && c / 0x40 == d / 0x40 ==> c == d
    ensures c / 0x40 / 0x40 == c / 0x1000 && d / 0x40 / 0x40 == d / 0x1000
    ensures c / 0x1000 / 0x40 == c / 0x4_0000 && d / 0x1000 / 0x40 == d / 0x4_0000
  {
  }

  lemma FirstByteTellsLength(c: Scalar, d: Scalar)
    requires Utf8Of(c)[0] == Utf8Of(d)[0]
    ensures |Utf8Of(c)| == |Utf8Of(d)|
  {
  }

  lemma {:induction false} Utf8Injective(t: Text, u: Text)
    requires Utf8(t) == Utf8(u)
    ensures t == u
  {
    if t != [] && u != [] {
      var a, b := Utf8Of(t[0]), Utf8Of(u[0]);
      hide Utf8Of;
      var x, y := Utf8(t[1..]), Utf8(u[1..]);
      assert (a + x)[0] == (b + y)[0];
      FirstByteTellsLength(t[0], u[0]);
      assert a == (a + x)[..|a|] && b == (b + y)[..|b|];
      assert x == (a + x)[|a|..] && y == (b + y)[|b|..];
      Utf8OfInjective(t[0], u[0]);
      Utf8Injective(t[1..], u[1..]);
      assert t == [t[0]] + t[1..] && u == [u[0]] + u[1..];
    }
  }

  /** The bytes that are hashed determine the domain and the value. */
  lemma DomainBytesInjective(p: Text, a: Json, q: Text, b: Json, normal: Text -> bool)
    requires Accepts(a, Python, normal) && Accepts(b, Python, normal)
    requires Utf8(DomainText(p, a)) == Utf8(DomainText(q, b))
    ensures p == q && a == b
  {
    hide Accepts, DomainText, Utf8;
    Utf8Injective(DomainText(p, a), DomainText(q, b));
    DomainTextInjective(p, a, q, b, normal);
  }

  // The two encoders -----------------------------------------------------------------------------

  lemma {:induction false} FitsWider(v: Json, depth: nat, narrow: Rules, wide: Rules)
    requires Fits(v, depth, narrow) && wide.low <= narrow.low && narrow.high <= wide.high
               && wide.normal == narrow.normal
    ensures Fits(v, depth, wide)
    decreases v
  {
    match v
    case Arr(items) =>
      forall i | 0 <= i < |items|
        ensures Fits(items[i], depth + 1, wide)
      {
        FitsWider(items[i], depth + 1, narrow, wide);
      }
    case Obj(members) =>
      forall k | k in members ensures Fits(members[k], depth + 1, wide) {
        FitsWider(members[k], depth + 1, narrow, wide);
      }
    case _ =>
  }

  lemma {:induction false} SameOrderSameText(v: Json, d: Dialect, e: Dialect)
    requires SameOrder(v, d, e)
    ensures Encode(v, d) == Encode(v, e)
    decreases v
  {
    hide SortedKeys, ItemsText, MembersText;
    match v
    case Arr(items) => SameItems(v, 0, d, e);
    case Obj(members) => SameMembers(v, SortedKeys(members.Keys, d), 0, d, e);
    case _ =>
  }

  lemma {:induction false} SameItems(v: Json, i: nat, d: Dialect, e: Dialect)
    requires v.Arr? && i <= |v.items| && SameOrder(v, d, e)
    ensures ItemsText(v, i, d) == ItemsText(v, i, e)
    decreases v, |v.items| - i
  {
    hide Encode;
    if i < |v.items| {
      SameOrderSameText(v.items[i], d, e);
      SameItems(v, i + 1, d, e);
    }
  }

  lemma {:induction false} SameMembers(v: Json, keys: seq<Text>, i: nat, d: Dialect, e: Dialect)
    requires v.Obj? && i <= |keys| && SameOrder(v, d, e) && forall k :: k in keys ==> k in v.members
    ensures MembersText(v, keys, i, d) == MembersText(v, keys, i, e)
    decreases v, |keys| - i
  {
    hide Encode, SortedKeys;
    if i < |keys| {
      SameOrderSameText(v.members[keys[i]], d, e);
      SameMembers(v, keys, i + 1, d, e);
    }
  }

  /**
   What the TypeScript encoder accepts the Python one accepts too, and they produce the same text
   exactly when they order the keys of every object alike.
   */
  lemma EncodersAgreeIff(v: Json, normal: Text -> bool)
    requires Accepts(v, TypeScript, normal)
    ensures Accepts(v, Python, normal)
    ensures Encode(v, TypeScript) == Encode(v, Python) <==> SameOrder(v, TypeScript, Python)
  {
    hide Encode, Fits, SameOrder;
    FitsWider(v, 0, RulesOf(TypeScript, normal), RulesOf(Python, normal));
    FitsIsClean(v, 0, RulesOf(TypeScript, normal));
    if SameOrder(v, TypeScript, Python) { SameOrderSameText(v, TypeScript, Python); }
    if Encode(v, TypeScript) == Encode(v, Python) {
      assert Encode(v, TypeScript) + [] == Encode(v, Python) + [];
      Readable(v, TypeScript, v, Python, [], []);
    }
  }

  // When the key orders agree ------------------------------------------------------------------

  /** At their first difference one key has an astral character and the other one from U+E000 on. */
  predicate Clash(a: Text, b: Text) {
    && a != [] && b != []
    && if a[0] == b[0] then Clash(a[1..], b[1..])
       else (Astral(a[0]) && !Astral(b[0]) && b[0] >= 0xE000) || (Astral(b[0]) && !Astral(a[0]) && a[0] >= 0xE000)
  }

  lemma {:induction false} LexStrip(p: seq<int>, a: seq<int>, b: seq<int>)
    ensures LexLess(p + a, p + b) == LexLess(a, b)
  {
    if p == [] {
      assert p + a == a && p + b == b;
    } else {
      assert (p + a)[1..] == p[1..] + a && (p + b)[1..] == p[1..] + b;
      LexStrip(p[1..], a, b);
    }
  }

  /** The two orders disagree on two keys exactly when the keys clash. */
  lemma {:induction false} OrdersDisagreeIff(a: Text, b: Text)
    ensures Less(a, b, Python) == Less(a, b, TypeScript) <==> !Clash(a, b)
  {
    if a != [] && b != [] {
      if a[0] == b[0] {
        OrdersDisagreeIff(a[1..], b[1..]);
        LexStrip(Units(a[0]), Utf16(a[1..]), Utf16(b[1..]));
      } else {
        FirstUnitsDecide(a, b);
      }
    }
  }

  lemma FirstUnitsDecide(a: Text, b: Text)
    requires a != [] && b != [] && a[0] != b[0]
    ensures Less(a, b, Python) == (a[0] < b[0])
    ensures Less(a, b, TypeScript) == if Astral(a[0]) == Astral(b[0]) then a[0] < b[0]
              else Units(a[0])[0] < Units(b[0])[0]
  {
    var x, y := Utf16(a), Utf16(b);
    assert x[0] == Units(a[0])[0] && y[0] == Units(b[0])[0];
    if Astral(a[0]) && Astral(b[0]) {
      assert x[1] == Units(a[0])[1] && y[1] == Units(b[0])[1];
      assert LexLess(x[1..], y[1..]) == (x[1] < y[1] || (x[1] == y[1] && LexLess(x[1..][1..], y[1..][1..])));
    }
  }

  predicate NoClash(keys: set<Text>) {
    forall a, b :: a in keys && b in keys ==> !Clash(a, b)
  }

  /** No object of the value has two keys that clash: what a caller can check beforehand. */
  predicate NoClashes(v: Json)
    decreases v
  {
    match v
    case Arr(items) => forall i :: 0 <= i < |items| ==> NoClashes(items[i])
    case Obj(members) => NoClash(members.Keys) && forall k :: k in members ==> NoClashes(members[k])
    case _ => true
  }

  lemma {:induction false} SortedAlike(keys: set<Text>)
    requires NoClash(keys)
    ensures SortedKeys(keys, Python) == SortedKeys(keys, TypeScript)
    decreases |keys|
  {
    if keys != {} {
      var k := Least(keys, Python);
      forall j | j in keys && j != k ensures Less(k, j, TypeScript) { OrdersDisagreeIff(k, j); }
      LeastIsUnique(k, Least(keys, TypeScript), keys, TypeScript);
      SortedAlike(keys - {k});
    }
  }

  lemma SortedAlikeMeansNoClash(keys: set<Text>)
    requires SortedKeys(keys, Python) == SortedKeys(keys, TypeScript)
    ensures NoClash(keys)
  {
    hide Less, Clash;
    var s := SortedKeys(keys, Python);
    forall a, b | a in keys && b in keys ensures !Clash(a, b) {
      OrdersDisagreeIff(a, b);
      assert a in s && b in s;
      var i, j :| 0 <= i < |s| && 0 <= j < |s| && s[i] == a && s[j] == b;
      LessTotal(a, b, Python);
      LessTotal(a, b, TypeScript);
    }
  }

  lemma {:induction false} SameOrderIffNoClashes(v: Json)
    ensures SameOrder(v, TypeScript, Python) <==> NoClashes(v)
    decreases v
  {
    hide SortedKeys, NoClash;
    match v
    case Arr(items) =>
      forall i | 0 <= i < |items| ensures SameOrder(items[i], TypeScript, Python) <==> NoClashes(items[i]) {
        SameOrderIffNoClashes(items[i]);
      }
    case Obj(members) =>
      if NoClash(members.Keys) { SortedAlike(members.Keys); }
      if SortedKeys(members.Keys, Python) == SortedKeys(members.Keys, TypeScript) {
        SortedAlikeMeansNoClash(members.Keys);
      }
      forall k | k in members ensures SameOrder(members[k], TypeScript, Python) <==> NoClashes(members[k]) {
        SameOrderIffNoClashes(members[k]);
      }
    case _ =>
  }

  /** The encoders give the same text exactly when no object has two clashing keys. */
  lemma {:induction false} EncodersAgreeIffNoClashes(v: Json, normal: Text -> bool)
    requires Accepts(v, TypeScript, normal)
    ensures Encode(v, TypeScript) == Encode(v, Python) <==> NoClashes(v)
  {
    hide Encode, Accepts, SameOrder, NoClashes;
    EncodersAgreeIff(v, normal);
    SameOrderIffNoClashes(v);
  }

  /** Every key of the value, at every level, lies in the Basic Multilingual Plane. */
  predicate BmpKeys(v: Json)
    decreases v
  {
    match v
    case Arr(items) => forall i :: 0 <= i < |items| ==> BmpKeys(items[i])
    case Obj(members) =>
      forall k :: k in members ==> (forall c :: c in k ==> !Astral(c)) && BmpKeys(members[k])
    case _ => true
  }

  lemma {:induction false} BmpDoesNotClash(a: Text, b: Text)
    requires (forall c :: c in a ==> !Astral(c)) && forall c :: c in b ==> !Astral(c)
    ensures !Clash(a, b)
  {
    if a != [] && b != [] {
      assert a[0] in a && b[0] in b;
      BmpDoesNotClash(a[1..], b[1..]);
    }
  }

  lemma {:induction false} BmpKeysDoNotClash(v: Json)
    requires BmpKeys(v)
    ensures NoClashes(v)
    decreases v
  {
    hide Clash, Astral;
    match v
    case Arr(items) =>
      forall i | 0 <= i < |items| ensures NoClashes(items[i]) { BmpKeysDoNotClash(items[i]); }
    case Obj(members) =>
      forall a, b | a in members && b in members ensures !Clash(a, b) { BmpDoesNotClash(a, b); }
      forall k | k in members ensures NoClashes(members[k]) { BmpKeysDoNotClash(members[k]); }
    case _ =>
  }

  /** On values whose keys are all in the Basic Multilingual Plane the encoders always agree. */
  lemma EncodersAgreeOnBmp(v: Json, normal: Text -> bool)
    requires Accepts(v, TypeScript, normal) && BmpKeys(v)
    ensures Accepts(v, Python, normal) && Encode(v, TypeScript) == Encode(v, Python)
  {
    hide Encode, Accepts;
    BmpKeysDoNotClash(v);
    EncodersAgreeIff(v, normal);
    EncodersAgreeIffNoClashes(v, normal);
  }

  /** Beyond it they can differ: a key U+FF5E beside a key U+1F600. */
  lemma {:induction false} EncodersCanDiffer(normal: Text -> bool)
    requires normal([0xFF5E]) && normal([0x1F600])
    ensures var v := Obj(map[[0xFF5E] := Null, [0x1F600] := Null]);
            Accepts(v, TypeScript, normal) && Encode(v, TypeScript) != Encode(v, Python)
  {
    hide Encode, SortedKeys, Fits, NoClashes, Clash;
    var v := Obj(map[[0xFF5E] := Null, [0x1F600] := Null]);
    CountOfTwo(v);
    NullsFit(v, RulesOf(TypeScript, normal));
    KeysClash(v, [0xFF5E], [0x1F600]);
    EncodersAgreeIffNoClashes(v, normal);
  }

  lemma NullsFit(v: Json, rules: Rules)
    requires v.Obj? && forall k :: k in v.members ==> v.members[k] == Null && rules.normal(k)
    ensures Fits(v, 0, rules)
  {
  }

  lemma KeysClash(v: Json, a: Text, b: Text)
    requires v.Obj? && a in v.members && b in v.members && a == [0xFF5E] && b == [0x1F600]
    ensures !NoClashes(v)
  {
    assert Clash(a, b);
  }

  lemma CountOfTwo(v: Json)
    requires v.Obj? && |v.members| == 2 && forall k :: k in v.members ==> v.members[k] == Null
    ensures Count(v) == 2
  {
    CountOfNulls(v, v.members.Keys);
  }

  lemma {:induction false} CountOfNulls(v: Json, keys: set<Text>)
    requires v.Obj? && keys <= v.members.Keys && forall k :: k in v.members ==> v.members[k] == Null
    ensures CountMembers(v, keys) == 0
    decreases |keys|
  {
    if keys != {} { CountOfNulls(v, keys - {Least(keys, Python)}); }
  }
}
