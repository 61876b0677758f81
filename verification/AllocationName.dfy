/**
 The directory name of an allocation: `r-` and the lower-case, unpadded base 32 of the 128-bit
 worktree id (section 6 of RFC 4648), computed with a 32-bit accumulator that is never masked.
 */
module AllocationName {
  type Byte = b: int | 0 <= b < 256

  const ALPHABET: string := "abcdefghijklmnopqrstuvwxyz234567"
  const HEX: string := "0123456789abcdef"
  const WORD: nat := 0x1_0000_0000

  // Positional notation -------------------------------------------------------------------

  predicate DigitsOf(ds: seq<int>, base: nat) {
    forall i :: 0 <= i < |ds| ==> 0 <= ds[i] < base
  }

  /** The number a digit string denotes, most significant digit first. */
  function Value(ds: seq<int>, base: nat): int {
    if ds == [] then 0 else Value(ds[..|ds| - 1], base) * base + ds[|ds| - 1]
  }

  /** The low `n` digits of `v`. */
  function Digits(v: int, n: nat, base: nat): (ds: seq<int>)
    requires base > 0
    ensures |ds| == n && DigitsOf(ds, base)
    decreases n
  {
    if n == 0 then []
    else
      ModRange(v, base);
      Digits(v / base, n - 1, base) + [v % base]
  }

  lemma ValueOfNext(ds: seq<int>, d: int, base: nat)
    ensures Value(ds + [d], base) == Value(ds, base) * base + d
  {
    assert (ds + [d])[..|ds|] == ds;
  }

  lemma ModRange(v: int, base: nat)
    requires base > 0
    ensures 0 <= v % base < base
  {
  }

  lemma MultipleBeyond(base: int, q: int)
    requires base > 0
    ensures q >= 1 ==> base * q >= base
    ensures q <= -1 ==> base * q <= -base
  {
    if q >= 1 { assert base * q == base + base * (q - 1); }
    if q <= -1 { assert base * q == -base - base * (-q - 1); }
  }

  lemma DivideShifted(x: int, base: nat, d: int)
    requires 0 <= d < base
    ensures (x * base + d) / base == x && (x * base + d) % base == d
  {
    var q, r := (x * base + d) / base, (x * base + d) % base;
    assert base * (q - x) == d - r;
    MultipleBeyond(base, q - x);
  }

  /** A digit string of known length is determined by its value. */
  lemma {:induction false} DigitsAreUnique(ds: seq<int>, base: nat)
    requires base > 0 && DigitsOf(ds, base)
    ensures Digits(Value(ds, base), |ds|, base) == ds
  {
    if ds != [] {
      var init := ds[..|ds| - 1];
      DigitsAreUnique(init, base);
      DivideShifted(Value(init, base), base, ds[|ds| - 1]);
      assert ds == init + [ds[|ds| - 1]];
    }
  }

  // Spelling ------------------------------------------------------------------------------

  function Spell(ds: seq<int>, alphabet: string): (text: string)
    requires DigitsOf(ds, |alphabet|)
    ensures |text| == |ds| && forall i :: 0 <= i < |ds| ==> text[i] == alphabet[ds[i]]
  {
    seq(|ds|, i requires 0 <= i < |ds| => alphabet[ds[i]])
  }

  function IndexIn(alphabet: string, c: char): (i: nat)
    requires c in alphabet
    ensures i < |alphabet| && alphabet[i] == c
  {
    if alphabet[0] == c then 0 else 1 + IndexIn(alphabet[1..], c)
  }

  predicate SpelledWith(text: string, alphabet: string) {
    forall i :: 0 <= i < |text| ==> text[i] in alphabet
  }

  function Unspell(text: string, alphabet: string): (ds: seq<int>)
    requires SpelledWith(text, alphabet)
    ensures |ds| == |text| && DigitsOf(ds, |alphabet|)
    ensures forall i :: 0 <= i < |text| ==> alphabet[ds[i]] == text[i]
  {
    seq(|text|, i requires 0 <= i < |text| => IndexIn(alphabet, text[i]))
  }

  lemma AlphabetsAreInjective()
    ensures forall i, j :: 0 <= i < j < |ALPHABET| ==> ALPHABET[i] != ALPHABET[j]
    ensures forall i, j :: 0 <= i < j < |HEX| ==> HEX[i] != HEX[j]
  {
  }

  lemma UnspellInverts(ds: seq<int>, alphabet: string)
    requires DigitsOf(ds, |alphabet|)
    requires forall i, j :: 0 <= i < j < |alphabet| ==> alphabet[i] != alphabet[j]
    ensures Unspell(Spell(ds, alphabet), alphabet) == ds
  {
    var back := Unspell(Spell(ds, alphabet), alphabet);
    forall i | 0 <= i < |ds| ensures back[i] == ds[i] {
      assert alphabet[back[i]] == alphabet[ds[i]];
    }
  }

  // 32-bit operators of ECMAScript --------------------------------------------------------

  function ToUint32(x: int): nat { x % WORD }

  function ToInt32(x: int): int {
    var m := x % WORD;
    if m >= 0x8000_0000 then m - WORD else m
  }

  /** The powers of two that occur as bit counts of the pending part. */
  function Pow2(k: nat): (p: nat)
    requires k <= 12
    ensures p > 0 && WORD % p == 0
  {
    [1, 2, 4, 8, 16, 32, 64, 128, 256, 512, 1024, 2048, 4096][k]
  }

  function ShiftLeft(x: int, k: nat): int
    requires k <= 12
  {
    ToInt32(x * Pow2(k))
  }

  function ShiftRightUnsigned(x: int, k: nat): nat
    requires k <= 12
  {
    ToUint32(x) / Pow2(k)
  }

  /** `x | b` when the low byte of `x` is clear. */
  function OrByte(x: int, b: Byte): int
    requires x % 256 == 0
  {
    x + b
  }

  function And31(x: int): (d: int)
    ensures 0 <= d < 32
  {
    x % 32
  }

  lemma Wraps(x: int) returns (turns: int)
    ensures ToInt32(x) == x - WORD * turns
  {
    turns := if x % WORD >= 0x8000_0000 then x / WORD + 1 else x / WORD;
  }

  lemma WholeTurns(x: int, turns: int)
    ensures (x + WORD * turns) % WORD == x % WORD
  {
    assert x + WORD * turns == WORD * (x / WORD + turns) + x % WORD;
  }

  /** Shifting a byte in is arithmetic on the unsigned reading of the accumulator. */
  lemma {:induction false} ShiftedByte(acc: int, b: Byte)
    ensures ShiftLeft(acc, 8) % 256 == 0
    ensures ToUint32(OrByte(ShiftLeft(acc, 8), b)) == (ToUint32(acc) * 256 + b) % WORD
  {
    var turns := Wraps(acc * 256);
    assert ShiftLeft(acc, 8) == 256 * (acc - 0x100_0000 * turns);
    WholeTurns(ToUint32(acc) * 256 + b, 256 * (acc / WORD) - turns);
  }

  lemma ModOfMod(x: int, m: nat, n: nat)
    requires m > 0 && m * n > 0
    ensures x % (m * n) % m == x % m
  {
    var q, r := x / (m * n), x % (m * n);
    assert x == m * n * q + r == m * (n * q) + m * (r / m) + r % m;
    assert x == (n * q + r / m) * m + r % m;
    DivideShifted(n * q + r / m, m, r % m);
  }

  lemma DigitFits(d: int, p: nat, rest: int)
    requires 0 <= d < 32 && 0 <= rest < p
    ensures 0 <= d * p + rest < 32 * p
  {
    assert d * p <= 31 * p;
  }

  lemma RestFits(rest: int, p: nat, fill: nat)
    requires 0 <= rest < p && fill > 0
    ensures 0 <= rest * fill < p * fill
  {
  }

  lemma LowBits(a: int, b: Byte, bits: nat)
    requires bits < 5 && 0 <= a < WORD
    ensures (a * 256 + b) % WORD % Pow2(bits + 8) == a % Pow2(bits) * 256 + b
  {
    var p, v := Pow2(bits), a * 256 + b;
    assert 256 * p == Pow2(bits + 8);
    assert WORD == 256 * p * (WORD / (256 * p));
    ModOfMod(v, 256 * p, WORD / (256 * p));
    assert a == p * (a / p) + a % p;
    assert v == a / p * (256 * p) + (a % p * 256 + b) by { assert p * (a / p) * 256 == a / p * (256 * p); }
    DivideShifted(a / p, 256 * p, a % p * 256 + b);
  }

  /** Pushing a byte appends it to the pending low bits, whatever the wrapped high bits are. */
  lemma PushByte(acc: int, b: Byte, bits: nat)
    requires bits < 5
    ensures ShiftLeft(acc, 8) % 256 == 0
    ensures ToUint32(OrByte(ShiftLeft(acc, 8), b)) % Pow2(bits + 8) == ToUint32(acc) % Pow2(bits) * 256 + b
  {
    hide ShiftLeft, OrByte, Pow2;
    ShiftedByte(acc, b);
    LowBits(ToUint32(acc), b, bits);
  }

  lemma SplitDigit(a: nat, p: nat)
    requires p > 0
    ensures a % (32 * p) == a / p % 32 * p + a % p
  {
    var h := a / p;
    var d, q := h % 32, h / 32;
    assert a == p * h + a % p;
    assert h == 32 * q + d;
    assert p * (32 * q + d) == q * (32 * p) + d * p;
    DigitFits(d, p, a % p);
    DivideShifted(q, 32 * p, d * p + a % p);
  }

  /** Taking the top five of the pending bits leaves the rest pending. */
  lemma TakeDigit(acc: int, bits: nat)
    requires 5 <= bits <= 12
    ensures ToUint32(acc) % Pow2(bits)
            == And31(ShiftRightUnsigned(acc, bits - 5)) * Pow2(bits - 5) + ToUint32(acc) % Pow2(bits - 5)
  {
    assert Pow2(bits) == 32 * Pow2(bits - 5);
    SplitDigit(ToUint32(acc), Pow2(bits - 5));
  }

  /** The last digit is the pending bits, shifted up to fill five. */
  lemma LastDigit(acc: int, bits: nat)
    requires 1 <= bits < 5
    ensures And31(ShiftLeft(acc, 5 - bits)) == ToUint32(acc) % Pow2(bits) * Pow2(5 - bits)
  {
    var p, fill := Pow2(bits), Pow2(5 - bits);
    assert p * fill == 32;
    ModOfMod(acc, p, WORD / p);
    var turns := Wraps(acc * fill);
    var q, rest := acc / p, acc % p;
    assert acc == p * q + rest;
    assert acc * fill == q * 32 + rest * fill by { assert p * q * fill == q * (p * fill); }
    RestFits(rest, p, fill);
    DivideShifted(q - 0x800_0000 * turns, 32, rest * fill);
  }

  // The encoder ----------------------------------------------------------------------------

  function DigitCount(bytes: nat): nat { (8 * bytes + 4) / 5 }

  function PadBits(bytes: nat): (pad: nat)
    ensures pad < 5
  {
    5 * DigitCount(bytes) - 8 * bytes
  }

  /** Section 6 of RFC 4648: the bits of the input, zero-filled to whole digits, in base 32. */
  function Base32(bytes: seq<Byte>): (text: string)
    ensures |text| == DigitCount(|bytes|)
  {
    Spell(Digits(Value(bytes, 256) * Pow2(PadBits(|bytes|)), DigitCount(|bytes|), 32), ALPHABET)
  }

  /** The digits `ds` and the pending bits of `acc` together are the bytes read so far. */
  predicate Reads(ds: seq<int>, acc: int, bits: nat, v: int)
    requires bits <= 12
  {
    Value(ds, 32) * Pow2(bits) + ToUint32(acc) % Pow2(bits) == v
  }

  lemma NextPower(j: nat, k: nat)
    requires j + k <= 12 && (k == 8 || k == 5 || j + k == 5)
    ensures Pow2(j + k) == Pow2(j) * Pow2(k)
    ensures Pow2(5) == 32 && Pow2(8) == 256
  {
  }

  lemma AfterPush(ds: seq<int>, acc: int, bits: nat, v: int, b: Byte)
    requires bits < 5 && Reads(ds, acc, bits, v)
    ensures ShiftLeft(acc, 8) % 256 == 0
    ensures Reads(ds, OrByte(ShiftLeft(acc, 8), b), bits + 8, v * 256 + b)
  {
    PushByte(acc, b, bits);
    NextPower(bits, 8);
    hide Value, ShiftLeft, OrByte, Pow2, ToUint32;
    assert Value(ds, 32) * (Pow2(bits) * 256) == Value(ds, 32) * Pow2(bits) * 256;
  }

  lemma AfterTake(ds: seq<int>, acc: int, bits: nat, v: int)
    requires 5 <= bits <= 12 && Reads(ds, acc, bits, v)
    ensures Reads(ds + [And31(ShiftRightUnsigned(acc, bits - 5))], acc, bits - 5, v)
  {
    var d, low := And31(ShiftRightUnsigned(acc, bits - 5)), Pow2(bits - 5);
    TakeDigit(acc, bits);
    ValueOfNext(ds, d, 32);
    NextPower(bits - 5, 5);
    hide Value, ShiftRightUnsigned, Pow2, ToUint32, And31;
    var high := Value(ds, 32);
    Distribute(high, d, low);
  }

  lemma Distribute(high: int, d: int, low: int)
    ensures (high * 32 + d) * low == high * (low * 32) + d * low
  {
  }

  lemma AfterLast(ds: seq<int>, acc: int, bits: nat, v: int)
    requires 1 <= bits < 5 && Reads(ds, acc, bits, v)
    ensures Value(ds + [And31(ShiftLeft(acc, 5 - bits))], 32) == v * Pow2(5 - bits)
  {
    LastDigit(acc, bits);
    ValueOfNext(ds, And31(ShiftLeft(acc, 5 - bits)), 32);
    NextPower(bits, 5 - bits);
    hide Value, ShiftLeft, Pow2, ToUint32, And31;
    var high, rest, fill := Value(ds, 32), ToUint32(acc) % Pow2(bits), Pow2(5 - bits);
    assert (high * Pow2(bits) + rest) * fill == high * (Pow2(bits) * fill) + rest * fill;
  }

  lemma NothingRead(ds: seq<int>, bytes: seq<Byte>)
    requires ds == [] && bytes == [] && DigitsOf(ds, |ALPHABET|)
    ensures Reads(ds, 0, 0, Value(bytes, 256)) && Spell(ds, ALPHABET) == []
  {
  }

  lemma WholeDigits(ds: seq<int>, acc: int, v: int)
    requires Reads(ds, acc, 0, v)
    ensures Value(ds, 32) == v * Pow2(0)
  {
  }

  lemma SpellNext(ds: seq<int>, d: int)
    requires DigitsOf(ds, 32) && 0 <= d < 32
    ensures DigitsOf(ds + [d], 32) && Spell(ds + [d], ALPHABET) == Spell(ds, ALPHABET) + [ALPHABET[d]]
  {
  }

  /** All bits are spelled: the digits are those of the padded value. */
  lemma Base32Is(bytes: seq<Byte>, ds: seq<int>)
    requires DigitsOf(ds, 32) && |ds| == DigitCount(|bytes|)
    requires Value(ds, 32) == Value(bytes, 256) * Pow2(PadBits(|bytes|))
    ensures Spell(ds, ALPHABET) == Base32(bytes)
  {
    hide Value, Pow2, Digits;
    DigitsAreUnique(ds, 32);
  }

  /** The accumulator loop; the accumulator keeps every bit it ever shifts in, modulo 2^32. */
  method EncodeBase32(bytes: seq<Byte>) returns (output: string)
    ensures output == Base32(bytes)
  {
    hide Reads, Value, Spell, Pow2, ShiftLeft, ShiftRightUnsigned, And31, ToUint32, OrByte, Base32;
    var bits := 0;
    var accumulator := 0;
    output := "";
    ghost var ds: seq<int> := [];
    NothingRead(ds, bytes[..0]);
    for i := 0 to |bytes|
      invariant 0 <= bits < 5 && 8 * i == 5 * |ds| + bits
      invariant DigitsOf(ds, 32) && output == Spell(ds, ALPHABET)
      invariant Reads(ds, accumulator, bits, Value(bytes[..i], 256))
    {
      assert bytes[..i + 1] == bytes[..i] + [bytes[i]];
      ValueOfNext(bytes[..i], bytes[i], 256);
      AfterPush(ds, accumulator, bits, Value(bytes[..i], 256), bytes[i]);
      accumulator := OrByte(ShiftLeft(accumulator, 8), bytes[i]);
      bits := bits + 8;
      while bits >= 5
        invariant 0 <= bits <= 12 && 8 * (i + 1) == 5 * |ds| + bits
        invariant DigitsOf(ds, 32) && output == Spell(ds, ALPHABET)
        invariant Reads(ds, accumulator, bits, Value(bytes[..i + 1], 256))
      {
        AfterTake(ds, accumulator, bits, Value(bytes[..i + 1], 256));
        bits := bits - 5;
        SpellNext(ds, And31(ShiftRightUnsigned(accumulator, bits)));
        ds := ds + [And31(ShiftRightUnsigned(accumulator, bits))];
        output := output + [ALPHABET[And31(ShiftRightUnsigned(accumulator, bits))]];
      }
    }
    assert bytes[..|bytes|] == bytes;
    if bits == 0 {
      WholeDigits(ds, accumulator, Value(bytes, 256));
    } else {
      AfterLast(ds, accumulator, bits, Value(bytes, 256));
      SpellNext(ds, And31(ShiftLeft(accumulator, 5 - bits)));
      ds := ds + [And31(ShiftLeft(accumulator, 5 - bits))];
      output := output + [ALPHABET[And31(ShiftLeft(accumulator, 5 - bits))]];
    }
    Base32Is(bytes, ds);
  }

  // Worktree ids ---------------------------------------------------------------------------

  predicate LowerHex(c: char) { '0' <= c <= '9' || 'a' <= c <= 'f' }

  predicate Base32Char(c: char) { 'a' <= c <= 'z' || '2' <= c <= '7' }

  predicate DashAt(i: int) { i == 8 || i == 13 || i == 18 || i == 23 }

  /** A version-4 id as the registry issues it and the helper demands it. */
  predicate Uuid4(id: string) {
    && |id| == 36
    && (forall i :: 0 <= i < 36 ==> if DashAt(i) then id[i] == '-' else LowerHex(id[i]))
    && id[14] == '4' && id[19] in "89ab"
  }

  /** The helper's `allocation_name`. */
  predicate HelperName(name: string) {
    |name| == 28 && name[0] == 'r' && name[1] == '-' && forall i :: 2 <= i < 28 ==> Base32Char(name[i])
  }

  function WithoutDashes(text: string): (bare: string)
    ensures forall i :: 0 <= i < |bare| ==> bare[i] != '-'
  {
    if text == "" then "" else (if text[0] == '-' then "" else [text[0]]) + WithoutDashes(text[1..])
  }

  function Dashed(hex: string): string
    requires |hex| == 32
  {
    hex[..8] + "-" + hex[8..12] + "-" + hex[12..16] + "-" + hex[16..20] + "-" + hex[20..]
  }

  lemma {:induction false} WithoutDashesConcat(a: string, b: string)
    ensures WithoutDashes(a + b) == WithoutDashes(a) + WithoutDashes(b)
  {
    if a == "" {
      assert a + b == b;
    } else {
      assert (a + b)[1..] == a[1..] + b;
      WithoutDashesConcat(a[1..], b);
    }
  }

  lemma {:induction false} BareIsKept(a: string)
    requires forall i :: 0 <= i < |a| ==> a[i] != '-'
    ensures WithoutDashes(a) == a
  {
    if a != "" { BareIsKept(a[1..]); }
  }

  /** Removing the dashes of an id leaves 32 hexadecimal digits, and `Dashed` puts them back. */
  lemma DashesRoundTrip(id: string)
    requires Uuid4(id)
    ensures |WithoutDashes(id)| == 32 && SpelledWith(WithoutDashes(id), HEX)
    ensures Dashed(WithoutDashes(id)) == id
  {
    hide WithoutDashes, Dashed, Uuid4;
    FieldsOf(id);
    var a, b, c, d, e := id[..8], id[9..13], id[14..18], id[19..23], id[24..];
    FieldThenDash(a, b + "-" + (c + "-" + (d + "-" + e)));
    FieldThenDash(b, c + "-" + (d + "-" + e));
    FieldThenDash(c, d + "-" + e);
    FieldThenDash(d, e);
    BareIsKept(e);
    BareIsSpelled(a, b, c, d, e);
    DashedFields(a, b, c, d, e);
  }

  lemma FieldsOf(id: string)
    requires Uuid4(id)
    ensures |id| == 36
    ensures id == id[..8] + "-" + (id[9..13] + "-" + (id[14..18] + "-" + (id[19..23] + "-" + id[24..])))
    ensures forall i | 0 <= i < 36 && !DashAt(i) :: LowerHex(id[i])
  {
  }

  lemma DashedFields(a: string, b: string, c: string, d: string, e: string)
    requires |a| == 8 && |b| == |c| == |d| == 4 && |e| == 12
    ensures Dashed(a + (b + (c + (d + e)))) == a + "-" + (b + "-" + (c + "-" + (d + "-" + e)))
  {
    var hex := a + (b + (c + (d + e)));
    assert hex[..8] == a && hex[8..12] == b && hex[12..16] == c && hex[16..20] == d && hex[20..] == e;
  }

  lemma FieldThenDash(field: string, rest: string)
    requires forall i :: 0 <= i < |field| ==> field[i] != '-'
    ensures WithoutDashes(field + "-" + rest) == field + WithoutDashes(rest)
  {
    WithoutDashesConcat(field, "-" + rest);
    BareIsKept(field);
    assert field + "-" + rest == field + ("-" + rest);
    assert ("-" + rest)[1..] == rest;
  }

  lemma BareIsSpelled(a: string, b: string, c: string, d: string, e: string)
    requires forall x :: x in a + b + c + d + e ==> LowerHex(x)
    ensures SpelledWith(a + (b + (c + (d + e))), HEX)
  {
    var bare := a + (b + (c + (d + e)));
    forall i | 0 <= i < |bare| ensures bare[i] in HEX {
      assert bare[i] in a + b + c + d + e;
      HexIsSpelled(bare[i]);
    }
  }

  lemma HexIsSpelled(c: char)
    requires LowerHex(c)
    ensures c in HEX
  {
    if '0' <= c <= '9' { assert HEX[c as int - '0' as int] == c; } else { assert HEX[10 + c as int - 'a' as int] == c; }
  }

  /** `Buffer.from(hex, 'hex')` on an even number of digits. */
  function Paired(hs: seq<int>): (bytes: seq<Byte>)
    requires |hs| % 2 == 0 && DigitsOf(hs, 16)
    ensures |bytes| == |hs| / 2
  {
    if hs == [] then [] else Paired(hs[..|hs| - 2]) + [hs[|hs| - 2] * 16 + hs[|hs| - 1]]
  }

  lemma {:induction false} PairedValue(hs: seq<int>)
    requires |hs| % 2 == 0 && DigitsOf(hs, 16)
    ensures Value(Paired(hs), 256) == Value(hs, 16)
  {
    if hs != [] {
      var n := |hs|;
      PairedValue(hs[..n - 2]);
      ValueOfNext(Paired(hs[..n - 2]), hs[n - 2] * 16 + hs[n - 1], 256);
      assert hs[..n - 1][..n - 2] == hs[..n - 2];
      assert Value(hs[..n - 1], 16) == Value(hs[..n - 2], 16) * 16 + hs[n - 2];
    }
  }

  function IdDigits(id: string): (hs: seq<int>)
    requires Uuid4(id)
    ensures |hs| == 32 && DigitsOf(hs, 16)
  {
    DashesRoundTrip(id);
    Unspell(WithoutDashes(id), HEX)
  }

  function IdBytes(id: string): (bytes: seq<Byte>)
    requires Uuid4(id)
    ensures |bytes| == 16
  {
    Paired(IdDigits(id))
  }

  function NameOf(id: string): string
    requires Uuid4(id)
  {
    "r-" + Base32(IdBytes(id))
  }

  method ComputeName(worktreeId: string) returns (name: string)
    requires Uuid4(worktreeId)
    ensures name == NameOf(worktreeId)
  {
    var output := EncodeBase32(IdBytes(worktreeId));
    name := "r-" + output;
  }

  lemma AlphabetIsBase32()
    ensures forall c :: c in ALPHABET ==> Base32Char(c)
  {
  }

  /** Every name is 26 characters of the alphabet after `r-`: what the helper accepts. */
  lemma {:induction false} NameIsAccepted(id: string)
    requires Uuid4(id)
    ensures HelperName(NameOf(id))
  {
    hide Uuid4, Value, Digits, Paired, Unspell, WithoutDashes, Pow2, Base32Char;
    var name := NameOf(id);
    AlphabetIsBase32();
    forall i | 2 <= i < 28 ensures Base32Char(name[i]) {
      assert name[i] in ALPHABET;
    }
  }

  /** The decoder: the id whose 128 bits, padded with two zero bits, the name spells. */
  function IdOf(name: string): string
    requires |name| == 28 && SpelledWith(name[2..], ALPHABET)
  {
    Dashed(Spell(Digits(Value(Unspell(name[2..], ALPHABET), 32) / 4, 32, 16), HEX))
  }

  lemma SpellInverts(text: string, alphabet: string)
    requires SpelledWith(text, alphabet)
    ensures Spell(Unspell(text, alphabet), alphabet) == text
  {
  }

  /** The spelled digits of a 16-byte value have that value, times four. */
  lemma ValueOfName(bytes: seq<Byte>, ds: seq<int>)
    requires |bytes| == 16 && ds == Digits(Value(bytes, 256) * 4, 26, 32)
    ensures Value(ds, 32) / 4 == Value(bytes, 256)
  {
    hide Value, Digits, Limit, Limit32;
    BoundedValue(bytes);
    LimitsAgree();
    DigitsHaveValue(Value(bytes, 256) * 4, 26);
  }

  /** 256 to the power n. */
  function Limit(n: nat): nat { if n == 0 then 1 else 256 * Limit(n - 1) }

  /** 32 to the power n. */
  function Limit32(n: nat): nat { if n == 0 then 1 else 32 * Limit32(n - 1) }

  lemma {:induction false} BoundedValue(bytes: seq<Byte>)
    ensures 0 <= Value(bytes, 256) < Limit(|bytes|)
  {
    if bytes != [] { BoundedValue(bytes[..|bytes| - 1]); }
  }

  lemma {:induction false} DigitsHaveValue(v: int, n: nat)
    requires 0 <= v
    ensures v < Limit32(n) ==> Value(Digits(v, n, 32), 32) == v
    decreases n
  {
    if n > 0 {
      DigitsHaveValue(v / 32, n - 1);
      ValueOfNext(Digits(v / 32, n - 1, 32), v % 32, 32);
    }
  }

  lemma LimitsAgree()
    ensures Limit(16) * 4 == Limit32(26)
  {
    assert Limit(4) == 0x1_0000_0000;
    assert Limit(8) == 0x1_0000_0000_0000_0000;
    assert Limit(12) == 0x1_0000_0000_0000_0000_0000_0000;
    assert Limit(16) == 0x1_0000_0000_0000_0000_0000_0000_0000_0000;
    assert Limit32(5) == 0x200_0000;
    assert Limit32(10) == 0x4_0000_0000_0000;
    assert Limit32(15) == 0x800_0000_0000_0000_0000;
    assert Limit32(20) == 0x10_0000_0000_0000_0000_0000_0000;
    assert Limit32(25) == 0x2000_0000_0000_0000_0000_0000_0000_0000;
  }

  /** Decoding inverts naming, for every id. */
  lemma {:induction false} NameRoundTrip(id: string)
    requires Uuid4(id)
    ensures HelperName(NameOf(id)) && SpelledWith(NameOf(id)[2..], ALPHABET)
    ensures IdOf(NameOf(id)) == id
  {
    hide Value, Digits, Spell, Unspell, Paired, Uuid4, WithoutDashes, Dashed, HelperName;
    NameIsAccepted(id);
    var bytes, name := IdBytes(id), NameOf(id);
    var ds := Digits(Value(bytes, 256) * 4, 26, 32);
    assert name[2..] == Spell(ds, ALPHABET);
    AlphabetsAreInjective();
    UnspellInverts(ds, ALPHABET);
    ValueOfName(bytes, ds);
    DashesRoundTrip(id);
    var hs := IdDigits(id);
    PairedValue(hs);
    DigitsAreUnique(hs, 16);
    SpellInverts(WithoutDashes(id), HEX);
  }

  /** Distinct worktrees have distinct directories. */
  lemma {:induction false} NamesAreDistinct(a: string, b: string)
    requires Uuid4(a) && Uuid4(b) && NameOf(a) == NameOf(b)
    ensures a == b
  {
    NameRoundTrip(a);
    NameRoundTrip(b);
  }
}
