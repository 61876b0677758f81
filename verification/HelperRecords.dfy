/**
 The records of the native allocation helper: the parser that fills fixed buffers from a
 terminated input, the field lookups, and the metadata file it writes and later matches.
 */
module HelperRecords {
  import opened Wrappers

  const MAX_PAIRS: nat := 20
  const MAX_KEY: nat := 40
  const MAX_VALUE: nat := 192

  datatype Pair = Pair(key: string, value: string, number: bool)

  predicate SafeChar(c: char) { ' ' <= c <= '~' && c != '"' && c != '\\' }

  predicate DigitChar(c: char) { '0' <= c <= '9' }

  predicate AllSafe(s: string) { forall i :: 0 <= i < |s| ==> SafeChar(s[i]) }

  predicate AllDigits(s: string) { forall i :: 0 <= i < |s| ==> DigitChar(s[i]) }

  // What the parser accepts ---------------------------------------------------------------

  /** Length of the longest prefix of string characters. */
  function SafeRun(s: string): (n: nat)
    ensures n <= |s| && AllSafe(s[..n]) && (n < |s| ==> !SafeChar(s[n]))
  {
    if s == "" || !SafeChar(s[0]) then 0
    else
      assert s[1..][..SafeRun(s[1..])] == s[1..1 + SafeRun(s[1..])];
      1 + SafeRun(s[1..])
  }

  function DigitRun(s: string): (n: nat)
    ensures n <= |s| && AllDigits(s[..n]) && (n < |s| ==> !DigitChar(s[n]))
  {
    if s == "" || !DigitChar(s[0]) then 0
    else
      assert s[1..][..DigitRun(s[1..])] == s[1..1 + DigitRun(s[1..])];
      1 + DigitRun(s[1..])
  }

  datatype Scan = Scan(body: string, rest: string)

  /** A quoted run of string characters that fits, with its terminator, into `capacity`. */
  function ScanString(s: string, capacity: nat): (scan: Option<Scan>)
    ensures scan.Some? ==> |scan.value.rest| < |s|
  {
    if s == "" || s[0] != '"' then None
    else
      var n := SafeRun(s[1..]);
      if n >= capacity || n + 1 >= |s| || s[n + 1] != '"' then None
      else Some(Scan(s[1..n + 1], s[n + 2..]))
  }

  function ScanNumber(s: string): (scan: Option<Scan>)
    ensures scan.Some? ==> |scan.value.rest| < |s|
  {
    var n := DigitRun(s);
    if n == 0 || n >= MAX_VALUE then None else Some(Scan(s[..n], s[n..]))
  }

  predicate Quoted(s: string) { s != "" && s[0] == '"' }

  function ScanValue(s: string): (scan: Option<Scan>)
    ensures scan.Some? ==> |scan.value.rest| < |s|
  {
    if Quoted(s) then ScanString(s, MAX_VALUE) else ScanNumber(s)
  }

  predicate HasKey(r: seq<Pair>, key: string) { exists i :: 0 <= i < |r| && r[i].key == key }

  /** One `"key":value` member: the pair and what follows it. */
  function ScanMember(s: string): (member: Option<(Pair, string)>)
    ensures member.Some? ==> |member.value.1| < |s|
  {
    var key := ScanString(s, MAX_KEY);
    if key.None? || key.value.rest == "" || key.value.rest[0] != ':' then None
    else
      var after := key.value.rest[1..];
      var value := ScanValue(after);
      if value.None? then None
      else Some((Pair(key.value.body, value.value.body, !Quoted(after)), value.value.rest))
  }

  /** The members from `s` on, after those of `seen`; the empty string is the terminator. */
  function ParseMembers(s: string, seen: seq<Pair>): Option<seq<Pair>>
    decreases |s|
  {
    if s != "" && s[0] == '}' then if |s| == 1 then Some(seen) else None
    else if |seen| >= MAX_PAIRS then None
    else
      var member := ScanMember(s);
      if member.None? || HasKey(seen, member.value.0.key) then None
      else
        var (pair, rest) := member.value;
        if rest != "" && rest[0] == ',' then ParseMembers(rest[1..], seen + [pair])
        else if rest == "" || rest[0] != '}' then None
        else ParseMembers(rest, seen + [pair])
  }

  function Parse(s: string): Option<seq<Pair>> {
    if s == "" || s[0] != '{' then None else ParseMembers(s[1..], [])
  }

  // What a record prints as ----------------------------------------------------------------

  predicate PairFits(p: Pair) {
    && AllSafe(p.key) && |p.key| < MAX_KEY && |p.value| < MAX_VALUE
    && if p.number then p.value != "" && AllDigits(p.value) else AllSafe(p.value)
  }

  predicate DistinctKeys(r: seq<Pair>) {
    forall i, j :: 0 <= i < j < |r| ==> r[i].key != r[j].key
  }

  predicate Fits(r: seq<Pair>) {
    |r| <= MAX_PAIRS && DistinctKeys(r) && forall i :: 0 <= i < |r| ==> PairFits(r[i])
  }

  function MemberText(p: Pair): string {
    "\"" + p.key + "\":" + if p.number then p.value else "\"" + p.value + "\""
  }

  /** The members and the closing brace; `comma` puts a comma after the last member. */
  function TailText(r: seq<Pair>, comma: bool): string {
    if r == [] then "}"
    else if |r| == 1 then MemberText(r[0]) + if comma then ",}" else "}"
    else MemberText(r[0]) + "," + TailText(r[1..], comma)
  }

  function RecordText(r: seq<Pair>, comma: bool): string {
    "{" + TailText(r, comma)
  }

  // Parsing and printing ---------------------------------------------------------------------

  lemma {:induction false} SafeRunIs(body: string, rest: string)
    requires AllSafe(body) && (rest != "" ==> !SafeChar(rest[0]))
    ensures SafeRun(body + rest) == |body|
  {
    if body == "" {
      assert body + rest == rest;
    } else {
      assert (body + rest)[1..] == body[1..] + rest;
      SafeRunIs(body[1..], rest);
    }
  }

  lemma {:induction false} DigitRunIs(body: string, rest: string)
    requires AllDigits(body) && (rest != "" ==> !DigitChar(rest[0]))
    ensures DigitRun(body + rest) == |body|
  {
    if body == "" {
      assert body + rest == rest;
    } else {
      assert (body + rest)[1..] == body[1..] + rest;
      DigitRunIs(body[1..], rest);
    }
  }

  lemma ScanStringIff(s: string, capacity: nat, body: string, rest: string)
    ensures ScanString(s, capacity) == Some(Scan(body, rest))
            <==> AllSafe(body) && |body| < capacity && s == "\"" + body + "\"" + rest
  {
    if AllSafe(body) && |body| < capacity && s == "\"" + body + "\"" + rest { PrintedScans(s, capacity, body, rest); }
    if ScanString(s, capacity) == Some(Scan(body, rest)) {
      var n := SafeRun(s[1..]);
      assert s == [s[0]] + s[1..n + 1] + [s[n + 1]] + s[n + 2..];
      assert s[1..][..n] == s[1..n + 1];
    }
  }

  lemma PrintedScans(s: string, capacity: nat, body: string, rest: string)
    requires AllSafe(body) && |body| < capacity && s == "\"" + body + "\"" + rest
    ensures ScanString(s, capacity) == Some(Scan(body, rest))
  {
    hide SafeRun, AllSafe;
    var n := |body|;
    assert s[1..] == body + ("\"" + rest);
    SafeRunIs(body, "\"" + rest);
    assert s[1..n + 1] == body;
    assert s[n + 2..] == rest;
  }

  lemma ScanNumberIff(s: string, body: string, rest: string)
    requires rest != "" ==> !DigitChar(rest[0])
    ensures ScanNumber(s) == Some(Scan(body, rest))
            <==> AllDigits(body) && 0 < |body| < MAX_VALUE && s == body + rest
  {
    if AllDigits(body) && 0 < |body| < MAX_VALUE && s == body + rest {
      DigitRunIs(body, rest);
      assert s[..|body|] == body && s[|body|..] == rest;
    }
    if ScanNumber(s) == Some(Scan(body, rest)) {
      assert s == s[..DigitRun(s)] + s[DigitRun(s)..];
    }
  }

  /** What a member is, whatever follows it. */
  lemma MemberIff(s: string, p: Pair, rest: string)
    requires rest != "" ==> !DigitChar(rest[0])
    ensures ScanMember(s) == Some((p, rest)) <==> PairFits(p) && s == MemberText(p) + rest
  {
    hide ScanString, ScanNumber;
    var after := (if p.number then p.value else "\"" + p.value + "\"") + rest;
    ScanStringIff(s, MAX_KEY, p.key, ":" + after);
    ValueIff(after, p, rest);
    if ScanMember(s) == Some((p, rest)) { MemberParts(s, p, rest, after); }
    if PairFits(p) && s == MemberText(p) + rest {
      assert s == "\"" + p.key + "\"" + (":" + after);
      assert (":" + after)[1..] == after;
    }
  }

  lemma ValueIff(after: string, p: Pair, rest: string)
    requires rest != "" ==> !DigitChar(rest[0])
    requires after == (if p.number then p.value else "\"" + p.value + "\"") + rest
    ensures PairFits(p) ==> ScanValue(after) == Some(Scan(p.value, rest)) && Quoted(after) == !p.number
  {
    hide ScanString, ScanNumber;
    ScanStringIff(after, MAX_VALUE, p.value, rest);
    ScanNumberIff(after, p.value, rest);
    if PairFits(p) && p.number { assert after[0] == p.value[0]; }
  }

  lemma MemberParts(s: string, p: Pair, rest: string, after: string)
    requires rest != "" ==> !DigitChar(rest[0])
    requires after == (if p.number then p.value else "\"" + p.value + "\"") + rest
    requires ScanMember(s) == Some((p, rest))
    ensures PairFits(p) && s == MemberText(p) + rest
  {
    hide ScanString, ScanNumber;
    var key := ScanString(s, MAX_KEY).value;
    ScanStringIff(s, MAX_KEY, key.body, key.rest);
    var found := key.rest[1..];
    assert key.rest == ":" + found;
    ScanStringIff(found, MAX_VALUE, p.value, rest);
    ScanNumberIff(found, p.value, rest);
    assert found == after;
  }

  predicate NewKeys(seen: seq<Pair>, r: seq<Pair>) {
    forall i :: 0 <= i < |r| ==> !HasKey(seen, r[i].key)
  }

  predicate Continues(seen: seq<Pair>, r: seq<Pair>) {
    && |seen + r| <= MAX_PAIRS && DistinctKeys(r) && NewKeys(seen, r)
    && forall i :: 0 <= i < |r| ==> PairFits(r[i])
  }

  /** Every printed record is read back, with or without a comma after its last member. */
  lemma {:induction false} PrintedParses(seen: seq<Pair>, r: seq<Pair>, comma: bool)
    requires Continues(seen, r)
    ensures ParseMembers(TailText(r, comma), seen) == Some(seen + r)
    decreases |r|
  {
    hide Continues, MemberText, ScanMember, HasKey, PairFits, ParseMembers, TailText;
    AfterBrace(seen + r);
    if r == [] {
      assert seen + r == seen;
    } else {
      var p, more := r[0], r[1..];
      var rest := TailSplit(r, comma);
      ContinuesNext(seen, r);
      assert seen + [p] + more == seen + r;
      PrintedParses(seen + [p], more, comma);
      MemberIff(TailText(r, comma), p, rest);
      ParseStep(TailText(r, comma), seen, p, rest);
    }
  }

  lemma AfterBrace(seen: seq<Pair>)
    ensures ParseMembers("}", seen) == Some(seen)
    ensures TailText([], false) == TailText([], true) == "}"
  {
  }

  /** What follows the first member: a comma and the others, or the end. */
  lemma TailSplit(r: seq<Pair>, comma: bool) returns (rest: string)
    requires r != []
    ensures TailText(r, comma) == MemberText(r[0]) + rest
    ensures rest != "" && (rest[0] == ',' || rest[0] == '}')
    ensures (if rest[0] == ',' then rest[1..] else rest) == TailText(r[1..], comma)
  {
    hide MemberText;
    rest := if r[1..] != [] then "," + TailText(r[1..], comma) else if comma then ",}" else "}";
    if r[1..] == [] {
      assert r[1..] == [] && rest[if comma then 1 else 0..] == "}";
    } else {
      assert rest[1..] == TailText(r[1..], comma);
    }
  }

  /** One turn of the parser's loop. */
  lemma ParseStep(s: string, seen: seq<Pair>, p: Pair, rest: string)
    requires ScanMember(s) == Some((p, rest)) && !HasKey(seen, p.key) && |seen| < MAX_PAIRS
    requires rest != "" && (rest[0] == ',' || rest[0] == '}')
    ensures ParseMembers(s, seen) == ParseMembers(if rest[0] == ',' then rest[1..] else rest, seen + [p])
  {
    hide HasKey, ScanValue;
  }

  lemma ContinuesNext(seen: seq<Pair>, r: seq<Pair>)
    requires r != []
    ensures Continues(seen, r)
            <==> PairFits(r[0]) && !HasKey(seen, r[0].key) && |seen| < MAX_PAIRS && Continues(seen + [r[0]], r[1..])
  {
    var p, more, longer := r[0], r[1..], seen + [r[0]];
    assert longer + more == seen + r;
    forall key ensures HasKey(longer, key) <==> (HasKey(seen, key) || key == p.key) {
      if HasKey(seen, key) { var i :| 0 <= i < |seen| && seen[i].key == key; assert longer[i].key == key; }
      if key == p.key { assert longer[|seen|].key == key; }
    }
    if Continues(longer, more) && PairFits(p) && !HasKey(seen, p.key) {
      forall i | 0 <= i < |r| ensures PairFits(r[i]) && !HasKey(seen, r[i].key) && (i > 0 ==> r[i].key != p.key) {
        if i > 0 { assert r[i] == more[i - 1]; }
      }
      forall i, j | 0 <= i < j < |r| ensures r[i].key != r[j].key {
        assert r[j] == more[j - 1];
        if i > 0 { assert r[i] == more[i - 1]; }
      }
    }
    if Continues(seen, r) {
      forall i | 0 <= i < |more|
        ensures PairFits(more[i]) && !HasKey(longer, more[i].key)
      {
        assert more[i] == r[i + 1];
      }
    }
  }

  /** Everything the parser accepts is a printed record. */
  lemma {:induction false} ParsedIsPrinted(s: string, seen: seq<Pair>) returns (r: seq<Pair>, comma: bool)
    requires ParseMembers(s, seen).Some? && |seen| <= MAX_PAIRS
    ensures ParseMembers(s, seen) == Some(seen + r)
    ensures Continues(seen, r) && s == TailText(r, comma)
    decreases |s|
  {
    hide Continues, ScanMember, MemberText, HasKey, PairFits, TailText;
    if s != "" && s[0] == '}' {
      r, comma := [], false;
      assert seen + r == seen;
      NothingContinues(seen);
      AfterBrace(seen);
    } else {
      var (p, rest) := ScanMember(s).value;
      MemberIff(s, p, rest);
      var more, inner := ParsedIsPrinted(if rest[0] == ',' then rest[1..] else rest, seen + [p]);
      r := [p] + more;
      assert seen + r == seen + [p] + more && r[1..] == more;
      ContinuesNext(seen, r);
      comma := TailJoins(p, more, inner, rest);
    }
  }

  lemma Assoc(a: string, b: string, c: string)
    ensures (a + b) + c == a + (b + c)
  {
  }

  /** Putting the first member back before the text of the others. */
  lemma TailJoins(p: Pair, more: seq<Pair>, inner: bool, rest: string) returns (comma: bool)
    requires rest != "" && (rest[0] == ',' || rest[0] == '}')
    requires (if rest[0] == ',' then rest[1..] else rest) == TailText(more, inner)
    ensures TailText([p] + more, comma) == MemberText(p) + rest
  {
    hide MemberText;
    var r := [p] + more;
    assert r[1..] == more;
    if rest[0] == '}' {
      CloseIsEmpty(more, inner);
      comma := false;
    } else if more == [] {
      assert rest == "," + rest[1..] == ",}";
      comma := true;
    } else {
      comma := inner;
      Assoc(MemberText(p), ",", rest[1..]);
      assert rest == "," + rest[1..];
    }
  }

  lemma NothingContinues(seen: seq<Pair>)
    requires |seen| <= MAX_PAIRS
    ensures Continues(seen, [])
  {
  }

  /** Text that starts with the closing brace has no members. */
  lemma CloseIsEmpty(r: seq<Pair>, comma: bool)
    requires TailText(r, comma)[0] == '}'
    ensures r == []
  {
  }

  /** The parser accepts exactly the printed records, up to one comma after the last member. */
  lemma AcceptsExactlyPrinted(s: string, r: seq<Pair>)
    ensures Parse(s) == Some(r) <==> Fits(r) && (s == RecordText(r, false) || s == RecordText(r, true))
  {
    if Parse(s) == Some(r) {
      var q, comma := ParsedIsPrinted(s[1..], []);
      assert [] + q == q;
      assert s == "{" + s[1..];
    }
    if Fits(r) {
      PrintedParses([], r, false);
      PrintedParses([], r, true);
      assert [] + r == r;
      assert RecordText(r, false)[1..] == TailText(r, false);
      assert RecordText(r, true)[1..] == TailText(r, true);
    }
  }
}
