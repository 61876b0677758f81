/**
 The helper's parser as it runs: one cursor over a terminated input, fixed buffers filled in
 place. Every index below is checked against the length of the array it goes into, so a verified
 method neither reads past the terminator nor writes past a buffer.
 */
module HelperBuffers {
  import opened Wrappers
  import opened HelperRecords

  const NUL: char := '\0'

  /** The input is `text` and its terminator; what lies behind the terminator is arbitrary. */
  predicate Terminated(input: array<char>, text: string)
    reads input
  {
    |text| < input.Length && input[..|text|] == text && input[|text|] == NUL && NUL !in text
  }

  /** One row of a buffer is `text` and its terminator. */
  predicate Spells(buffer: array2<char>, row: nat, text: string)
    reads buffer
  {
    && row < buffer.Length0 && |text| < buffer.Length1 && buffer[row, |text|] == NUL
    && forall j :: 0 <= j < |text| ==> buffer[row, j] == text[j] && text[j] != NUL
  }

  /** The parsed record: the pairs and how many of them are in use. */
  class Record {
    const keys: array2<char>
    const values: array2<char>
    const numbers: array<bool>
    var count: nat

    predicate Shape()
      reads this
    {
      && keys != values
      && keys.Length0 == MAX_PAIRS && keys.Length1 == MAX_KEY
      && values.Length0 == MAX_PAIRS && values.Length1 == MAX_VALUE
      && numbers.Length == MAX_PAIRS
      && count <= MAX_PAIRS
    }

    predicate HoldsPair(i: nat, p: Pair)
      reads this, keys, values, numbers
    {
      Shape() && i < MAX_PAIRS && Spells(keys, i, p.key) && Spells(values, i, p.value) && numbers[i] == p.number
    }

    predicate Holds(r: seq<Pair>)
      reads this, keys, values, numbers
    {
      Shape() && count == |r| && forall i :: 0 <= i < |r| ==> HoldsPair(i, r[i])
    }

    /** A zeroed record. */
    constructor ()
      ensures Shape() && Holds([])
      ensures fresh(keys) && fresh(values) && fresh(numbers)
    {
      keys := new char[MAX_PAIRS, MAX_KEY]((i, j) => NUL);
      values := new char[MAX_PAIRS, MAX_VALUE]((i, j) => NUL);
      numbers := new bool[MAX_PAIRS](i => false);
      count := 0;
    }
  }

  /** `strcmp(...) == 0` on two rows of one buffer. */
  method SameRow(buffer: array2<char>, a: nat, b: nat, ghost x: string, ghost y: string) returns (same: bool)
    requires Spells(buffer, a, x) && Spells(buffer, b, y)
    ensures same == (x == y)
  {
    var i := 0;
    while buffer[a, i] == buffer[b, i] && buffer[a, i] != NUL
      invariant i <= |x| && i <= |y| && x[..i] == y[..i]
      decreases |x| - i
    {
      assert i < |x| && i < |y|;
      i := i + 1;
    }
    same := buffer[a, i] == buffer[b, i];
    if same {
      assert x == x[..i] && y == y[..i];
    }
  }

  /** `json_string`: the cursor must stand on the opening quote. */
  method JsonString(input: array<char>, ghost text: string, at: nat, output: array2<char>, row: nat)
    returns (ok: bool, next: nat)
    requires Terminated(input, text) && at <= |text|
    requires row < output.Length0 && output.Length1 > 0
    modifies output
    ensures forall r, c :: 0 <= r < output.Length0 && 0 <= c < output.Length1 && r != row
              ==> output[r, c] == old(output[r, c])
    ensures ok == ScanString(text[at..], output.Length1).Some?
    ensures ok ==> var scan := ScanString(text[at..], output.Length1).value;
                   next <= |text| && text[next..] == scan.rest && Spells(output, row, scan.body)
  {
    hide SafeRun;
    ok, next := false, at;
    if input[at] != '"' {
      return;
    }
    var cursor, used := at + 1, 0;
    ghost var inner := text[at + 1..];
    assert text[at..] == ['"'] + inner;
    while input[cursor] != NUL && input[cursor] != '"'
      invariant cursor == at + 1 + used && cursor <= |text| && used < output.Length1
      invariant AllSafe(inner[..used])
      invariant forall j :: 0 <= j < used ==> output[row, j] == inner[j]
      invariant forall r, c :: 0 <= r < output.Length0 && 0 <= c < output.Length1 && r != row
                  ==> output[r, c] == old(output[r, c])
      decreases |text| - cursor
    {
      if !SafeChar(input[cursor]) || used + 1 >= output.Length1 {
        StringRefused(inner, used, output.Length1);
        return;
      }
      output[row, used] := input[cursor];
      assert inner[..used + 1] == inner[..used] + [inner[used]];
      used, cursor := used + 1, cursor + 1;
    }
    StringEnds(inner, used, output.Length1);
    if input[cursor] != '"' {
      return;
    }
    output[row, used] := NUL;
    ok, next := true, cursor + 1;
    assert inner[used + 1..] == text[next..];
    assert forall j :: 0 <= j < used ==> SafeChar(inner[..used][j]);
  }

  /** The loop stopped at a quote or at the terminator: that decides the string. */
  lemma StringEnds(inner: string, used: nat, capacity: nat)
    requires used <= |inner| && AllSafe(inner[..used]) && used < capacity
    requires used < |inner| ==> inner[used] == '"'
    ensures ScanString(['"'] + inner, capacity)
            == if used == |inner| then None else Some(Scan(inner[..used], inner[used + 1..]))
  {
    var s := ['"'] + inner;
    assert s[1..] == inner == inner[..used] + inner[used..];
    SafeRunIs(inner[..used], inner[used..]);
    if used < |inner| { assert s[1..used + 1] == inner[..used] && s[used + 2..] == inner[used + 1..]; }
  }

  /** An unsafe character or a full buffer inside the quotes refuses the string. */
  lemma StringRefused(inner: string, used: nat, capacity: nat)
    requires used < |inner| && AllSafe(inner[..used]) && inner[used] != '"'
    requires !SafeChar(inner[used]) || used + 1 >= capacity
    ensures ScanString(['"'] + inner, capacity) == None
  {
    var s := ['"'] + inner;
    assert s[1..] == inner == inner[..used] + inner[used..];
    if !SafeChar(inner[used]) {
      SafeRunIs(inner[..used], inner[used..]);
    } else {
      RunIsLonger(inner, used);
    }
  }

  lemma RunIsLonger(inner: string, used: nat)
    requires used < |inner| && AllSafe(inner[..used]) && SafeChar(inner[used])
    ensures SafeRun(inner) > used
  {
    var n := SafeRun(inner);
    assert forall j :: 0 <= j < used ==> SafeChar(inner[..used][j]);
  }

  /** The digit loop of a number value. */
  method JsonNumber(input: array<char>, ghost text: string, at: nat, output: array2<char>, row: nat)
    returns (ok: bool, next: nat)
    requires Terminated(input, text) && at <= |text|
    requires row < output.Length0 && output.Length1 == MAX_VALUE
    modifies output
    ensures forall r, c :: 0 <= r < output.Length0 && 0 <= c < output.Length1 && r != row
              ==> output[r, c] == old(output[r, c])
    ensures ok == ScanNumber(text[at..]).Some?
    ensures ok ==> var scan := ScanNumber(text[at..]).value;
                   next <= |text| && text[next..] == scan.rest && Spells(output, row, scan.body)
  {
    ok, next := false, at;
    var cursor, used := at, 0;
    ghost var s := text[at..];
    while '0' <= input[cursor] <= '9'
      invariant cursor == at + used && cursor <= |text| && used < MAX_VALUE
      invariant forall j :: 0 <= j < used ==> DigitChar(s[j]) && output[row, j] == s[j]
      invariant forall r, c :: 0 <= r < output.Length0 && 0 <= c < output.Length1 && r != row
                  ==> output[r, c] == old(output[r, c])
      decreases |text| - cursor
    {
      if used + 1 >= MAX_VALUE {
        NumberRefused(s, used);
        return;
      }
      output[row, used] := input[cursor];
      used, cursor := used + 1, cursor + 1;
    }
    assert s == s[..used] + s[used..];
    DigitRunIs(s[..used], s[used..]);
    if used == 0 {
      return;
    }
    output[row, used] := NUL;
    ok, next := true, cursor;
    assert s[used..] == text[next..];
  }

  lemma NumberRefused(s: string, used: nat)
    requires used < |s| && used + 1 >= MAX_VALUE && forall j :: 0 <= j <= used ==> DigitChar(s[j])
    ensures ScanNumber(s) == None
  {
  }

  /** The loop of `parse_object`, one turn at a time. */
  lemma ParseTurn(s: string, seen: seq<Pair>)
    ensures s != "" && s[0] == '}' ==> ParseMembers(s, seen) == if |s| == 1 then Some(seen) else None
    ensures (s == "" || s[0] != '}') && |seen| >= MAX_PAIRS ==> ParseMembers(s, seen) == None
    ensures s == "" || s[0] != '}' ==>
              if ScanMember(s).None? || HasKey(seen, ScanMember(s).value.0.key) then ParseMembers(s, seen) == None
              else var (p, rest) := ScanMember(s).value;
                   |seen| < MAX_PAIRS ==>
                     ParseMembers(s, seen)
                     == if rest != "" && rest[0] == ',' then ParseMembers(rest[1..], seen + [p])
                        else if rest != "" && rest[0] == '}' then ParseMembers(rest, seen + [p]) else None
  {
    hide HasKey, ScanMember;
  }

  /** `parse_object`, into a zeroed record. */
  method ParseObject(input: array<char>, ghost text: string, record: Record) returns (ok: bool)
    requires Terminated(input, text) && record.Holds([])
    modifies record, record.keys, record.values, record.numbers
    ensures record.Shape()
    ensures ok == Parse(text).Some?
    ensures ok ==> record.Holds(Parse(text).value)
  {
    hide ParseMembers, ScanMember, HasKey, Spells;
    ok := false;
    if input[0] != '{' {
      return;
    }
    var at := 1;
    ghost var seen: seq<Pair> := [];
    while input[at] != '}'
      invariant 1 <= at <= |text| && record.Holds(seen)
      invariant Parse(text) == ParseMembers(text[at..], seen)
      decreases |text| - at
    {
      ParseTurn(text[at..], seen);
      if record.count >= MAX_PAIRS {
        return;
      }
      var fine, next := Member(input, text, at, record, seen);
      if !fine {
        return;
      }
      ghost var member := ScanMember(text[at..]).value;
      at := next;
      record.count := record.count + 1;
      seen := seen + [member.0];
      if input[at] == ',' {
        at := at + 1;
        assert text[next..][1..] == text[at..];
      } else if input[at] != '}' {
        return;
      }
    }
    ok := input[at + 1] == NUL;
    ParseTurn(text[at..], seen);
  }

  /** The duplicate test of `parse_object`: the key in the next row against every earlier one. */
  method KeyIsKnown(record: Record, ghost seen: seq<Pair>, ghost key: string) returns (known: bool)
    requires record.Holds(seen) && record.count < MAX_PAIRS && Spells(record.keys, record.count, key)
    ensures known == HasKey(seen, key)
  {
    for index := 0 to record.count
      invariant forall i :: 0 <= i < index ==> seen[i].key != key
    {
      assert record.HoldsPair(index, seen[index]);
      known := SameRow(record.keys, index, record.count, seen[index].key, key);
      if known {
        return;
      }
    }
    known := false;
  }

  /** One turn of the loop of `parse_object`: key, colon, duplicate test, value. */
  method Member(input: array<char>, ghost text: string, at: nat, record: Record, ghost seen: seq<Pair>)
    returns (fine: bool, next: nat)
    requires Terminated(input, text) && at <= |text| && record.Holds(seen) && record.count < MAX_PAIRS
    modifies record.keys, record.values, record.numbers
    ensures record.Holds(seen)
    ensures fine == (ScanMember(text[at..]).Some? && !HasKey(seen, ScanMember(text[at..]).value.0.key))
    ensures fine ==> var member := ScanMember(text[at..]).value;
                     next <= |text| && text[next..] == member.1 && record.HoldsPair(|seen|, member.0)
  {
    hide ScanString, ScanNumber, HasKey;
    next := at;
    var row := record.count;
    var ok, colon := JsonString(input, text, at, record.keys, row);
    assert record.Holds(seen);
    if !ok || input[colon] != ':' {
      fine := false;
      return;
    }
    ghost var key := ScanString(text[at..], MAX_KEY).value.body;
    var known := KeyIsKnown(record, seen, key);
    if known {
      fine := false;
      return;
    }
    var begin := colon + 1;
    assert text[colon..][1..] == text[begin..];
    record.numbers[row] := input[begin] != '"';
    if input[begin] == '"' {
      fine, next := JsonString(input, text, begin, record.values, row);
    } else {
      fine, next := JsonNumber(input, text, begin, record.values, row);
    }
  }
}
