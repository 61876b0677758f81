/**
 The metadata file of an allocation: what the helper writes when it allocates, and what it
 accepts as the same allocation when it is asked to clean up. Also its decimal fields.
 */
module HelperMetadata {
  import opened Wrappers
  import opened AllocationName
  import opened HelperRecords
  import opened HelperBuffers

  /** The four identity fields of an allocation request. */
  datatype Identity = Identity(worktreeId: string, allocationNonce: string, ownerInstanceId: string, createdAt: string)

  const CONTENT_SIZE: nat := 640
  const READ_SIZE: nat := 768

  predicate Nonce(s: string) { |s| == 64 && forall i :: 0 <= i < 64 ==> LowerHex(s[i]) }

  /** Where the punctuation of `2026-01-31T00:00:00.000Z` stands. */
  function TimestampMark(i: nat): Option<char> {
    if i == 4 || i == 7 then Some('-') else if i == 10 then Some('T') else if i == 13 || i == 16 then Some(':')
    else if i == 19 then Some('.') else if i == 23 then Some('Z') else None
  }

  predicate Timestamp(s: string) {
    && |s| == 24
    && forall i :: 0 <= i < 24 ==> if TimestampMark(i).Some? then s[i] == TimestampMark(i).value else DigitChar(s[i])
  }

  /** The identity fields as `allocate` and `cleanup` demand them. */
  predicate Validated(id: Identity) {
    Uuid4(id.worktreeId) && Nonce(id.allocationNonce) && Uuid4(id.ownerInstanceId) && Timestamp(id.createdAt)
  }

  // Writing ---------------------------------------------------------------------------------

  /** `"key":"`, the literal before a text value. */
  function Open(key: string): string { "\"" + key + "\":\"" }

  /** The `snprintf` format of `write_metadata`. */
  function MetadataText(id: Identity): string {
    ("{\"schemaVersion\":1," + Open("worktreeId")) + (id.worktreeId
    + (("\"," + Open("allocationNonce")) + (id.allocationNonce
    + (("\"," + Open("ownerInstanceId")) + (id.ownerInstanceId
    + (("\"," + Open("createdAt")) + (id.createdAt + "\"}\n")))))))
  }

  const METADATA_KEYS: seq<string> :=
    ["schemaVersion", "worktreeId", "allocationNonce", "ownerInstanceId", "createdAt"]

  /** The record that text prints. */
  function MetadataRecord(id: Identity): seq<Pair> {
    [Pair("schemaVersion", "1", true), Pair("worktreeId", id.worktreeId, false),
     Pair("allocationNonce", id.allocationNonce, false), Pair("ownerInstanceId", id.ownerInstanceId, false),
     Pair("createdAt", id.createdAt, false)]
  }

  /** The file fits the buffer it is formatted into. */
  function WriteMetadata(id: Identity): Option<string> {
    if |MetadataText(id)| >= CONTENT_SIZE then None else Some(MetadataText(id))
  }

  // Matching --------------------------------------------------------------------------------

  /** What `read`, the newline test and the terminator make of a file: a C string, if it was read whole. */
  function FileText(file: string): Option<string> {
    if file == "" || |file| >= READ_SIZE - 1 then None
    else Some(UpToNul(if file[|file| - 1] == '\n' then file[..|file| - 1] else file))
  }

  function UpToNul(s: string): (t: string)
    ensures t <= s && NUL !in t && (|t| < |s| ==> s[|t|] == NUL)
  {
    if s == "" || s[0] == NUL then "" else [s[0]] + UpToNul(s[1..])
  }

  predicate HasValue(r: seq<Pair>, key: string, value: string) {
    exists i :: 0 <= i < |r| && r[i].key == key && r[i].value == value
  }

  predicate ExactKeys(r: seq<Pair>, keys: seq<string>) {
    |r| == |keys| && forall k :: 0 <= k < |keys| ==> HasKey(r, keys[k])
  }

  /** The comparison of `metadata_matches`; only the schema version must be a bare number. */
  predicate RecordMatches(r: seq<Pair>, id: Identity) {
    && ExactKeys(r, METADATA_KEYS)
    && Pair("schemaVersion", "1", true) in r
    && HasValue(r, "worktreeId", id.worktreeId)
    && HasValue(r, "allocationNonce", id.allocationNonce)
    && HasValue(r, "ownerInstanceId", id.ownerInstanceId)
    && HasValue(r, "createdAt", id.createdAt)
  }

  predicate FileMatches(file: string, id: Identity) {
    && FileText(file).Some? && Parse(FileText(file).value).Some?
    && RecordMatches(Parse(FileText(file).value).value, id)
  }

  // The matcher as it runs -------------------------------------------------------------------

  /** `strcmp(...) == 0` of a buffer row and a string. */
  method RowIs(buffer: array2<char>, row: nat, ghost text: string, literal: string) returns (same: bool)
    requires Spells(buffer, row, text) && NUL !in literal
    ensures same == (text == literal)
  {
    var i := 0;
    while i < |literal| && buffer[row, i] == literal[i]
      invariant i <= |literal| && i <= |text| && text[..i] == literal[..i]
    {
      assert i < |text|;
      i := i + 1;
    }
    same := i == |literal| && buffer[row, i] == NUL;
    if i == |literal| {
      assert literal == literal[..i];
      if same { assert text == text[..i]; }
    }
  }

  /** `field`. */
  method FindField(record: Record, ghost r: seq<Pair>, key: string) returns (row: Option<nat>)
    requires record.Holds(r) && NUL !in key
    ensures row.Some? == HasKey(r, key)
    ensures row.Some? ==> row.value < |r| && r[row.value].key == key
  {
    for index := 0 to record.count
      invariant forall i :: 0 <= i < index ==> r[i].key != key
    {
      assert record.HoldsPair(index, r[index]);
      var same := RowIs(record.keys, index, r[index].key, key);
      if same {
        return Some(index);
      }
    }
    row := None;
  }

  /** `exact_fields`. */
  method ExactFields(record: Record, ghost r: seq<Pair>, keys: seq<string>) returns (exact: bool)
    requires record.Holds(r) && forall k :: 0 <= k < |keys| ==> NUL !in keys[k]
    ensures exact == ExactKeys(r, keys)
  {
    if record.count != |keys| {
      return false;
    }
    for index := 0 to |keys|
      invariant forall k :: 0 <= k < index ==> HasKey(r, keys[k])
    {
      var row := FindField(record, r, keys[index]);
      if row.None? {
        return false;
      }
    }
    exact := true;
  }

  /** A field's value against the request's. */
  method FieldIs(record: Record, ghost r: seq<Pair>, key: string, value: string) returns (same: bool)
    requires record.Holds(r) && DistinctKeys(r) && HasKey(r, key) && NUL !in key && NUL !in value
    ensures same == HasValue(r, key, value)
  {
    var row := FindField(record, r, key);
    assert record.HoldsPair(row.value, r[row.value]);
    same := RowIs(record.values, row.value, r[row.value].value, value);
    if i :| 0 <= i < |r| && r[i].key == key && r[i].value == value {
      assert i == row.value;
    }
  }

  /** `read`, the newline test and the terminator. */
  method ReadFile(file: string) returns (input: array<char>)
    requires 0 < |file| < READ_SIZE - 1
    ensures fresh(input) && Terminated(input, FileText(file).value)
  {
    var count := |file|;
    input := new char[READ_SIZE](i => if 0 <= i < |file| then file[i] else NUL);
    if input[count - 1] == '\n' {
      input[count - 1] := NUL;
    }
    TextIsTerminated(input, file);
  }

  /** `metadata_matches`, over the bytes of the opened file. */
  method MetadataMatches(file: string, id: Identity) returns (matches: bool)
    requires NUL !in id.worktreeId && NUL !in id.allocationNonce && NUL !in id.ownerInstanceId && NUL !in id.createdAt
    ensures matches == FileMatches(file, id)
  {
    hide Parse, HasKey, HasValue, DistinctKeys, UpToNul, RecordMatches;
    if file == "" || |file| >= READ_SIZE - 1 {
      return false;
    }
    var input := ReadFile(file);
    ghost var text := FileText(file).value;
    var stored := new Record();
    var okay := ParseObject(input, text, stored);
    if !okay {
      return false;
    }
    ghost var r := Parse(text).value;
    ParsedHasDistinctKeys(text);
    okay := ExactFields(stored, r, METADATA_KEYS);
    NeedsExactKeys(r, id);
    if !okay {
      return false;
    }
    matches := CompareFields(stored, r, id);
  }

  lemma NeedsExactKeys(r: seq<Pair>, id: Identity)
    ensures RecordMatches(r, id) ==> ExactKeys(r, METADATA_KEYS)
  {
  }

  /** The comparisons of `metadata_matches` once the fields are known to be there. */
  method CompareFields(stored: Record, ghost r: seq<Pair>, id: Identity) returns (matches: bool)
    requires NUL !in id.worktreeId && NUL !in id.allocationNonce && NUL !in id.ownerInstanceId && NUL !in id.createdAt
    requires stored.Holds(r) && DistinctKeys(r) && ExactKeys(r, METADATA_KEYS)
    ensures matches == RecordMatches(r, id)
  {
    KeysArePresent(r);
    hide HasKey, HasValue, ExactKeys;
    var version := FindField(stored, r, "schemaVersion");
    assert stored.HoldsPair(version.value, r[version.value]);
    matches := RowIs(stored.values, version.value, r[version.value].value, "1");
    matches := matches && stored.numbers[version.value];
    VersionIsUnique(r, version.value);
    if matches {
      matches := FieldIs(stored, r, "worktreeId", id.worktreeId);
    }
    if matches {
      matches := FieldIs(stored, r, "allocationNonce", id.allocationNonce);
    }
    if matches {
      matches := FieldIs(stored, r, "ownerInstanceId", id.ownerInstanceId);
    }
    if matches {
      matches := FieldIs(stored, r, "createdAt", id.createdAt);
    }
  }

  lemma KeysArePresent(r: seq<Pair>)
    requires ExactKeys(r, METADATA_KEYS)
    ensures HasKey(r, "schemaVersion") && HasKey(r, "worktreeId") && HasKey(r, "allocationNonce")
    ensures HasKey(r, "ownerInstanceId") && HasKey(r, "createdAt")
  {
    hide HasKey;
    assert METADATA_KEYS[0] == "schemaVersion" && METADATA_KEYS[1] == "worktreeId";
    assert METADATA_KEYS[2] == "allocationNonce" && METADATA_KEYS[3] == "ownerInstanceId"
      && METADATA_KEYS[4] == "createdAt";
  }

  lemma VersionIsUnique(r: seq<Pair>, row: nat)
    requires DistinctKeys(r) && row < |r| && r[row].key == "schemaVersion"
    ensures Pair("schemaVersion", "1", true) in r <==> r[row].value == "1" && r[row].number
  {
    if i :| 0 <= i < |r| && r[i] == Pair("schemaVersion", "1", true) {
      assert i == row;
    }
    if r[row].value == "1" && r[row].number { assert r[row] == Pair("schemaVersion", "1", true); }
  }

  lemma TextIsTerminated(input: array<char>, file: string)
    requires 0 < |file| < READ_SIZE - 1 && input.Length == READ_SIZE
    requires forall i :: 0 <= i < READ_SIZE ==>
               input[i] == if i >= |file| || (i == |file| - 1 && file[i] == '\n') then NUL else file[i]
    ensures Terminated(input, FileText(file).value)
  {
    var text := FileText(file).value;
    assert forall i :: 0 <= i < |text| ==> input[i] == text[i];
  }

  lemma ParsedHasDistinctKeys(text: string)
    requires Parse(text).Some?
    ensures DistinctKeys(Parse(text).value)
  {
    hide Parse;
    AcceptsExactlyPrinted(text, Parse(text).value);
  }

  // What matching means ------------------------------------------------------------------------

  lemma FieldsFit(id: Identity)
    requires Validated(id)
    ensures Fits(MetadataRecord(id))
    ensures NUL !in id.worktreeId && NUL !in id.allocationNonce && NUL !in id.ownerInstanceId && NUL !in id.createdAt
  {
    IdIsSafe(id.worktreeId);
    IdIsSafe(id.ownerInstanceId);
    NonceAndTimeAreSafe(id.allocationNonce, id.createdAt);
    hide DistinctKeys, Uuid4, Nonce, Timestamp;
    KeysAreDistinct(id);
  }

  lemma NonceAndTimeAreSafe(nonce: string, time: string)
    requires Nonce(nonce) && Timestamp(time)
    ensures AllSafe(nonce) && AllSafe(time) && |nonce| == 64 && |time| == 24
  {
  }

  lemma IdIsSafe(s: string)
    requires Uuid4(s)
    ensures AllSafe(s) && |s| == 36
  {
  }

  lemma KeysAreDistinct(id: Identity)
    ensures DistinctKeys(MetadataRecord(id))
  {
    var r := MetadataRecord(id);
    assert |r[0].key| == 13 && |r[1].key| == 10 && |r[2].key| == 15 && |r[3].key| == 15 && |r[4].key| == 9;
    assert r[2].key[0] == 'a' && r[3].key[0] == 'o';
  }

  /** The file is the printed record and a newline, and is short enough to be written and read whole. */
  lemma {:induction false} WritesPrintedRecord(id: Identity)
    requires Validated(id)
    ensures WriteMetadata(id) == Some(RecordText(MetadataRecord(id), false) + "\n")
    ensures FileText(MetadataText(id)) == Some(RecordText(MetadataRecord(id), false))
  {
    RecordTextIs(id);
    FieldsFit(id);
    var file := MetadataText(id);
    TextHasNoNul(id);
    hide RecordText;
    var body := RecordText(MetadataRecord(id), false);
    assert file[|file| - 1] == '\n' && file[..|file| - 1] == body;
    NothingToCut(body);
  }

  lemma TextHasNoNul(id: Identity)
    requires Validated(id)
    ensures NUL !in MetadataText(id)
  {
    FieldsFit(id);
    hide Validated, Open, Fits;
    var t4 := id.createdAt + "\"}\n";
    StillNoNul("\",", "createdAt", t4);
    var t3 := id.ownerInstanceId + (("\"," + Open("createdAt")) + t4);
    StillNoNul("\",", "ownerInstanceId", t3);
    var t2 := id.allocationNonce + (("\"," + Open("ownerInstanceId")) + t3);
    StillNoNul("\",", "allocationNonce", t2);
    var t1 := id.worktreeId + (("\"," + Open("allocationNonce")) + t2);
    StillNoNul("{\"schemaVersion\":1,", "worktreeId", t1);
  }

  lemma StillNoNul(head: string, key: string, rest: string)
    requires NUL !in head && NUL !in key && NUL !in rest
    ensures NUL !in (head + Open(key)) + rest
  {
  }

  lemma NothingToCut(s: string)
    requires NUL !in s
    ensures UpToNul(s) == s
  {
  }

  /** Moving the cuts of a concatenation from the members to the format's literals. */
  lemma Regroup(k: string, v: string, q: string, comma: string, tail: string, end: string, open: string, rest: string)
    requires tail + end == open + rest
    ensures (((k + v) + q) + comma) + tail + end == k + (v + (((q + comma) + open) + rest))
  {
    var m := (k + v) + q;
    Assoc(m + comma, tail, end);
    Assoc(m, comma, open + rest);
    Assoc(k + v, q, comma + (open + rest));
    Assoc(k, v, q + (comma + (open + rest)));
    Assoc(q, comma, open + rest);
    Assoc(q + comma, open, rest);
  }

  lemma QuotedMember(p: Pair)
    requires !p.number
    ensures MemberText(p) == (Open(p.key) + p.value) + "\""
  {
    Assoc("\"" + p.key + "\":", "\"", p.value + "\"");
    Assoc("\"" + p.key, "\":", "\"");
    Assoc(Open(p.key), p.value, "\"");
    assert "\":" + "\"" == "\":\"";
    Assoc("\"", p.value, "\"");
  }

  lemma LastMember(r: seq<Pair>)
    requires |r| == 1 && !r[0].number
    ensures TailText(r, false) + "\n" == Open(r[0].key) + (r[0].value + "\"}\n")
  {
    hide MemberText, Open;
    QuotedMember(r[0]);
    Regroup(Open(r[0].key), r[0].value, "\"", "", "}", "\n", "}\n", "");
    assert (MemberText(r[0]) + "") + "}" == MemberText(r[0]) + "}";
    assert (("\"" + "") + "}\n") + "" == "\"}\n";
  }

  lemma InnerMember(r: seq<Pair>, next: string, rest: string)
    requires |r| > 1 && !r[0].number && TailText(r[1..], false) + "\n" == Open(next) + rest
    ensures TailText(r, false) + "\n" == Open(r[0].key) + (r[0].value + (("\"," + Open(next)) + rest))
  {
    hide MemberText, Open;
    QuotedMember(r[0]);
    Regroup(Open(r[0].key), r[0].value, "\"", ",", TailText(r[1..], false), "\n", Open(next), rest);
    assert "\"" + "," == "\",";
  }

  lemma HeadText()
    ensures "{" + (MemberText(Pair("schemaVersion", "1", true)) + ",") == "{\"schemaVersion\":1,"
  {
    assert MemberText(Pair("schemaVersion", "1", true)) == "\"schemaVersion\":1";
  }

  lemma FirstMember(r: seq<Pair>, next: string, rest: string)
    requires |r| > 1 && r[0] == Pair("schemaVersion", "1", true)
    requires TailText(r[1..], false) + "\n" == Open(next) + rest
    ensures RecordText(r, false) + "\n" == ("{\"schemaVersion\":1," + Open(next)) + rest
  {
    hide Open, MemberText;
    var head := MemberText(r[0]);
    HeadText();
    Regroup("{", head, "", ",", TailText(r[1..], false), "\n", Open(next), rest);
    Assoc("{", head + ",", TailText(r[1..], false));
    Assoc("{", head, ",");
    assert ("{" + head) + "" == "{" + head && ("" + ",") == ",";
    Assoc(",", Open(next), rest);
    Assoc(head, ",", Open(next) + rest);
    Assoc("{", head + ",", Open(next) + rest);
    Assoc("{" + (head + ","), Open(next), rest);
  }

  /** The format string and the record printer agree. */
  lemma RecordTextIs(id: Identity)
    ensures RecordText(MetadataRecord(id), false) + "\n" == MetadataText(id)
  {
    hide Open, TailText, RecordText;
    var r := MetadataRecord(id);
    assert r[3..][1..] == r[4..] && r[2..][1..] == r[3..] && r[1..][1..] == r[2..];
    var end4 := id.createdAt + "\"}\n";
    LastMember(r[4..]);
    InnerMember(r[3..], "createdAt", end4);
    var end3 := id.ownerInstanceId + (("\"," + Open("createdAt")) + end4);
    InnerMember(r[2..], "ownerInstanceId", end3);
    var end2 := id.allocationNonce + (("\"," + Open("ownerInstanceId")) + end3);
    InnerMember(r[1..], "allocationNonce", end2);
    var end1 := id.worktreeId + (("\"," + Open("allocationNonce")) + end2);
    FirstMember(r, "worktreeId", end1);
  }

  /** What `write_metadata` writes for one validated request matches exactly that request. */
  lemma {:induction false} MetadataIdentifies(written: Identity, asked: Identity)
    requires Validated(written)
    ensures WriteMetadata(written).Some?
    ensures FileMatches(WriteMetadata(written).value, asked) <==> asked == written
  {
    hide Parse, RecordText, RecordMatches, Fits, Validated;
    WritesPrintedRecord(written);
    FieldsFit(written);
    RecordTextIs(written);
    AcceptsExactlyPrinted(RecordText(MetadataRecord(written), false), MetadataRecord(written));
    RecordIdentifies(written, asked);
  }

  lemma RecordIdentifies(written: Identity, asked: Identity)
    ensures RecordMatches(MetadataRecord(written), asked) <==> asked == written
  {
    var r := MetadataRecord(written);
    assert |r[0].key| == 13 && |r[1].key| == 10 && |r[2].key| == 15 && |r[3].key| == 15 && |r[4].key| == 9;
    assert r[2].key[0] == 'a' && r[3].key[0] == 'o';
    if asked == written {
      assert r[0].key == METADATA_KEYS[0] && r[1].key == METADATA_KEYS[1] && r[2].key == METADATA_KEYS[2];
      assert r[3].key == METADATA_KEYS[3] && r[4].key == METADATA_KEYS[4];
      assert r[0] in r;
    }
  }

  /** No file, however it came to be, matches two different identities. */
  lemma {:induction false} OneIdentityPerFile(file: string, a: Identity, b: Identity)
    requires FileMatches(file, a) && FileMatches(file, b)
    ensures a == b
  {
    hide Parse, FileText;
    var r := Parse(FileText(file).value).value;
    ParsedHasDistinctKeys(FileText(file).value);
  }

  /** A record with exactly these fields has no others: the loop over the wanted keys is enough. */
  lemma ExactKeysLeaveNoOther(r: seq<Pair>, keys: seq<string>, i: nat)
    requires DistinctKeys(r) && ExactKeys(r, keys) && i < |r|
    requires forall j, k :: 0 <= j < k < |keys| ==> keys[j] != keys[k]
    ensures r[i].key in keys
  {
    if r[i].key !in keys {
      var rest := r[..i] + r[i + 1..];
      forall k | 0 <= k < |keys| ensures HasKey(rest, keys[k]) {
        var at :| 0 <= at < |r| && r[at].key == keys[k];
        assert rest[if at < i then at else at - 1].key == keys[k];
      }
      TooFewPairs(rest, keys);
    }
  }

  /** Distinct keys need as many pairs. */
  lemma {:induction false} TooFewPairs(r: seq<Pair>, keys: seq<string>)
    requires forall k :: 0 <= k < |keys| ==> HasKey(r, keys[k])
    requires forall j, k :: 0 <= j < k < |keys| ==> keys[j] != keys[k]
    ensures |keys| <= |r|
    decreases |keys|
  {
    if keys != [] {
      var n := |keys| - 1;
      var at :| 0 <= at < |r| && r[at].key == keys[n];
      var rest := r[..at] + r[at + 1..];
      forall k | 0 <= k < n ensures HasKey(rest, keys[..n][k]) {
        var i :| 0 <= i < |r| && r[i].key == keys[k];
        assert rest[if i < at then i else i - 1].key == keys[k];
      }
      TooFewPairs(rest, keys[..n]);
    }
  }

  // Decimal fields -------------------------------------------------------------------------------

  const U64: nat := 0x1_0000_0000_0000_0000

  predicate Space(c: char) { c == ' ' || '\t' <= c <= '\r' }

  /** The value of a digit string. */
  function Decimal(s: string): nat {
    if s == "" then 0
    else
      var c := s[|s| - 1];
      Decimal(s[..|s| - 1]) * 10 + if DigitChar(c) then c as int - '0' as int else 0
  }

  datatype Scanned = Scanned(value: nat, end: nat, overflow: bool)

  function Spaces(s: string): (n: nat)
    ensures n <= |s|
  {
    if s == "" || !Space(s[0]) then 0 else 1 + Spaces(s[1..])
  }

  /** `strtoull` in base ten (section 7.22.1.4 of C11): white space, a sign, and digits. */
  function ScanUnsigned(s: string): (r: Scanned)
    ensures r.end <= |s| && r.value < U64
  {
    var skip := Spaces(s);
    var signed := skip < |s| && (s[skip] == '+' || s[skip] == '-');
    var begin := skip + if signed then 1 else 0;
    var run := DigitRun(s[begin..]);
    if run == 0 then Scanned(0, 0, false)
    else
      var magnitude := Decimal(s[begin..begin + run]);
      if magnitude >= U64 then Scanned(U64 - 1, begin + run, true)
      else if signed && s[skip] == '-' then Scanned((U64 - magnitude) % U64, begin + run, false)
      else Scanned(magnitude, begin + run, false)
  }

  /** `decimal_u64`. */
  function DecimalU64(s: string, allowZero: bool): Option<nat> {
    if s == "" || (s[0] == '0' && |s| > 1) then None
    else
      var r := ScanUnsigned(s);
      if r.overflow || r.end != |s| || (!allowZero && r.value == 0) then None else Some(r.value)
  }

  /** The decimal text `PRIu64` prints. */
  function DecimalText(v: nat): (s: string)
    ensures s != ""
  {
    if v < 10 then ['0' + v as char] else DecimalText(v / 10) + ['0' + (v % 10) as char]
  }

  predicate Canonical(s: string) {
    AllDigits(s) && s != "" && (s[0] == '0' ==> |s| == 1)
  }

  /**
   On text that starts with a digit, the field is accepted exactly when it is the canonical
   decimal of its value and the value fits 64 bits (and is not zero unless zero is allowed).
   */
  lemma DecimalIsExact(s: string, allowZero: bool, v: nat)
    requires s != "" && DigitChar(s[0])
    ensures DecimalU64(s, allowZero) == Some(v)
            <==> s == DecimalText(v) && v < U64 && (allowZero || v != 0)
  {
    var run := DigitRun(s);
    assert s[0..] == s;
    if run == |s| { assert s[..run] == s; } else { NotAllDigits(s, run, v); }
    DecimalTextIff(s, v);
  }

  lemma NotAllDigits(s: string, k: nat, v: nat)
    requires k < |s| && !DigitChar(s[k])
    ensures s != DecimalText(v)
  {
    DecimalTextIff(s, v);
  }

  lemma {:induction false} DecimalTextIff(s: string, v: nat)
    ensures s == DecimalText(v) <==> Canonical(s) && Decimal(s) == v
    decreases |s|
  {
    TextIsCanonical(v);
    if Canonical(s) && Decimal(s) == v {
      var init, last := s[..|s| - 1], s[|s| - 1];
      assert s == init + [last];
      if init != "" {
        LeadingDigitCounts(init);
        DecimalTextIff(init, Decimal(init));
        hide Canonical, Decimal, DecimalText;
        TextOfNext(init, last, Decimal(init));
      } else {
        hide Canonical;
        TextOfDigit(s);
      }
    }
  }

  lemma TextOfDigit(s: string)
    requires |s| == 1 && DigitChar(s[0])
    ensures DecimalText(Decimal(s)) == s
  {
    assert s[..0] == "";
  }

  lemma TextOfNext(init: string, last: char, high: nat)
    requires init == DecimalText(high) && high > 0 && DigitChar(last)
    ensures DecimalText(high * 10 + (last as int - '0' as int)) == init + [last]
  {
    var v := high * 10 + (last as int - '0' as int);
    assert v / 10 == high && v % 10 == last as int - '0' as int;
  }

  lemma {:induction false} LeadingDigitCounts(s: string)
    requires Canonical(s) || (AllDigits(s) && s != "" && s[0] != '0')
    ensures s[0] != '0' ==> Decimal(s) > 0
  {
    if |s| > 1 {
      LeadingDigitCounts(s[..|s| - 1]);
    } else {
      assert s[..0] == "";
    }
  }

  lemma {:induction false} TextIsCanonical(v: nat)
    ensures Canonical(DecimalText(v)) && Decimal(DecimalText(v)) == v
    ensures v > 0 ==> DecimalText(v)[0] != '0'
  {
    var s := DecimalText(v);
    if v < 10 {
      assert s[..0] == "";
    } else {
      TextIsCanonical(v / 10);
      assert s[..|s| - 1] == DecimalText(v / 10);
    }
  }

  /** A value the program prints is read back. */
  lemma DecimalRoundTrip(v: nat, allowZero: bool)
    requires v < U64 && (allowZero || v != 0)
    ensures DecimalU64(DecimalText(v), allowZero) == Some(v)
  {
    TextIsCanonical(v);
    DecimalIsExact(DecimalText(v), allowZero, v);
  }

  /**
   The first character decides whether an accepted field is the decimal of its value: leading
   white space and signs, which `strtoull` skips, are accepted too.
   */
  lemma AcceptedDecimalIsCanonicalIff(s: string, allowZero: bool)
    requires DecimalU64(s, allowZero).Some?
    ensures s == DecimalText(DecimalU64(s, allowZero).value) <==> DigitChar(s[0])
  {
    var v := DecimalU64(s, allowZero).value;
    if DigitChar(s[0]) { DecimalIsExact(s, allowZero, v); } else { DecimalTextIff(s, v); }
  }

  /** A field of this kind that is accepted: minus one, read as the largest 64-bit value. */
  lemma SignedDecimalIsAccepted()
    ensures DecimalU64("-1", false) == Some(U64 - 1) && "-1" != DecimalText(U64 - 1)
  {
    var s := "-1";
    hide DecimalText, DigitRun, Decimal;
    MinusOneScans(s);
    AcceptedDecimalIsCanonicalIff(s, false);
  }

  lemma MinusOneScans(s: string)
    requires s == "-1"
    ensures ScanUnsigned(s) == Scanned(U64 - 1, 2, false)
  {
    assert s[1..] == "1" && s[1..2] == "1";
    DigitRunIs("1", "");
    assert "1" + "" == "1";
    DecimalOfOne();
  }

  lemma DecimalOfOne()
    ensures Decimal("1") == 1
  {
    assert "1"[..0] == "";
  }
}
