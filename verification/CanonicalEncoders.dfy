/**
 The two encoders as they run: a recursive walk over the value that charges every array and
 object to one shared counter and stops at the first thing it refuses.
 */
module CanonicalEncoders {
  import opened Wrappers
  import opened CanonicalText

  // The order in which the counter is charged does not matter -------------------------------

  lemma {:induction false} CountSplits(v: Json, keys: set<Text>, k: Text)
    requires v.Obj? && keys <= v.members.Keys && k in keys
    ensures CountMembers(v, keys) == Count(v.members[k]) + CountMembers(v, keys - {k})
    decreases |keys|
  {
    var least := Least(keys, Python);
    if k != least {
      CountSplits(v, keys - {least}, k);
      CountSplits(v, keys - {k}, least);
      assert keys - {least} - {k} == keys - {k} - {least};
    }
  }

  lemma {:induction false} ItemsMonotone(v: Json, i: nat, n: nat)
    requires v.Arr? && i <= n <= |v.items|
    ensures CountItems(v, i) <= CountItems(v, n)
    decreases n
  {
    if i < n { ItemsMonotone(v, i, n - 1); }
  }

  /** The members charged for the values under a list of keys. */
  function CountListed(v: Json, keys: seq<Text>): nat
    requires v.Obj? && forall k :: k in keys ==> k in v.members
  {
    if keys == [] then 0 else Count(v.members[keys[0]]) + CountListed(v, keys[1..])
  }

  lemma {:induction false} SortedCountsAll(v: Json, keys: set<Text>, d: Dialect)
    requires v.Obj? && keys <= v.members.Keys
    ensures CountListed(v, SortedKeys(keys, d)) == CountMembers(v, keys)
    ensures |SortedKeys(keys, d)| == |keys|
    decreases |keys|
  {
    if keys != {} {
      var k := Least(keys, d);
      CountSplits(v, keys, k);
      SortedCountsAll(v, keys - {k}, d);
    }
  }

  lemma CountOf(v: Json)
    requires v.Obj?
    ensures Count(v) == |v.members| + CountMembers(v, v.members.Keys) && |v.members| == |v.members.Keys|
    ensures CountMembers(v, {}) == 0
  {
  }

  predicate MemberFits(v: Json, k: Text, depth: nat, rules: Rules)
    requires v.Obj? && k in v.members
  {
    depth + 1 <= MAX_DEPTH && rules.normal(k) && Fits(v.members[k], depth + 1, rules)
  }

  lemma FitsMember(v: Json, k: Text, depth: nat, rules: Rules)
    requires v.Obj? && k in v.members
    ensures Fits(v, depth, rules) ==> MemberFits(v, k, depth, rules)
  {
  }

  lemma MembersFit(v: Json, depth: nat, rules: Rules)
    requires v.Obj? && depth <= MAX_DEPTH && forall k :: k in v.members ==> MemberFits(v, k, depth, rules)
    ensures Fits(v, depth, rules)
  {
  }

  class Encoder {
    /** Array items and object members seen so far. */
    var members: nat

    constructor ()
      ensures members == 0
    {
      members := 0;
    }

    /** `validate` of the Python encoder; the members of an object come in any order. */
    method Validate(candidate: Json, depth: nat, rules: Rules) returns (ok: bool)
      requires members <= MAX_MEMBERS
      modifies this
      ensures ok == (Fits(candidate, depth, rules) && old(members) + Count(candidate) <= MAX_MEMBERS)
      ensures ok ==> members == old(members) + Count(candidate)
      decreases candidate, 1
    {
      if depth > MAX_DEPTH {
        return false;
      }
      match candidate
      case Null => ok := true;
      case Bool(_) => ok := true;
      case Int(n) => ok := rules.low <= n <= rules.high;
      case Float(_) => ok := false;
      case IllFormed => ok := false;
      case Str(t) => ok := rules.normal(t);
      case Arr(items) => ok := ValidateItems(candidate, depth, rules);
      case Obj(_) => ok := ValidateMembers(candidate, depth, rules);
    }

    method ValidateItems(candidate: Json, depth: nat, rules: Rules) returns (ok: bool)
      requires candidate.Arr? && depth <= MAX_DEPTH && members <= MAX_MEMBERS
      modifies this
      ensures ok == (Fits(candidate, depth, rules) && old(members) + Count(candidate) <= MAX_MEMBERS)
      ensures ok ==> members == old(members) + Count(candidate)
      decreases candidate, 0
    {
      var n := |candidate.items|;
      members := members + n;
      if members > MAX_MEMBERS {
        return false;
      }
      for i := 0 to n
        invariant members == old(members) + n + CountItems(candidate, i) && members <= MAX_MEMBERS
        invariant forall j :: 0 <= j < i ==> Fits(candidate.items[j], depth + 1, rules)
      {
        ok := Validate(candidate.items[i], depth + 1, rules);
        if !ok {
          ItemsMonotone(candidate, i + 1, n);
          return;
        }
      }
      ok := true;
    }

    method ValidateMembers(candidate: Json, depth: nat, rules: Rules) returns (ok: bool)
      requires candidate.Obj? && depth <= MAX_DEPTH && members <= MAX_MEMBERS
      modifies this
      ensures ok == (Fits(candidate, depth, rules) && old(members) + Count(candidate) <= MAX_MEMBERS)
      ensures ok ==> members == old(members) + Count(candidate)
      decreases candidate, 0
    {
      hide Fits, Count, CountMembers;
      CountOf(candidate);
      var all := candidate.members.Keys;
      members := members + |all|;
      if members > MAX_MEMBERS {
        return false;
      }
      var todo := all;
      while todo != {}
        invariant todo <= all
        invariant members + CountMembers(candidate, todo) == old(members) + |all| + CountMembers(candidate, all)
        invariant members <= MAX_MEMBERS
        invariant forall k :: k in all - todo ==> MemberFits(candidate, k, depth, rules)
        decreases |todo|
      {
        var key :| key in todo;
        CountSplits(candidate, todo, key);
        FitsMember(candidate, key, depth, rules);
        ok := depth + 1 <= MAX_DEPTH && rules.normal(key);
        if !ok {
          return;
        }
        ok := Validate(candidate.members[key], depth + 1, rules);
        if !ok {
          return;
        }
        todo := todo - {key};
      }
      MembersFit(candidate, depth, rules);
      ok := true;
    }

    /** `visit` of the TypeScript encoder: it validates and writes in one pass, keys in order. */
    method Visit(candidate: Json, depth: nat, rules: Rules) returns (text: Option<Text>)
      requires members <= MAX_MEMBERS
      modifies this
      ensures text == if Fits(candidate, depth, rules) && old(members) + Count(candidate) <= MAX_MEMBERS
                      then Some(Encode(candidate, TypeScript)) else None
      ensures text.Some? ==> members == old(members) + Count(candidate)
      decreases candidate, 1
    {
      if depth > MAX_DEPTH {
        return None;
      }
      match candidate
      case Null => text := Some([110, 117, 108, 108]);
      case Bool(b) => text := Some(if b then [116, 114, 117, 101] else [102, 97, 108, 115, 101]);
      case Int(n) => text := if rules.low <= n <= rules.high then Some(IntText(n)) else None;
      case Float(_) => text := None;
      case IllFormed => text := None;
      case Str(t) => text := if rules.normal(t) then Some(StringText(t)) else None;
      case Arr(_) => text := VisitItems(candidate, depth, rules);
      case Obj(_) => text := VisitMembers(candidate, depth, rules);
    }

    /** The items are visited first to last; the text is put together from the pieces. */
    method VisitItems(candidate: Json, depth: nat, rules: Rules) returns (text: Option<Text>)
      requires candidate.Arr? && depth <= MAX_DEPTH && members <= MAX_MEMBERS
      modifies this
      ensures text == if Fits(candidate, depth, rules) && old(members) + Count(candidate) <= MAX_MEMBERS
                      then Some(Encode(candidate, TypeScript)) else None
      ensures text.Some? ==> members == old(members) + Count(candidate)
      decreases candidate, 0
    {
      hide Encode;
      var n := |candidate.items|;
      members := members + n;
      if members > MAX_MEMBERS {
        return None;
      }
      var written: Text := [91];
      for i := 0 to n
        invariant members == old(members) + n + CountItems(candidate, i) && members <= MAX_MEMBERS
        invariant forall j :: 0 <= j < i ==> Fits(candidate.items[j], depth + 1, rules)
        invariant written + ItemsText(candidate, i, TypeScript) == [91] + ItemsText(candidate, 0, TypeScript)
      {
        var piece := Visit(candidate.items[i], depth + 1, rules);
        if piece.None? {
          ItemsMonotone(candidate, i + 1, n);
          return None;
        }
        Regroup(written, Comma(i), piece.value, ItemsText(candidate, i + 1, TypeScript));
        written := written + Comma(i) + piece.value;
      }
      ArrayText(candidate);
      text := Some(written + [93]);
    }

    method VisitMembers(candidate: Json, depth: nat, rules: Rules) returns (text: Option<Text>)
      requires candidate.Obj? && depth <= MAX_DEPTH && members <= MAX_MEMBERS
      modifies this
      ensures text == if Fits(candidate, depth, rules) && old(members) + Count(candidate) <= MAX_MEMBERS
                      then Some(Encode(candidate, TypeScript)) else None
      ensures text.Some? ==> members == old(members) + Count(candidate)
      decreases candidate, 0
    {
      hide Encode, StringText, SortedKeys, Less, Fits, Count, CountListed, MembersText;
      ObjectText(candidate);
      ObjectFitsIff(candidate, depth, rules);
      CountOfObject(candidate);
      var keys := SortedKeys(candidate.members.Keys, TypeScript);
      members := members + |keys|;
      if members > MAX_MEMBERS || !AllNormal(keys, rules) {
        return None;
      }
      var written: Text := [123];
      assert keys[0..] == keys;
      for i := 0 to |keys|
        invariant members + CountListed(candidate, keys[i..]) == old(members) + |keys| + CountListed(candidate, keys)
        invariant members <= MAX_MEMBERS
        invariant forall j :: 0 <= j < i ==> Fits(candidate.members[keys[j]], depth + 1, rules)
        invariant written + MembersText(candidate, keys, i, TypeScript) == [123] + MembersText(candidate, keys, 0,
                    TypeScript)
      {
        var key := keys[i];
        MembersFrom(candidate, keys, i);
        var piece := Visit(candidate.members[key], depth + 1, rules);
        if piece.None? {
          return None;
        }
        RegroupMember(written, Comma(i), StringText(key), piece.value, MembersText(candidate, keys, i + 1, TypeScript));
        written := written + Comma(i) + StringText(key) + [58] + piece.value;
      }
      NothingListed(candidate, keys);
      text := Some(written + [125]);
    }
  }

  lemma Regroup(written: Text, comma: Text, piece: Text, rest: Text)
    ensures written + comma + piece + rest == written + (comma + (piece + rest))
  {
  }

  lemma RegroupMember(written: Text, comma: Text, key: Text, piece: Text, rest: Text)
    ensures written + comma + key + [58] + piece + rest == written + (comma + (key + ([58] + (piece + rest))))
  {
  }

  lemma ArrayText(v: Json)
    requires v.Arr?
    ensures Encode(v, TypeScript) == [91] + ItemsText(v, 0, TypeScript)
    ensures ItemsText(v, |v.items|, TypeScript) == [93]
  {
  }

  lemma ObjectText(v: Json)
    requires v.Obj?
    ensures var keys := SortedKeys(v.members.Keys, TypeScript);
            && Encode(v, TypeScript) == [123] + MembersText(v, keys, 0, TypeScript)
            && MembersText(v, keys, |keys|, TypeScript) == [125]
  {
  }

  predicate AllNormal(keys: seq<Text>, rules: Rules) {
    forall j :: 0 <= j < |keys| ==> rules.normal(keys[j])
  }

  predicate ValuesFit(v: Json, keys: seq<Text>, depth: nat, rules: Rules)
    requires v.Obj? && forall k :: k in keys ==> k in v.members
  {
    forall j :: 0 <= j < |keys| ==> Fits(v.members[keys[j]], depth, rules)
  }

  /** An object fits when its keys and, one level deeper, its values do. */
  lemma ObjectFitsIff(v: Json, depth: nat, rules: Rules)
    requires v.Obj? && depth <= MAX_DEPTH
    ensures var keys := SortedKeys(v.members.Keys, TypeScript);
            Fits(v, depth, rules) <==> AllNormal(keys, rules) && ValuesFit(v, keys, depth + 1, rules)
  {
    hide SortedKeys, Fits;
    var keys := SortedKeys(v.members.Keys, TypeScript);
    if AllNormal(keys, rules) && ValuesFit(v, keys, depth + 1, rules) {
      forall k | k in v.members ensures MemberFits(v, k, depth, rules) {
        assert k in keys;
        var j :| 0 <= j < |keys| && keys[j] == k;
        FitsDepth(v.members[k], depth + 1, rules);
      }
      MembersFit(v, depth, rules);
    }
    if Fits(v, depth, rules) {
      forall j | 0 <= j < |keys|
        ensures rules.normal(keys[j]) && Fits(v.members[keys[j]], depth + 1, rules)
      {
        FitsMember(v, keys[j], depth, rules);
      }
    }
  }

  lemma FitsDepth(v: Json, depth: nat, rules: Rules)
    requires Fits(v, depth, rules)
    ensures depth <= MAX_DEPTH
  {
  }

  lemma CountOfObject(v: Json)
    requires v.Obj?
    ensures var keys := SortedKeys(v.members.Keys, TypeScript); Count(v) == |keys| + CountListed(v, keys)
  {
    SortedCountsAll(v, v.members.Keys, TypeScript);
  }

  /** One turn of the member loop. */
  lemma MembersFrom(v: Json, keys: seq<Text>, i: nat)
    requires v.Obj? && i < |keys| && forall k :: k in keys ==> k in v.members
    ensures CountListed(v, keys[i..]) == Count(v.members[keys[i]]) + CountListed(v, keys[i + 1..])
    ensures MembersText(v, keys, i, TypeScript)
            == Comma(i) + (StringText(keys[i]) + ([58] + (Encode(v.members[keys[i]], TypeScript)
                                                         + MembersText(v, keys, i + 1, TypeScript))))
  {
    hide Encode, StringText, Count;
    assert keys[i..][1..] == keys[i + 1..];
  }

  lemma NothingListed(v: Json, keys: seq<Text>)
    requires v.Obj? && forall k :: k in keys ==> k in v.members
    ensures CountListed(v, keys[|keys|..]) == 0
  {
  }

  /** `_canonical`, up to the byte encoding: the text exactly when the value is accepted. */
  method Canonical(value: Json, normal: Text -> bool) returns (text: Option<Text>)
    ensures text == if Accepts(value, Python, normal) then Some(Encode(value, Python)) else None
  {
    var encoder := new Encoder();
    var ok := encoder.Validate(value, 0, RulesOf(Python, normal));
    text := if ok then Some(Encode(value, Python)) else None;
  }

  /** `canonicalKernelJson`. */
  method CanonicalKernelJson(value: Json, normal: Text -> bool) returns (text: Option<Text>)
    ensures text == if Accepts(value, TypeScript, normal) then Some(Encode(value, TypeScript)) else None
  {
    var encoder := new Encoder();
    text := encoder.Visit(value, 0, RulesOf(TypeScript, normal));
  }
}
