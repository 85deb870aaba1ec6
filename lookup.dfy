/**
 * The lookup map from user-facing keys to positions in the ordered
 * exposed-field list, and the resolution of one update key against it.
 */
module FieldLookup {
  import opened Outcomes
  import opened Json
  import opened FieldTypes
  import opened Indexer
  import opened SeqFacts

  // ---------------------------------------------------------------------------
  // Normalization

  function ReplaceSpaces(s: string): (r: string)
    ensures |r| == |s|
    ensures forall i :: 0 <= i < |s| ==> r[i] == (if s[i] == ' ' then '_' else s[i])
  {
    if s == [] then [] else [if s[0] == ' ' then '_' else s[0]] + ReplaceSpaces(s[1..])
  }

  /** `_normalize_name`: lower-case, then every space becomes an underscore. */
  function Normalize(name: string): (r: string)
    ensures |r| == |name|
  {
    ReplaceSpaces(Lower(name))
  }

  /** A string `Normalize` leaves alone: no space and no upper-case letter. */
  predicate IsNormal(s: string) {
    forall i :: 0 <= i < |s| ==> s[i] != ' ' && !('A' <= s[i] <= 'Z')
  }

  /** Normalization yields a normal string, and a string is normal exactly when normalization fixes it. */
  lemma NormalizeCanonical(s: string)
    ensures IsNormal(Normalize(s))
    ensures Normalize(s) == s <==> IsNormal(s)
  {
    if IsNormal(s) {
      assert forall i :: 0 <= i < |s| ==> Normalize(s)[i] == s[i];
    }
    if Normalize(s) == s {
      assert forall i :: 0 <= i < |s| ==> s[i] == Normalize(s)[i];
    }
  }

  lemma NormalizeIdempotent(s: string)
    ensures Normalize(Normalize(s)) == Normalize(s)
  {
    NormalizeCanonical(s);
    NormalizeCanonical(Normalize(s));
  }

  // ---------------------------------------------------------------------------
  // The lookup map

  /** key -> positions in the ordered exposed-field list. */
  type LookupMap = map<string, seq<nat>>

  /** The list stored under `key`; an absent key reads as the empty list. */
  function Entry(m: LookupMap, key: string): seq<nat> {
    if key in m then m[key] else []
  }

  function Push(m: LookupMap, key: string, i: nat): (r: LookupMap)
    ensures Entry(r, key) == Entry(m, key) + [i]
    ensures forall k :: k != key ==> Entry(r, k) == Entry(m, k)
    ensures r.Keys == m.Keys + {key}
  {
    m[key := Entry(m, key) + [i]]
  }

  /**
   * The key a label adds: none for a missing or falsy label, the normalized
   * label for a string; `.lower()` on any other truthy value raises.
   */
  function LabelKey(fieldLabel: Option<Json>): (r: Result<Option<string>>)
    ensures r.Err? <==> fieldLabel.Some? && Truthy(fieldLabel.value) && !fieldLabel.value.JStr?
    ensures r.Ok? && r.value.Some? <==> fieldLabel.Some? && fieldLabel.value.JStr? && fieldLabel.value.s != ""
    ensures r.Ok? && r.value.Some? ==> r.value.value == Normalize(fieldLabel.value.s)
  {
    if fieldLabel.None? || !Truthy(fieldLabel.value) then Ok(None)
    else if fieldLabel.value.JStr? then Ok(Some(Normalize(fieldLabel.value.s)))
    else Err(Unguarded)
  }

  /**
   * `m2` grows out of `m` by appending only: each list of `m` is a prefix
   * of its list in `m2`, and every key `m2` adds has a non-empty list.
   */
  predicate Extends(m: LookupMap, m2: LookupMap) {
    (forall key :: key in m ==> key in m2 && m[key] <= m2[key])
    && (forall key :: key in m2 && key !in m ==> m2[key] != [])
  }

  lemma ExtendsTransitive(m: LookupMap, m2: LookupMap, m3: LookupMap)
    requires Extends(m, m2) && Extends(m2, m3)
    ensures Extends(m, m3)
  {
    forall key | key in m3 && key !in m
      ensures m3[key] != []
    {
      if key in m2 {
        assert m2[key] <= m3[key];
      }
    }
  }

  /** One turn of the loop: the raw field name, then the normalized label if there is one. */
  function RecordField(m: LookupMap, d: Descriptor, i: nat): Result<LookupMap> {
    var named := Push(m, d.fieldName, i);
    var labelKey :- LabelKey(d.fieldLabel);
    if labelKey.Some? then Ok(Push(named, labelKey.value, i)) else Ok(named)
  }

  function LookupFrom(m: LookupMap, fields: seq<Descriptor>, i: nat): Result<LookupMap>
    requires i <= |fields|
    decreases |fields| - i
  {
    if i == |fields| then Ok(m)
    else
      var next :- RecordField(m, fields[i], i);
      LookupFrom(next, fields, i + 1)
  }

  /** One turn only appends, and files the field under its raw name. */
  lemma RecordFieldExtends(m: LookupMap, d: Descriptor, i: nat)
    requires RecordField(m, d, i).Ok?
    ensures Extends(m, RecordField(m, d, i).value) && d.fieldName in RecordField(m, d, i).value
  {
  }

  /**
   * The fold only appends: every list already in `m` is a prefix of its
   * final list, a key it adds has a non-empty list, and every remaining
   * field's name becomes a key.
   */
  lemma {:induction false} LookupFromExtends(m: LookupMap, fields: seq<Descriptor>, i: nat)
    requires i <= |fields| && LookupFrom(m, fields, i).Ok?
    ensures Extends(m, LookupFrom(m, fields, i).value)
    ensures forall j :: i <= j < |fields| ==> fields[j].fieldName in LookupFrom(m, fields, i).value
    decreases |fields| - i
  {
    if i < |fields| {
      var next := RecordField(m, fields[i], i).value;
      RecordFieldExtends(m, fields[i], i);
      LookupFromExtends(next, fields, i + 1);
      ExtendsTransitive(m, next, LookupFrom(m, fields, i).value);
    }
  }

  /** `_build_field_lookup_map`. */
  function LookupOf(fields: seq<Descriptor>): (r: Result<LookupMap>)
    ensures r.Ok? ==> forall key :: key in r.value ==> r.value[key] != []
    ensures r.Ok? ==> forall j :: 0 <= j < |fields| ==> fields[j].fieldName in r.value
  {
    var r := LookupFrom(map[], fields, 0);
    if r.Ok? then
      LookupFromExtends(map[], fields, 0);
      r
    else r
  }

  /** The loop that builds the lookup map. */
  method BuildFieldLookupMap(fields: seq<Descriptor>) returns (r: Result<LookupMap>)
    ensures r == LookupOf(fields)
  {
    var m: LookupMap := map[];
    var i := 0;
    while i < |fields|
      invariant 0 <= i <= |fields|
      invariant LookupOf(fields) == LookupFrom(m, fields, i)
    {
      var d := fields[i];
      m := Push(m, d.fieldName, i);
      if d.fieldLabel.Some? && Truthy(d.fieldLabel.value) {
        if !d.fieldLabel.value.JStr? {
          return Err(Unguarded);
        }
        m := Push(m, Normalize(d.fieldLabel.value.s), i);
      }
      i := i + 1;
    }
    return Ok(m);
  }

  // ---------------------------------------------------------------------------
  // What the lookup map holds, stated independently of the loop

  /** Every label is missing, falsy or a string, so that it can be normalized. */
  predicate LabelsNormalizable(fields: seq<Descriptor>, from: nat) {
    forall j :: from <= j < |fields| ==> LabelKey(fields[j].fieldLabel).Ok?
  }

  /** How often position j is pushed under `key`: once for its name, once more for its label. */
  function Multiplicity(d: Descriptor, key: string): nat
    requires LabelKey(d.fieldLabel).Ok?
  {
    (if d.fieldName == key then 1 else 0) + (if LabelKey(d.fieldLabel).value == Some(key) then 1 else 0)
  }

  function Repeat(i: nat, n: nat): (r: seq<nat>)
    ensures |r| == n
    ensures forall k :: 0 <= k < n ==> r[k] == i
  {
    if n == 0 then [] else [i] + Repeat(i, n - 1)
  }

  /** How many times x occurs in s. */
  function CountOf(s: seq<nat>, x: nat): nat {
    if s == [] then 0 else (if s[0] == x then 1 else 0) + CountOf(s[1..], x)
  }

  lemma {:induction false} CountOfPositive(s: seq<nat>, x: nat)
    ensures CountOf(s, x) > 0 <==> x in s
  {
    if s != [] {
      CountOfPositive(s[1..], x);
      assert x in s <==> s[0] == x || x in s[1..];
    }
  }

  lemma {:induction false} CountOfAppend(a: seq<nat>, b: seq<nat>, x: nat)
    ensures CountOf(a + b, x) == CountOf(a, x) + CountOf(b, x)
  {
    if a != [] {
      assert (a + b)[1..] == a[1..] + b;
      CountOfAppend(a[1..], b, x);
    } else {
      assert a + b == b;
    }
  }

  lemma {:induction false} CountOfRepeat(i: nat, n: nat, x: nat)
    ensures CountOf(Repeat(i, n), x) == if x == i then n else 0
  {
    if n > 0 {
      assert Repeat(i, n)[1..] == Repeat(i, n - 1);
      CountOfRepeat(i, n - 1, x);
    }
  }

  /** The reference list for `key`: each position from `from` on, in order, repeated by its multiplicity. */
  function Occurrences(fields: seq<Descriptor>, key: string, from: nat): seq<nat>
    requires from <= |fields| && LabelsNormalizable(fields, from)
    decreases |fields| - from
  {
    if from == |fields| then []
    else Repeat(from, Multiplicity(fields[from], key)) + Occurrences(fields, key, from + 1)
  }

  lemma RecordFieldEntry(m: LookupMap, d: Descriptor, i: nat, key: string)
    requires LabelKey(d.fieldLabel).Ok?
    ensures RecordField(m, d, i).Ok?
    ensures Entry(RecordField(m, d, i).value, key) == Entry(m, key) + Repeat(i, Multiplicity(d, key))
  {
    var labelKey := LabelKey(d.fieldLabel).value;
    if d.fieldName == key && labelKey == Some(key) {
      assert Repeat(i, 2) == [i] + [i];
    } else if d.fieldName == key || labelKey == Some(key) {
      assert Repeat(i, 1) == [i];
    } else {
      assert Entry(m, key) + Repeat(i, 0) == Entry(m, key);
    }
  }

  /** One turn of the fold that succeeds: the field's label can be normalized and the rest of the fold follows. */
  lemma LookupFromStep(m: LookupMap, fields: seq<Descriptor>, i: nat, lookup: LookupMap)
    requires i < |fields| && LookupFrom(m, fields, i) == Ok(lookup)
    ensures LabelKey(fields[i].fieldLabel).Ok? && RecordField(m, fields[i], i).Ok?
    ensures LookupFrom(RecordField(m, fields[i], i).value, fields, i + 1) == Ok(lookup)
  {
  }

  lemma OccurrencesStep(fields: seq<Descriptor>, key: string, i: nat)
    requires i < |fields| && LabelsNormalizable(fields, i)
    ensures LabelsNormalizable(fields, i + 1)
    ensures Occurrences(fields, key, i) == Repeat(i, Multiplicity(fields[i], key)) + Occurrences(fields, key, i + 1)
  {
  }

  /** A fold that succeeds has met only labels that can be normalized. */
  lemma {:induction false} LookupFromNormalizable(m: LookupMap, fields: seq<Descriptor>, i: nat, lookup: LookupMap)
    requires i <= |fields| && LookupFrom(m, fields, i) == Ok(lookup)
    ensures LabelsNormalizable(fields, i)
    decreases |fields| - i
  {
    if i < |fields| {
      LookupFromStep(m, fields, i, lookup);
      LookupFromNormalizable(RecordField(m, fields[i], i).value, fields, i + 1, lookup);
      NormalizableStep(fields, i);
    }
  }

  lemma NormalizableStep(fields: seq<Descriptor>, i: nat)
    requires i < |fields| && LabelKey(fields[i].fieldLabel).Ok? && LabelsNormalizable(fields, i + 1)
    ensures LabelsNormalizable(fields, i)
  {
  }


  lemma {:induction false} LookupFromEntry(m: LookupMap, fields: seq<Descriptor>, i: nat, key: string, lookup: LookupMap)
    requires i <= |fields| && LookupFrom(m, fields, i) == Ok(lookup)
    requires LabelsNormalizable(fields, i)
    ensures Entry(lookup, key) == Entry(m, key) + Occurrences(fields, key, i)
    decreases |fields| - i
  {
    if i < |fields| {
      LookupFromStep(m, fields, i, lookup);
      OccurrencesStep(fields, key, i);
      var next := RecordField(m, fields[i], i).value;
      LookupFromEntry(next, fields, i + 1, key, lookup);
      RecordFieldEntry(m, fields[i], i, key);
      var head := Repeat(i, Multiplicity(fields[i], key));
      var tail := Occurrences(fields, key, i + 1);
      assert Entry(lookup, key) == Entry(next, key) + tail;
      assert Entry(next, key) == Entry(m, key) + head;
      AppendAssoc(Entry(m, key), head, tail);
    }
  }

  lemma {:induction false} LookupFromSucceeds(m: LookupMap, fields: seq<Descriptor>, i: nat)
    requires i <= |fields| && LabelsNormalizable(fields, i)
    ensures LookupFrom(m, fields, i).Ok?
    decreases |fields| - i
  {
    if i < |fields| {
      RecordFieldEntry(m, fields[i], i, "");
      LookupFromSucceeds(RecordField(m, fields[i], i).value, fields, i + 1);
    }
  }

  /**
   * The lookup map is built exactly when every truthy label is a string, and
   * then the list under each key is that key's reference list.
   */
  lemma LookupContents(fields: seq<Descriptor>, key: string)
    ensures LookupOf(fields).Ok? <==> LabelsNormalizable(fields, 0)
    ensures LookupOf(fields).Ok? ==> Entry(LookupOf(fields).value, key) == Occurrences(fields, key, 0)
  {
    if LookupOf(fields).Ok? {
      LookupFromNormalizable(map[], fields, 0, LookupOf(fields).value);
      LookupFromEntry(map[], fields, 0, key, LookupOf(fields).value);
    }
    if LabelsNormalizable(fields, 0) {
      LookupFromSucceeds(map[], fields, 0);
    }
  }

  /** The reference list is in ascending (form) order and holds only positions from `from` on. */
  lemma {:induction false} OccurrencesOrdered(fields: seq<Descriptor>, key: string, from: nat)
    requires from <= |fields| && LabelsNormalizable(fields, from)
    ensures forall k :: 0 <= k < |Occurrences(fields, key, from)| ==> from <= Occurrences(fields, key, from)[k] < |fields|
    ensures forall a, b :: 0 <= a < b < |Occurrences(fields, key, from)| ==>
              Occurrences(fields, key, from)[a] <= Occurrences(fields, key, from)[b]
    decreases |fields| - from
  {
    if from < |fields| {
      OccurrencesOrdered(fields, key, from + 1);
      var head := Repeat(from, Multiplicity(fields[from], key));
      var tail := Occurrences(fields, key, from + 1);
      assert Occurrences(fields, key, from) == head + tail;
      BlockThenAscending(head, tail, from, |fields|);
    }
  }

  /** The reference list holds each position as often as its multiplicity, and nothing outside the fields. */
  lemma {:induction false} OccurrencesCount(fields: seq<Descriptor>, key: string, from: nat, j: nat)
    requires from <= |fields| && LabelsNormalizable(fields, from)
    ensures CountOf(Occurrences(fields, key, from), j) == if from <= j < |fields| then Multiplicity(fields[j], key) else 0
    decreases |fields| - from
  {
    if from < |fields| {
      OccurrencesCount(fields, key, from + 1, j);
      var head := Repeat(from, Multiplicity(fields[from], key));
      var tail := Occurrences(fields, key, from + 1);
      CountOfAppend(head, tail, j);
      CountOfRepeat(from, Multiplicity(fields[from], key), j);
    }
  }

  /**
   * The list under a key holds position j exactly when the field's raw name
   * is the key or its normalized label is; the lists are ascending and within
   * the field list.
   */
  lemma LookupMembership(fields: seq<Descriptor>, lookup: LookupMap, key: string, j: nat)
    requires LookupOf(fields) == Ok(lookup)
    ensures j in Entry(lookup, key) <==>
              j < |fields| && (fields[j].fieldName == key || LabelKey(fields[j].fieldLabel) == Ok(Some(key)))
    ensures forall x :: x in Entry(lookup, key) ==> x < |fields|
    ensures forall a, b :: 0 <= a < b < |Entry(lookup, key)| ==> Entry(lookup, key)[a] <= Entry(lookup, key)[b]
  {
    LookupContents(fields, key);
    OccurrencesOrdered(fields, key, 0);
    OccurrencesCount(fields, key, 0, j);
    CountOfPositive(Entry(lookup, key), j);
  }

  /** A field whose raw name equals its normalized label is listed twice under that key. */
  lemma NameEqualToLabelListedTwice(fields: seq<Descriptor>, lookup: LookupMap, j: nat)
    requires LookupOf(fields) == Ok(lookup)
    requires j < |fields| && LabelKey(fields[j].fieldLabel) == Ok(Some(fields[j].fieldName))
    ensures CountOf(Entry(lookup, fields[j].fieldName), j) == 2
  {
    LookupContents(fields, fields[j].fieldName);
    OccurrencesCount(fields, fields[j].fieldName, 0, j);
  }

  // ---------------------------------------------------------------------------
  // Resolution of one update key

  /** The raw key's list when it is non-empty, otherwise the normalized key's. */
  function Candidates(lookup: LookupMap, key: string): (r: seq<nat>)
    ensures Entry(lookup, key) != [] ==> r == Entry(lookup, key)
    ensures Entry(lookup, key) == [] ==> r == Entry(lookup, Normalize(key))
  {
    if Entry(lookup, key) != [] then Entry(lookup, key) else Entry(lookup, Normalize(key))
  }

  /** The first candidate not yet bound in this call. */
  function FirstUnused(candidates: seq<nat>, used: set<nat>): (r: Option<nat>)
    ensures r.None? <==> forall k :: 0 <= k < |candidates| ==> candidates[k] in used
    ensures r.Some? ==> r.value in candidates && r.value !in used
    ensures r.Some? ==> exists k :: 0 <= k < |candidates| && candidates[k] == r.value
                                  && forall k' :: 0 <= k' < k ==> candidates[k'] in used
  {
    if candidates == [] then None
    else if candidates[0] !in used then Some(candidates[0])
    else
      var r := FirstUnused(candidates[1..], used);
      if r.Some? then
        var k :| 0 <= k < |candidates[1..]| && candidates[1..][k] == r.value
                 && forall k' :: 0 <= k' < k ==> candidates[1..][k'] in used;
        assert candidates[k + 1] == r.value;
        assert forall k' :: 0 <= k' < k + 1 ==> candidates[k'] in used by {
          forall k' | 0 < k' < k + 1 ensures candidates[k'] in used {
            assert candidates[k'] == candidates[1..][k' - 1];
          }
        }
        r
      else
        assert forall k :: 0 < k < |candidates| ==> candidates[k] == candidates[1..][k - 1];
        r
  }

  /** The loop that scans the candidates. */
  method FindFirstUnused(candidates: seq<nat>, used: set<nat>) returns (r: Option<nat>)
    ensures r == FirstUnused(candidates, used)
  {
    var i := 0;
    while i < |candidates|
      invariant 0 <= i <= |candidates|
      invariant FirstUnused(candidates, used) == FirstUnused(candidates[i..], used)
    {
      assert candidates[i..][0] == candidates[i] && candidates[i..][1..] == candidates[i + 1..];
      if candidates[i] !in used {
        return Some(candidates[i]);
      }
      i := i + 1;
    }
    return None;
  }

  /** Resolves an update key to a position: no candidate is an unknown field, no unused candidate an exhausted one. */
  function Resolve(lookup: LookupMap, used: set<nat>, key: string): (r: Result<nat>)
    ensures r.Ok? ==> r.value in Candidates(lookup, key) && r.value !in used
    ensures r == Err(UnknownField(key)) <==> Candidates(lookup, key) == []
    ensures r == Err(ExhaustedField(key)) <==>
              Candidates(lookup, key) != [] && forall x :: x in Candidates(lookup, key) ==> x in used
    ensures r.Err? ==> r.error in {UnknownField(key), ExhaustedField(key)}
  {
    var candidates := Candidates(lookup, key);
    if candidates == [] then Err(UnknownField(key))
    else
      var found := FirstUnused(candidates, used);
      if found.None? then Err(ExhaustedField(key)) else Ok(found.value)
  }

  /**
   * Against a lookup map built from the field list, the position chosen is
   * the smallest unused position among the candidates: fields are bound in
   * form order.
   */
  lemma ResolvePicksEarliestUnused(fields: seq<Descriptor>, lookup: LookupMap, used: set<nat>, key: string)
    requires LookupOf(fields) == Ok(lookup)
    requires Resolve(lookup, used, key).Ok?
    ensures var j := Resolve(lookup, used, key).value;
            j < |fields| && forall x :: x in Candidates(lookup, key) && x !in used ==> j <= x
  {
    var raw := if Entry(lookup, key) != [] then key else Normalize(key);
    assert Candidates(lookup, key) == Entry(lookup, raw);
    LookupMembership(fields, lookup, raw, 0);
    FirstUnusedIsLeast(Entry(lookup, raw), used);
  }

  /** Over an ordered candidate list, the first unused candidate is the least unused one. */
  lemma FirstUnusedIsLeast(candidates: seq<nat>, used: set<nat>)
    requires forall a, b :: 0 <= a < b < |candidates| ==> candidates[a] <= candidates[b]
    requires FirstUnused(candidates, used).Some?
    ensures forall x :: x in candidates && x !in used ==> FirstUnused(candidates, used).value <= x
  {
    var j := FirstUnused(candidates, used).value;
    var k :| 0 <= k < |candidates| && candidates[k] == j && forall k' :: 0 <= k' < k ==> candidates[k'] in used;
    forall x | x in candidates && x !in used
      ensures j <= x
    {
      var kx :| 0 <= kx < |candidates| && candidates[kx] == x;
      assert kx >= k;
      if kx > k {
        assert candidates[k] <= candidates[kx];
      }
    }
  }

  /** A field answers to `key` by its name or by its normalized label. */
  predicate AnswersTo(d: Descriptor, key: string) {
    d.fieldName == key || LabelKey(d.fieldLabel) == Ok(Some(key))
  }

  /**
   * The candidates in terms of the fields: the fields answering to the raw
   * key when there are any, else those answering to its normalized form.
   * A raw match thus always beats a normalized one.
   */
  lemma CandidatesByName(fields: seq<Descriptor>, lookup: LookupMap, key: string, j: nat)
    requires LookupOf(fields) == Ok(lookup)
    ensures j in Candidates(lookup, key) <==>
              j < |fields|
              && if exists i :: 0 <= i < |fields| && AnswersTo(fields[i], key)
                 then AnswersTo(fields[j], key)
                 else AnswersTo(fields[j], Normalize(key))
  {
    LookupMembership(fields, lookup, key, j);
    LookupMembership(fields, lookup, Normalize(key), j);
    if Entry(lookup, key) != [] {
      LookupMembership(fields, lookup, key, Entry(lookup, key)[0]);
    } else {
      forall i | 0 <= i < |fields|
        ensures !AnswersTo(fields[i], key)
      {
        LookupMembership(fields, lookup, key, i);
      }
    }
  }

  /**
   * Keys that no field answers to are resolved by their normalized form
   * alone: case and spaces in such a key do not matter.
   */
  lemma NormalizedKeysResolveAlike(fields: seq<Descriptor>, lookup: LookupMap, used: set<nat>, key1: string, key2: string)
    requires LookupOf(fields) == Ok(lookup)
    requires forall i :: 0 <= i < |fields| ==> !AnswersTo(fields[i], key1) && !AnswersTo(fields[i], key2)
    requires Normalize(key1) == Normalize(key2)
    ensures Resolve(lookup, used, key1).Ok? <==> Resolve(lookup, used, key2).Ok?
    ensures Resolve(lookup, used, key1).Ok? ==> Resolve(lookup, used, key1).value == Resolve(lookup, used, key2).value
  {
    if Entry(lookup, key1) != [] {
      LookupMembership(fields, lookup, key1, Entry(lookup, key1)[0]);
    }
    if Entry(lookup, key2) != [] {
      LookupMembership(fields, lookup, key2, Entry(lookup, key2)[0]);
    }
  }

  /**
   * The consequence of the double push: when a field's name equals its
   * normalized label and no other field answers to it, one update binds it
   * and a second update with the same key is refused.
   */
  lemma SelfLabelledFieldTakesOneUpdate(lookup: LookupMap, used: set<nat>, key: string, j: nat)
    requires Entry(lookup, key) == [j, j] && j !in used
    ensures Resolve(lookup, used, key) == Ok(j)
    ensures Resolve(lookup, used + {j}, key) == Err(ExhaustedField(key))
  {
    assert FirstUnused([j, j], used) == Some(j);
  }

  /**
   * Repeating a key walks its candidates in order: once the first `k`
   * distinct candidates are bound, the next update binds the `k`-th, and
   * an update past the last one is refused.
   */
  lemma RepeatedKeyBindsInOrder(lookup: LookupMap, key: string, k: nat)
    requires Candidates(lookup, key) != [] && k <= |Candidates(lookup, key)|
    requires forall a, b :: 0 <= a < b < |Candidates(lookup, key)| ==> Candidates(lookup, key)[a] != Candidates(lookup, key)[b]
    ensures var c := Candidates(lookup, key);
            Resolve(lookup, (set x | x in c[..k]), key) == if k < |c| then Ok(c[k]) else Err(ExhaustedField(key))
  {
    var c := Candidates(lookup, key);
    var used := set x | x in c[..k];
    if k < |c| {
      assert forall a :: 0 <= a < k ==> c[..k][a] == c[a];
      assert c[k] !in c[..k];
      var v := Resolve(lookup, used, key).value;
      var k' :| 0 <= k' < |c| && c[k'] == v && forall k'' :: 0 <= k'' < k' ==> c[k''] in used;
      assert k' == k;
    } else {
      assert forall x :: x in c ==> x in used by {
        assert c[..k] == c;
      }
    }
  }
}
