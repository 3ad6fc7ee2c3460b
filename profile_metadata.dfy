/**
 * The JSON `metadata` field of a user profile and the two helpers that
 * patch it: `check_if_key_exists` (a key search that stops at the first
 * nested container) and `replace_key_value` (replace or shallow-merge the
 * value of every entry under a key), plus the key-by-key merge that
 * `partial_update` runs when `overwrite` is `'false'`.
 *
 * A JSON object is an association list in the dictionary's iteration
 * order; the order matters because the key search returns early.
 */
module ProfileMetadata {
  import opened Wrappers

  datatype Json =
    | JNull
    | JBool(b: bool)
    | JNumber(n: int)
    | JString(s: string)
    | JList(items: seq<Json>)
    | JObject(fields: seq<Field>)

  datatype Field = Field(key: string, value: Json)

  /** Python truthiness of a decoded JSON value. */
  predicate Truthy(j: Json) {
    match j
    case JNull => false
    case JBool(b) => b
    case JNumber(n) => n != 0
    case JString(s) => s != ""
    case JList(items) => items != []
    case JObject(fields) => fields != []
  }

  // ---------------------------------------------------------------------
  // Sizes, for termination of the recursive walks

  function Size(j: Json): nat
    ensures Size(j) >= 1
  {
    match j
    case JList(items) => 1 + ItemsSize(items)
    case JObject(fields) => 1 + FieldsSize(fields)
    case _ => 1
  }

  function ItemsSize(items: seq<Json>): nat {
    if items == [] then 0 else 1 + Size(items[0]) + ItemsSize(items[1..])
  }

  function FieldsSize(fields: seq<Field>): nat {
    if fields == [] then 0 else 1 + Size(fields[0].value) + FieldsSize(fields[1..])
  }

  lemma {:induction false} FieldSizeBound(fields: seq<Field>, i: nat)
    requires i < |fields|
    ensures Size(fields[i].value) < FieldsSize(fields)
  {
    if i > 0 { FieldSizeBound(fields[1..], i - 1); }
  }

  // ---------------------------------------------------------------------
  // Dictionary operations on association lists

  function Keys(fields: seq<Field>): (ks: set<string>)
    ensures forall i :: 0 <= i < |fields| ==> fields[i].key in ks
    ensures forall k :: k in ks ==> exists i :: 0 <= i < |fields| && fields[i].key == k
  {
    if fields == [] then {}
    else
      var ks := {fields[0].key} + Keys(fields[1..]);
      assert forall k :: k in Keys(fields[1..]) ==> exists i :: 1 <= i < |fields| && fields[i].key == k by {
        forall k | k in Keys(fields[1..]) ensures exists i :: 1 <= i < |fields| && fields[i].key == k {
          var i :| 0 <= i < |fields[1..]| && fields[1..][i].key == k;
          assert fields[i + 1].key == k;
        }
      }
      ks
  }

  /** A Python dictionary never holds a key twice. */
  predicate UniqueKeys(fields: seq<Field>) {
    forall i, j :: 0 <= i < j < |fields| ==> fields[i].key != fields[j].key
  }

  /** `d.get(k)`. */
  function Get(fields: seq<Field>, k: string): (r: Option<Json>)
    ensures r.Some? <==> k in Keys(fields)
  {
    if fields == [] then None
    else if fields[0].key == k then Some(fields[0].value)
    else Get(fields[1..], k)
  }

  /** `d[k] = v`: overwrite the entry in place, or append a new one. */
  function Set(fields: seq<Field>, k: string, v: Json): (r: seq<Field>)
    ensures Keys(r) == Keys(fields) + {k}
  {
    if fields == [] then [Field(k, v)]
    else if fields[0].key == k then [Field(k, v)] + fields[1..]
    else [fields[0]] + Set(fields[1..], k, v)
  }

  /** After `d[k] = v`, `d[k]` reads `v` and every other key reads what it did before. */
  lemma {:induction false} SetGet(fields: seq<Field>, k: string, v: Json, k': string)
    ensures Get(Set(fields, k, v), k') == if k' == k then Some(v) else Get(fields, k')
  {
    if fields != [] && fields[0].key != k {
      var r := Set(fields, k, v);
      assert r[1..] == Set(fields[1..], k, v);
      SetGet(fields[1..], k, v, k');
    } else if fields != [] {
      var r := Set(fields, k, v);
      assert r[1..] == fields[1..];
    }
  }

  /** `d[k] = v` keeps the keys of a dictionary unique. */
  lemma {:induction false} SetKeepsUnique(fields: seq<Field>, k: string, v: Json)
    requires UniqueKeys(fields)
    ensures UniqueKeys(Set(fields, k, v))
  {
    var r := Set(fields, k, v);
    if fields != [] {
      UniqueKeysCons(fields);
      if fields[0].key == k {
        assert r[1..] == fields[1..];
      } else {
        assert r[1..] == Set(fields[1..], k, v);
        SetKeepsUnique(fields[1..], k, v);
      }
      UniqueKeysCons(r);
    }
  }

  /** A dictionary has unique keys exactly when its tail does and its first key is not among the tail's. */
  lemma {:induction false} UniqueKeysCons(fields: seq<Field>)
    requires fields != []
    ensures UniqueKeys(fields) <==> UniqueKeys(fields[1..]) && fields[0].key !in Keys(fields[1..])
  {
    var rest := fields[1..];
    if UniqueKeys(fields) {
      forall i, j | 0 <= i < j < |rest| ensures rest[i].key != rest[j].key {
        assert rest[i] == fields[i + 1] && rest[j] == fields[j + 1];
      }
      assert forall m :: 0 <= m < |rest| ==> rest[m].key != fields[0].key by {
        forall m | 0 <= m < |rest| ensures rest[m].key != fields[0].key {
          assert rest[m] == fields[m + 1];
        }
      }
    }
    if UniqueKeys(rest) && fields[0].key !in Keys(rest) {
      forall i, j | 0 <= i < j < |fields| ensures fields[i].key != fields[j].key {
        assert fields[j] == rest[j - 1];
        if i > 0 { assert fields[i] == rest[i - 1]; }
      }
    }
  }

  /** `base.update(changes)`: every pair of `changes`, in order, is set into `base`. */
  function Update(base: seq<Field>, changes: seq<Field>): (r: seq<Field>)
    ensures Keys(r) == Keys(base) + Keys(changes)
    ensures UniqueKeys(base) ==> UniqueKeys(r)
    decreases |changes|
  {
    if changes == [] then base
    else
      var next := Set(base, changes[0].key, changes[0].value);
      assert UniqueKeys(base) ==> UniqueKeys(next) by {
        if UniqueKeys(base) { SetKeepsUnique(base, changes[0].key, changes[0].value); }
      }
      Update(next, changes[1..])
  }

  /** After `base.update(changes)` the keys of `changes` hold their new values and every other key keeps its old one. */
  lemma {:induction false} UpdateValues(base: seq<Field>, changes: seq<Field>, k: string)
    requires UniqueKeys(changes)
    ensures Get(Update(base, changes), k) == if k in Keys(changes) then Get(changes, k) else Get(base, k)
    decreases |changes|
  {
    if changes != [] {
      UpdateValues(Set(base, changes[0].key, changes[0].value), changes[1..], k);
      SetGet(base, changes[0].key, changes[0].value, k);
      if k == changes[0].key {
        assert forall i :: 0 <= i < |changes[1..]| ==> changes[1..][i].key != k;
        assert k !in Keys(changes[1..]);
      }
    }
  }

  // ---------------------------------------------------------------------
  // check_if_key_exists

  /** The fields of the first dictionary among the items of a list, if any. */
  function FirstObject(items: seq<Json>): (r: Option<seq<Field>>)
    ensures r.Some? ==> FieldsSize(r.value) < ItemsSize(items)
    ensures r.Some? ==> exists i :: 0 <= i < |items| && items[i] == JObject(r.value)
    ensures r.None? ==> forall i :: 0 <= i < |items| ==> !items[i].JObject?
  {
    if items == [] then None
    else if items[0].JObject? then Some(items[0].fields)
    else
      var r := FirstObject(items[1..]);
      assert r.Some? ==> exists i :: 1 <= i < |items| && items[i] == JObject(r.value) by {
        if r.Some? {
          var i :| 0 <= i < |items[1..]| && items[1..][i] == JObject(r.value);
          assert items[i + 1] == JObject(r.value);
        }
      }
      r
  }

  /**
   * `check_if_key_exists(a_key, d)`: walks the entries in order; a matching
   * key answers true, and the first entry whose value is a dictionary, or a
   * list holding a dictionary, answers with the search of that dictionary
   * alone, without looking at any later entry.
   */
  function KeyExists(aKey: string, fields: seq<Field>): bool
    decreases FieldsSize(fields)
  {
    if fields == [] then false
    else
      var Field(key, value) := fields[0];
      if key == aKey then true
      else if value.JObject? then
        FieldSizeBound(fields, 0);
        KeyExists(aKey, value.fields)
      else if value.JList? then
        match FirstObject(value.items)
        case Some(nested) =>
          FieldSizeBound(fields, 0);
          KeyExists(aKey, nested)
        case None => KeyExists(aKey, fields[1..])
      else KeyExists(aKey, fields[1..])
  }

  /** `k` is a key of the dictionary, of a dictionary nested in it, or of a dictionary held in a list in it, at any depth. */
  predicate Occurs(k: string, fields: seq<Field>)
    decreases FieldsSize(fields)
  {
    fields != [] && (fields[0].key == k || OccursInValue(k, fields[0].value) || Occurs(k, fields[1..]))
  }

  predicate OccursInValue(k: string, v: Json)
    decreases Size(v)
  {
    match v
    case JObject(fields) => Occurs(k, fields)
    case JList(items) => OccursInItems(k, items)
    case _ => false
  }

  predicate OccursInItems(k: string, items: seq<Json>)
    decreases ItemsSize(items)
  {
    && items != []
    && (|| (items[0].JObject? && (assert Size(items[0]) == 1 + FieldsSize(items[0].fields); Occurs(k, items[0].fields)))
        || OccursInItems(k, items[1..]))
  }

  lemma {:induction false} OccursInListedObject(k: string, items: seq<Json>, i: nat)
    requires i < |items| && items[i].JObject? && Occurs(k, items[i].fields)
    ensures OccursInItems(k, items)
  {
    if i > 0 { OccursInListedObject(k, items[1..], i - 1); }
  }

  /** Soundness: a true answer means the key really occurs somewhere. */
  lemma {:induction false} KeyExistsSound(aKey: string, fields: seq<Field>)
    requires KeyExists(aKey, fields)
    ensures Occurs(aKey, fields)
    decreases FieldsSize(fields)
  {
    var Field(key, value) := fields[0];
    if key != aKey {
      FieldSizeBound(fields, 0);
      if value.JObject? {
        KeyExistsSound(aKey, value.fields);
      } else if value.JList? && FirstObject(value.items).Some? {
        var nested := FirstObject(value.items).value;
        KeyExistsSound(aKey, nested);
        var i :| 0 <= i < |value.items| && value.items[i] == JObject(nested);
        OccursInListedObject(aKey, value.items, i);
      } else {
        KeyExistsSound(aKey, fields[1..]);
      }
    }
  }

  /** A dictionary whose values are all scalars is searched completely: the answer is exactly membership among its keys. */
  lemma {:induction false} KeyExistsOnFlatDict(aKey: string, fields: seq<Field>)
    requires forall i :: 0 <= i < |fields| ==> !fields[i].value.JObject? && !fields[i].value.JList?
    ensures KeyExists(aKey, fields) <==> aKey in Keys(fields)
  {
    if fields != [] {
      KeyExistsOnFlatDict(aKey, fields[1..]);
    }
  }

  /** The search is incomplete: a nested dictionary met first hides a later top-level key. */
  lemma KeyExistsStopsAtFirstNestedDict()
    ensures var d := [Field("a", JObject([])), Field("b", JNull)];
      Occurs("b", d) && "b" in Keys(d) && !KeyExists("b", d)
  {
  }

  // ---------------------------------------------------------------------
  // replace_key_value

  /** The new value of one entry `key: value` after `replace_key_value(lookup, newValue, ...)`. */
  function ReplacedValue(lookup: string, newValue: Json, key: string, value: Json): Json
    decreases Size(value)
  {
    if key == lookup then
      if value.JObject? && newValue.JObject? then JObject(Update(value.fields, newValue.fields))
      else newValue
    else if value.JObject? then JObject(Replaced(lookup, newValue, value.fields))
    else value
  }

  /** The dictionary `replace_key_value(lookup, newValue, fields)` leaves behind, entry by entry. */
  function Replaced(lookup: string, newValue: Json, fields: seq<Field>): (r: seq<Field>)
    decreases FieldsSize(fields)
    ensures |r| == |fields|
    ensures forall i :: 0 <= i < |fields| ==> r[i].key == fields[i].key
  {
    if fields == [] then []
    else
      FieldSizeBound(fields, 0);
      [Field(fields[0].key, ReplacedValue(lookup, newValue, fields[0].key, fields[0].value))]
        + Replaced(lookup, newValue, fields[1..])
  }

  lemma {:induction false} ReplacedAt(lookup: string, newValue: Json, fields: seq<Field>, i: nat)
    requires i < |fields|
    ensures Replaced(lookup, newValue, fields)[i]
         == Field(fields[i].key, ReplacedValue(lookup, newValue, fields[i].key, fields[i].value))
  {
    if i > 0 { ReplacedAt(lookup, newValue, fields[1..], i - 1); }
  }

  /** Replacing values never adds or removes a key at this level. */
  lemma ReplacedKeys(lookup: string, newValue: Json, fields: seq<Field>)
    ensures Keys(Replaced(lookup, newValue, fields)) == Keys(fields)
  {
    var r := Replaced(lookup, newValue, fields);
    forall k | k in Keys(r) ensures k in Keys(fields) {
      var j :| 0 <= j < |r| && r[j].key == k;
      assert fields[j].key == k;
    }
  }

  /**
   * `replace_key_value(lookup, new_value, expected_dict)`: the loop over the
   * entries rewrites, in place, each entry under `lookup` (a dictionary value
   * is merged with a dictionary `new_value`, anything else is replaced) and
   * recurses into every other dictionary value; it returns the same
   * dictionary it was given.
   */
  method ReplaceKeyValue(lookup: string, newValue: Json, expected: seq<Field>) returns (r: seq<Field>)
    ensures r == Replaced(lookup, newValue, expected)
    decreases FieldsSize(expected)
  {
    r := expected;
    for i := 0 to |expected|
      invariant |r| == |expected|
      invariant forall j :: 0 <= j < i ==> r[j] == Replaced(lookup, newValue, expected)[j]
      invariant forall j :: i <= j < |expected| ==> r[j] == expected[j]
    {
      var Field(key, value) := expected[i];
      ReplacedAt(lookup, newValue, expected, i);
      if lookup == key {
        if value.JObject? && newValue.JObject? {
          r := r[i := Field(key, JObject(Update(value.fields, newValue.fields)))];
        } else {
          r := r[i := Field(key, newValue)];
        }
      } else if value.JObject? {
        FieldSizeBound(expected, i);
        var nested := ReplaceKeyValue(lookup, newValue, value.fields);
        r := r[i := Field(key, JObject(nested))];
      }
    }
  }

  /** `k` is reached through dictionaries only, never descending below an entry keyed `lookup`. */
  predicate ReachableAvoiding(k: string, lookup: string, fields: seq<Field>)
    decreases FieldsSize(fields)
  {
    && fields != []
    && (|| fields[0].key == k
        || (fields[0].key != lookup && fields[0].value.JObject? &&
            (FieldSizeBound(fields, 0); ReachableAvoiding(k, lookup, fields[0].value.fields)))
        || ReachableAvoiding(k, lookup, fields[1..]))
  }

  /** `replace_key_value` removes no key except ones nested below a replaced entry. */
  lemma {:induction false} ReplaceKeepsKeys(k: string, lookup: string, newValue: Json, fields: seq<Field>)
    requires ReachableAvoiding(k, lookup, fields)
    ensures ReachableAvoiding(k, lookup, Replaced(lookup, newValue, fields))
    decreases FieldsSize(fields)
  {
    var r := Replaced(lookup, newValue, fields);
    FieldSizeBound(fields, 0);
    assert r[1..] == Replaced(lookup, newValue, fields[1..]);
    if fields[0].key == k {
    } else if fields[0].key != lookup && fields[0].value.JObject? && ReachableAvoiding(k, lookup, fields[0].value.fields) {
      ReplaceKeepsKeys(k, lookup, newValue, fields[0].value.fields);
    } else {
      ReplaceKeepsKeys(k, lookup, newValue, fields[1..]);
    }
  }

  /** `lookup` somewhere among the keys reached through dictionaries only. */
  predicate InDicts(lookup: string, fields: seq<Field>)
    decreases FieldsSize(fields)
  {
    && fields != []
    && (|| fields[0].key == lookup
        || (fields[0].value.JObject? && (FieldSizeBound(fields, 0); InDicts(lookup, fields[0].value.fields)))
        || InDicts(lookup, fields[1..]))
  }

  /** When `lookup` is nowhere in the nested dictionaries, `replace_key_value` changes nothing. */
  lemma {:induction false} ReplaceWithoutLookupIsIdentity(lookup: string, newValue: Json, fields: seq<Field>)
    requires !InDicts(lookup, fields)
    ensures Replaced(lookup, newValue, fields) == fields
    decreases FieldsSize(fields)
  {
    if fields != [] {
      FieldSizeBound(fields, 0);
      if fields[0].value.JObject? {
        ReplaceWithoutLookupIsIdentity(lookup, newValue, fields[0].value.fields);
      }
      ReplaceWithoutLookupIsIdentity(lookup, newValue, fields[1..]);
    }
  }

  /**
   * Each entry keyed `lookup` ends up holding `newValue`, or, when both are
   * dictionaries, the old dictionary updated with the new one; every other
   * scalar or list value is left as it was.
   */
  lemma ReplacedEntries(lookup: string, newValue: Json, fields: seq<Field>, i: nat)
    requires i < |fields|
    ensures var Field(key, before) := fields[i];
      var now := Replaced(lookup, newValue, fields)[i].value;
      && (key == lookup && before.JObject? && newValue.JObject? ==>
            now.JObject? && Keys(now.fields) == Keys(before.fields) + Keys(newValue.fields))
      && (key == lookup && !(before.JObject? && newValue.JObject?) ==> now == newValue)
      && (key != lookup && !before.JObject? ==> now == before)
      && (key != lookup && before.JObject? ==> now.JObject? && Keys(now.fields) == Keys(before.fields))
  {
    ReplacedAt(lookup, newValue, fields, i);
    var Field(key, before) := fields[i];
    if key != lookup && before.JObject? {
      ReplacedKeys(lookup, newValue, before.fields);
    }
  }

  // ---------------------------------------------------------------------
  // The merge loop of partial_update (overwrite == 'false')

  /** One incoming pair: replaced wherever the key search finds it, otherwise set at top level. */
  function MergeStep(metadata: seq<Field>, item: Field): (r: seq<Field>)
    ensures Keys(metadata) <= Keys(r) <= Keys(metadata) + {item.key}
  {
    if KeyExists(item.key, metadata) then
      ReplacedKeys(item.key, item.value, metadata);
      Replaced(item.key, item.value, metadata)
    else Set(metadata, item.key, item.value)
  }

  /** The metadata after the loop has merged the incoming pairs in order. */
  function Merged(metadata: seq<Field>, items: seq<Field>): seq<Field>
    decreases |items|
  {
    if items == [] then metadata
    else MergeStep(Merged(metadata, items[..|items| - 1]), items[|items| - 1])
  }

  /** The merge never drops an existing top-level key, and adds no top-level key that was not incoming. */
  lemma {:induction false} MergeKeepsTopLevelKeys(metadata: seq<Field>, items: seq<Field>)
    ensures Keys(metadata) <= Keys(Merged(metadata, items))
    ensures Keys(Merged(metadata, items)) <= Keys(metadata) + Keys(items)
  {
    if items != [] {
      var front := items[..|items| - 1];
      MergeKeepsTopLevelKeys(metadata, front);
      assert Keys(front) <= Keys(items) by {
        forall k | k in Keys(front) ensures k in Keys(items) {
          var j :| 0 <= j < |front| && front[j].key == k;
          assert items[j].key == k;
        }
      }
    }
  }

  lemma {:induction false} ReplacePreservesOccurrence(k: string, v: Json, fields: seq<Field>)
    requires Occurs(k, fields)
    ensures Occurs(k, Replaced(k, v, fields))
    decreases FieldsSize(fields)
  {
    var r := Replaced(k, v, fields);
    FieldSizeBound(fields, 0);
    assert r[1..] == Replaced(k, v, fields[1..]);
    if fields[0].key != k {
      if OccursInValue(k, fields[0].value) {
        if fields[0].value.JObject? {
          ReplacePreservesOccurrence(k, v, fields[0].value.fields);
        }
      } else {
        ReplacePreservesOccurrence(k, v, fields[1..]);
      }
    }
  }

  /** Right after its merge step an incoming key is present: replaced where it was found, or added at top level. */
  lemma MergeStepPlacesKey(metadata: seq<Field>, item: Field)
    ensures Occurs(item.key, MergeStep(metadata, item))
    ensures !KeyExists(item.key, metadata) ==> Get(MergeStep(metadata, item), item.key) == Some(item.value)
  {
    if KeyExists(item.key, metadata) {
      KeyExistsSound(item.key, metadata);
      ReplacePreservesOccurrence(item.key, item.value, metadata);
    } else {
      var r := Set(metadata, item.key, item.value);
      SetGet(metadata, item.key, item.value, item.key);
      var i :| 0 <= i < |r| && r[i].key == item.key;
      OccursAtTop(item.key, r, i);
    }
  }

  lemma {:induction false} OccursAtTop(k: string, fields: seq<Field>, i: nat)
    requires i < |fields| && fields[i].key == k
    ensures Occurs(k, fields)
  {
    if i > 0 { OccursAtTop(k, fields[1..], i - 1); }
  }
}
