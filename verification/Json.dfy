/** JSON values as the program sees them, and the removal of sponsor data (src/shared/security.ts). */
module Json {

  import opened Wrappers

  /** A number is told by its numeral, as `JSON.stringify` prints it. An object keeps its fields in
      insertion order. */
  datatype Json =
    | Null
    | Bool(truth: bool)
    | Num(numeral: string)
    | Str(text: string)
    | Arr(items: seq<Json>)
    | Obj(fields: seq<Field>)

  datatype Field = Field(key: string, value: Json)

  function Get(fields: seq<Field>, key: string): Option<Json> {
    if fields == [] then None
    else if fields[0].key == key then Some(fields[0].value)
    else Get(fields[1..], key)
  }

  lemma {:induction false} GetAt(fields: seq<Field>, key: string, k: nat)
    requires k < |fields| && fields[k].key == key && forall j | 0 <= j < k :: fields[j].key != key
    ensures Get(fields, key) == Some(fields[k].value)
  {
    if k > 0 {
      GetAt(fields[1..], key, k - 1);
    }
  }

  // ----- sponsor data

  const SPONSOR_KEYS: seq<string> :=
    ["ad", "ads", "advertiser", "sponsor", "sponsorship", "settlement", "subsidy", "economics"]

  function Lower(c: char): char {
    if 'A' <= c <= 'Z' then c - 'A' + 'a' else c
  }

  predicate EqualsLowered(key: string, lower: string) {
    |key| == |lower| && forall k | 0 <= k < |key| :: Lower(key[k]) == lower[k]
  }

  predicate IsSponsorKey(key: string) {
    exists k | 0 <= k < |SPONSOR_KEYS| :: EqualsLowered(key, SPONSOR_KEYS[k])
  }

  predicate ContainsSponsorKey(value: Json)
    decreases value, 1
  {
    match value
    case Arr(items) => AnyItemContains(items)
    case Obj(fields) => AnyFieldContains(fields)
    case _ => false
  }

  predicate AnyItemContains(items: seq<Json>)
    decreases items, 0
  {
    items != [] && (ContainsSponsorKey(items[0]) || AnyItemContains(items[1..]))
  }

  predicate AnyFieldContains(fields: seq<Field>)
    decreases fields, 0
  {
    fields != []
    && (IsSponsorKey(fields[0].key) || ContainsSponsorKey(fields[0].value) || AnyFieldContains(fields[1..]))
  }

  function RemoveSponsorData(value: Json): Json
    decreases value, 1
  {
    match value
    case Arr(items) => Arr(RemoveFromItems(items))
    case Obj(fields) => Obj(RemoveFromFields(fields))
    case _ => value
  }

  function RemoveFromItems(items: seq<Json>): seq<Json>
    decreases items, 0
  {
    if items == [] then [] else [RemoveSponsorData(items[0])] + RemoveFromItems(items[1..])
  }

  function RemoveFromFields(fields: seq<Field>): seq<Field>
    decreases fields, 0
  {
    if fields == [] then []
    else if IsSponsorKey(fields[0].key) then RemoveFromFields(fields[1..])
    else [Field(fields[0].key, RemoveSponsorData(fields[0].value))] + RemoveFromFields(fields[1..])
  }

  /** Removal is the identity exactly on what holds no sponsor key, and its result holds none. */
  lemma {:induction false} RemovalExactly(value: Json)
    ensures RemoveSponsorData(value) == value <==> !ContainsSponsorKey(value)
    ensures !ContainsSponsorKey(RemoveSponsorData(value))
    decreases value, 1
  {
    match value
    case Arr(items) => ItemRemovalExactly(items);
    case Obj(fields) => FieldRemovalExactly(fields);
    case _ =>
  }

  lemma {:induction false} ItemRemovalExactly(items: seq<Json>)
    ensures RemoveFromItems(items) == items <==> !AnyItemContains(items)
    ensures !AnyItemContains(RemoveFromItems(items))
    decreases items, 0
  {
    if items != [] {
      RemovalExactly(items[0]);
      ItemRemovalExactly(items[1..]);
      var removed := RemoveFromItems(items);
      assert removed[1..] == RemoveFromItems(items[1..]);
      assert removed == items ==> removed[0] == items[0] && removed[1..] == items[1..];
    }
  }

  lemma {:induction false} FieldRemovalExactly(fields: seq<Field>)
    ensures RemoveFromFields(fields) == fields <==> !AnyFieldContains(fields)
    ensures !AnyFieldContains(RemoveFromFields(fields))
    ensures |RemoveFromFields(fields)| <= |fields|
    decreases fields, 0
  {
    if fields != [] {
      RemovalExactly(fields[0].value);
      FieldRemovalExactly(fields[1..]);
      var removed := RemoveFromFields(fields);
      if !IsSponsorKey(fields[0].key) {
        assert removed[1..] == RemoveFromFields(fields[1..]);
        assert removed == fields ==> removed[0] == fields[0] && removed[1..] == fields[1..];
      }
    }
  }
}
