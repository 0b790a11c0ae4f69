/** Canonical forms of JSON values and the binding of an approved operation
    (src/runtime/operation-manifest.ts, src/shared/automation-protocol.ts). */
module Canonical {
  import opened Wrappers
  import opened Json
  import opened JsonText

  // ----- the order of keys

  /** `left < right` on strings: the first difference decides, a prefix comes first. */
  predicate Less(left: string, right: string) {
    if right == "" then false
    else if left == "" then true
    else if left[0] != right[0] then left[0] < right[0]
    else Less(left[1..], right[1..])
  }

  lemma {:induction false} LessTotal(left: string, right: string)
    ensures left == right || Less(left, right) || Less(right, left)
    ensures !(Less(left, right) && Less(right, left)) && !Less(left, left)
  {
    if left != "" {
      LessTotal(left[1..], left[1..]);
    }
    if left != "" && right != "" && left[0] == right[0] {
      LessTotal(left[1..], right[1..]);
      assert left == [left[0]] + left[1..] && right == [right[0]] + right[1..];
    }
  }

  lemma {:induction false} LessTransitive(a: string, b: string, c: string)
    requires Less(a, b) && Less(b, c)
    ensures Less(a, c)
  {
    if a != "" && a[0] == b[0] == c[0] {
      LessTransitive(a[1..], b[1..], c[1..]);
    }
  }

  // ----- sorting by key

  /** Inserts a field behind those with a key not greater; sorting keeps equal keys in order. */
  function Inserted(field: Field, sorted: seq<Field>): seq<Field> {
    if sorted == [] then [field]
    else if Less(sorted[0].key, field.key) then [sorted[0]] + Inserted(field, sorted[1..])
    else [field] + sorted
  }

  function Sorted(fields: seq<Field>): seq<Field> {
    if fields == [] then [] else Inserted(fields[0], Sorted(fields[1..]))
  }

  ghost predicate Ascending(fields: seq<Field>) {
    forall i, j | 0 <= i < j < |fields| :: Less(fields[i].key, fields[j].key)
  }

  ghost predicate UniqueKeys(fields: seq<Field>) {
    forall i, j | 0 <= i < j < |fields| :: fields[i].key != fields[j].key
  }

  lemma {:induction false} InsertedMembers(field: Field, sorted: seq<Field>)
    ensures multiset(Inserted(field, sorted)) == multiset(sorted) + multiset{field}
  {
    if sorted != [] && Less(sorted[0].key, field.key) {
      InsertedMembers(field, sorted[1..]);
      assert sorted == [sorted[0]] + sorted[1..];
    }
  }

  lemma {:induction false} SortedMembers(fields: seq<Field>)
    ensures multiset(Sorted(fields)) == multiset(fields)
  {
    if fields != [] {
      SortedMembers(fields[1..]);
      InsertedMembers(fields[0], Sorted(fields[1..]));
      assert fields == [fields[0]] + fields[1..];
    }
  }

  lemma {:induction false} InsertedAscending(field: Field, sorted: seq<Field>)
    requires Ascending(sorted) && forall k | 0 <= k < |sorted| :: sorted[k].key != field.key
    ensures Ascending(Inserted(field, sorted))
  {
    if sorted != [] {
      LessTotal(sorted[0].key, field.key);
      if Less(sorted[0].key, field.key) {
        InsertedAscending(field, sorted[1..]);
        InsertedMembers(field, sorted[1..]);
        var rest := Inserted(field, sorted[1..]);
        forall k | 0 <= k < |rest|
          ensures Less(sorted[0].key, rest[k].key)
        {
          assert rest[k] in multiset(rest);
          assert rest[k] == field || rest[k] in sorted[1..];
        }
      } else {
        forall k | 0 <= k < |sorted|
          ensures Less(field.key, sorted[k].key)
        {
          if k > 0 {
            LessTransitive(field.key, sorted[0].key, sorted[k].key);
          }
        }
      }
    }
  }

  lemma {:induction false} SortedAscending(fields: seq<Field>)
    requires UniqueKeys(fields)
    ensures Ascending(Sorted(fields)) && |Sorted(fields)| == |fields|
  {
    SortedMembers(fields);
    assert |multiset(Sorted(fields))| == |multiset(fields)|;
    if fields != [] {
      SortedAscending(fields[1..]);
      SortedMembers(fields[1..]);
      var rest := Sorted(fields[1..]);
      forall k | 0 <= k < |rest|
        ensures rest[k].key != fields[0].key
      {
        assert rest[k] in multiset(rest);
        var j :| 0 <= j < |fields[1..]| && fields[1..][j] == rest[k];
        assert fields[j + 1] == rest[k];
      }
      InsertedAscending(fields[0], rest);
    }
  }

  lemma {:induction false} SortedOfAscending(fields: seq<Field>)
    requires Ascending(fields)
    ensures Sorted(fields) == fields
  {
    if fields != [] {
      SortedOfAscending(fields[1..]);
      if |fields| > 1 {
        LessTotal(fields[0].key, fields[1].key);
      }
      assert [fields[0]] + fields[1..] == fields;
    }
  }

  // ----- the canonical form

  /** Sorting and canonicalizing the values commute, since only keys are compared; the values go
      first here (see `SortThenMap`). */
  function Canonicalize(value: Json): Json
    decreases value, 1
  {
    match value
    case Arr(items) => Arr(CanonicalItems(items))
    case Obj(fields) => Obj(Sorted(CanonicalFields(fields)))
    case _ => value
  }

  function CanonicalItems(items: seq<Json>): seq<Json>
    decreases items, 0
  {
    if items == [] then [] else [Canonicalize(items[0])] + CanonicalItems(items[1..])
  }

  function CanonicalFields(fields: seq<Field>): seq<Field>
    decreases fields, 0
  {
    if fields == [] then [] else [Field(fields[0].key, Canonicalize(fields[0].value))] + CanonicalFields(fields[1..])
  }

  lemma {:induction false} ItemsAt(items: seq<Json>)
    ensures |CanonicalItems(items)| == |items|
    ensures forall k | 0 <= k < |items| :: CanonicalItems(items)[k] == Canonicalize(items[k])
  {
    if items != [] {
      ItemsAt(items[1..]);
    }
  }

  lemma {:induction false} FieldsAt(fields: seq<Field>)
    ensures |CanonicalFields(fields)| == |fields|
    ensures forall k | 0 <= k < |fields| ::
        CanonicalFields(fields)[k] == Field(fields[k].key, Canonicalize(fields[k].value))
  {
    if fields != [] {
      FieldsAt(fields[1..]);
    }
  }

  lemma {:induction false} InsertThenMap(field: Field, sorted: seq<Field>)
    ensures CanonicalFields(Inserted(field, sorted))
         == Inserted(Field(field.key, Canonicalize(field.value)), CanonicalFields(sorted))
  {
    if sorted != [] {
      if Less(sorted[0].key, field.key) {
        InsertThenMap(field, sorted[1..]);
        assert Inserted(field, sorted)[1..] == Inserted(field, sorted[1..]);
        assert CanonicalFields(sorted)[1..] == CanonicalFields(sorted[1..]);
      } else {
        assert Inserted(field, sorted)[1..] == sorted;
      }
    }
  }

  /** The program's own order: the fields are sorted, then their values canonicalized. */
  lemma {:induction false} SortThenMap(fields: seq<Field>)
    ensures CanonicalFields(Sorted(fields)) == Sorted(CanonicalFields(fields))
  {
    if fields != [] {
      SortThenMap(fields[1..]);
      InsertThenMap(fields[0], Sorted(fields[1..]));
      assert CanonicalFields(fields)[1..] == CanonicalFields(fields[1..]);
    }
  }

  // ----- the meaning: equal up to the order of keys

  /** No object repeats a key, and every number has a numeral. */
  ghost predicate WellFormed(value: Json) {
    match value
    case Arr(items) => forall k | 0 <= k < |items| :: WellFormed(items[k])
    case Obj(fields) => UniqueKeys(fields) && forall k | 0 <= k < |fields| :: WellFormed(fields[k].value)
    case Num(numeral) => IsNumeral(numeral)
    case _ => true
  }

  ghost predicate SameUpToOrder(left: Json, right: Json)
    decreases left, 1
  {
    match left
    case Arr(items) =>
      right.Arr? && |right.items| == |items| && forall k | 0 <= k < |items| :: SameUpToOrder(items[k], right.items[k])
    case Obj(fields) =>
      right.Obj?
      && (forall i | 0 <= i < |fields| :: LeftMatched(fields, i, right.fields))
      && (forall j | 0 <= j < |right.fields| :: RightMatched(fields, right.fields, j))
    case _ => left == right
  }

  ghost predicate LeftMatched(left: seq<Field>, i: nat, right: seq<Field>)
    requires i < |left|
    decreases left, 0
  {
    exists j | 0 <= j < |right| :: left[i].key == right[j].key && SameUpToOrder(left[i].value, right[j].value)
  }

  ghost predicate RightMatched(left: seq<Field>, right: seq<Field>, j: nat)
    requires j < |right|
    decreases left, 0
  {
    exists i | 0 <= i < |left| :: left[i].key == right[j].key && SameUpToOrder(left[i].value, right[j].value)
  }

  lemma {:induction false} AscendingUnique(left: seq<Field>, right: seq<Field>)
    requires Ascending(left) && Ascending(right)
    requires forall field :: field in left <==> field in right
    ensures left == right
  {
    assert right != [] ==> right[0] in left;
    if left != [] {
      assert left[0] in right;
      var j :| 0 <= j < |right| && right[j] == left[0];
      assert right[0] in left;
      var i :| 0 <= i < |left| && left[i] == right[0];
      LessTotal(left[0].key, right[0].key);
      assert i == 0 && j == 0;
      HeadNotInTail(left);
      HeadNotInTail(right);
      forall field
        ensures field in left[1..] <==> field in right[1..]
      {
        assert left == [left[0]] + left[1..] && right == [right[0]] + right[1..];
        assert field in left <==> field == left[0] || field in left[1..];
        assert field in right <==> field == left[0] || field in right[1..];
      }
      AscendingUnique(left[1..], right[1..]);
    }
  }

  lemma {:induction false} HeadNotInTail(fields: seq<Field>)
    requires fields != [] && Ascending(fields)
    ensures fields[0] !in fields[1..] && Ascending(fields[1..])
  {
    LessTotal(fields[0].key, fields[0].key);
  }

  lemma {:induction false} CanonicalFieldsSorted(fields: seq<Field>)
    requires UniqueKeys(fields)
    ensures Ascending(Sorted(CanonicalFields(fields)))
    ensures forall field :: field in Sorted(CanonicalFields(fields)) <==> field in CanonicalFields(fields)
  {
    FieldsAt(fields);
    SortedAscending(CanonicalFields(fields));
    SortedMembers(CanonicalFields(fields));
    forall field
      ensures field in Sorted(CanonicalFields(fields)) <==> field in CanonicalFields(fields)
    {
      assert field in multiset(Sorted(CanonicalFields(fields))) <==> field in multiset(CanonicalFields(fields));
    }
  }

  /** Each mapped field of `left` is one of `right` exactly when it has a counterpart there. */
  ghost predicate Counterpart(field: Field, others: seq<Field>) {
    exists j | 0 <= j < |others| ::
        field.key == others[j].key && Canonicalize(field.value) == Canonicalize(others[j].value)
  }

  lemma {:induction false} InMapped(field: Field, others: seq<Field>)
    ensures Field(field.key, Canonicalize(field.value)) in CanonicalFields(others) <==> Counterpart(field, others)
  {
    FieldsAt(others);
    var mapped := CanonicalFields(others);
    if Field(field.key, Canonicalize(field.value)) in mapped {
      var j :| 0 <= j < |mapped| && mapped[j] == Field(field.key, Canonicalize(field.value));
      assert field.key == others[j].key && Canonicalize(field.value) == Canonicalize(others[j].value);
    }
    if Counterpart(field, others) {
      var j :| 0 <= j < |others| && field.key == others[j].key
          && Canonicalize(field.value) == Canonicalize(others[j].value);
      assert mapped[j] == Field(field.key, Canonicalize(field.value));
    }
  }

  /** Two objects have the same canonical fields exactly when each field of either has its
      counterpart in the other. */
  lemma {:induction false} SameFieldsExactly(left: seq<Field>, right: seq<Field>)
    requires UniqueKeys(left) && UniqueKeys(right)
    ensures Sorted(CanonicalFields(left)) == Sorted(CanonicalFields(right))
       <==> (forall i | 0 <= i < |left| :: Counterpart(left[i], right))
            && (forall j | 0 <= j < |right| :: Counterpart(right[j], left))
  {
    if Sorted(CanonicalFields(left)) == Sorted(CanonicalFields(right)) {
      SameHasCounterparts(left, right);
      SameHasCounterparts(right, left);
    }
    if (forall i | 0 <= i < |left| :: Counterpart(left[i], right))
        && (forall j | 0 <= j < |right| :: Counterpart(right[j], left)) {
      forall field
        ensures field in Sorted(CanonicalFields(left)) <==> field in Sorted(CanonicalFields(right))
      {
        if field in Sorted(CanonicalFields(left)) { CounterpartsInclude(left, right, field); }
        if field in Sorted(CanonicalFields(right)) { CounterpartsInclude(right, left, field); }
      }
      CanonicalFieldsSorted(left);
      CanonicalFieldsSorted(right);
      AscendingUnique(Sorted(CanonicalFields(left)), Sorted(CanonicalFields(right)));
    }
  }

  lemma {:induction false} SameHasCounterparts(left: seq<Field>, right: seq<Field>)
    requires UniqueKeys(left) && UniqueKeys(right)
    requires Sorted(CanonicalFields(left)) == Sorted(CanonicalFields(right))
    ensures forall i | 0 <= i < |left| :: Counterpart(left[i], right)
  {
    var l := CanonicalFields(left);
    CanonicalFieldsSorted(left);
    CanonicalFieldsSorted(right);
    FieldsAt(left);
    forall i | 0 <= i < |left|
      ensures Counterpart(left[i], right)
    {
      assert l[i] in l && l[i] in Sorted(CanonicalFields(right));
      InMapped(left[i], right);
    }
  }

  lemma {:induction false} CounterpartsInclude(left: seq<Field>, right: seq<Field>, field: Field)
    requires UniqueKeys(left) && UniqueKeys(right)
    requires forall i | 0 <= i < |left| :: Counterpart(left[i], right)
    requires field in Sorted(CanonicalFields(left))
    ensures field in Sorted(CanonicalFields(right))
  {
    var l := CanonicalFields(left);
    CanonicalFieldsSorted(left);
    CanonicalFieldsSorted(right);
    FieldsAt(left);
    assert field in l;
    var i :| 0 <= i < |l| && l[i] == field;
    InMapped(left[i], right);
  }

  /** Two values have the same canonical form exactly when they differ only in the order of keys. */
  lemma {:induction false} CanonicalExactly(left: Json, right: Json)
    requires WellFormed(left) && WellFormed(right)
    ensures Canonicalize(left) == Canonicalize(right) <==> SameUpToOrder(left, right)
    decreases left
  {
    if left.Arr? && right.Arr? {
      ItemsAt(left.items);
      ItemsAt(right.items);
      forall k | 0 <= k < |left.items| && k < |right.items|
        ensures Canonicalize(left.items[k]) == Canonicalize(right.items[k])
            <==> SameUpToOrder(left.items[k], right.items[k])
      {
        CanonicalExactly(left.items[k], right.items[k]);
      }
      assert (|left.items| == |right.items| && forall k | 0 <= k < |left.items| ::
              Canonicalize(left.items[k]) == Canonicalize(right.items[k]))
             <==> CanonicalItems(left.items) == CanonicalItems(right.items) by {
        if CanonicalItems(left.items) == CanonicalItems(right.items) {
          assert forall k | 0 <= k < |left.items| :: CanonicalItems(left.items)[k] == CanonicalItems(right.items)[k];
        }
      }
    } else if left.Obj? && right.Obj? {
      forall i, j | 0 <= i < |left.fields| && 0 <= j < |right.fields|
        ensures Canonicalize(left.fields[i].value) == Canonicalize(right.fields[j].value)
           <==> SameUpToOrder(left.fields[i].value, right.fields[j].value)
      {
        CanonicalExactly(left.fields[i].value, right.fields[j].value);
      }
      SameFieldsExactly(left.fields, right.fields);
      ObjectsMatch(left.fields, right.fields);
    }
  }

  lemma {:induction false} ObjectsMatch(left: seq<Field>, right: seq<Field>)
    requires forall i, j | 0 <= i < |left| && 0 <= j < |right| ::
               (Canonicalize(left[i].value) == Canonicalize(right[j].value)
                <==> SameUpToOrder(left[i].value, right[j].value))
    ensures SameUpToOrder(Obj(left), Obj(right))
       <==> (forall i | 0 <= i < |left| :: Counterpart(left[i], right))
            && (forall j | 0 <= j < |right| :: Counterpart(right[j], left))
  {
    forall i | 0 <= i < |left|
      ensures Counterpart(left[i], right) <==> LeftMatched(left, i, right)
    {
    }
    forall j | 0 <= j < |right|
      ensures Counterpart(right[j], left) <==> RightMatched(left, right, j)
    {
    }
  }

  // ----- idempotence

  lemma {:induction false} FixedFields(fields: seq<Field>)
    requires forall k | 0 <= k < |fields| :: Canonicalize(fields[k].value) == fields[k].value
    ensures CanonicalFields(fields) == fields
  {
    FieldsAt(fields);
  }

  /** Canonicalizing twice is canonicalizing once. */
  lemma {:induction false} CanonicalizeIdempotent(value: Json)
    requires WellFormed(value)
    ensures Canonicalize(Canonicalize(value)) == Canonicalize(value)
    decreases value
  {
    match value
    case Arr(items) =>
      ItemsAt(items);
      ItemsAt(CanonicalItems(items));
      forall k | 0 <= k < |items|
        ensures Canonicalize(Canonicalize(items[k])) == Canonicalize(items[k])
      {
        CanonicalizeIdempotent(items[k]);
      }
      assert CanonicalItems(CanonicalItems(items)) == CanonicalItems(items);
    case Obj(fields) =>
      var mapped := CanonicalFields(fields);
      FieldsAt(fields);
      CanonicalFieldsSorted(fields);
      forall k | 0 <= k < |Sorted(mapped)|
        ensures Canonicalize(Sorted(mapped)[k].value) == Sorted(mapped)[k].value
      {
        assert Sorted(mapped)[k] in mapped;
        var j :| 0 <= j < |mapped| && mapped[j] == Sorted(mapped)[k];
        CanonicalizeIdempotent(fields[j].value);
      }
      FixedFields(Sorted(mapped));
      SortedOfAscending(Sorted(mapped));
    case _ =>
  }

  // ----- the printed canonical form

  lemma {:induction false} CanonicalPrintable(value: Json)
    requires WellFormed(value)
    ensures Printable(Canonicalize(value))
    decreases value
  {
    match value
    case Arr(items) =>
      ItemsAt(items);
      forall k | 0 <= k < |items|
        ensures Printable(CanonicalItems(items)[k])
      {
        CanonicalPrintable(items[k]);
      }
    case Obj(fields) =>
      var mapped := CanonicalFields(fields);
      FieldsAt(fields);
      CanonicalFieldsSorted(fields);
      forall k | 0 <= k < |Sorted(mapped)|
        ensures Printable(Sorted(mapped)[k].value)
      {
        assert Sorted(mapped)[k] in mapped;
        var j :| 0 <= j < |mapped| && mapped[j] == Sorted(mapped)[k];
        CanonicalPrintable(fields[j].value);
      }
    case _ =>
  }

  /** The text that is signed or digested. */
  function CanonicalText(value: Json): string {
    Printed(Canonicalize(value))
  }

  /** Two values have the same canonical text exactly when they differ only in the order of keys. */
  lemma {:induction false} CanonicalTextExactly(left: Json, right: Json)
    requires WellFormed(left) && WellFormed(right)
    ensures CanonicalText(left) == CanonicalText(right) <==> SameUpToOrder(left, right)
  {
    CanonicalPrintable(left);
    CanonicalPrintable(right);
    PrintedExactly(Canonicalize(left), Canonicalize(right));
    CanonicalExactly(left, right);
  }

  // ----- the binding of an operation

  /** SHA-256 of a text, told apart by the text itself. */
  datatype Digest = Sha256(text: string)

  function BindingOf(unsigned: seq<Field>): Digest {
    Sha256(CanonicalText(Obj(unsigned)))
  }

  /** A manifest: its fields other than the binding, and the binding. */
  datatype Manifest = Manifest(unsigned: seq<Field>, binding: Digest)

  datatype Expected = Expected(operationId: string, threadId: string, turnId: string, capability: string)

  datatype Verdict = Valid | WrongBinding | Expired | Modified

  const MIN_LIFETIME_MS: int := 1_000
  const MAX_LIFETIME_MS: int := 900_000

  function Lifetime(requested: int): int {
    var atLeast := if requested > MIN_LIFETIME_MS then requested else MIN_LIFETIME_MS;
    if atLeast < MAX_LIFETIME_MS then atLeast else MAX_LIFETIME_MS
  }

  predicate IsText(fields: seq<Field>, key: string, text: string) {
    Get(fields, key) == Some(Str(text))
  }

  predicate Matching(fields: seq<Field>, e: Expected) {
    && IsText(fields, "operationId", e.operationId) && IsText(fields, "threadId", e.threadId)
    && IsText(fields, "turnId", e.turnId) && IsText(fields, "capability", e.capability)
  }

  /** `parse` reads a date as `Date.parse` does. */
  predicate Unexpired(fields: seq<Field>, now: int, parse: string -> int) {
    var field := Get(fields, "expiresAt");
    field.Some? && field.value.Str? && parse(field.value.text) > now
  }

  /** `iso` prints a date as `toISOString` does. */
  function Created(e: Expected, others: seq<Field>, created: int, lifetime: int, iso: int -> string): Manifest {
    var unsigned := [Field("operationId", Str(e.operationId)), Field("capability", Str(e.capability)),
                     Field("threadId", Str(e.threadId)), Field("turnId", Str(e.turnId)),
                     Field("expiresAt", Str(iso(created + Lifetime(lifetime))))] + others;
    Manifest(unsigned, BindingOf(unsigned))
  }

  function Assert(m: Manifest, e: Expected, now: int, parse: string -> int): Verdict {
    if !Matching(m.unsigned, e) then WrongBinding
    else if !Unexpired(m.unsigned, now, parse) then Expired
    else if m.binding != BindingOf(m.unsigned) then Modified
    else Valid
  }

  /** A created manifest is accepted for its own operation for exactly its lifetime, between one
      second and fifteen minutes whatever was asked for. */
  lemma {:induction false} AcceptedForItsLifetime(e: Expected, others: seq<Field>, created: int, lifetime: int,
                                                  now: int, asked: Expected, iso: int -> string, parse: string -> int)
    requires forall time :: parse(iso(time)) == time
    ensures Assert(Created(e, others, created, lifetime, iso), asked, now, parse)
         == if asked != e then WrongBinding else if created + Lifetime(lifetime) <= now then Expired else Valid
    ensures MIN_LIFETIME_MS <= Lifetime(lifetime) <= MAX_LIFETIME_MS
  {
    var p := Created(e, others, created, lifetime, iso).unsigned;
    GetAt(p, "operationId", 0);
    GetAt(p, "capability", 1);
    GetAt(p, "threadId", 2);
    GetAt(p, "turnId", 3);
    GetAt(p, "expiresAt", 4);
  }

  /** Two sets of fields have the same binding exactly when they differ only in the order of keys. */
  lemma {:induction false} BindingExactly(left: seq<Field>, right: seq<Field>)
    requires WellFormed(Obj(left)) && WellFormed(Obj(right))
    ensures BindingOf(left) == BindingOf(right) <==> SameUpToOrder(Obj(left), Obj(right))
  {
    CanonicalTextExactly(Obj(left), Obj(right));
  }

  lemma {:induction false} GetFinds(fields: seq<Field>, key: string) returns (k: nat)
    requires Get(fields, key).Some?
    ensures k < |fields| && fields[k].key == key && Get(fields, key) == Some(fields[k].value)
  {
    if fields[0].key == key {
      k := 0;
    } else {
      var rest := GetFinds(fields[1..], key);
      k := rest + 1;
    }
  }

  /** A text field survives a change of the order of keys. */
  lemma {:induction false} TextKept(left: seq<Field>, right: seq<Field>, key: string)
    requires UniqueKeys(right) && SameUpToOrder(Obj(left), Obj(right))
    requires Get(left, key).Some? && Get(left, key).value.Str?
    ensures Get(right, key) == Get(left, key)
  {
    var i := GetFinds(left, key);
    assert LeftMatched(left, i, right);
    var j :| 0 <= j < |right| && left[i].key == right[j].key && SameUpToOrder(left[i].value, right[j].value);
    GetAt(right, key, j);
  }

  /** An approved manifest whose fields are exchanged under the old binding stays accepted if and only
      if the new fields are the old ones up to the order of keys. */
  lemma {:induction false} ModificationFoundExactly(m: Manifest, fields: seq<Field>, e: Expected, now: int,
                                                    parse: string -> int)
    requires WellFormed(Obj(m.unsigned)) && WellFormed(Obj(fields)) && Assert(m, e, now, parse) == Valid
    ensures Assert(m.(unsigned := fields), e, now, parse) == Valid <==> SameUpToOrder(Obj(m.unsigned), Obj(fields))
  {
    BindingExactly(m.unsigned, fields);
    if SameUpToOrder(Obj(m.unsigned), Obj(fields)) {
      TextKept(m.unsigned, fields, "operationId");
      TextKept(m.unsigned, fields, "threadId");
      TextKept(m.unsigned, fields, "turnId");
      TextKept(m.unsigned, fields, "capability");
      TextKept(m.unsigned, fields, "expiresAt");
    }
  }
}
