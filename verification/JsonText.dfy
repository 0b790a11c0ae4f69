/** JSON values as text, as `JSON.stringify` prints them, and the proof that the text tells the value.
    Digests and signatures are taken of such texts (src/runtime/operation-manifest.ts,
    src/shared/automation-protocol.ts). */
module JsonText {
  import opened Json

  // ----- strings

  function Hex(digit: nat): char
    requires digit < 16
  {
    "0123456789abcdef"[digit]
  }

  /** A character inside quotes. */
  function Escape(c: char): string {
    if c == '\"' then "\\\""
    else if c == '\\' then "\\\\"
    else if c == '\U{0008}' then "\\b"
    else if c == '\U{000C}' then "\\f"
    else if c == '\n' then "\\n"
    else if c == '\r' then "\\r"
    else if c == '\t' then "\\t"
    else if c as int < 0x20 then "\\u00" + [Hex(c as int / 16), Hex(c as int % 16)]
    else [c]
  }

  function Escaped(text: string): string {
    if text == "" then "" else Escape(text[0]) + Escaped(text[1..])
  }

  function Quoted(text: string): string {
    "\"" + Escaped(text) + "\""
  }

  lemma {:induction false} HexUnique(c: nat, d: nat)
    requires c < 16 && d < 16 && Hex(c) == Hex(d)
    ensures c == d
  {
  }

  lemma {:induction false} EscapeStarts(c: char)
    ensures Escape(c) != "" && Escape(c)[0] != '\"'
    ensures Escape(c)[0] == '\\' <==> Escape(c) != [c]
  {
  }

  /** No escape is the beginning of another. */
  lemma {:induction false} EscapeUnique(c: char, d: char, s: string, t: string)
    requires Escape(c) + s == Escape(d) + t
    ensures c == d && s == t
  {
    var left, right := Escape(c) + s, Escape(d) + t;
    EscapeStarts(c);
    EscapeStarts(d);
    assert left[0] == Escape(c)[0] && right[0] == Escape(d)[0];
    if Escape(c) != [c] {
      assert left[1] == Escape(c)[1] && right[1] == Escape(d)[1];
      if |Escape(c)| == 6 && |Escape(d)| == 6 {
        assert left[4] == Hex(c as int / 16) && right[4] == Hex(d as int / 16);
        assert left[5] == Hex(c as int % 16) && right[5] == Hex(d as int % 16);
        HexUnique(c as int / 16, d as int / 16);
        HexUnique(c as int % 16, d as int % 16);
      }
    }
    assert c == d;
    assert left[|Escape(c)|..] == s && right[|Escape(d)|..] == t;
  }

  lemma {:induction false} Reassociate(a: string, b: string, c: string)
    ensures a + b + c == a + (b + c)
  {
  }

  function Ending(s: string): string { ['\"'] + s }

  lemma {:induction false} EscapedStep(x: string, s: string)
    ensures Escaped(x) + Ending(s) == if x == "" then Ending(s) else Escape(x[0]) + (Escaped(x[1..]) + Ending(s))
  {
    if x == "" {
      assert "" + Ending(s) == Ending(s);
    } else {
      Reassociate(Escape(x[0]), Escaped(x[1..]), Ending(s));
    }
  }

  lemma {:induction false} EscapedStarts(x: string, s: string)
    requires x != ""
    ensures (Escaped(x) + Ending(s))[0] != '\"'
  {
    EscapeStarts(x[0]);
  }

  lemma {:induction false} EscapedUnique(x: string, y: string, s: string, t: string)
    requires Escaped(x) + Ending(s) == Escaped(y) + Ending(t)
    ensures x == y && s == t
  {
    EscapedStep(x, s);
    EscapedStep(y, t);
    if x != "" { EscapedStarts(x, s); }
    if y != "" { EscapedStarts(y, t); }
    if x == "" || y == "" {
      SameRest('\"', s, t);
    } else {
      EscapeUnique(x[0], y[0], Escaped(x[1..]) + Ending(s), Escaped(y[1..]) + Ending(t));
      EscapedUnique(x[1..], y[1..], s, t);
      assert x == [x[0]] + x[1..] && y == [y[0]] + y[1..];
    }
  }

  lemma {:induction false} QuotedStep(x: string, s: string)
    ensures Quoted(x) + s == ['\"'] + (Escaped(x) + Ending(s))
  {
    assert Quoted(x) == ['\"'] + Escaped(x) + "\"";
    assert "\"" + s == Ending(s);
    Reassociate(['\"'] + Escaped(x), "\"", s);
    Reassociate(['\"'], Escaped(x), Ending(s));
  }

  lemma {:induction false} QuotedUnique(x: string, y: string, s: string, t: string)
    requires Quoted(x) + s == Quoted(y) + t
    ensures x == y && s == t
  {
    QuotedStep(x, s);
    QuotedStep(y, t);
    SameRest('\"', Escaped(x) + Ending(s), Escaped(y) + Ending(t));
    EscapedUnique(x, y, s, t);
  }

  lemma {:induction false} SameRest(c: char, s: string, t: string)
    requires [c] + s == [c] + t
    ensures s == t
  {
    assert ([c] + s)[1..] == s && ([c] + t)[1..] == t;
  }

  // ----- numbers

  predicate NumeralChar(c: char) {
    '0' <= c <= '9' || c == '-' || c == '+' || c == '.' || c == 'e'
  }

  predicate IsNumeral(text: string) {
    text != "" && forall k | 0 <= k < |text| :: NumeralChar(text[k])
  }

  /** A text that does not go on with a numeral. */
  predicate Ends(s: string) {
    s == "" || !NumeralChar(s[0])
  }

  function NumeralLength(s: string): nat {
    if Ends(s) then 0 else 1 + NumeralLength(s[1..])
  }

  lemma {:induction false} NumeralLengthIs(x: string, s: string)
    requires Ends(s) && forall k | 0 <= k < |x| :: NumeralChar(x[k])
    ensures NumeralLength(x + s) == |x|
  {
    if x == "" {
      assert "" + s == s;
    } else {
      NumeralLengthIs(x[1..], s);
      assert (x + s)[1..] == x[1..] + s;
    }
  }

  lemma {:induction false} NumeralUnique(x: string, y: string, s: string, t: string)
    requires IsNumeral(x) && IsNumeral(y) && Ends(s) && Ends(t) && x + s == y + t
    ensures x == y && s == t
  {
    NumeralLengthIs(x, s);
    NumeralLengthIs(y, t);
    assert (x + s)[..|x|] == x && (y + t)[..|y|] == y;
    assert (x + s)[|x|..] == s && (y + t)[|y|..] == t;
  }

  // ----- values

  function Printed(value: Json): string
    decreases value, 1
  {
    match value
    case Null => "null"
    case Bool(truth) => if truth then "true" else "false"
    case Num(numeral) => numeral
    case Str(text) => Quoted(text)
    case Arr(items) => "[" + if items == [] then "]" else Printed(items[0]) + MoreItems(items[1..])
    case Obj(fields) => "{" + if fields == [] then "}" else PrintedField(fields[0]) + MoreFields(fields[1..])
  }

  function PrintedField(field: Field): string
    decreases field, 0
  {
    Quoted(field.key) + (":" + Printed(field.value))
  }

  function MoreItems(items: seq<Json>): string
    decreases items, 0
  {
    if items == [] then "]" else "," + (Printed(items[0]) + MoreItems(items[1..]))
  }

  function MoreFields(fields: seq<Field>): string
    decreases fields, 0
  {
    if fields == [] then "}" else "," + (PrintedField(fields[0]) + MoreFields(fields[1..]))
  }

  /** Every number in the value has a numeral. */
  predicate Printable(value: Json)
    decreases value
  {
    match value
    case Num(numeral) => IsNumeral(numeral)
    case Arr(items) => forall k | 0 <= k < |items| :: Printable(items[k])
    case Obj(fields) => forall k | 0 <= k < |fields| :: Printable(fields[k].value)
    case _ => true
  }

  predicate StartsAs(c: char, value: Json) {
    match value
    case Null => c == 'n'
    case Bool(truth) => c == if truth then 't' else 'f'
    case Num(_) => NumeralChar(c)
    case Str(_) => c == '\"'
    case Arr(_) => c == '['
    case Obj(_) => c == '{'
  }

  lemma {:induction false} PrintedStarts(value: Json)
    requires Printable(value)
    ensures Printed(value) != "" && StartsAs(Printed(value)[0], value)
  {
  }

  /** The text up to where the value ends tells the value. */
  lemma {:induction false} PrintedUnique(a: Json, b: Json, s: string, t: string)
    requires Printable(a) && Printable(b) && Ends(s) && Ends(t)
    requires Printed(a) + s == Printed(b) + t
    ensures a == b && s == t
    decreases a, 3
  {
    PrintedStarts(a);
    PrintedStarts(b);
    assert (Printed(a) + s)[0] == Printed(a)[0] && (Printed(b) + t)[0] == Printed(b)[0];
    match a
    case Null => SameTail(Printed(a), s, t);
    case Bool(truth) => SameTail(Printed(a), s, t);
    case Num(numeral) => NumeralUnique(numeral, b.numeral, s, t);
    case Str(text) => QuotedUnique(text, b.text, s, t);
    case Arr(items) => ItemsUnique(items, b.items, s, t);
    case Obj(fields) => FieldsUnique(fields, b.fields, s, t);
  }

  lemma {:induction false} SameTail(front: string, s: string, t: string)
    requires front + s == front + t
    ensures s == t
  {
    assert (front + s)[|front|..] == s && (front + t)[|front|..] == t;
  }

  // `ItemText` and `FieldText` are what follows a bracket or a comma, up to the end of the text.

  function ItemText(items: seq<Json>, s: string): string
    requires items != []
  {
    Printed(items[0]) + (MoreItems(items[1..]) + s)
  }

  function FieldText(fields: seq<Field>, s: string): string
    requires fields != []
  {
    Quoted(fields[0].key) + ([':'] + (Printed(fields[0].value) + (MoreFields(fields[1..]) + s)))
  }

  lemma {:induction false} ItemTextIs(items: seq<Json>, s: string)
    requires items != []
    ensures Printed(items[0]) + MoreItems(items[1..]) + s == ItemText(items, s)
  {
    Reassociate(Printed(items[0]), MoreItems(items[1..]), s);
  }

  lemma {:induction false} FieldTextIs(fields: seq<Field>, s: string)
    requires fields != []
    ensures PrintedField(fields[0]) + MoreFields(fields[1..]) + s == FieldText(fields, s)
  {
    var key, value, more := Quoted(fields[0].key), Printed(fields[0].value), MoreFields(fields[1..]);
    assert ":" + value == [':'] + value;
    Reassociate(key + ([':'] + value), more, s);
    Reassociate(key, [':'] + value, more + s);
    Reassociate([':'], value, more + s);
  }

  lemma {:induction false} ItemsStep(items: seq<Json>, s: string)
    ensures Printed(Arr(items)) + s == ['['] + if items == [] then [']'] + s else ItemText(items, s)
    ensures MoreItems(items) + s == if items == [] then [']'] + s else [','] + ItemText(items, s)
  {
    if items != [] {
      var all := Printed(items[0]) + MoreItems(items[1..]);
      ItemTextIs(items, s);
      assert "[" + all == ['['] + all && "," + all == [','] + all;
      Reassociate(['['], all, s);
      Reassociate([','], all, s);
    }
  }

  lemma {:induction false} FieldsStep(fields: seq<Field>, s: string)
    ensures Printed(Obj(fields)) + s == ['{'] + if fields == [] then ['}'] + s else FieldText(fields, s)
    ensures MoreFields(fields) + s == if fields == [] then ['}'] + s else [','] + FieldText(fields, s)
  {
    if fields != [] {
      var all := PrintedField(fields[0]) + MoreFields(fields[1..]);
      FieldTextIs(fields, s);
      assert "{" + all == ['{'] + all && "," + all == [','] + all;
      Reassociate(['{'], all, s);
      Reassociate([','], all, s);
    }
  }

  lemma {:induction false} ItemTextStarts(items: seq<Json>, s: string)
    requires items != [] && Printable(items[0])
    ensures ItemText(items, s) != "" && ItemText(items, s)[0] != ']'
  {
    PrintedStarts(items[0]);
  }

  lemma {:induction false} ItemsUnique(a: seq<Json>, b: seq<Json>, s: string, t: string)
    requires Printable(Arr(a)) && Printable(Arr(b)) && Ends(s) && Ends(t)
    requires Printed(Arr(a)) + s == Printed(Arr(b)) + t
    ensures a == b && s == t
    decreases a, 2
  {
    ItemsStep(a, s);
    ItemsStep(b, t);
    var left := if a == [] then [']'] + s else ItemText(a, s);
    var right := if b == [] then [']'] + t else ItemText(b, t);
    SameRest('[', left, right);
    if a != [] { ItemTextStarts(a, s); }
    if b != [] { ItemTextStarts(b, t); }
    if a == [] || b == [] {
      assert left[0] == right[0];
      SameRest(']', s, t);
    } else {
      ItemTextUnique(a, b, s, t);
    }
  }

  lemma {:induction false} MoreItemsUnique(a: seq<Json>, b: seq<Json>, s: string, t: string)
    requires Printable(Arr(a)) && Printable(Arr(b)) && Ends(s) && Ends(t)
    requires MoreItems(a) + s == MoreItems(b) + t
    ensures a == b && s == t
    decreases a, 1
  {
    ItemsStep(a, s);
    ItemsStep(b, t);
    assert (MoreItems(a) + s)[0] == (MoreItems(b) + t)[0];
    if a == [] {
      SameRest(']', s, t);
    } else {
      SameRest(',', ItemText(a, s), ItemText(b, t));
      ItemTextUnique(a, b, s, t);
    }
  }

  lemma {:induction false} ItemTextUnique(a: seq<Json>, b: seq<Json>, s: string, t: string)
    requires a != [] && b != [] && Printable(Arr(a)) && Printable(Arr(b)) && Ends(s) && Ends(t)
    requires ItemText(a, s) == ItemText(b, t)
    ensures a == b && s == t
    decreases a, 0
  {
    MoreEnds(a[1..], [], s);
    MoreEnds(b[1..], [], t);
    PrintedUnique(a[0], b[0], MoreItems(a[1..]) + s, MoreItems(b[1..]) + t);
    MoreItemsUnique(a[1..], b[1..], s, t);
    assert a == [a[0]] + a[1..] && b == [b[0]] + b[1..];
  }

  lemma {:induction false} MoreEnds(items: seq<Json>, fields: seq<Field>, s: string)
    ensures Ends(MoreItems(items) + s) && Ends(MoreFields(fields) + s)
  {
  }

  lemma {:induction false} FieldsUnique(a: seq<Field>, b: seq<Field>, s: string, t: string)
    requires Printable(Obj(a)) && Printable(Obj(b)) && Ends(s) && Ends(t)
    requires Printed(Obj(a)) + s == Printed(Obj(b)) + t
    ensures a == b && s == t
    decreases a, 2
  {
    FieldsStep(a, s);
    FieldsStep(b, t);
    var left := if a == [] then ['}'] + s else FieldText(a, s);
    var right := if b == [] then ['}'] + t else FieldText(b, t);
    SameRest('{', left, right);
    assert left[0] == right[0];
    if a == [] {
      SameRest('}', s, t);
    } else {
      FieldTextUnique(a, b, s, t);
    }
  }

  lemma {:induction false} MoreFieldsUnique(a: seq<Field>, b: seq<Field>, s: string, t: string)
    requires Printable(Obj(a)) && Printable(Obj(b)) && Ends(s) && Ends(t)
    requires MoreFields(a) + s == MoreFields(b) + t
    ensures a == b && s == t
    decreases a, 1
  {
    FieldsStep(a, s);
    FieldsStep(b, t);
    assert (MoreFields(a) + s)[0] == (MoreFields(b) + t)[0];
    if a == [] {
      SameRest('}', s, t);
    } else {
      SameRest(',', FieldText(a, s), FieldText(b, t));
      FieldTextUnique(a, b, s, t);
    }
  }

  lemma {:induction false} FieldTextUnique(a: seq<Field>, b: seq<Field>, s: string, t: string)
    requires a != [] && b != [] && Printable(Obj(a)) && Printable(Obj(b)) && Ends(s) && Ends(t)
    requires FieldText(a, s) == FieldText(b, t)
    ensures a == b && s == t
    decreases a, 0
  {
    var left := Printed(a[0].value) + (MoreFields(a[1..]) + s);
    var right := Printed(b[0].value) + (MoreFields(b[1..]) + t);
    QuotedUnique(a[0].key, b[0].key, [':'] + left, [':'] + right);
    SameRest(':', left, right);
    MoreEnds([], a[1..], s);
    MoreEnds([], b[1..], t);
    PrintedUnique(a[0].value, b[0].value, MoreFields(a[1..]) + s, MoreFields(b[1..]) + t);
    MoreFieldsUnique(a[1..], b[1..], s, t);
    assert a == [a[0]] + a[1..] && b == [b[0]] + b[1..];
  }

  /** Two values print the same exactly when they are the same. */
  lemma {:induction false} PrintedExactly(a: Json, b: Json)
    requires Printable(a) && Printable(b)
    ensures Printed(a) == Printed(b) <==> a == b
  {
    if Printed(a) == Printed(b) {
      assert Printed(a) + "" == Printed(b) + "";
      PrintedUnique(a, b, "", "");
    }
  }
}
