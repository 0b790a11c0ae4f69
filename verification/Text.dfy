/** Splitting a text at a one-character separator and joining the parts again,
    as JavaScript's `split` and `join` do. */
module Text {

  function Split(s: string, separator: char): (parts: seq<string>)
    ensures |parts| >= 1
  {
    if s == [] then [""]
    else
      var rest := Split(s[1..], separator);
      if s[0] == separator then [""] + rest else [[s[0]] + rest[0]] + rest[1..]
  }

  function Join(parts: seq<string>, separator: char): string
    requires |parts| >= 1
  {
    if |parts| == 1 then parts[0] else parts[0] + [separator] + Join(parts[1..], separator)
  }

  /** No part of a split holds the separator, and joining the parts gives the text back. */
  lemma {:induction false} JoinOfSplit(s: string, separator: char)
    ensures Join(Split(s, separator), separator) == s
    ensures forall k | 0 <= k < |Split(s, separator)| :: separator !in Split(s, separator)[k]
  {
    if s != [] {
      JoinOfSplit(s[1..], separator);
      var rest := Split(s[1..], separator);
      var parts := Split(s, separator);
      if s[0] == separator {
        assert parts[1..] == rest;
      } else {
        assert parts[1..] == rest[1..];
        assert separator !in parts[0];
        assert forall k | 1 <= k < |parts| :: parts[k] == rest[k];
      }
    }
  }

  lemma {:induction false} SplitStep(part: string, s: string, separator: char)
    requires part != "" && part[0] != separator
    ensures var rest := Split(part[1..] + s, separator);
            Split(part + s, separator) == [[part[0]] + rest[0]] + rest[1..]
  {
    assert (part + s)[1..] == part[1..] + s;
  }

  lemma {:induction false} SplitAfterPart(part: string, s: string, separator: char)
    requires separator !in part
    ensures Split(part + s, separator) == [part + Split(s, separator)[0]] + Split(s, separator)[1..]
  {
    if part == [] {
      assert part + s == s && part + Split(s, separator)[0] == Split(s, separator)[0];
    } else {
      SplitAfterPart(part[1..], s, separator);
      assert part[0] in part;
      SplitStep(part, s, separator);
      assert [part[0]] + (part[1..] + Split(s, separator)[0]) == part + Split(s, separator)[0];
    }
  }

  /** Splitting what was joined gives the parts back, provided none holds the separator. */
  lemma {:induction false} SplitOfJoin(parts: seq<string>, separator: char)
    requires |parts| >= 1
    requires forall k | 0 <= k < |parts| :: separator !in parts[k]
    ensures Split(Join(parts, separator), separator) == parts
  {
    if |parts| == 1 {
      SplitAfterPart(parts[0], [], separator);
      assert parts[0] + [] == parts[0];
    } else {
      SplitOfJoin(parts[1..], separator);
      var after := [separator] + Join(parts[1..], separator);
      assert after[1..] == Join(parts[1..], separator);
      assert Split(after, separator) == [""] + parts[1..];
      SplitAfterPart(parts[0], after, separator);
      assert Join(parts, separator) == parts[0] + after;
      assert parts[0] + "" == parts[0];
    }
  }

  // ----- lengths in UTF-8

  function CharBytes(c: char): nat {
    if c < '\U{0080}' then 1 else if c < '\U{0800}' then 2 else if c < '\U{10000}' then 3 else 4
  }

  /** The length of a text in UTF-8. */
  function ByteLength(s: string): nat {
    if s == "" then 0 else ByteLength(s[..|s| - 1]) + CharBytes(s[|s| - 1])
  }

  lemma {:induction false} BytesAtLeastLength(s: string)
    ensures |s| <= ByteLength(s)
  {
    if s != "" {
      BytesAtLeastLength(s[..|s| - 1]);
    }
  }
}
