/** The changed-line view of a file: a longest-common-subsequence table, the greedy walk
    over it, and the rows shown for the walk (src/renderer/line-diff.ts). */
module LineDiff {
  import opened Text

  const MAX_DIFF_LINES: nat := 20_000
  const MAX_LCS_CELLS: nat := 4_000_000

  newtype uint32 = x: int | 0 <= x < 0x1_0000_0000

  datatype SourceLines = SourceLines(lines: seq<string>, trailingNewline: bool)

  datatype Kind = Equal | Removed | Added
  datatype Operation = Operation(kind: Kind, text: string)

  datatype Row =
    | RemovedRow(oldLine: nat, text: string)
    | AddedRow(newLine: nat, text: string)
    | EllipsisRow(oldLine: nat, newLine: nat, text: string)
    | MetaRow(text: string)

  datatype ChangedLineDiff = ChangedLineDiff(rows: seq<Row>, tooLarge: bool)

  // ----- reading a source

  /** `replaceAll('\r\n', '\n')` */
  function Normalized(source: string): string {
    if source == [] then []
    else if |source| >= 2 && source[0] == '\r' && source[1] == '\n' then ['\n'] + Normalized(source[2..])
    else [source[0]] + Normalized(source[1..])
  }

  function Lines(source: string): SourceLines {
    if source == [] then SourceLines([], false)
    else
      var normalized := Normalized(source);
      var lines := Split(normalized, '\n');
      if normalized[|normalized| - 1] == '\n' then SourceLines(lines[..|lines| - 1], true)
      else SourceLines(lines, false)
  }

  /** The text that a list of lines stands for. */
  function SourceText(s: SourceLines): string {
    if s.lines == [] then "" else Join(s.lines, '\n') + (if s.trailingNewline then "\n" else "")
  }

  lemma {:induction false} JoinSnocEmpty(parts: seq<string>)
    requires |parts| >= 2 && parts[|parts| - 1] == ""
    ensures Join(parts, '\n') == Join(parts[..|parts| - 1], '\n') + "\n"
  {
    if |parts| == 2 {
      assert parts[1..] == [""];
    } else {
      JoinSnocEmpty(parts[1..]);
      assert parts[1..][..|parts| - 2] == parts[..|parts| - 1][1..];
    }
  }

  lemma {:induction false} LastPartAfterSeparator(s: string)
    requires s != []
    ensures s[|s| - 1] == '\n' <==> |Split(s, '\n')| >= 2 && Split(s, '\n')[|Split(s, '\n')| - 1] == ""
  {
    if |s| == 1 {
      assert Split(s[1..], '\n') == [""];
    } else {
      LastPartAfterSeparator(s[1..]);
    }
  }

  /** Reading a source loses nothing but the difference between CRLF and LF. */
  lemma {:induction false} LinesKeepSource(source: string)
    ensures SourceText(Lines(source)) == Normalized(source)
    ensures Lines(source).lines == [] <==> source == []
  {
    if source != [] {
      var normalized := Normalized(source);
      JoinOfSplit(normalized, '\n');
      LastPartAfterSeparator(normalized);
      if normalized[|normalized| - 1] == '\n' {
        JoinSnocEmpty(Split(normalized, '\n'));
      } else {
        assert Join(Split(normalized, '\n'), '\n') + "" == normalized;
      }
    }
  }

  // ----- edit scripts

  /** The text a script starts from: everything but the added lines. */
  function Original(script: seq<Operation>): seq<string> {
    if script == [] then []
    else (if script[0].kind == Added then [] else [script[0].text]) + Original(script[1..])
  }

  /** The text a script ends with: everything but the removed lines. */
  function Current(script: seq<Operation>): seq<string> {
    if script == [] then []
    else (if script[0].kind == Removed then [] else [script[0].text]) + Current(script[1..])
  }

  function EqualSteps(script: seq<Operation>): nat {
    if script == [] then 0 else (if script[0].kind == Equal then 1 else 0) + EqualSteps(script[1..])
  }

  function Changes(script: seq<Operation>): nat {
    if script == [] then 0 else (if script[0].kind == Equal then 0 else 1) + Changes(script[1..])
  }

  ghost predicate Turns(script: seq<Operation>, original: seq<string>, current: seq<string>) {
    Original(script) == original && Current(script) == current
  }

  lemma {:induction false} ChangesCount(script: seq<Operation>)
    ensures Changes(script) + 2 * EqualSteps(script) == |Original(script)| + |Current(script)|
  {
    if script != [] {
      ChangesCount(script[1..]);
    }
  }

  // ----- the table

  /** The recurrence of the table, for the suffixes of `a` from `i` and of `b` from `j`. */
  function Common(a: seq<string>, b: seq<string>, i: nat, j: nat): nat
    requires i <= |a| && j <= |b|
    decreases |a| - i + |b| - j
  {
    if i == |a| || j == |b| then 0
    else if a[i] == b[j] then 1 + Common(a, b, i + 1, j + 1)
    else
      var below := Common(a, b, i + 1, j);
      var right := Common(a, b, i, j + 1);
      if below >= right then below else right
  }

  lemma {:induction false} CommonBound(a: seq<string>, b: seq<string>, i: nat, j: nat)
    requires i <= |a| && j <= |b|
    ensures Common(a, b, i, j) <= |a| - i
    decreases |a| - i + |b| - j
  {
    if i < |a| && j < |b| {
      if a[i] == b[j] {
        CommonBound(a, b, i + 1, j + 1);
      } else {
        CommonBound(a, b, i + 1, j);
        CommonBound(a, b, i, j + 1);
      }
    }
  }

  /** One more line on either side adds at most one to the table entry, and takes nothing away. */
  lemma {:induction false} CommonStep(a: seq<string>, b: seq<string>, i: nat, j: nat)
    requires i <= |a| && j <= |b|
    ensures i < |a| ==> Common(a, b, i + 1, j) <= Common(a, b, i, j) <= Common(a, b, i + 1, j) + 1
    ensures j < |b| ==> Common(a, b, i, j + 1) <= Common(a, b, i, j) <= Common(a, b, i, j + 1) + 1
    decreases |a| - i + |b| - j
  {
    if i < |a| {
      CommonStep(a, b, i + 1, j);
    }
    if j < |b| {
      CommonStep(a, b, i, j + 1);
    }
    if i < |a| && j < |b| {
      CommonStep(a, b, i + 1, j + 1);
    }
  }

  /** No script that turns `a[i..]` into `b[j..]` keeps more lines than the table entry says. */
  lemma {:induction false} CommonIsUpperBound(a: seq<string>, b: seq<string>, i: nat, j: nat, script: seq<Operation>)
    requires i <= |a| && j <= |b|
    requires Turns(script, a[i..], b[j..])
    ensures EqualSteps(script) <= Common(a, b, i, j)
    decreases |script|
  {
    if script != [] {
      var rest := script[1..];
      match script[0].kind
      case Equal =>
        assert a[i..][1..] == a[i + 1..] && b[j..][1..] == b[j + 1..];
        assert Original(rest) == Original(script)[1..] && Current(rest) == Current(script)[1..];
        CommonIsUpperBound(a, b, i + 1, j + 1, rest);
      case Removed =>
        assert a[i..][1..] == a[i + 1..];
        assert Original(rest) == Original(script)[1..] && Current(rest) == Current(script);
        CommonIsUpperBound(a, b, i + 1, j, rest);
        CommonStep(a, b, i, j);
      case Added =>
        assert b[j..][1..] == b[j + 1..];
        assert Original(rest) == Original(script) && Current(rest) == Current(script)[1..];
        CommonIsUpperBound(a, b, i, j + 1, rest);
        CommonStep(a, b, i, j);
    }
  }

  // ----- the walk

  /** What the walk does at a position inside both lists; a tie goes to the removal. */
  function Choice(a: seq<string>, b: seq<string>, i: nat, j: nat): Kind
    requires i < |a| && j < |b|
  {
    if a[i] == b[j] then Equal
    else if Common(a, b, i + 1, j) >= Common(a, b, i, j + 1) then Removed
    else Added
  }

  /** The operations the walk still has to push from position (i, j). */
  function Walk(a: seq<string>, b: seq<string>, i: nat, j: nat): seq<Operation>
    requires i <= |a| && j <= |b|
    decreases |a| - i + |b| - j
  {
    if i < |a| && j < |b| then
      match Choice(a, b, i, j)
      case Equal => [Operation(Equal, a[i])] + Walk(a, b, i + 1, j + 1)
      case Removed => [Operation(Removed, a[i])] + Walk(a, b, i + 1, j)
      case Added => [Operation(Added, b[j])] + Walk(a, b, i, j + 1)
    else if i < |a| then [Operation(Removed, a[i])] + Walk(a, b, i + 1, j)
    else if j < |b| then [Operation(Added, b[j])] + Walk(a, b, i, j + 1)
    else []
  }

  /** The walk from a cell is a script between the suffixes, and keeps what the table says. */
  ghost predicate Keeps(a: seq<string>, b: seq<string>, i: nat, j: nat)
    requires i <= |a| && j <= |b|
  {
    Turns(Walk(a, b, i, j), a[i..], b[j..]) && EqualSteps(Walk(a, b, i, j)) == Common(a, b, i, j)
  }

  lemma {:induction false} WalkKeeps(a: seq<string>, b: seq<string>, i: nat, j: nat)
    requires i <= |a| && j <= |b|
    ensures Keeps(a, b, i, j)
    decreases |a| - i + |b| - j
  {
    if i < |a| && j < |b| && a[i] == b[j] {
      WalkKeeps(a, b, i + 1, j + 1);
      KeepsEqual(a, b, i, j);
    } else if i < |a| && (j == |b| || Common(a, b, i + 1, j) >= Common(a, b, i, j + 1)) {
      WalkKeeps(a, b, i + 1, j);
      KeepsRemoved(a, b, i, j);
    } else if j < |b| {
      WalkKeeps(a, b, i, j + 1);
      KeepsAdded(a, b, i, j);
    }
  }

  lemma {:induction false} KeepsEqual(a: seq<string>, b: seq<string>, i: nat, j: nat)
    requires i < |a| && j < |b| && a[i] == b[j] && Keeps(a, b, i + 1, j + 1)
    ensures Keeps(a, b, i, j)
  {
    var walk, rest := Walk(a, b, i, j), Walk(a, b, i + 1, j + 1);
    assert walk[0] == Operation(Equal, a[i]) && walk[1..] == rest;
    assert Original(walk) == [a[i]] + a[i + 1..] == a[i..];
    assert Current(walk) == [b[j]] + b[j + 1..] == b[j..];
  }

  lemma {:induction false} KeepsRemoved(a: seq<string>, b: seq<string>, i: nat, j: nat)
    requires i < |a| && j <= |b| && Keeps(a, b, i + 1, j)
    requires j < |b| ==> a[i] != b[j] && Common(a, b, i + 1, j) >= Common(a, b, i, j + 1)
    ensures Keeps(a, b, i, j)
  {
    assert Walk(a, b, i, j)[1..] == Walk(a, b, i + 1, j);
  }

  lemma {:induction false} KeepsAdded(a: seq<string>, b: seq<string>, i: nat, j: nat)
    requires i <= |a| && j < |b| && Keeps(a, b, i, j + 1)
    requires i < |a| ==> a[i] != b[j] && Common(a, b, i + 1, j) < Common(a, b, i, j + 1)
    ensures Keeps(a, b, i, j)
  {
    assert Walk(a, b, i, j)[1..] == Walk(a, b, i, j + 1);
  }

  function Every(kind: Kind, lines: seq<string>): seq<Operation> {
    seq(|lines|, k requires 0 <= k < |lines| => Operation(kind, lines[k]))
  }

  lemma {:induction false} EveryFirst(kind: Kind, lines: seq<string>, rest: seq<Operation>)
    requires lines != []
    ensures Every(kind, lines) + rest == [Operation(kind, lines[0])] + (Every(kind, lines[1..]) + rest)
  {
    assert Every(kind, lines) == [Operation(kind, lines[0])] + Every(kind, lines[1..]);
  }

  lemma {:induction false} RemovedThen(lines: seq<string>, rest: seq<Operation>)
    ensures Original(Every(Removed, lines) + rest) == lines + Original(rest)
    ensures Current(Every(Removed, lines) + rest) == Current(rest)
    ensures EqualSteps(Every(Removed, lines) + rest) == EqualSteps(rest)
  {
    var script := Every(Removed, lines) + rest;
    if lines == [] {
      assert script == rest;
      assert lines + Original(rest) == Original(rest);
    } else {
      RemovedThen(lines[1..], rest);
      var tail := Every(Removed, lines[1..]) + rest;
      EveryFirst(Removed, lines, rest);
      assert script[0] == Operation(Removed, lines[0]) && script[1..] == tail;
      assert [lines[0]] + (lines[1..] + Original(rest)) == lines + Original(rest);
    }
  }

  lemma {:induction false} AddedThen(lines: seq<string>, rest: seq<Operation>)
    ensures Current(Every(Added, lines) + rest) == lines + Current(rest)
    ensures Original(Every(Added, lines) + rest) == Original(rest)
    ensures EqualSteps(Every(Added, lines) + rest) == EqualSteps(rest)
  {
    var script := Every(Added, lines) + rest;
    if lines == [] {
      assert script == rest;
      assert lines + Current(rest) == Current(rest);
    } else {
      AddedThen(lines[1..], rest);
      var tail := Every(Added, lines[1..]) + rest;
      EveryFirst(Added, lines, rest);
      assert script[0] == Operation(Added, lines[0]) && script[1..] == tail;
      assert [lines[0]] + (lines[1..] + Current(rest)) == lines + Current(rest);
    }
  }

  lemma {:induction false} FullReplacement(a: seq<string>, b: seq<string>)
    ensures Turns(Every(Removed, a) + Every(Added, b), a, b)
    ensures EqualSteps(Every(Removed, a) + Every(Added, b)) == 0
  {
    AddedThen(b, []);
    RemovedThen(a, Every(Added, b));
    assert Every(Added, b) + [] == Every(Added, b);
    assert a + [] == a && b + [] == b;
  }

  lemma {:induction false} WalkOfOneSide(a: seq<string>, b: seq<string>, i: nat, j: nat)
    requires i <= |a| && j <= |b| && (i == |a| || j == |b|)
    ensures Walk(a, b, i, j) == Every(Removed, a[i..]) + Every(Added, b[j..])
    decreases |a| - i + |b| - j
  {
    if i < |a| {
      WalkOfOneSide(a, b, i + 1, j);
      assert Every(Removed, a[i..]) == [Operation(Removed, a[i])] + Every(Removed, a[i + 1..]);
    } else if j < |b| {
      WalkOfOneSide(a, b, i, j + 1);
      assert Every(Added, b[j..]) == [Operation(Added, b[j])] + Every(Added, b[j + 1..]);
    }
  }

  predicate WithinCells(a: seq<string>, b: seq<string>) {
    |a| * |b| <= MAX_LCS_CELLS
  }

  /** What the walk pushes, or the full replacement for a pair over the cell limit. */
  function Operations(a: seq<string>, b: seq<string>): seq<Operation> {
    if WithinCells(a, b) then Walk(a, b, 0, 0) else Every(Removed, a) + Every(Added, b)
  }

  // ----- main results about the operations

  /** On every pair of line lists the operations are a script from one to the other. */
  lemma {:induction false} OperationsTurn(a: seq<string>, b: seq<string>)
    ensures Turns(Operations(a, b), a, b)
  {
    if WithinCells(a, b) {
      WalkKeeps(a, b, 0, 0);
      assert a[0..] == a && b[0..] == b;
    } else {
      FullReplacement(a, b);
    }
  }

  ghost predicate Shortest(script: seq<Operation>, a: seq<string>, b: seq<string>) {
    forall other | Turns(other, a, b) :: Changes(script) <= Changes(other)
  }

  predicate ShareALine(a: seq<string>, b: seq<string>) {
    exists line | line in a :: line in b
  }

  lemma {:induction false} CommonPositive(a: seq<string>, b: seq<string>, i: nat, j: nat)
    requires i <= |a| && j <= |b|
    ensures Common(a, b, i, j) > 0 <==> exists x, y | i <= x < |a| && j <= y < |b| :: a[x] == b[y]
    decreases |a| - i + |b| - j
  {
    if i < |a| && j < |b| && a[i] != b[j] {
      CommonPositive(a, b, i + 1, j);
      CommonPositive(a, b, i, j + 1);
    }
  }

  lemma {:induction false} ShareALineExactly(a: seq<string>, b: seq<string>)
    ensures Common(a, b, 0, 0) > 0 <==> ShareALine(a, b)
  {
    CommonPositive(a, b, 0, 0);
    if Common(a, b, 0, 0) > 0 {
      var x, y :| 0 <= x < |a| && 0 <= y < |b| && a[x] == b[y];
      assert a[x] in a && a[x] in b;
    }
  }

  /** A script is shortest exactly when it keeps as many lines as the table's first entry says. */
  lemma {:induction false} ShortestExactly(script: seq<Operation>, a: seq<string>, b: seq<string>)
    requires Turns(script, a, b)
    ensures Shortest(script, a, b) <==> EqualSteps(script) == Common(a, b, 0, 0)
  {
    assert a[0..] == a && b[0..] == b;
    ChangesCount(script);
    var walk := Walk(a, b, 0, 0);
    WalkKeeps(a, b, 0, 0);
    ChangesCount(walk);
    assert Turns(walk, a, b);
    CommonIsUpperBound(a, b, 0, 0, script);
    forall other | Turns(other, a, b)
      ensures Changes(other) >= |a| + |b| - 2 * Common(a, b, 0, 0)
    {
      CommonIsUpperBound(a, b, 0, 0, other);
      ChangesCount(other);
    }
  }

  /** Optimality and its exact limit: the operations have as few removals and additions as any
      script from `a` to `b` if and only if the pair is within the cell limit or has no line in
      common. So two equal files over the limit, shown as removed and added in full, are not. */
  lemma {:induction false} OperationsShortestExactly(a: seq<string>, b: seq<string>)
    ensures Shortest(Operations(a, b), a, b) <==> WithinCells(a, b) || !ShareALine(a, b)
  {
    OperationsTurn(a, b);
    ShortestExactly(Operations(a, b), a, b);
    ShareALineExactly(a, b);
    if WithinCells(a, b) {
      WalkKeeps(a, b, 0, 0);
    } else {
      FullReplacement(a, b);
    }
  }

  // ----- the table and the walk as the program runs them

  /** The position `i * width + j`, by repeated addition. */
  function Cell(width: nat, i: nat, j: nat): nat {
    if i == 0 then j else width + Cell(width, i - 1, j)
  }

  lemma {:induction false} CellIsProduct(width: nat, i: nat, j: nat)
    ensures Cell(width, i, j) == i * width + j
  {
    if i > 0 {
      CellIsProduct(width, i - 1, j);
      assert i * width == (i - 1) * width + width;
    }
  }

  lemma {:induction false} CellNeighbours(width: nat, i: nat, j: nat)
    ensures i * width + j == Cell(width, i, j)
    ensures i * width + j + 1 == Cell(width, i, j + 1)
    ensures (i + 1) * width + j == Cell(width, i + 1, j)
    ensures (i + 1) * width + j + 1 == Cell(width, i + 1, j + 1)
  {
    CellIsProduct(width, i, j);
    CellIsProduct(width, i, j + 1);
    CellIsProduct(width, i + 1, j);
    CellIsProduct(width, i + 1, j + 1);
  }

  lemma {:induction false} CellInTable(width: nat, height: nat, i: nat, j: nat)
    requires i < height && j < width
    ensures Cell(width, i, j) < Cell(width, height, 0)
  {
    if i > 0 {
      CellInTable(width, height - 1, i - 1, j);
    }
  }

  lemma {:induction false} CellsDiffer(width: nat, i: nat, j: nat, i': nat, j': nat)
    requires j < width && j' < width
    ensures Cell(width, i, j) == Cell(width, i', j') ==> i == i' && j == j'
  {
    if i > 0 && i' > 0 {
      CellsDiffer(width, i - 1, j, i' - 1, j');
    }
  }

  /** Which entries are final once row `i` is filled from column `j` on. */
  predicate Filled(table: seq<uint32>, a: seq<string>, b: seq<string>, i: nat, j: nat)
    requires |table| == Cell(|b| + 1, |a| + 1, 0)
  {
    forall x: nat, y: nat | x <= |a| && y <= |b| && (x > i || y == |b| || (x == i && y >= j)) ::
      (CellInTable(|b| + 1, |a| + 1, x, y);
       table[Cell(|b| + 1, x, y)] as int == Common(a, b, x, y))
  }

  lemma {:induction false} FilledAt(table: seq<uint32>, a: seq<string>, b: seq<string>, i: nat, j: nat, x: nat, y: nat)
    requires |table| == Cell(|b| + 1, |a| + 1, 0)
    requires Filled(table, a, b, i, j)
    requires x <= |a| && y <= |b| && (x > i || y == |b| || (x == i && y >= j))
    ensures Cell(|b| + 1, x, y) < |table| && table[Cell(|b| + 1, x, y)] as int == Common(a, b, x, y)
  {
    CellInTable(|b| + 1, |a| + 1, x, y);
  }

  lemma {:induction false} NeighbourCells(table: seq<uint32>, a: seq<string>, b: seq<string>, i: nat, j: nat, x: nat,
                                          y: nat)
    requires |table| == Cell(|b| + 1, |a| + 1, 0) && x < |a| && y < |b|
    requires Filled(table, a, b, i, j) && (x > i || (x == i && y + 1 >= j))
    ensures Cell(|b| + 1, x, y) < |table|
    ensures Cell(|b| + 1, x, y + 1) < |table| && table[Cell(|b| + 1, x, y + 1)] as int == Common(a, b, x, y + 1)
    ensures Cell(|b| + 1, x + 1, y) < |table| && table[Cell(|b| + 1, x + 1, y)] as int == Common(a, b, x + 1, y)
    ensures Cell(|b| + 1, x + 1, y + 1) < |table|
         && table[Cell(|b| + 1, x + 1, y + 1)] as int == Common(a, b, x + 1, y + 1)
  {
    CellInTable(|b| + 1, |a| + 1, x, y);
    FilledAt(table, a, b, i, j, x, y + 1);
    FilledAt(table, a, b, i, j, x + 1, y);
    FilledAt(table, a, b, i, j, x + 1, y + 1);
  }

  lemma {:induction false} Neighbours(table: seq<uint32>, a: seq<string>, b: seq<string>, width: nat, i: nat, j: nat,
                                      x: nat, y: nat)
    requires width == |b| + 1
    requires |table| == Cell(width, |a| + 1, 0) && x < |a| && y < |b|
    requires Filled(table, a, b, i, j) && (x > i || (x == i && y + 1 >= j))
    ensures x * width + y == Cell(width, x, y) < |table|
    ensures x * width + y + 1 < |table| && table[x * width + y + 1] as int == Common(a, b, x, y + 1)
    ensures (x + 1) * width + y + 1 < |table|
    ensures table[(x + 1) * width + y] as int == Common(a, b, x + 1, y)
    ensures table[(x + 1) * width + y + 1] as int == Common(a, b, x + 1, y + 1)
  {
    NeighbourCells(table, a, b, i, j, x, y);
    CellNeighbours(width, x, y);
  }

  /** Reads the three entries next to (x, y). */
  method Entries(table: array<uint32>, a: seq<string>, b: seq<string>, x: nat, y: nat, ghost i: nat, ghost j: nat)
    returns (diagonal: uint32, below: uint32, right: uint32)
    requires table.Length == Cell(|b| + 1, |a| + 1, 0) && x < |a| && y < |b|
    requires Filled(table[..], a, b, i, j) && (x > i || (x == i && y + 1 >= j))
    ensures diagonal as int == Common(a, b, x + 1, y + 1)
    ensures below as int == Common(a, b, x + 1, y)
    ensures right as int == Common(a, b, x, y + 1)
  {
    var width := |b| + 1;
    Neighbours(table[..], a, b, width, i, j, x, y);
    diagonal := table[(x + 1) * width + y + 1];
    below := table[(x + 1) * width + y];
    right := table[x * width + y + 1];
  }

  method WriteEntry(table: array<uint32>, width: nat, height: nat, x: nat, y: nat, entry: uint32)
    requires x < height && y < width && table.Length == Cell(width, height, 0)
    modifies table
    ensures Cell(width, x, y) < table.Length
    ensures table[..] == old(table[..])[Cell(width, x, y) := entry]
  {
    CellInTable(width, height, x, y);
    CellIsProduct(width, x, y);
    table[x * width + y] := entry;
  }

  lemma {:induction false} FilledOneMore(before: seq<uint32>, after: seq<uint32>, a: seq<string>, b: seq<string>,
                                         i: nat, j: nat)
    requires |before| == |after| == Cell(|b| + 1, |a| + 1, 0)
    requires i < |a| && j < |b|
    requires Filled(before, a, b, i, j + 1)
    requires Cell(|b| + 1, i, j) < |before|
    requires forall c | 0 <= c < |before| && c != Cell(|b| + 1, i, j) :: after[c] == before[c]
    requires after[Cell(|b| + 1, i, j)] as int == Common(a, b, i, j)
    ensures Filled(after, a, b, i, j)
  {
    forall x: nat, y: nat | x <= |a| && y <= |b| && (x > i || y == |b| || (x == i && y >= j))
      ensures Cell(|b| + 1, x, y) < |after| && after[Cell(|b| + 1, x, y)] as int == Common(a, b, x, y)
    {
      CellInTable(|b| + 1, |a| + 1, x, y);
      CellsDiffer(|b| + 1, x, y, i, j);
    }
  }

  lemma {:induction false} FilledAtFirst(table: seq<uint32>, a: seq<string>, b: seq<string>)
    requires |table| == Cell(|b| + 1, |a| + 1, 0)
    requires forall c | 0 <= c < |table| :: table[c] == 0
    ensures Filled(table, a, b, |a|, 0)
  {
    forall x: nat, y: nat | x <= |a| && y <= |b| && (x > |a| || y == |b| || (x == |a| && y >= 0))
      ensures Cell(|b| + 1, x, y) < |table| && table[Cell(|b| + 1, x, y)] as int == Common(a, b, x, y)
    {
      CellInTable(|b| + 1, |a| + 1, x, y);
    }
  }

  lemma {:induction false} FilledRow(table: seq<uint32>, a: seq<string>, b: seq<string>, i: nat)
    requires |table| == Cell(|b| + 1, |a| + 1, 0) && i < |a|
    requires Filled(table, a, b, i + 1, 0)
    ensures Filled(table, a, b, i, |b|)
  {
    forall x: nat, y: nat | x <= |a| && y <= |b| && (x > i || y == |b| || (x == i && y >= |b|))
      ensures Cell(|b| + 1, x, y) < |table| && table[Cell(|b| + 1, x, y)] as int == Common(a, b, x, y)
    {
      FilledAt(table, a, b, i + 1, 0, x, y);
    }
  }

  method FillRow(table: array<uint32>, original: seq<string>, current: seq<string>, oldIndex: nat)
    requires table.Length == Cell(|current| + 1, |original| + 1, 0)
    requires oldIndex < |original| <= MAX_LCS_CELLS
    requires Filled(table[..], original, current, oldIndex, |current|)
    modifies table
    ensures Filled(table[..], original, current, oldIndex, 0)
  {
    var newIndex := |current|;
    while newIndex > 0
      invariant 0 <= newIndex <= |current|
      invariant Filled(table[..], original, current, oldIndex, newIndex)
    {
      newIndex := newIndex - 1;
      ghost var before := table[..];
      var diagonal, below, right := Entries(table, original, current, oldIndex, newIndex, oldIndex, newIndex + 1);
      CommonBound(original, current, oldIndex + 1, newIndex + 1);
      var entry := if original[oldIndex] == current[newIndex] then diagonal + 1
      else if below >= right then below else right;
      WriteEntry(table, |current| + 1, |original| + 1, oldIndex, newIndex, entry);
      FilledOneMore(before, table[..], original, current, oldIndex, newIndex);
    }
  }

  method FillTable(original: seq<string>, current: seq<string>) returns (table: array<uint32>)
    requires |original| <= MAX_LCS_CELLS
    ensures fresh(table) && table.Length == Cell(|current| + 1, |original| + 1, 0)
    ensures Filled(table[..], original, current, 0, 0)
  {
    var width := |current| + 1;
    CellIsProduct(width, |original| + 1, 0);
    table := new uint32[(|original| + 1) * width](_ => 0);
    FilledAtFirst(table[..], original, current);
    var oldIndex := |original|;
    while oldIndex > 0
      invariant 0 <= oldIndex <= |original|
      invariant Filled(table[..], original, current, oldIndex, 0)
    {
      oldIndex := oldIndex - 1;
      FilledRow(table[..], original, current, oldIndex);
      FillRow(table, original, current, oldIndex);
    }
  }

  method NextStep(original: seq<string>, current: seq<string>, table: array<uint32>, i: nat, j: nat)
      returns (kind: Kind)
    requires table.Length == Cell(|current| + 1, |original| + 1, 0)
    requires Filled(table[..], original, current, 0, 0)
    requires i < |original| && j < |current|
    ensures kind == Choice(original, current, i, j)
  {
    if original[i] == current[j] {
      return Equal;
    }
    var _, below, right := Entries(table, original, current, i, j, 0, 0);
    kind := if below >= right then Removed else Added;
  }

  lemma {:induction false} WalkPushes(pushed: seq<Operation>, a: seq<string>, b: seq<string>, i: nat, j: nat)
    requires i < |a| && j < |b|
    ensures match Choice(a, b, i, j)
            case Equal => pushed + [Operation(Equal, a[i])] + Walk(a, b, i + 1, j + 1) == pushed + Walk(a, b, i, j)
            case Removed => pushed + [Operation(Removed, a[i])] + Walk(a, b, i + 1, j) == pushed + Walk(a, b, i, j)
            case Added => pushed + [Operation(Added, b[j])] + Walk(a, b, i, j + 1) == pushed + Walk(a, b, i, j)
  {
  }

  method WalkTable(original: seq<string>, current: seq<string>, table: array<uint32>)
    returns (operations: seq<Operation>, oldIndex: nat, newIndex: nat)
    requires table.Length == Cell(|current| + 1, |original| + 1, 0)
    requires Filled(table[..], original, current, 0, 0)
    ensures oldIndex <= |original| && newIndex <= |current|
    ensures oldIndex == |original| || newIndex == |current|
    ensures operations + Walk(original, current, oldIndex, newIndex) == Walk(original, current, 0, 0)
  {
    ghost var whole := Walk(original, current, 0, 0);
    operations, oldIndex, newIndex := [], 0, 0;
    while oldIndex < |original| && newIndex < |current|
      invariant 0 <= oldIndex <= |original| && 0 <= newIndex <= |current|
      invariant operations + Walk(original, current, oldIndex, newIndex) == whole
      decreases |original| - oldIndex + |current| - newIndex
    {
      WalkPushes(operations, original, current, oldIndex, newIndex);
      var kind := NextStep(original, current, table, oldIndex, newIndex);
      if kind == Equal {
        operations := operations + [Operation(Equal, original[oldIndex])];
        oldIndex, newIndex := oldIndex + 1, newIndex + 1;
      } else if kind == Removed {
        operations := operations + [Operation(Removed, original[oldIndex])];
        oldIndex := oldIndex + 1;
      } else {
        operations := operations + [Operation(Added, current[newIndex])];
        newIndex := newIndex + 1;
      }
    }
  }

  method PushRest(original: seq<string>, current: seq<string>, start: seq<Operation>, i: nat, j: nat)
    returns (operations: seq<Operation>)
    requires i <= |original| && j <= |current|
    requires i == |original| || j == |current|
    ensures operations == start + Walk(original, current, i, j)
  {
    operations := start;
    var oldIndex, newIndex := i, j;
    while oldIndex < |original|
      invariant i <= oldIndex <= |original|
      invariant operations + Walk(original, current, oldIndex, j) == start + Walk(original, current, i, j)
    {
      operations := operations + [Operation(Removed, original[oldIndex])];
      oldIndex := oldIndex + 1;
    }
    while newIndex < |current|
      invariant j <= newIndex <= |current|
      invariant operations + Walk(original, current, oldIndex, newIndex) == start + Walk(original, current, i, j)
    {
      operations := operations + [Operation(Added, current[newIndex])];
      newIndex := newIndex + 1;
    }
  }

  method ChangedMiddle(original: seq<string>, current: seq<string>) returns (operations: seq<Operation>)
    ensures operations == Operations(original, current)
    ensures Turns(operations, original, current)
    ensures WithinCells(original, current) ==> Shortest(operations, original, current)
  {
    OperationsTurn(original, current);
    OperationsShortestExactly(original, current);
    if |original| == 0 {
      WalkOfOneSide(original, current, 0, 0);
      assert current[0..] == current;
      return seq(|current|, k requires 0 <= k < |current| => Operation(Added, current[k]));
    }
    if |current| == 0 {
      WalkOfOneSide(original, current, 0, 0);
      assert original[0..] == original;
      return seq(|original|, k requires 0 <= k < |original| => Operation(Removed, original[k]));
    }
    if |original| * |current| > MAX_LCS_CELLS {
      return seq(|original|, k requires 0 <= k < |original| => Operation(Removed, original[k]))
        + seq(|current|, k requires 0 <= k < |current| => Operation(Added, current[k]));
    }
    assert |original| * 1 <= |original| * |current|;
    var table := FillTable(original, current);
    var oldIndex, newIndex;
    operations, oldIndex, newIndex := WalkTable(original, current, table);
    operations := PushRest(original, current, operations, oldIndex, newIndex);
  }

  // ----- the rows

  const OMITTED := "Unchanged lines omitted"
  const ENDS_WITH_NEWLINE := "New file ends with a newline"
  const ENDS_WITHOUT_NEWLINE := "New file does not end with a newline"

  function Gap(oldLine: nat, newLine: nat, omitted: bool): seq<Row> {
    if omitted then [EllipsisRow(oldLine, newLine, OMITTED)] else []
  }

  /** The rows still to be shown for `script`, at lines `oldLine` and `newLine`, when some row
      is already shown (`shown`) and unchanged lines were just passed after one (`omitted`). */
  function Rows(script: seq<Operation>, oldLine: nat, newLine: nat, shown: bool, omitted: bool): seq<Row> {
    if script == [] then []
    else
      var rest := script[1..];
      var gap := Gap(oldLine, newLine, omitted);
      match script[0].kind
      case Equal => Rows(rest, oldLine + 1, newLine + 1, shown, shown)
      case Removed => gap + [RemovedRow(oldLine, script[0].text)] + Rows(rest, oldLine + 1, newLine, true, false)
      case Added => gap + [AddedRow(newLine, script[0].text)] + Rows(rest, oldLine, newLine + 1, true, false)
  }

  function MetaRows(original: SourceLines, current: SourceLines): seq<Row> {
    if original.trailingNewline == current.trailingNewline then []
    else [MetaRow(if current.trailingNewline then ENDS_WITH_NEWLINE else ENDS_WITHOUT_NEWLINE)]
  }

  function Diff(originalSource: string, currentSource: string): ChangedLineDiff {
    var original, current := Lines(originalSource), Lines(currentSource);
    if |original.lines| + |current.lines| > MAX_DIFF_LINES then ChangedLineDiff([], true)
    else
      ChangedLineDiff(Rows(Operations(original.lines, current.lines), 1, 1, false, false)
                      + MetaRows(original, current), false)
  }

  /** One operation of the loop below: the rows it adds, and the rows still to come. */
  lemma {:induction false} RowsStep(operations: seq<Operation>, k: nat, oldLine: nat, newLine: nat, rows: seq<Row>,
                                    omitted: bool)
    requires k < |operations| && (omitted ==> rows != [])
    ensures var gap := if omitted then rows + [EllipsisRow(oldLine, newLine, OMITTED)] else rows;
            var operation := operations[k];
            rows + Rows(operations[k..], oldLine, newLine, rows != [], omitted)
            == match operation.kind
               case Equal => rows + Rows(operations[k + 1..], oldLine + 1, newLine + 1, rows != [], rows != [])
               case Removed =>
                 gap + [RemovedRow(oldLine, operation.text)]
                     + Rows(operations[k + 1..], oldLine + 1, newLine, true, false)
               case Added =>
                 gap + [AddedRow(newLine, operation.text)]
                     + Rows(operations[k + 1..], oldLine, newLine + 1, true, false)
  {
    assert operations[k..][1..] == operations[k + 1..];
  }

  method ChangedRows(operations: seq<Operation>) returns (rows: seq<Row>)
    ensures rows == Rows(operations, 1, 1, false, false)
  {
    rows := [];
    var oldLine, newLine, omitted := 1, 1, false;
    for k := 0 to |operations|
      invariant oldLine >= 1 && newLine >= 1
      invariant omitted ==> rows != []
      invariant rows + Rows(operations[k..], oldLine, newLine, rows != [], omitted)
             == Rows(operations, 1, 1, false, false)
    {
      var operation := operations[k];
      RowsStep(operations, k, oldLine, newLine, rows, omitted);
      if operation.kind == Equal {
        omitted := |rows| > 0;
        oldLine, newLine := oldLine + 1, newLine + 1;
        continue;
      }
      if omitted {
        rows := rows + [EllipsisRow(oldLine, newLine, OMITTED)];
        omitted := false;
      }
      if operation.kind == Removed {
        rows := rows + [RemovedRow(oldLine, operation.text)];
        oldLine := oldLine + 1;
      } else {
        rows := rows + [AddedRow(newLine, operation.text)];
        newLine := newLine + 1;
      }
    }
    assert operations[|operations|..] == [];
  }

  method BuildChangedLineDiff(originalSource: string, currentSource: string) returns (diff: ChangedLineDiff)
    ensures diff == Diff(originalSource, currentSource)
  {
    var original, current := Lines(originalSource), Lines(currentSource);
    if |original.lines| + |current.lines| > MAX_DIFF_LINES {
      return ChangedLineDiff([], true);
    }
    var operations := ChangedMiddle(original.lines, current.lines);
    var rows := ChangedRows(operations);
    if original.trailingNewline != current.trailingNewline {
      rows := rows + [MetaRow(if current.trailingNewline then ENDS_WITH_NEWLINE else ENDS_WITHOUT_NEWLINE)];
    }
    diff := ChangedLineDiff(rows, false);
  }

  // ----- reading the rows back

  datatype Rebuilt = Malformed | Rebuilt(lines: seq<string>) {
    function After(before: seq<string>): Rebuilt {
      if Malformed? then Malformed else Rebuilt(before + lines)
    }
  }

  /** Where the reader of the rows stands: before any row, right after a changed row, or right
      after an ellipsis. */
  datatype Place = AtStart | AfterChange | AfterEllipsis

  /** Rebuilds the current lines from line `newLine` on, out of the original lines from `oldLine`
      on and the rows alone. A removed row must carry the number and text of an original line, an
      added row the number of the line it becomes. After the first row, unchanged lines may be
      passed over only by an ellipsis, which must pass at least one, name the lines it leads to,
      and be followed by a change right there. */
  function Rebuild(original: seq<string>, rows: seq<Row>, oldLine: nat, newLine: nat, place: Place): Rebuilt
    requires 1 <= oldLine <= |original| + 1
    decreases |rows|
  {
    if rows == [] then
      if place == AfterEllipsis then Malformed else Rebuilt(original[oldLine - 1..])
    else
      var rest := rows[1..];
      match rows[0]
      case RemovedRow(line, text) =>
        var gap := line - oldLine;
        if gap < 0 || line > |original| || (gap > 0 && place != AtStart) || original[line - 1] != text then Malformed
        else Rebuild(original, rest, line + 1, newLine + gap, AfterChange).After(original[oldLine - 1..line - 1])
      case AddedRow(line, text) =>
        var gap := line - newLine;
        if gap < 0 || oldLine + gap > |original| + 1 || (gap > 0 && place != AtStart) then Malformed
        else Rebuild(original, rest, oldLine + gap, line + 1, AfterChange)
             .After(original[oldLine - 1..oldLine + gap - 1] + [text])
      case EllipsisRow(old', new', _) =>
        var gap := old' - oldLine;
        if gap <= 0 || old' > |original| + 1 || new' - newLine != gap || place != AfterChange then Malformed
        else Rebuild(original, rest, old', new', AfterEllipsis).After(original[oldLine - 1..old' - 1])
      case MetaRow(_) => Malformed
  }

  lemma {:induction false} RemovedRowRebuilds(original: seq<string>, next: seq<Row>, lines: seq<string>, oldLine: nat,
                                              newLine: nat, passed: nat, shown: bool, omitted: bool)
    requires passed < oldLine <= |original| && passed < newLine
    requires if shown then omitted <==> passed > 0 else !omitted
    requires Rebuild(original, next, oldLine + 1, newLine, AfterChange) == Rebuilt(lines)
    ensures Rebuild(original, Gap(oldLine, newLine, omitted) + [RemovedRow(oldLine, original[oldLine - 1])] + next,
                    oldLine - passed, newLine - passed, if shown then AfterChange else AtStart)
         == Rebuilt(original[oldLine - passed - 1..oldLine - 1] + lines)
  {
    var row := RemovedRow(oldLine, original[oldLine - 1]);
    if omitted {
      RemovedRowStep(original, next, lines, oldLine, newLine, 0, AfterEllipsis);
      assert original[oldLine - 1..oldLine - 1] + lines == lines;
      EllipsisStep(original, [row] + next, lines, oldLine, newLine, passed);
    } else {
      RemovedRowStep(original, next, lines, oldLine, newLine, passed, if shown then AfterChange else AtStart);
    }
    GapThen(oldLine, newLine, omitted, row, next);
  }

  lemma {:induction false} GapThen(oldLine: nat, newLine: nat, omitted: bool, row: Row, next: seq<Row>)
    ensures Gap(oldLine, newLine, omitted) + [row] + next
         == if omitted then [EllipsisRow(oldLine, newLine, OMITTED)] + ([row] + next) else [row] + next
  {
  }

  lemma {:induction false} EllipsisStep(original: seq<string>, rows: seq<Row>, lines: seq<string>, oldLine: nat,
                                        newLine: nat, passed: nat)
    requires 0 < passed < oldLine <= |original| + 1 && passed < newLine
    requires Rebuild(original, rows, oldLine, newLine, AfterEllipsis) == Rebuilt(lines)
    ensures Rebuild(original, [EllipsisRow(oldLine, newLine, OMITTED)] + rows, oldLine - passed, newLine - passed,
                    AfterChange)
         == Rebuilt(original[oldLine - passed - 1..oldLine - 1] + lines)
  {
    assert ([EllipsisRow(oldLine, newLine, OMITTED)] + rows)[1..] == rows;
  }

  lemma {:induction false} RemovedRowStep(original: seq<string>, next: seq<Row>, lines: seq<string>, oldLine: nat,
                                          newLine: nat, passed: nat, place: Place)
    requires passed < oldLine <= |original| && passed < newLine && (passed == 0 || place == AtStart)
    requires Rebuild(original, next, oldLine + 1, newLine, AfterChange) == Rebuilt(lines)
    ensures Rebuild(original, [RemovedRow(oldLine, original[oldLine - 1])] + next, oldLine - passed, newLine - passed,
                    place)
         == Rebuilt(original[oldLine - passed - 1..oldLine - 1] + lines)
  {
    assert ([RemovedRow(oldLine, original[oldLine - 1])] + next)[1..] == next;
  }

  lemma {:induction false} AddedRowRebuilds(original: seq<string>, text: string, next: seq<Row>, lines: seq<string>,
                                            oldLine: nat, newLine: nat, passed: nat, shown: bool, omitted: bool)
    requires passed < oldLine <= |original| + 1 && passed < newLine
    requires if shown then omitted <==> passed > 0 else !omitted
    requires Rebuild(original, next, oldLine, newLine + 1, AfterChange) == Rebuilt(lines)
    ensures Rebuild(original, Gap(oldLine, newLine, omitted) + [AddedRow(newLine, text)] + next,
                    oldLine - passed, newLine - passed, if shown then AfterChange else AtStart)
         == Rebuilt(original[oldLine - passed - 1..oldLine - 1] + ([text] + lines))
  {
    var row := AddedRow(newLine, text);
    if omitted {
      AddedRowStep(original, text, next, lines, oldLine, newLine, 0, AfterEllipsis);
      assert original[oldLine - 1..oldLine - 1] + ([text] + lines) == [text] + lines;
      EllipsisStep(original, [row] + next, [text] + lines, oldLine, newLine, passed);
    } else {
      AddedRowStep(original, text, next, lines, oldLine, newLine, passed, if shown then AfterChange else AtStart);
    }
    GapThen(oldLine, newLine, omitted, row, next);
  }

  lemma {:induction false} AddedRowStep(original: seq<string>, text: string, next: seq<Row>, lines: seq<string>,
                                        oldLine: nat, newLine: nat, passed: nat, place: Place)
    requires passed < oldLine <= |original| + 1 && passed < newLine && (passed == 0 || place == AtStart)
    requires Rebuild(original, next, oldLine, newLine + 1, AfterChange) == Rebuilt(lines)
    ensures Rebuild(original, [AddedRow(newLine, text)] + next, oldLine - passed, newLine - passed, place)
         == Rebuilt(original[oldLine - passed - 1..oldLine - 1] + ([text] + lines))
  {
    var before := original[oldLine - passed - 1..oldLine - 1];
    assert ([AddedRow(newLine, text)] + next)[1..] == next;
    assert before + [text] + lines == before + ([text] + lines);
  }

  lemma {:induction false} HeadOfOriginal(original: seq<string>, script: seq<Operation>, oldLine: nat)
    requires 1 <= oldLine <= |original| + 1
    requires Original(script) == original[oldLine - 1..] && script != []
    ensures script[0].kind == Added ==> Original(script[1..]) == original[oldLine - 1..]
    ensures script[0].kind != Added ==> oldLine <= |original| && original[oldLine - 1] == script[0].text
    ensures script[0].kind != Added ==> oldLine <= |original| && Original(script[1..]) == original[oldLine..]
  {
    if script[0].kind != Added {
      assert Original(script) == [script[0].text] + Original(script[1..]);
      assert Original(script)[1..] == Original(script[1..]);
      assert original[oldLine - 1..][1..] == original[oldLine..];
    }
  }

  lemma {:induction false} OneMorePassed(original: seq<string>, oldLine: nat, passed: nat, tail: seq<string>)
    requires passed < oldLine <= |original|
    ensures original[oldLine - passed - 1..oldLine] + tail
         == original[oldLine - passed - 1..oldLine - 1] + ([original[oldLine - 1]] + tail)
  {
  }

  lemma {:induction false} NothingPassed(original: seq<string>, line: nat, tail: seq<string>)
    requires line <= |original|
    ensures original[line..line] + tail == tail
  {
  }

  /** Invariant of the row builder, as seen by the reader: `passed` unchanged lines lie between
      the reader and the next operation. */
  ghost predicate RowsRebuild(original: seq<string>, script: seq<Operation>, oldLine: nat, newLine: nat, passed: nat,
                              shown: bool, omitted: bool)
    requires passed < oldLine <= |original| + 1 && passed < newLine
  {
    Rebuild(original, Rows(script, oldLine, newLine, shown, omitted), oldLine - passed, newLine - passed,
            if shown then AfterChange else AtStart)
    == Rebuilt(original[oldLine - passed - 1..oldLine - 1] + Current(script))
  }

  lemma {:induction false} AfterRemoved(original: seq<string>, script: seq<Operation>, oldLine: nat, newLine: nat,
                                        passed: nat, shown: bool, omitted: bool)
    requires passed < oldLine <= |original| && passed < newLine
    requires if shown then omitted <==> passed > 0 else !omitted
    requires script != [] && script[0] == Operation(Removed, original[oldLine - 1])
    requires RowsRebuild(original, script[1..], oldLine + 1, newLine, 0, true, false)
    ensures RowsRebuild(original, script, oldLine, newLine, passed, shown, omitted)
  {
    var rest := script[1..];
    NothingPassed(original, oldLine, Current(rest));
    RemovedRowRebuilds(original, Rows(rest, oldLine + 1, newLine, true, false), Current(rest),
                       oldLine, newLine, passed, shown, omitted);
  }

  lemma {:induction false} AfterAdded(original: seq<string>, script: seq<Operation>, oldLine: nat, newLine: nat,
                                      passed: nat, shown: bool, omitted: bool)
    requires passed < oldLine <= |original| + 1 && passed < newLine
    requires if shown then omitted <==> passed > 0 else !omitted
    requires script != [] && script[0].kind == Added
    requires RowsRebuild(original, script[1..], oldLine, newLine + 1, 0, true, false)
    ensures RowsRebuild(original, script, oldLine, newLine, passed, shown, omitted)
  {
    var rest := script[1..];
    NothingPassed(original, oldLine - 1, Current(rest));
    AddedRowRebuilds(original, script[0].text, Rows(rest, oldLine, newLine + 1, true, false), Current(rest),
                     oldLine, newLine, passed, shown, omitted);
  }

  lemma {:induction false} AfterEqual(original: seq<string>, script: seq<Operation>, oldLine: nat, newLine: nat,
                                      passed: nat, shown: bool, omitted: bool)
    requires passed < oldLine <= |original| && passed < newLine
    requires script != [] && script[0] == Operation(Equal, original[oldLine - 1])
    requires RowsRebuild(original, script[1..], oldLine + 1, newLine + 1, passed + 1, shown, shown)
    ensures RowsRebuild(original, script, oldLine, newLine, passed, shown, omitted)
  {
    OneMorePassed(original, oldLine, passed, Current(script[1..]));
  }

  lemma {:induction false} NothingLeft(original: seq<string>, oldLine: nat, newLine: nat, passed: nat, shown: bool,
                                       omitted: bool)
    requires passed < oldLine == |original| + 1 && passed < newLine
    ensures RowsRebuild(original, [], oldLine, newLine, passed, shown, omitted)
  {
    assert original[oldLine - passed - 1..] == original[oldLine - passed - 1..oldLine - 1] + original[oldLine - 1..];
  }

  lemma {:induction false} EveryRowRebuilds(original: seq<string>, script: seq<Operation>, oldLine: nat, newLine: nat,
                                            passed: nat, shown: bool, omitted: bool)
    requires passed < oldLine <= |original| + 1 && passed < newLine
    requires Original(script) == original[oldLine - 1..]
    requires if shown then omitted <==> passed > 0 else !omitted
    ensures RowsRebuild(original, script, oldLine, newLine, passed, shown, omitted)
    decreases |script|, 1
  {
    if script == [] {
      NothingLeft(original, oldLine, newLine, passed, shown, omitted);
    } else {
      match script[0].kind
      case Equal => FromEqual(original, script, oldLine, newLine, passed, shown, omitted);
      case Removed => FromRemoved(original, script, oldLine, newLine, passed, shown, omitted);
      case Added => FromAdded(original, script, oldLine, newLine, passed, shown, omitted);
    }
  }

  lemma {:induction false} FromEqual(original: seq<string>, script: seq<Operation>, oldLine: nat, newLine: nat,
                                     passed: nat, shown: bool, omitted: bool)
    requires passed < oldLine <= |original| + 1 && passed < newLine
    requires script != [] && script[0].kind == Equal && Original(script) == original[oldLine - 1..]
    requires if shown then omitted <==> passed > 0 else !omitted
    ensures RowsRebuild(original, script, oldLine, newLine, passed, shown, omitted)
    decreases |script|, 0
  {
    HeadOfOriginal(original, script, oldLine);
    EveryRowRebuilds(original, script[1..], oldLine + 1, newLine + 1, passed + 1, shown, shown);
    AfterEqual(original, script, oldLine, newLine, passed, shown, omitted);
  }

  lemma {:induction false} FromRemoved(original: seq<string>, script: seq<Operation>, oldLine: nat, newLine: nat,
                                       passed: nat, shown: bool, omitted: bool)
    requires passed < oldLine <= |original| + 1 && passed < newLine
    requires script != [] && script[0].kind == Removed && Original(script) == original[oldLine - 1..]
    requires if shown then omitted <==> passed > 0 else !omitted
    ensures RowsRebuild(original, script, oldLine, newLine, passed, shown, omitted)
    decreases |script|, 0
  {
    HeadOfOriginal(original, script, oldLine);
    EveryRowRebuilds(original, script[1..], oldLine + 1, newLine, 0, true, false);
    AfterRemoved(original, script, oldLine, newLine, passed, shown, omitted);
  }

  lemma {:induction false} FromAdded(original: seq<string>, script: seq<Operation>, oldLine: nat, newLine: nat,
                                     passed: nat, shown: bool, omitted: bool)
    requires passed < oldLine <= |original| + 1 && passed < newLine
    requires script != [] && script[0].kind == Added && Original(script) == original[oldLine - 1..]
    requires if shown then omitted <==> passed > 0 else !omitted
    ensures RowsRebuild(original, script, oldLine, newLine, passed, shown, omitted)
    decreases |script|, 0
  {
    HeadOfOriginal(original, script, oldLine);
    EveryRowRebuilds(original, script[1..], oldLine, newLine + 1, 0, true, false);
    AfterAdded(original, script, oldLine, newLine, passed, shown, omitted);
  }

  lemma {:induction false} NoMetaRows(script: seq<Operation>, oldLine: nat, newLine: nat, shown: bool, omitted: bool)
    ensures forall row | row in Rows(script, oldLine, newLine, shown, omitted) :: !row.MetaRow?
    ensures Rows(script, oldLine, newLine, shown, omitted) == [] <==> Changes(script) == 0
  {
    if script != [] {
      NoMetaRows(script[1..], oldLine + 1, newLine + 1, shown, shown);
      NoMetaRows(script[1..], oldLine + 1, newLine, true, false);
      NoMetaRows(script[1..], oldLine, newLine + 1, true, false);
    }
  }

  /** Reads a whole diff: the rows give the lines, a closing meta row the final newline. */
  function Reconstruct(original: SourceLines, rows: seq<Row>): (Rebuilt, bool) {
    if rows != [] && rows[|rows| - 1].MetaRow? then
      (Rebuild(original.lines, rows[..|rows| - 1], 1, 1, AtStart), rows[|rows| - 1].text == ENDS_WITH_NEWLINE)
    else (Rebuild(original.lines, rows, 1, 1, AtStart), original.trailingNewline)
  }

  /** The rows alone rebuild the current source from the original one. */
  lemma {:induction false} DiffReconstructs(originalSource: string, currentSource: string)
    requires !Diff(originalSource, currentSource).tooLarge
    ensures Reconstruct(Lines(originalSource), Diff(originalSource, currentSource).rows)
         == (Rebuilt(Lines(currentSource).lines), Lines(currentSource).trailingNewline)
  {
    var original, current := Lines(originalSource), Lines(currentSource);
    var script := Operations(original.lines, current.lines);
    var changed := Rows(script, 1, 1, false, false);
    var rows := Diff(originalSource, currentSource).rows;
    OperationsTurn(original.lines, current.lines);
    assert original.lines[0..] == original.lines;
    EveryRowRebuilds(original.lines, script, 1, 1, 0, false, false);
    NoMetaRows(script, 1, 1, false, false);
    assert original.lines[0..0] + current.lines == current.lines;
    if original.trailingNewline != current.trailingNewline {
      assert rows[..|rows| - 1] == changed;
    } else {
      assert rows == changed;
    }
  }

  lemma {:induction false} NoChanges(script: seq<Operation>)
    ensures Changes(script) == 0 ==> Original(script) == Current(script)
  {
    if script != [] {
      NoChanges(script[1..]);
    }
  }

  lemma {:induction false} WalkOfEqual(a: seq<string>, i: nat)
    requires i <= |a|
    ensures Changes(Walk(a, a, i, i)) == 0
    decreases |a| - i
  {
    if i < |a| {
      WalkOfEqual(a, i + 1);
      assert Walk(a, a, i, i)[1..] == Walk(a, a, i + 1, i + 1);
    }
  }

  lemma {:induction false} SameLinesExactly(left: string, right: string)
    ensures Lines(left) == Lines(right) <==> Normalized(left) == Normalized(right)
  {
    LinesKeepSource(left);
    LinesKeepSource(right);
  }

  /** A diff shows no row exactly when the sources are equal up to CRLF and the line list is
      within the cell limit: two equal files over the limit do show rows. */
  lemma {:induction false} NoRowsExactly(originalSource: string, currentSource: string)
    requires !Diff(originalSource, currentSource).tooLarge
    ensures Diff(originalSource, currentSource).rows == []
       <==> Normalized(originalSource) == Normalized(currentSource)
            && WithinCells(Lines(originalSource).lines, Lines(currentSource).lines)
  {
    var original, current := Lines(originalSource), Lines(currentSource);
    var script := Operations(original.lines, current.lines);
    OperationsTurn(original.lines, current.lines);
    NoMetaRows(script, 1, 1, false, false);
    NoChanges(script);
    SameLinesExactly(originalSource, currentSource);
    if original.lines == current.lines {
      WalkOfEqual(original.lines, 0);
    }
    if !WithinCells(original.lines, current.lines) {
      assert script[0].kind == Removed;
    }
  }
}
