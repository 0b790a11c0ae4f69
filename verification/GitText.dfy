/** The texts exchanged with Git (src/runtime/git-operations.ts): reading a status
    listing, and cutting a patch of selected hunks out of a diff. */
module GitText {
  import opened Wrappers
  import opened Text

  // ----- the status listing, `git status --porcelain=v1 -z`

  const NUL: char := '\0'
  const MAX_STATUS_ENTRIES := 2000

  datatype Entry = Entry(code: string, path: string, original: Option<string>)
  datatype Baseline = Baseline(entries: seq<Entry>, truncated: bool)

  predicate Renames(code: string) { 'R' in code || 'C' in code }

  /** JavaScript's `slice(from)`: empty behind the end. */
  function SliceFrom(s: string, from: nat): string {
    if from <= |s| then s[from..] else ""
  }

  function Prepend(front: seq<Entry>, rest: Option<seq<Entry>>): Option<seq<Entry>> {
    if rest.None? then None else Some(front + rest.value)
  }

  /** What a token list says, or None where it is malformed. */
  function EntriesOf(tokens: seq<string>): Option<seq<Entry>> {
    if tokens == [] then Some([])
    else if tokens[0] == "" then EntriesOf(tokens[1..])
    else if |tokens[0]| < 4 then None
    else
      var code, path := tokens[0][..2], tokens[0][3..];
      if !Renames(code) then Prepend([Entry(code, path, None)], EntriesOf(tokens[1..]))
      else if |tokens| == 1 then Some([Entry(code, path, None)])
      else Prepend([Entry(code, path, Some(tokens[1]))], EntriesOf(tokens[2..]))
  }

  lemma {:induction false} PrependNothing(rest: Option<seq<Entry>>)
    ensures Prepend([], rest) == rest
  {
    if rest.Some? {
      assert [] + rest.value == rest.value;
    }
  }

  method ParseTokens(tokens: seq<string>) returns (entries: Option<seq<Entry>>)
    ensures entries == EntriesOf(tokens)
  {
    var raw: seq<Entry> := [];
    var index := 0;
    assert SliceTokens(tokens, 0) == tokens;
    PrependNothing(EntriesOf(tokens));
    while index < |tokens|
      invariant 0 <= index
      invariant EntriesOf(tokens) == Prepend(raw, EntriesOf(SliceTokens(tokens, index)))
      decreases |tokens| - index
    {
      var token := tokens[index];
      ghost var left := tokens[index..];
      assert SliceTokens(tokens, index) == left && left[0] == token;
      assert left[1..] == SliceTokens(tokens, index + 1);
      if token != "" {
        var code := if |token| < 2 then token else token[..2];
        var path := SliceFrom(token, 3);
        if |code| != 2 || path == "" {
          return None;
        }
        var renamed := Renames(code);
        var original := if renamed && index + 1 < |tokens| then Some(tokens[index + 1]) else None;
        var entry := Entry(code, path, original);
        ghost var next := SliceTokens(tokens, if renamed then index + 2 else index + 1);
        assert |left| > 1 ==> left[2..] == SliceTokens(tokens, index + 2);
        assert [entry] + [] == [entry];
        assert EntriesOf(left) == Prepend([entry], EntriesOf(next));
        PrependTwice(raw, [entry], EntriesOf(next));
        if renamed {
          index := index + 1;
        }
        raw := raw + [entry];
      }
      index := index + 1;
    }
    assert EntriesOf(SliceTokens(tokens, index)) == Some([]);
    assert raw + [] == raw;
    return Some(raw);
  }

  ghost function SliceTokens(tokens: seq<string>, from: nat): seq<string> {
    if from <= |tokens| then tokens[from..] else []
  }

  lemma {:induction false} PrependTwice(a: seq<Entry>, b: seq<Entry>, rest: Option<seq<Entry>>)
    ensures Prepend(a, Prepend(b, rest)) == Prepend(a + b, rest)
  {
    if rest.Some? {
      assert a + (b + rest.value) == (a + b) + rest.value;
    }
  }

  /** The entries kept with a task's starting point: the first 2,000, and a mark when more
      were read or Git's own output had been cut. */
  method CaptureStatus(stdout: string, cut: bool) returns (baseline: Option<Baseline>)
    ensures baseline.None? <==> EntriesOf(Split(stdout, NUL)).None?
    ensures baseline.Some? ==>
              var read := EntriesOf(Split(stdout, NUL)).value;
              && baseline.value.entries <= read
              && |baseline.value.entries| <= MAX_STATUS_ENTRIES
              && (|baseline.value.entries| < MAX_STATUS_ENTRIES ==> baseline.value.entries == read)
              && (baseline.value.truncated <==> cut || baseline.value.entries != read)
  {
    var raw := ParseTokens(Split(stdout, NUL));
    if raw.None? {
      return None;
    }
    var entries := raw.value;
    return Some(Baseline(if |entries| > MAX_STATUS_ENTRIES then entries[..MAX_STATUS_ENTRIES] else entries,
                         |entries| > MAX_STATUS_ENTRIES || cut));
  }

  // ----- a printed listing reads back

  /** What Git prints: two letters, a path, and the old path of a rename or copy. */
  ghost predicate WellFormed(entry: Entry) {
    && |entry.code| == 2 && NUL !in entry.code
    && entry.path != "" && NUL !in entry.path
    && (entry.original.Some? <==> Renames(entry.code))
    && (entry.original.Some? ==> NUL !in entry.original.value)
  }

  ghost predicate AllWellFormed(entries: seq<Entry>) {
    forall k | 0 <= k < |entries| :: WellFormed(entries[k])
  }

  function Printed(entry: Entry): string {
    entry.code + " " + entry.path + [NUL]
      + if entry.original.Some? then entry.original.value + [NUL] else ""
  }

  function Listing(entries: seq<Entry>): string {
    if entries == [] then "" else Printed(entries[0]) + Listing(entries[1..])
  }

  lemma {:induction false} SplitAtFirst(part: string, s: string)
    requires NUL !in part
    ensures Split(part + [NUL] + s, NUL) == [part] + Split(s, NUL)
  {
    assert part + [NUL] + s == part + ([NUL] + s);
    assert ([NUL] + s)[1..] == s;
    SplitAfterPart(part, [NUL] + s, NUL);
    assert part + "" == part;
  }

  lemma {:induction false} ReadAfterOne(entry: Entry, s: string)
    requires WellFormed(entry)
    ensures EntriesOf(Split(Printed(entry) + s, NUL)) == Prepend([entry], EntriesOf(Split(s, NUL)))
  {
    var first := entry.code + " " + entry.path;
    assert first[..2] == entry.code && first[3..] == entry.path;
    if entry.original.None? {
      assert Printed(entry) + s == first + [NUL] + s;
      SplitAtFirst(first, s);
      assert ([first] + Split(s, NUL))[1..] == Split(s, NUL);
    } else {
      var was := entry.original.value;
      assert Printed(entry) + s == first + [NUL] + (was + [NUL] + s);
      SplitAtFirst(first, was + [NUL] + s);
      SplitAtFirst(was, s);
      assert ([first] + ([was] + Split(s, NUL)))[2..] == Split(s, NUL);
    }
  }

  lemma {:induction false} ReadAfter(entries: seq<Entry>, s: string)
    requires AllWellFormed(entries)
    ensures EntriesOf(Split(Listing(entries) + s, NUL)) == Prepend(entries, EntriesOf(Split(s, NUL)))
  {
    if entries == [] {
      assert "" + s == s;
      var rest := EntriesOf(Split(s, NUL));
      assert rest.Some? ==> [] + rest.value == rest.value;
    } else {
      assert Listing(entries) + s == Printed(entries[0]) + (Listing(entries[1..]) + s);
      ReadAfterOne(entries[0], Listing(entries[1..]) + s);
      ReadAfter(entries[1..], s);
      PrependTwice([entries[0]], entries[1..], EntriesOf(Split(s, NUL)));
      assert [entries[0]] + entries[1..] == entries;
    }
  }

  /** Reading a printed listing gives its entries back, renames included. */
  lemma {:induction false} ListingReadsBack(entries: seq<Entry>)
    requires AllWellFormed(entries)
    ensures EntriesOf(Split(Listing(entries), NUL)) == Some(entries)
  {
    ReadAfter(entries, "");
    assert Listing(entries) + "" == Listing(entries);
    assert EntriesOf([""]) == EntriesOf([]);
    assert entries + [] == entries;
  }

  /** A listing that Git's output limit cut inside entry n gives the entries before it, then
      the part of entry n that was printed. It is malformed exactly when that part is
      shorter than four characters. */
  lemma {:induction false} CutListing(entries: seq<Entry>, n: nat, piece: string)
    requires AllWellFormed(entries) && n < |entries|
    requires piece < Printed(entries[n])
    ensures Listing(entries[..n]) + piece <= Listing(entries)
    ensures var read := EntriesOf(Split(Listing(entries[..n]) + piece, NUL));
            && (read.None? <==> 1 <= |piece| <= 3)
            && (read.Some? ==>
                  && |read.value| == (if piece == "" then n else n + 1)
                  && read.value[..n] == entries[..n]
                  && (piece != "" ==>
                        && read.value[n].code == entries[n].code
                        && read.value[n].path <= entries[n].path
                        && (read.value[n].original.Some? ==>
                              && read.value[n].path == entries[n].path
                              && Renames(entries[n].code)
                              && read.value[n].original.value <= entries[n].original.value)))
  {
    ReadAfter(entries[..n], piece);
    ListingConcat(entries[..n], entries[n..]);
    assert entries[..n] + entries[n..] == entries;
    assert Listing(entries[n..]) == Printed(entries[n]) + Listing(entries[n..][1..]);
    ReadPiece(entries[n], piece);
  }

  lemma {:induction false} ListingConcat(a: seq<Entry>, b: seq<Entry>)
    ensures Listing(a + b) == Listing(a) + Listing(b)
  {
    if a == [] {
      assert a + b == b;
    } else {
      ListingConcat(a[1..], b);
      assert (a + b)[1..] == a[1..] + b && (a + b)[0] == a[0];
      assert Printed(a[0]) + (Listing(a[1..]) + Listing(b)) == Printed(a[0]) + Listing(a[1..]) + Listing(b);
    }
  }

  lemma {:induction false} SplitWhole(s: string)
    requires NUL !in s
    ensures Split(s, NUL) == [s]
  {
    SplitAfterPart(s, "", NUL);
    assert s + "" == s;
  }

  lemma {:induction false} ReadPiece(entry: Entry, piece: string)
    requires WellFormed(entry) && piece < Printed(entry)
    ensures var read := EntriesOf(Split(piece, NUL));
            && (read.None? <==> 1 <= |piece| <= 3)
            && (piece == "" ==> read == Some([]))
            && (|piece| > 3 ==>
                  && |read.value| == 1
                  && read.value[0].code == entry.code
                  && read.value[0].path <= entry.path
                  && (read.value[0].original.Some? ==>
                        && read.value[0].path == entry.path
                        && Renames(entry.code)
                        && read.value[0].original.value <= entry.original.value))
  {
    var first := entry.code + " " + entry.path;
    assert first[..2] == entry.code && first[3..] == entry.path;
    if |piece| <= |first| {
      assert piece == Printed(entry)[..|piece|] == first[..|piece|];
      SplitWhole(piece);
      assert EntriesOf([]) == Some([]);
      if piece != "" {
        assert [piece][1..] == [];
      }
      if |piece| > 3 {
        assert piece[..2] == entry.code;
        assert piece[3..] == first[3..][..|piece| - 3];
      }
    } else {
      var was := entry.original.value;
      var part := piece[|first| + 1..];
      assert Printed(entry) == first + [NUL] + (was + [NUL]);
      assert piece == first + [NUL] + part;
      assert part == (was + [NUL])[..|part|] == was[..|part|];
      SplitAtFirst(first, part);
      SplitWhole(part);
      assert ([first] + [part])[2..] == [];
    }
  }

  /** Whatever reads without error from a listing whose last entry is finished is made of
      entries that Git could have printed, and printing them reads the same again. */
  lemma {:induction false} ReadListingPrints(stdout: string)
    requires stdout == "" || stdout[|stdout| - 1] == NUL
    requires EntriesOf(Split(stdout, NUL)).Some?
    ensures var entries := EntriesOf(Split(stdout, NUL)).value;
            AllWellFormed(entries) && EntriesOf(Split(Listing(entries), NUL)) == Some(entries)
  {
    JoinOfSplit(stdout, NUL);
    LastTokenEmpty(stdout);
    TokensWellFormed(Split(stdout, NUL));
    ListingReadsBack(EntriesOf(Split(stdout, NUL)).value);
  }

  lemma {:induction false} LastTokenEmpty(s: string)
    requires s == "" || s[|s| - 1] == NUL
    ensures Split(s, NUL)[|Split(s, NUL)| - 1] == ""
    ensures s != "" ==> |Split(s, NUL)| > 1
  {
    if s != "" {
      LastTokenEmpty(s[1..]);
    }
  }

  lemma {:induction false} TokensWellFormed(tokens: seq<string>)
    requires tokens != [] ==> tokens[|tokens| - 1] == ""
    requires forall k | 0 <= k < |tokens| :: NUL !in tokens[k]
    requires EntriesOf(tokens).Some?
    ensures AllWellFormed(EntriesOf(tokens).value)
    decreases |tokens|
  {
    if tokens != [] {
      if tokens[0] == "" || !Renames(tokens[0][..2]) {
        TokensWellFormed(tokens[1..]);
      } else {
        TokensWellFormed(tokens[2..]);
      }
    }
  }

  // ----- selecting hunks of a diff

  const MAX_LINE_BYTES := 8192
  const MAX_PATCH_BYTES := 256 * 1024
  const MAX_PATCH_LINES := 254
  const MAX_SELECTED_HUNKS := 128

  datatype Selection =
    | Selected(patch: string, ordinals: seq<int>, available: nat)
    | BadPath | NotAFile | DiffUnavailable | NotText | LineTooLong | NoHunks | BadHeader | BadOrdinals | PatchTooLarge

  predicate Occurs(phrase: string, s: string, at: nat) {
    at + |phrase| <= |s| && s[at..at + |phrase|] == phrase
  }

  /** The match of `/GIT binary patch|Binary files .* differ/`; a dot matches no line break. */
  predicate SaysBinary(s: string) {
    || (exists i | 0 <= i <= |s| :: Occurs("GIT binary patch", s, i))
    || (exists i, j | 0 <= i <= j <= |s| ::
          && Occurs("Binary files ", s, i) && Occurs(" differ", s, j) && i + 13 <= j
          && forall k | i + 13 <= k < j :: s[k] !in "\n\r\U{2028}\U{2029}")
  }

  predicate StartsHunk(line: string) { "@@ " <= line }

  function WithoutLastNewline(s: string): string {
    if s != "" && s[|s| - 1] == '\n' then s[..|s| - 1] else s
  }

  function LinesOf(s: string): seq<string> { Split(WithoutLastNewline(s), '\n') }

  /** The number of lines before the first hunk. */
  function HeaderLength(lines: seq<string>): (n: nat)
    ensures n <= |lines|
    ensures n < |lines| ==> StartsHunk(lines[n])
    ensures forall k | 0 <= k < n :: !StartsHunk(lines[k])
  {
    if lines == [] || StartsHunk(lines[0]) then 0 else 1 + HeaderLength(lines[1..])
  }

  function HunksOf(lines: seq<string>): seq<seq<string>> {
    if lines == [] then []
    else
      var n := 1 + HeaderLength(lines[1..]);
      [lines[..n]] + HunksOf(lines[n..])
  }

  function Flat(hunks: seq<seq<string>>): seq<string> {
    if hunks == [] then [] else hunks[0] + Flat(hunks[1..])
  }

  /** Only the first line of a hunk starts one. */
  ghost predicate IsHunk(hunk: seq<string>) {
    && hunk != [] && StartsHunk(hunk[0])
    && forall k | 1 <= k < |hunk| :: !StartsHunk(hunk[k])
  }

  ghost predicate AreHunks(hunks: seq<seq<string>>) {
    forall k | 0 <= k < |hunks| :: IsHunk(hunks[k])
  }

  function ValidHeader(header: seq<string>): bool {
    && header != [] && "diff --git " <= header[0]
    && (exists k | 0 <= k < |header| :: "--- " <= header[k])
    && (exists k | 0 <= k < |header| :: "+++ " <= header[k])
  }

  /** The distinct ordinals asked for, in ascending order. */
  function InsertOrdinal(x: int, sorted: seq<int>): seq<int> {
    if sorted == [] || x < sorted[0] then [x] + sorted
    else if x == sorted[0] then sorted
    else [sorted[0]] + InsertOrdinal(x, sorted[1..])
  }

  function Ascending(requested: seq<int>): seq<int> {
    if requested == [] then [] else InsertOrdinal(requested[0], Ascending(requested[1..]))
  }

  ghost predicate Increasing(s: seq<int>) {
    forall i, j | 0 <= i < j < |s| :: s[i] < s[j]
  }

  lemma {:induction false} InsertOrdinalKeeps(x: int, sorted: seq<int>)
    requires Increasing(sorted)
    ensures Increasing(InsertOrdinal(x, sorted))
    ensures forall y :: y in InsertOrdinal(x, sorted) <==> y == x || y in sorted
  {
    if sorted != [] {
      var first, rest := sorted[0], sorted[1..];
      assert sorted == [first] + rest;
      if x < first {
        ConsIncreasing(x, sorted);
      } else if x > first {
        InsertOrdinalKeeps(x, rest);
        ConsIncreasing(first, InsertOrdinal(x, rest));
      }
    }
  }

  lemma {:induction false} ConsIncreasing(first: int, rest: seq<int>)
    requires Increasing(rest) && forall y | y in rest :: first < y
    ensures Increasing([first] + rest)
  {
    assert forall j | 0 <= j < |rest| :: rest[j] in rest;
  }

  /** Every ordinal asked for, each once, smallest first. */
  lemma {:induction false} AscendingExactly(requested: seq<int>)
    ensures Increasing(Ascending(requested))
    ensures forall y :: y in Ascending(requested) <==> y in requested
  {
    if requested != [] {
      AscendingExactly(requested[1..]);
      InsertOrdinalKeeps(requested[0], Ascending(requested[1..]));
      assert requested == [requested[0]] + requested[1..];
    }
  }

  predicate OrdinalsAllowed(ordinals: seq<int>, available: nat) {
    && 1 <= |ordinals| <= MAX_SELECTED_HUNKS
    && forall k | 0 <= k < |ordinals| :: 1 <= ordinals[k] <= available
  }

  function Chosen(hunks: seq<seq<string>>, ordinals: seq<int>): seq<seq<string>>
    requires forall k | 0 <= k < |ordinals| :: 1 <= ordinals[k] <= |hunks|
  {
    seq(|ordinals|, k requires 0 <= k < |ordinals| => hunks[ordinals[k] - 1])
  }

  function PatchLines(lines: seq<string>, ordinals: seq<int>): seq<string>
    requires OrdinalsAllowed(ordinals, |HunksOf(lines[HeaderLength(lines)..])|)
  {
    var n := HeaderLength(lines);
    lines[..n] + Flat(Chosen(HunksOf(lines[n..]), ordinals))
  }

  /** The whole selection: the path is checked and its file looked up before Git is asked. */
  function SelectForPath(path: string, isFile: bool, stdout: string, failed: bool, requested: seq<int>): Selection {
    if NUL in path || '\r' in path || '\n' in path then BadPath
    else if !isFile then NotAFile
    else SelectHunks(stdout, failed, requested)
  }

  predicate HasLongLine(lines: seq<string>) {
    exists k | 0 <= k < |lines| :: ByteLength(lines[k]) > MAX_LINE_BYTES
  }

  function SelectHunks(stdout: string, failed: bool, requested: seq<int>): Selection {
    if failed then DiffUnavailable
    else if stdout == "" || SaysBinary(stdout) then NotText
    else if HasLongLine(LinesOf(stdout)) then LineTooLong
    else SelectFromLines(LinesOf(stdout), requested)
  }

  function SelectFromLines(lines: seq<string>, requested: seq<int>): Selection {
    var n := HeaderLength(lines);
    var ordinals := Ascending(requested);
    if n == |lines| then NoHunks
    else if !ValidHeader(lines[..n]) then BadHeader
    else
      var hunks := HunksOf(lines[n..]);
      if !OrdinalsAllowed(ordinals, |hunks|) then BadOrdinals
      else
        var patchLines := PatchLines(lines, ordinals);
        var patch := Join(patchLines, '\n') + "\n";
        if |patchLines| > MAX_PATCH_LINES || ByteLength(patch) > MAX_PATCH_BYTES then PatchTooLarge
        else Selected(patch, ordinals, |hunks|)
  }

  lemma {:induction false} NewHunk(hunks: seq<seq<string>>, line: string)
    requires AreHunks(hunks) && StartsHunk(line)
    ensures AreHunks(hunks + [[line]]) && Flat(hunks + [[line]]) == Flat(hunks) + [line]
  {
    FlatConcat(hunks, [[line]]);
  }

  lemma {:induction false} LongerHunk(hunks: seq<seq<string>>, line: string)
    requires hunks != [] && AreHunks(hunks) && !StartsHunk(line)
    ensures var last := |hunks| - 1;
            var longer := hunks[..last] + [hunks[last] + [line]];
            AreHunks(longer) && Flat(longer) == Flat(hunks) + [line]
  {
    var last := |hunks| - 1;
    FlatConcat(hunks[..last], [hunks[last]]);
    FlatConcat(hunks[..last], [hunks[last] + [line]]);
    assert hunks[..last] + [hunks[last]] == hunks;
    assert Flat(hunks[..last]) + (hunks[last] + [line]) == Flat(hunks[..last]) + hunks[last] + [line];
  }

  method CollectHunks(lines: seq<string>) returns (hunks: seq<seq<string>>)
    requires lines != [] && StartsHunk(lines[0])
    ensures AreHunks(hunks) && Flat(hunks) == lines
    ensures hunks == HunksOf(lines)
  {
    hunks := [];
    for i := 0 to |lines|
      invariant AreHunks(hunks) && Flat(hunks) == lines[..i]
      invariant i > 0 ==> hunks != []
    {
      assert lines[..i + 1] == lines[..i] + [lines[i]];
      if StartsHunk(lines[i]) {
        NewHunk(hunks, lines[i]);
        hunks := hunks + [[lines[i]]];
      } else {
        var last := |hunks| - 1;
        LongerHunk(hunks, lines[i]);
        hunks := hunks[..last] + [hunks[last] + [lines[i]]];
      }
    }
    HunksUnique(hunks);
    assert lines[..|lines|] == lines;
  }

  method CollectPatchLines(header: seq<string>, hunks: seq<seq<string>>, ordinals: seq<int>)
    returns (patchLines: seq<string>)
    requires forall k | 0 <= k < |ordinals| :: 1 <= ordinals[k] <= |hunks|
    ensures patchLines == header + Flat(Chosen(hunks, ordinals))
  {
    patchLines := header;
    ghost var chosen := Chosen(hunks, ordinals);
    for i := 0 to |ordinals|
      invariant patchLines == header + Flat(chosen[..i])
    {
      FlatConcat(chosen[..i], [chosen[i]]);
      assert chosen[..i + 1] == chosen[..i] + [chosen[i]];
      assert Flat([chosen[i]]) == chosen[i];
      patchLines := patchLines + hunks[ordinals[i] - 1];
    }
    assert chosen[..|ordinals|] == chosen;
  }

  method SelectedHunkPatch(path: string, isFile: bool, stdout: string, failed: bool, requested: seq<int>)
    returns (selection: Selection)
    ensures selection == SelectForPath(path, isFile, stdout, failed, requested)
  {
    if NUL in path || '\r' in path || '\n' in path {
      return BadPath;
    }
    if !isFile {
      return NotAFile;
    }
    if failed {
      return DiffUnavailable;
    }
    if stdout == "" || SaysBinary(stdout) {
      return NotText;
    }
    if HasLongLine(LinesOf(stdout)) {
      return LineTooLong;
    }
    selection := SelectedLinesPatch(LinesOf(stdout), requested);
  }

  /** The part of the selection behind the checks of the diff as a text. */
  method SelectedLinesPatch(lines: seq<string>, requested: seq<int>) returns (selection: Selection)
    ensures selection == SelectFromLines(lines, requested)
  {
    var firstHunk := HeaderLength(lines);
    if firstHunk == |lines| {
      return NoHunks;
    }
    var header := lines[..firstHunk];
    if !ValidHeader(header) {
      return BadHeader;
    }
    var hunks := CollectHunks(lines[firstHunk..]);
    var ordinals := Ascending(requested);
    if !OrdinalsAllowed(ordinals, |hunks|) {
      return BadOrdinals;
    }
    var patchLines := CollectPatchLines(header, hunks, ordinals);
    var patch := Join(patchLines, '\n') + "\n";
    if |patchLines| > MAX_PATCH_LINES || ByteLength(patch) > MAX_PATCH_BYTES {
      return PatchTooLarge;
    }
    return Selected(patch, ordinals, |hunks|);
  }

  // ----- hunks are a partition of the lines, and the only one

  lemma {:induction false} FlatConcat(a: seq<seq<string>>, b: seq<seq<string>>)
    ensures Flat(a + b) == Flat(a) + Flat(b)
  {
    if a == [] {
      assert a + b == b;
    } else {
      FlatConcat(a[1..], b);
      assert (a + b)[1..] == a[1..] + b && (a + b)[0] == a[0];
      assert a[0] + (Flat(a[1..]) + Flat(b)) == a[0] + Flat(a[1..]) + Flat(b);
    }
  }

  lemma {:induction false} HeaderLengthAt(lines: seq<string>, n: nat)
    requires n <= |lines|
    requires forall k | 0 <= k < n :: !StartsHunk(lines[k])
    requires n < |lines| ==> StartsHunk(lines[n])
    ensures HeaderLength(lines) == n
  {
  }

  /** There is one way to cut lines into hunks. */
  lemma {:induction false} HunksUnique(hunks: seq<seq<string>>)
    requires AreHunks(hunks)
    ensures HunksOf(Flat(hunks)) == hunks
  {
    if hunks != [] {
      var lines, first, rest := Flat(hunks), hunks[0], Flat(hunks[1..]);
      assert IsHunk(first);
      if |hunks| > 1 {
        assert IsHunk(hunks[1]);
        assert rest[0] == hunks[1][0];
      }
      assert lines[1..] == first[1..] + rest;
      HeaderLengthAt(lines[1..], |first| - 1);
      assert lines[..|first|] == first && lines[|first|..] == rest;
      HunksUnique(hunks[1..]);
    }
  }

  lemma {:induction false} HunkAtFront(lines: seq<string>)
    requires lines != [] && StartsHunk(lines[0])
    ensures var n := 1 + HeaderLength(lines[1..]);
            IsHunk(lines[..n]) && (n < |lines| ==> StartsHunk(lines[n..][0]))
  {
    var n := HeaderLength(lines[1..]);
    assert n < |lines[1..]| ==> StartsHunk(lines[1..][n]);
    forall k | 1 <= k < n + 1 ensures !StartsHunk(lines[k]) {
      assert !StartsHunk(lines[1..][k - 1]);
    }
  }

  lemma {:induction false} HunksPartition(lines: seq<string>)
    requires lines != [] ==> StartsHunk(lines[0])
    ensures AreHunks(HunksOf(lines)) && Flat(HunksOf(lines)) == lines
    decreases |lines|
  {
    if lines != [] {
      var n := 1 + HeaderLength(lines[1..]);
      var first, rest := lines[..n], lines[n..];
      HunkAtFront(lines);
      HunksPartition(rest);
      OneMoreHunk(first, HunksOf(rest));
      assert HunksOf(lines) == [first] + HunksOf(rest);
      assert first + rest == lines;
    }
  }

  lemma {:induction false} OneMoreHunk(first: seq<string>, rest: seq<seq<string>>)
    requires IsHunk(first) && AreHunks(rest)
    ensures AreHunks([first] + rest) && Flat([first] + rest) == first + Flat(rest)
  {
    assert ([first] + rest)[1..] == rest;
  }

  // ----- the patch

  lemma {:induction false} FlatMembers(hunks: seq<seq<string>>, line: string)
    ensures line in Flat(hunks) <==> exists k :: 0 <= k < |hunks| && line in hunks[k]
  {
    if hunks != [] {
      FlatMembers(hunks[1..], line);
      if line in Flat(hunks[1..]) {
        var k :| 0 <= k < |hunks[1..]| && line in hunks[1..][k];
        assert line in hunks[k + 1];
      }
      if k :| 0 <= k < |hunks| && line in hunks[k] && k > 0 {
        assert line in hunks[1..][k - 1];
      }
    }
  }

  /** Every line of the patch is a line of the diff. */
  lemma {:induction false} PatchLineIsDiffLine(lines: seq<string>, ordinals: seq<int>, line: string)
    requires OrdinalsAllowed(ordinals, |HunksOf(lines[HeaderLength(lines)..])|)
    requires line in PatchLines(lines, ordinals)
    ensures line in lines
  {
    var n := HeaderLength(lines);
    var hunks := HunksOf(lines[n..]);
    if line !in lines[..n] {
      var chosen := Chosen(hunks, ordinals);
      FlatMembers(chosen, line);
      var k :| 0 <= k < |chosen| && line in chosen[k];
      assert chosen[k] == hunks[ordinals[k] - 1];
      FlatMembers(hunks, line);
      HunksPartition(lines[n..]);
      assert line in lines[n..];
    }
  }

  lemma {:induction false} PatchLinesReadBack(stdout: string, ordinals: seq<int>)
    requires var lines := LinesOf(stdout); OrdinalsAllowed(ordinals, |HunksOf(lines[HeaderLength(lines)..])|)
    ensures var patchLines := PatchLines(LinesOf(stdout), ordinals);
            patchLines != [] && LinesOf(Join(patchLines, '\n') + "\n") == patchLines
  {
    var patchLines := PatchLines(LinesOf(stdout), ordinals);
    PatchNotEmpty(LinesOf(stdout), ordinals);
    PatchWithoutNewlines(stdout, ordinals);
    SplitOfJoin(patchLines, '\n');
    assert WithoutLastNewline(Join(patchLines, '\n') + "\n") == Join(patchLines, '\n');
  }

  lemma {:induction false} PatchNotEmpty(lines: seq<string>, ordinals: seq<int>)
    requires OrdinalsAllowed(ordinals, |HunksOf(lines[HeaderLength(lines)..])|)
    ensures PatchLines(lines, ordinals) != []
  {
    var n := HeaderLength(lines);
    HunksPartition(lines[n..]);
    var chosen := Chosen(HunksOf(lines[n..]), ordinals);
    assert IsHunk(chosen[0]);
    assert Flat(chosen) == chosen[0] + Flat(chosen[1..]);
  }

  lemma {:induction false} PatchWithoutNewlines(stdout: string, ordinals: seq<int>)
    requires var lines := LinesOf(stdout); OrdinalsAllowed(ordinals, |HunksOf(lines[HeaderLength(lines)..])|)
    ensures var patchLines := PatchLines(LinesOf(stdout), ordinals);
            forall k | 0 <= k < |patchLines| :: '\n' !in patchLines[k]
  {
    var lines := LinesOf(stdout);
    var patchLines := PatchLines(lines, ordinals);
    JoinOfSplit(WithoutLastNewline(stdout), '\n');
    forall k | 0 <= k < |patchLines|
      ensures '\n' !in patchLines[k]
    {
      PatchLineIsDiffLine(lines, ordinals, patchLines[k]);
    }
  }

  /** Lines with the header of the diff and, behind it, the hunks of the diff with these ordinals. */
  ghost predicate HasHunks(patch: seq<string>, diff: seq<string>, ordinals: seq<int>) {
    var m, n := HeaderLength(patch), HeaderLength(diff);
    var hunks := HunksOf(diff[n..]);
    && patch[..m] == diff[..n]
    && OrdinalsAllowed(ordinals, |hunks|)
    && HunksOf(patch[m..]) == Chosen(hunks, ordinals)
  }

  /** A patch has the header of the diff and, as its hunks, exactly the hunks asked for, once
      each and in the order of the diff. */
  lemma {:induction false} PatchHoldsExactly(stdout: string, requested: seq<int>)
    requires SelectHunks(stdout, false, requested).Selected?
    ensures var selection := SelectHunks(stdout, false, requested);
            var diff, patch := LinesOf(stdout), LinesOf(selection.patch);
            && selection.available == |HunksOf(diff[HeaderLength(diff)..])|
            && Increasing(selection.ordinals)
            && (forall y :: y in selection.ordinals <==> y in requested)
            && HasHunks(patch, diff, selection.ordinals)
  {
    AscendingExactly(requested);
    SelectedIs(stdout, requested);
    PatchLinesHunks(LinesOf(stdout), Ascending(requested));
  }

  lemma {:induction false} SelectedIs(stdout: string, requested: seq<int>)
    requires SelectHunks(stdout, false, requested).Selected?
    ensures var selection := SelectHunks(stdout, false, requested);
            var diff := LinesOf(stdout);
            var hunks := HunksOf(diff[HeaderLength(diff)..]);
            && selection.available == |hunks| && selection.ordinals == Ascending(requested)
            && OrdinalsAllowed(selection.ordinals, |hunks|)
            && LinesOf(selection.patch) == PatchLines(diff, selection.ordinals)
  {
    PatchLinesReadBack(stdout, SelectHunks(stdout, false, requested).ordinals);
  }

  lemma {:induction false} PatchLinesHunks(diff: seq<string>, ordinals: seq<int>)
    requires OrdinalsAllowed(ordinals, |HunksOf(diff[HeaderLength(diff)..])|)
    ensures HasHunks(PatchLines(diff, ordinals), diff, ordinals)
  {
    var n := HeaderLength(diff);
    var chosen := Chosen(HunksOf(diff[n..]), ordinals);
    HunksPartition(diff[n..]);
    assert AreHunks(chosen);
    assert IsHunk(chosen[0]);
    assert Flat(chosen) == chosen[0] + Flat(chosen[1..]);
    var patch := diff[..n] + Flat(chosen);
    HeaderLengthAt(patch, n);
    assert patch[..n] == diff[..n] && patch[n..] == Flat(chosen);
    HunksUnique(chosen);
  }

  /** Asking for every hunk gives the whole diff back, ended by a newline. */
  lemma {:induction false} EveryHunkIsTheDiff(stdout: string, requested: seq<int>)
    requires SelectHunks(stdout, false, requested).Selected?
    requires forall y :: y in requested <==> 1 <= y <= SelectHunks(stdout, false, requested).available
    ensures SelectHunks(stdout, false, requested).patch == WithoutLastNewline(stdout) + "\n"
  {
    var selection := SelectHunks(stdout, false, requested);
    var lines := LinesOf(stdout);
    var n := HeaderLength(lines);
    var hunks := HunksOf(lines[n..]);
    AscendingExactly(requested);
    CountsUp(selection.ordinals, 1, |hunks|);
    AllChosen(lines, selection.ordinals);
    JoinOfSplit(WithoutLastNewline(stdout), '\n');
  }

  lemma {:induction false} AllChosen(lines: seq<string>, ordinals: seq<int>)
    requires var hunks := HunksOf(lines[HeaderLength(lines)..]);
             && OrdinalsAllowed(ordinals, |hunks|)
             && |ordinals| == |hunks| && forall k | 0 <= k < |hunks| :: ordinals[k] == k + 1
    ensures PatchLines(lines, ordinals) == lines
  {
    var n := HeaderLength(lines);
    var hunks := HunksOf(lines[n..]);
    EachChosen(hunks, ordinals);
    assert PatchLines(lines, ordinals) == lines[..n] + Flat(hunks);
    HunksPartition(lines[n..]);
    assert lines[..n] + lines[n..] == lines;
  }

  lemma {:induction false} EachChosen(hunks: seq<seq<string>>, ordinals: seq<int>)
    requires |ordinals| == |hunks| && forall k | 0 <= k < |hunks| :: ordinals[k] == k + 1
    ensures Chosen(hunks, ordinals) == hunks
  {
  }

  lemma {:induction false} CountsUp(s: seq<int>, from: int, last: int)
    requires from <= last + 1
    requires Increasing(s)
    requires forall y :: y in s <==> from <= y <= last
    ensures |s| == last + 1 - from
    ensures forall k | 0 <= k < |s| :: s[k] == from + k
    decreases last + 1 - from
  {
    assert s != [] ==> s[0] in s;
    if from <= last {
      assert from in s;
      var rest := s[1..];
      assert s == [s[0]] + rest;
      assert s[0] == from;
      forall y ensures y in rest <==> from + 1 <= y <= last {
        assert y in s <==> from <= y <= last;
        if y in rest {
          var k :| 0 <= k < |rest| && rest[k] == y;
          assert s[k + 1] == y && y in s;
        }
      }
      CountsUp(rest, from + 1, last);
    }
  }

  // ----- the patch in the manifest

  datatype Review = NoPatch | DigestMismatch | Reviewed(patch: string)

  /** The arguments a hunk manifest binds: path, digest, and the lines of the patch. */
  function HunkArguments(path: string, patch: string, digest: string -> string): seq<string> {
    [path, digest(patch)] + LinesOf(patch)
  }

  function ReviewedHunkPatch(isHunkStage: bool, argv: Option<seq<string>>, digest: string -> string): Review {
    if !isHunkStage || argv.None? || |argv.value| < 3 then NoPatch
    else
      var patch := Join(argv.value[2..], '\n') + "\n";
      if digest(patch) != argv.value[1] then DigestMismatch else Reviewed(patch)
  }

  /** The patch that is applied is the patch that was selected. With the same path and digest,
      other arguments are refused exactly when they do not spell the same patch. */
  lemma {:induction false} ReviewedIsSelected(stdout: string, requested: seq<int>, path: string,
                                              digest: string -> string, others: seq<string>)
    requires SelectHunks(stdout, false, requested).Selected?
    requires forall a, b :: digest(a) == digest(b) ==> a == b
    ensures var patch := SelectHunks(stdout, false, requested).patch;
            var argv := HunkArguments(path, patch, digest);
            && ReviewedHunkPatch(true, Some(argv), digest) == Reviewed(patch)
            && (others != [] ==>
                  ReviewedHunkPatch(true, Some(argv[..2] + others), digest)
                  == if Join(others, '\n') + "\n" == patch then Reviewed(patch) else DigestMismatch)
  {
    var selection := SelectHunks(stdout, false, requested);
    PatchLinesReadBack(stdout, selection.ordinals);
    var argv := HunkArguments(path, selection.patch, digest);
    assert argv[2..] == LinesOf(selection.patch);
    if others != [] {
      assert (argv[..2] + others)[2..] == others;
    }
  }

  /** The argument list fits the manifest's schema (3 to 256 texts of 1 to 8,192 characters)
      exactly when no line of the patch is empty. */
  lemma {:induction false} ArgumentsFitExactly(stdout: string, requested: seq<int>, path: string,
                                               digest: string -> string)
    requires SelectHunks(stdout, false, requested).Selected?
    requires 1 <= |path| <= 4096 && 1 <= |digest(SelectHunks(stdout, false, requested).patch)| <= 64
    ensures var patch := SelectHunks(stdout, false, requested).patch;
            var argv := HunkArguments(path, patch, digest);
            && 3 <= |argv| <= 256
            && ((forall k | 0 <= k < |argv| :: 1 <= |argv[k]| <= MAX_LINE_BYTES) <==> "" !in LinesOf(patch))
  {
    PatchLinesBounded(stdout, requested);
    BoundedFits(SelectHunks(stdout, false, requested).patch, path, digest);
  }

  lemma {:induction false} BoundedFits(patch: string, path: string, digest: string -> string)
    requires 1 <= |path| <= 4096 && 1 <= |digest(patch)| <= 64 && 1 <= |LinesOf(patch)| <= MAX_PATCH_LINES
    requires forall k | 0 <= k < |LinesOf(patch)| :: |LinesOf(patch)[k]| <= MAX_LINE_BYTES
    ensures var argv := HunkArguments(path, patch, digest);
            && 3 <= |argv| <= 256
            && ((forall k | 0 <= k < |argv| :: 1 <= |argv[k]| <= MAX_LINE_BYTES) <==> "" !in LinesOf(patch))
  {
    AllFit([path, digest(patch)], LinesOf(patch));
  }

  lemma {:induction false} AllFit(front: seq<string>, lines: seq<string>)
    requires forall k | 0 <= k < |front| :: 1 <= |front[k]| <= MAX_LINE_BYTES
    requires forall k | 0 <= k < |lines| :: |lines[k]| <= MAX_LINE_BYTES
    ensures (forall k | 0 <= k < |front + lines| :: 1 <= |(front + lines)[k]| <= MAX_LINE_BYTES) <==> "" !in lines
  {
    var all := front + lines;
    if k :| 0 <= k < |lines| && lines[k] == "" {
      assert all[|front| + k] == "";
    }
  }

  lemma {:induction false} PatchLinesBounded(stdout: string, requested: seq<int>)
    requires SelectHunks(stdout, false, requested).Selected?
    ensures var lines := LinesOf(SelectHunks(stdout, false, requested).patch);
            1 <= |lines| <= MAX_PATCH_LINES && forall k | 0 <= k < |lines| :: |lines[k]| <= MAX_LINE_BYTES
  {
    var selection := SelectHunks(stdout, false, requested);
    PatchLinesReadBack(stdout, selection.ordinals);
    var lines := PatchLines(LinesOf(stdout), selection.ordinals);
    forall k | 0 <= k < |lines| ensures |lines[k]| <= MAX_LINE_BYTES {
      PatchLineBounded(stdout, requested, lines[k]);
    }
  }

  lemma {:induction false} PatchLineBounded(stdout: string, requested: seq<int>, line: string)
    requires var selection := SelectHunks(stdout, false, requested);
             selection.Selected? && line in PatchLines(LinesOf(stdout), selection.ordinals)
    ensures |line| <= MAX_LINE_BYTES
  {
    var diff := LinesOf(stdout);
    PatchLineIsDiffLine(diff, SelectHunks(stdout, false, requested).ordinals, line);
    var j :| 0 <= j < |diff| && diff[j] == line;
    BytesAtLeastLength(diff[j]);
    assert ByteLength(diff[j]) <= MAX_LINE_BYTES;
  }
}
