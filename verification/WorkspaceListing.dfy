/** The broker's listing of a directory (native/workspace-broker/src/broker_posix.c): a walk that
    counts directories and files alike and stops at a number of scanned entries. */
module WorkspaceListing {
  import opened Wrappers
  import opened WorkspaceFiles

  /** An entry of a directory; the broker lists regular files and goes into directories. */
  datatype Entry = File(path: Path) | Folder(name: string, entries: seq<Entry>) | Other

  /** The state of a walk: the paths listed, the entries scanned, and whether it was cut. */
  datatype Scan = Scan(paths: seq<Path>, scanned: nat, truncated: bool)

  // ----- the order of a walk

  /** The entries below a directory in the order of the walk, a file told by its path. */
  function Preorder(entries: seq<Entry>): seq<Option<Path>> {
    if entries == [] then [] else Below(entries[0]) + Preorder(entries[1..])
  }

  function Below(entry: Entry): (r: seq<Option<Path>>)
    ensures r != []
  {
    match entry
    case File(path) => [Some(path)]
    case Folder(_, entries) => [None] + Preorder(entries)
    case Other => [None]
  }

  function PathsIn(order: seq<Option<Path>>): seq<Path> {
    if order == [] then []
    else (if order[0].Some? then [order[0].value] else []) + PathsIn(order[1..])
  }

  /** A walk that scans the given entries, one after the other. */
  function Scanned(scan: Scan, order: seq<Option<Path>>, maximum: nat): Scan
    decreases |order|
  {
    if order == [] || scan.truncated then scan
    else if scan.scanned >= maximum then scan.(truncated := true)
    else Scanned(Scan(scan.paths + PathsIn(order[..1]), scan.scanned + 1, false), order[1..], maximum)
  }

  lemma {:induction false} ScannedConcat(scan: Scan, left: seq<Option<Path>>, right: seq<Option<Path>>, maximum: nat)
    ensures Scanned(scan, left + right, maximum) == Scanned(Scanned(scan, left, maximum), right, maximum)
    decreases |left|
  {
    if left == [] {
      assert left + right == right;
    } else if !scan.truncated && scan.scanned < maximum {
      assert (left + right)[..1] == left[..1] && (left + right)[1..] == left[1..] + right;
      ScannedConcat(Scan(scan.paths + PathsIn(left[..1]), scan.scanned + 1, false), left[1..], right, maximum);
    }
  }

  lemma {:induction false} PathsConcat(left: seq<Option<Path>>, right: seq<Option<Path>>)
    ensures PathsIn(left + right) == PathsIn(left) + PathsIn(right)
  {
    if left == [] {
      assert left + right == right;
    } else {
      var all := left + right;
      assert all[0] == left[0] && all[1..] == left[1..] + right;
      PathsConcat(left[1..], right);
      var first := if left[0].Some? then [left[0].value] else [];
      assert first + (PathsIn(left[1..]) + PathsIn(right)) == first + PathsIn(left[1..]) + PathsIn(right);
    }
  }

  lemma {:induction false} PathsAtMost(order: seq<Option<Path>>)
    ensures |PathsIn(order)| <= |order|
  {
    if order != [] {
      PathsAtMost(order[1..]);
    }
  }

  // ----- the walk

  class PathList {
    const maximum: nat
    var paths: seq<Path>
    var scanned: nat
    var truncated: bool

    function View(): Scan
      reads this
    {
      Scan(paths, scanned, truncated)
    }

    constructor (maximum: nat)
      ensures this.maximum == maximum && View() == Scan([], 0, false)
    {
      this.maximum := maximum;
      paths, scanned, truncated := [], 0, false;
    }

    method AppendPath(path: Path)
      modifies this`paths, this`truncated
      ensures if |old(paths)| >= maximum then truncated && paths == old(paths)
              else paths == old(paths) + [path] && truncated == old(truncated)
    {
      if |paths| >= maximum {
        truncated := true;
        return;
      }
      paths := paths + [path];
    }

    method WalkDirectory(entries: seq<Entry>)
      requires |paths| <= scanned <= maximum
      modifies this`paths, this`scanned, this`truncated
      ensures View() == Scanned(old(View()), Preorder(entries), maximum)
      ensures |paths| <= scanned <= maximum
      decreases entries
    {
      var k := 0;
      while !truncated && k < |entries|
        invariant 0 <= k <= |entries| && |paths| <= scanned <= maximum
        invariant Scanned(View(), Preorder(entries[k..]), maximum)
            == Scanned(old(View()), Preorder(entries), maximum)
        decreases |entries| - k, !truncated
      {
        ghost var before := View();
        ghost var below := Below(entries[k]);
        WalkSplits(before, entries, k, maximum);
        if scanned >= maximum {
          truncated := true;
          break;
        }
        scanned := scanned + 1;
        match entries[k] {
          case File(path) => AppendPath(path);
          case Folder(_, inner) => WalkDirectory(inner);
          case Other =>
        }
        assert View() == Scanned(before, below, maximum) by {
          EntryScanned(before, entries[k], maximum);
        }
        k := k + 1;
      }
    }
  }

  lemma {:induction false} WalkSplits(scan: Scan, entries: seq<Entry>, k: nat, maximum: nat)
    requires k < |entries|
    ensures Scanned(scan, Preorder(entries[k..]), maximum)
         == Scanned(Scanned(scan, Below(entries[k]), maximum), Preorder(entries[k + 1..]), maximum)
  {
    assert entries[k..][1..] == entries[k + 1..];
    ScannedConcat(scan, Below(entries[k]), Preorder(entries[k + 1..]), maximum);
  }

  lemma {:induction false} EntryScanned(scan: Scan, entry: Entry, maximum: nat)
    requires !scan.truncated && scan.scanned < maximum
    ensures Scanned(scan, Below(entry), maximum)
         == match entry
            case File(path) => Scan(scan.paths + [path], scan.scanned + 1, false)
            case Folder(_, inner) => Scanned(scan.(scanned := scan.scanned + 1), Preorder(inner), maximum)
            case Other => scan.(scanned := scan.scanned + 1)
  {
    var below, rest := Below(entry), if entry.Folder? then Preorder(entry.entries) else [];
    var paths := if entry.File? then [entry.path] else [];
    assert below[1..] == rest && below[..1] == [below[0]];
    assert PathsIn([below[0]]) == paths by {
      assert [below[0]][1..] == [];
    }
    assert scan.paths + [] == scan.paths;
    assert Scanned(scan, below, maximum) == Scanned(Scan(scan.paths + paths, scan.scanned + 1, false), rest, maximum);
  }

  // ----- main results

  function Least(a: nat, b: nat): nat {
    if a <= b then a else b
  }

  function Listing(entries: seq<Entry>, maximum: nat): Scan {
    Scanned(Scan([], 0, false), Preorder(entries), maximum)
  }

  lemma {:induction false} ScannedIs(scan: Scan, order: seq<Option<Path>>, maximum: nat)
    requires scan.scanned <= maximum && !scan.truncated
    ensures var n := Least(|order|, maximum - scan.scanned);
            Scanned(scan, order, maximum)
            == Scan(scan.paths + PathsIn(order[..n]), scan.scanned + n, |order| > maximum - scan.scanned)
    decreases |order|
  {
    var n := Least(|order|, maximum - scan.scanned);
    if order == [] || scan.scanned == maximum {
      assert order[..n] == [];
    } else {
      ScannedIs(Scan(scan.paths + PathsIn(order[..1]), scan.scanned + 1, false), order[1..], maximum);
      assert order[..1] + order[1..][..n - 1] == order[..n];
      PathsConcat(order[..1], order[1..][..n - 1]);
    }
  }

  /** A listing holds the files among the first entries of the walk, as many entries as it may scan,
      and is marked as cut exactly when there are more. */
  lemma {:induction false} ListingIs(entries: seq<Entry>, maximum: nat)
    ensures var order := Preorder(entries); var n := Least(|order|, maximum);
            Listing(entries, maximum) == Scan(PathsIn(order[..n]), n, |order| > maximum)
  {
    ScannedIs(Scan([], 0, false), Preorder(entries), maximum);
  }

  /** A listing is complete exactly when behind the entries scanned there is no file; so it is
      complete unless it is marked as cut. */
  lemma {:induction false} CompleteExactly(entries: seq<Entry>, maximum: nat)
    ensures var order := Preorder(entries); var n := Least(|order|, maximum);
            Listing(entries, maximum).paths == PathsIn(order) <==> PathsIn(order[n..]) == []
    ensures !Listing(entries, maximum).truncated ==> Listing(entries, maximum).paths == PathsIn(Preorder(entries))
  {
    var order := Preorder(entries);
    var n := Least(|order|, maximum);
    ListingIs(entries, maximum);
    PathsConcat(order[..n], order[n..]);
    assert order[..n] + order[n..] == order;
    assert |PathsIn(order)| == |PathsIn(order[..n])| + |PathsIn(order[n..])|;
  }

  /** Directories of at most two files. */
  predicate Small(entries: seq<Entry>) {
    forall k | 0 <= k < |entries| :: entries[k].Folder? && |entries[k].entries| <= 2
                                     && forall i | 0 <= i < |entries[k].entries| :: !entries[k].entries[i].Folder?
  }

  lemma {:induction false} FlatOrder(entries: seq<Entry>)
    requires forall i | 0 <= i < |entries| :: !entries[i].Folder?
    ensures |Preorder(entries)| == |entries|
  {
    if entries != [] {
      FlatOrder(entries[1..]);
    }
  }

  lemma {:induction false} TwoThirds(entries: seq<Entry>, n: nat)
    requires Small(entries) && n <= |Preorder(entries)|
    ensures 3 * |PathsIn(Preorder(entries)[..n])| <= 2 * n
    decreases |entries|
  {
    if entries != [] {
      var below, rest := Below(entries[0]), Preorder(entries[1..]);
      FlatOrder(entries[0].entries);
      assert Preorder(entries) == below + rest;
      var m := Least(n, |below|);
      assert (below + rest)[..n] == below[..m] + rest[..n - m];
      PathsConcat(below[..m], rest[..n - m]);
      TwoThirds(entries[1..], n - m);
      if m > 0 {
        assert below[..m][0] == None;
        PathsAtMost(below[..m][1..]);
      }
    }
  }

  /** In directories of at most two files, at most two thirds of the entries scanned are files. */
  lemma {:induction false} SmallListsFew(entries: seq<Entry>, maximum: nat)
    requires Small(entries)
    ensures 3 * |Listing(entries, maximum).paths| <= 2 * maximum
  {
    ListingIs(entries, maximum);
    TwoThirds(entries, Least(|Preorder(entries)|, maximum));
  }

  /** As many empty directories as may be scanned hide everything behind them. */
  lemma {:induction false} EmptyFoldersHide(entries: seq<Entry>, maximum: nat)
    requires maximum <= |entries| && forall k | 0 <= k < maximum :: entries[k].Folder? && entries[k].entries == []
    ensures Listing(entries, maximum).paths == []
  {
    ListingIs(entries, maximum);
    EmptyOrder(entries, maximum);
    NoPaths(maximum);
  }

  function Nones(n: nat): seq<Option<Path>> {
    seq(n, _ => None)
  }

  lemma {:induction false} EmptyOrder(entries: seq<Entry>, n: nat)
    requires n <= |entries| && forall k | 0 <= k < n :: entries[k].Folder? && entries[k].entries == []
    ensures Preorder(entries) == Nones(n) + Preorder(entries[n..])
  {
    if n > 0 {
      EmptyOrder(entries[1..], n - 1);
      assert Below(entries[0]) == [None] + Preorder([]) == [None];
      assert entries[1..][n - 1..] == entries[n..];
      assert Nones(n) == [None] + Nones(n - 1);
    } else {
      assert entries[0..] == entries;
    }
  }

  lemma {:induction false} NoPaths(n: nat)
    ensures PathsIn(Nones(n)) == []
  {
    if n > 0 {
      assert Nones(n)[1..] == Nones(n - 1);
      NoPaths(n - 1);
    }
  }
}
