/** The recovery vault over runs of operations and restores: what it holds, what a listing shows of
    it, and when its limits hold (src/runtime/structured-files.ts). */
module RecoveryVault {
  import opened Wrappers
  import opened Sets
  import opened WorkspaceFiles
  import opened WorkspaceListing
  import opened StructuredFiles

  function VaultPaths(files: Files): set<Path> {
    set path | path in files && path.Vault?
  }

  ghost function TotalSize(files: Files, paths: set<Path>): nat
    requires paths <= files.Keys
  {
    if paths == {} then 0
    else
      var path :| path in paths;
      Size(files[path]) + TotalSize(files, paths - {path})
  }

  ghost function VaultBytes(files: Files): nat {
    TotalSize(files, VaultPaths(files))
  }

  lemma {:induction false} TotalSizeSplit(files: Files, paths: set<Path>, path: Path)
    requires paths <= files.Keys && path in paths
    ensures TotalSize(files, paths) == Size(files[path]) + TotalSize(files, paths - {path})
    decreases |paths|
  {
    var other :| other in paths && TotalSize(files, paths) == Size(files[other]) + TotalSize(files, paths - {other});
    if other != path {
      TotalSizeSplit(files, paths - {other}, path);
      TotalSizeSplit(files, paths - {path}, other);
      assert paths - {other} - {path} == paths - {path} - {other};
    }
  }

  lemma {:induction false} TotalSizeFrame(files: Files, files': Files, paths: set<Path>)
    requires paths <= files.Keys && paths <= files'.Keys && forall path | path in paths :: files'[path] == files[path]
    ensures TotalSize(files', paths) == TotalSize(files, paths)
    decreases |paths|
  {
    if paths != {} {
      var path :| path in paths;
      TotalSizeSplit(files, paths, path);
      TotalSizeSplit(files', paths, path);
      TotalSizeFrame(files, files', paths - {path});
    }
  }

  // ----- what a walk through the vault meets

  /** A directory of the vault: the files of one operation, in any order. */
  ghost predicate ShowsFolder(folder: Entry, files: Files) {
    && folder.Folder?
    && (forall i | 0 <= i < |folder.entries| :: folder.entries[i].File?)
    && NoRepeat(folder.entries)
    && forall path :: File(path) in folder.entries <==> path in VaultPaths(files) && path.operation == folder.name
  }

  ghost predicate ShowsFolders(vault: seq<Entry>, files: Files) {
    && (forall i | 0 <= i < |vault| :: ShowsFolder(vault[i], files))
    && NoRepeat(Names(vault))
  }

  function Names(vault: seq<Entry>): seq<string> {
    seq(|vault|, i requires 0 <= i < |vault| => if vault[i].Folder? then vault[i].name else "")
  }

  /** The vault as the walk meets it: its directories in any order, each with its files. */
  ghost predicate Shows(vault: seq<Entry>, files: Files, folders: set<string>) {
    && ShowsFolders(vault, files) && SetOf(Names(vault)) == folders
    && forall path | path in VaultPaths(files) :: path.operation in folders
  }

  lemma {:induction false} FlatPaths(entries: seq<Entry>)
    requires forall i | 0 <= i < |entries| :: entries[i].File?
    ensures |Preorder(entries)| == |PathsIn(Preorder(entries))| == |entries|
    ensures forall i | 0 <= i < |entries| :: PathsIn(Preorder(entries))[i] == entries[i].path
  {
    if entries != [] {
      FlatPaths(entries[1..]);
      assert Preorder(entries) == [Some(entries[0].path)] + Preorder(entries[1..]);
      assert PathsIn(Preorder(entries)) == [entries[0].path] + PathsIn(Preorder(entries[1..]));
    }
  }

  lemma {:induction false} FolderPaths(folder: Entry, files: Files)
    requires ShowsFolder(folder, files)
    ensures var paths := PathsIn(Below(folder));
            && NoRepeat(paths) && |Below(folder)| == 1 + |paths|
            && forall path :: path in paths <==> path in VaultPaths(files) && path.operation == folder.name
  {
    FlatPaths(folder.entries);
    var paths := PathsIn(Below(folder));
    assert Below(folder)[1..] == Preorder(folder.entries);
    assert paths == PathsIn(Preorder(folder.entries));
    assert forall i | 0 <= i < |paths| :: File(paths[i]) == folder.entries[i];
    forall path
      ensures path in paths <==> File(path) in folder.entries
    {
      if File(path) in folder.entries {
        var i :| 0 <= i < |folder.entries| && folder.entries[i] == File(path);
        assert paths[i] == path;
      }
    }
  }

  lemma {:induction false} ShownPaths(vault: seq<Entry>, files: Files)
    requires ShowsFolders(vault, files)
    ensures var paths := PathsIn(Preorder(vault));
            && NoRepeat(paths) && |Preorder(vault)| == |vault| + |paths|
            && forall path :: path in paths <==> path in VaultPaths(files) && path.operation in Names(vault)
  {
    if vault != [] {
      var rest := vault[1..];
      assert Names(vault) == [vault[0].name] + Names(rest);
      assert NoRepeat(Names(rest)) by {
        assert forall i | 0 <= i < |Names(rest)| :: Names(rest)[i] == Names(vault)[i + 1];
      }
      assert vault[0].name !in Names(rest) by {
        assert forall i | 0 <= i < |Names(rest)| :: Names(rest)[i] == Names(vault)[i + 1] != Names(vault)[0];
      }
      ShownPaths(rest, files);
      FolderPaths(vault[0], files);
      PathsConcat(Below(vault[0]), Preorder(rest));
      NoRepeatConcat(PathsIn(Below(vault[0])), PathsIn(Preorder(rest)));
    }
  }

  lemma {:induction false} NoRepeatConcat<T>(left: seq<T>, right: seq<T>)
    requires NoRepeat(left) && NoRepeat(right) && forall x | x in left :: x !in right
    ensures NoRepeat(left + right)
  {
    var all := left + right;
    forall i, j | 0 <= i < j < |all|
      ensures all[i] != all[j]
    {
      if i < |left| <= j {
        assert all[i] in left && all[j] in right;
      }
    }
  }

  /** What a walk through the whole vault lists: each file once. */
  lemma {:induction false} ShownOnce(vault: seq<Entry>, files: Files, folders: set<string>)
    requires Shows(vault, files, folders)
    ensures var paths := PathsIn(Preorder(vault));
            && NoRepeat(paths) && SetOf(paths) == VaultPaths(files) && |paths| == |VaultPaths(files)|
            && |Preorder(vault)| == |folders| + |VaultPaths(files)|
  {
    var paths := PathsIn(Preorder(vault));
    ShownPaths(vault, files);
    assert forall path | path in VaultPaths(files) :: path.operation in SetOf(Names(vault));
    NoRepeatSize(paths);
    NoRepeatSize(Names(vault));
  }

  const SCANNED: nat := MAX_RECOVERY_ENTRIES + 1

  /** What the listing makes of it: files of the vault, each once; all of them unless the listing is
      cut, which it is exactly when directories and files are more than 101 together. */
  lemma {:induction false} ListedExactly(vault: seq<Entry>, files: Files, folders: set<string>)
    requires Shows(vault, files, folders)
    ensures var paths := Listed(vault);
            && NoRepeat(paths) && SetOf(paths) <= VaultPaths(files) && |paths| <= |VaultPaths(files)|
            && (Listing(vault, SCANNED).truncated <==> |folders| + |VaultPaths(files)| > SCANNED)
            && (|paths| == |VaultPaths(files)| <==> SetOf(paths) == VaultPaths(files))
            && (!Listing(vault, SCANNED).truncated ==> SetOf(paths) == VaultPaths(files))
  {
    var order := Preorder(vault);
    var n := Least(|order|, SCANNED);
    ShownOnce(vault, files, folders);
    ListingIs(vault, SCANNED);
    CompleteExactly(vault, SCANNED);
    PathsConcat(order[..n], order[n..]);
    assert order[..n] + order[n..] == order;
    var paths := Listed(vault);
    assert PathsIn(order)[..|paths|] == paths;
    assert NoRepeat(paths);
    NoRepeatSize(paths);
    if |paths| == |VaultPaths(files)| {
      assert paths == PathsIn(order);
    }
  }

  // ----- the byte sum

  lemma {:induction false} OneMorePath(listing: seq<Path>, k: nat)
    requires k < |listing| && NoRepeat(listing)
    ensures listing[k] in SetOf(listing[..k + 1]) && SetOf(listing[..k + 1]) <= SetOf(listing)
    ensures SetOf(listing[..k + 1]) - {listing[k]} == SetOf(listing[..k])
  {
    assert listing[..k + 1] == listing[..k] + [listing[k]];
    assert listing[k] !in listing[..k];
  }

  lemma {:induction false} TotalSizeMonotone(files: Files, small: set<Path>, large: set<Path>)
    requires small <= large <= files.Keys
    ensures TotalSize(files, small) <= TotalSize(files, large)
    decreases |small|
  {
    if small != {} {
      var path :| path in small;
      TotalSizeSplit(files, small, path);
      TotalSizeSplit(files, large, path);
      TotalSizeMonotone(files, small - {path}, large - {path});
    }
  }

  /** The size of the first n paths listed. */
  ghost function ListedSize(files: Files, listing: seq<Path>, n: nat): nat
    requires n <= |listing| && SetOf(listing) <= files.Keys
  {
    assert SetOf(listing[..n]) <= SetOf(listing);
    TotalSize(files, SetOf(listing[..n]))
  }

  lemma {:induction false} ListedSizeNext(files: Files, listing: seq<Path>, k: nat)
    requires k < |listing| && NoRepeat(listing) && SetOf(listing) <= files.Keys
    ensures ListedSize(files, listing, k + 1) == ListedSize(files, listing, k) + SizeAt(files, listing[k])
    ensures ListedSize(files, listing, k + 1) <= TotalSize(files, SetOf(listing))
  {
    OneMorePath(listing, k);
    TotalSizeSplit(files, SetOf(listing[..k + 1]), listing[k]);
    TotalSizeMonotone(files, SetOf(listing[..k + 1]), SetOf(listing));
  }

  /** The sum over a listing is the size of what is listed, or is over the limit as that is. */
  lemma {:induction false} SummedExactly(files: Files, listing: seq<Path>, k: nat)
    requires k <= |listing| && NoRepeat(listing) && SetOf(listing) <= files.Keys
    ensures var total, sum := TotalSize(files, SetOf(listing)),
                              Summed(files, listing, k, ListedSize(files, listing, k));
            sum == total || (sum > MAX_RECOVERY_BYTES && total > MAX_RECOVERY_BYTES)
    decreases |listing| - k
  {
    if k == |listing| {
      assert listing[..k] == listing;
    } else {
      ListedSizeNext(files, listing, k);
      if ListedSize(files, listing, k + 1) <= MAX_RECOVERY_BYTES {
        SummedExactly(files, listing, k + 1);
      }
    }
  }

  /** The counted use is that of the vault when directories and files are at most 101 together, in
      whatever order the walk meets them; a byte sum over the limit is only told to be over it. */
  lemma {:induction false} UsageExactly(vault: seq<Entry>, files: Files, folders: set<string>)
    requires Shows(vault, files, folders) && |folders| + |VaultPaths(files)| <= SCANNED
    ensures var usage := UsageOf(files, vault);
            && usage.entries == |VaultPaths(files)|
            && (usage.bytes == VaultBytes(files)
                || (usage.bytes > MAX_RECOVERY_BYTES && VaultBytes(files) > MAX_RECOVERY_BYTES))
  {
    ListedExactly(vault, files, folders);
    assert Listed(vault)[..0] == [];
    SummedExactly(files, Listed(vault), 0);
  }

  // ----- in every order

  lemma {:induction false} Enumerate(paths: set<Path>) returns (entries: seq<Entry>)
    ensures forall i | 0 <= i < |entries| :: entries[i].File?
    ensures NoRepeat(entries) && forall path :: File(path) in entries <==> path in paths
  {
    if paths == {} {
      entries := [];
    } else {
      var path :| path in paths;
      var rest := Enumerate(paths - {path});
      entries := rest + [File(path)];
    }
  }

  lemma {:induction false} ShowFolder(files: Files, name: string) returns (folder: Entry)
    ensures ShowsFolder(folder, files) && folder.name == name
  {
    var entries := Enumerate(set path | path in VaultPaths(files) && path.operation == name);
    folder := Folder(name, entries);
  }

  lemma {:induction false} ShowFolders(files: Files, folders: set<string>) returns (vault: seq<Entry>)
    ensures ShowsFolders(vault, files) && SetOf(Names(vault)) == folders
  {
    if folders == {} {
      vault := [];
    } else {
      var name :| name in folders;
      var front := ShowFolders(files, folders - {name});
      var folder := ShowFolder(files, name);
      vault := ShowLast(files, front, folder);
    }
  }

  lemma {:induction false} ShowLast(files: Files, front: seq<Entry>, folder: Entry) returns (vault: seq<Entry>)
    requires ShowsFolders(front, files) && ShowsFolder(folder, files) && folder.name !in SetOf(Names(front))
    ensures vault == front + [folder] && ShowsFolders(vault, files)
    ensures SetOf(Names(vault)) == SetOf(Names(front)) + {folder.name}
  {
    vault := front + [folder];
    assert Names(vault) == Names(front) + [folder.name];
    assert forall i | 0 <= i < |front| :: vault[i] == front[i];
    NoRepeatConcat(Names(front), [folder.name]);
  }

  lemma {:induction false} PreorderConcat(left: seq<Entry>, right: seq<Entry>)
    ensures Preorder(left + right) == Preorder(left) + Preorder(right)
  {
    if left == [] {
      assert left + right == right;
    } else {
      assert (left + right)[1..] == left[1..] + right;
      PreorderConcat(left[1..], right);
    }
  }

  lemma {:induction false} LastIsMissed(order: seq<Option<Path>>, n: nat)
    requires n < |order| && order[|order| - 1].Some?
    ensures |PathsIn(order[..n])| < |PathsIn(order)|
  {
    var last := order[|order| - 1];
    assert order[n..] == order[n..|order| - 1] + [last];
    PathsConcat(order[n..|order| - 1], [last]);
    assert [last][1..] == [];
    PathsConcat(order[..n], order[n..]);
    assert order[..n] + order[n..] == order;
  }

  /** Of more than 101 directories and files, some order of the walk misses a file. */
  lemma {:induction false} SomeOrderMisses(files: Files, folders: set<string>, path: Path) returns (vault: seq<Entry>)
    requires path in VaultPaths(files) && forall path | path in VaultPaths(files) :: path.operation in folders
    requires |folders| + |VaultPaths(files)| > SCANNED
    ensures Shows(vault, files, folders) && |Listed(vault)| < |VaultPaths(files)|
  {
    var front := ShowFolders(files, folders - {path.operation});
    var folder := ShowFolder(files, path.operation);
    vault := ShowLast(files, front, folder);
    assert File(path) in folder.entries;
    PreorderConcat(front, [folder]);
    assert [folder][1..] == [] && Preorder([folder]) == Below(folder) + Preorder([]) == Below(folder);
    LastIsFile(folder.entries);
    ShownOnce(vault, files, folders);
    LastIsMissed(Preorder(vault), SCANNED);
    ListingIs(vault, SCANNED);
  }

  lemma {:induction false} LastIsFile(entries: seq<Entry>)
    requires entries != [] && forall i | 0 <= i < |entries| :: entries[i].File?
    ensures Preorder(entries) != [] && Preorder(entries)[|Preorder(entries)| - 1].Some?
  {
    if |entries| > 1 {
      LastIsFile(entries[1..]);
    } else {
      assert Preorder(entries[1..]) == [];
    }
  }

  /** The vault's files are counted right in every order of the walk exactly when there are none or
      when directories and files are at most 101 together. */
  lemma {:induction false} CountedInEveryOrderExactly(files: Files, folders: set<string>)
    requires forall path | path in VaultPaths(files) :: path.operation in folders
    ensures (forall vault | Shows(vault, files, folders) :: UsageOf(files, vault).entries == |VaultPaths(files)|)
       <==> VaultPaths(files) == {} || |folders| + |VaultPaths(files)| <= SCANNED
  {
    forall vault | Shows(vault, files, folders)
      ensures |Listed(vault)| <= |VaultPaths(files)|
      ensures |folders| + |VaultPaths(files)| <= SCANNED ==> |Listed(vault)| == |VaultPaths(files)|
    {
      ListedExactly(vault, files, folders);
    }
    if VaultPaths(files) != {} && |folders| + |VaultPaths(files)| > SCANNED {
      var path :| path in VaultPaths(files);
      var vault := SomeOrderMisses(files, folders, path);
      assert UsageOf(files, vault).entries < |VaultPaths(files)|;
    }
  }
}
