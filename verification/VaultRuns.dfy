/** Runs of file operations and restores, interleaved at their awaits, and the limits of the recovery
    vault over them (src/runtime/structured-files.ts). Only the program writes to the vault. */
module VaultRuns {
  import opened Wrappers
  import opened Sets
  import opened WorkspaceFiles
  import opened WorkspaceListing
  import opened StructuredFiles
  import opened RecoveryVault

  datatype Call = Call(m: Manifest, recordLength: nat, phase: Phase)

  /** A restore that has read its record. */
  datatype Suspended = Suspended(id: string, record: Bytes)

  /** What the calls that ended, and the records that were written, tell of the vault: the record of an
      operation, and its payload once it is done. */
  datatype Kept = Kept(record: Bytes, payload: Option<Bytes>)

  /** The files, the vault's directories, the name of the payload of every operation that began, the
      calls, the suspended restores, and what is kept for the operations. */
  datatype State = State(io: Io, folders: set<string>, names: map<string, string>, calls: map<nat, Call>,
                         restores: map<nat, Suspended>, kept: map<string, Kept>)

  /** `vault` is the order in which the walk meets the vault; `made` says that a failing call has still
      made the operation's directory. */
  datatype Action =
    | Begin(r: nat, m: Manifest, recordLength: nat)
    | Proceed(r: nat, vault: seq<Entry>, made: bool)
    | ReadRecord(q: nat, id: string)
    | PutBack(q: nat)
    | Write(files: Files)

  ghost predicate SameVault(before: Files, after: Files) {
    forall path: Path | path.Vault? :: At(after, path) == At(before, path)
  }

  function KeptAfter(kept: map<string, Kept>, id: string, was: Phase, phase: Phase): map<string, Kept> {
    if was.Recording? && phase.Transferring? then kept[id := Kept(phase.record, None)]
    else if was.Transferring? then
      if phase == Ended(Done) then kept[id := Kept(was.record, Some(was.payload))] else kept - {id}
    else kept
  }

  predicate MakesFolder(was: Phase, phase: Phase, made: bool) {
    was.Recording? && (phase.Transferring? || (made && phase != Ended(Rejected)))
  }

  ghost function Proceeded(faults: nat -> bool, s: State, r: nat, vault: seq<Entry>, made: bool): State
    requires r in s.calls
  {
    var c := s.calls[r];
    var (io, phase) := Step(faults, s.io, c.m, c.phase, vault, c.recordLength);
    s.(io := io, calls := s.calls[r := c.(phase := phase)],
       folders := s.folders + (if MakesFolder(c.phase, phase, made) then {c.m.operationId} else {}),
       kept := KeptAfter(s.kept, c.m.operationId, c.phase, phase))
  }

  ghost function Next(faults: nat -> bool, s: State, action: Action): State {
    match action
    case Begin(r, m, recordLength) =>
      if r in s.calls || m.operationId in s.names then s
      else s.(calls := s.calls[r := Call(m, recordLength, Verifying(0))],
              names := s.names[m.operationId := m.source.name])
    case Proceed(r, vault, made) =>
      if r !in s.calls || (s.calls[r].phase.Reading? && !Shows(vault, s.io.files, s.folders)) then s
      else Proceeded(faults, s, r, vault, made)
    case ReadRecord(q, id) =>
      if RecordPath(id) !in s.io.files || !s.io.files[RecordPath(id)].RecordJson? then s
      else s.(restores := s.restores[q := Suspended(id, s.io.files[RecordPath(id)])])
    case PutBack(q) =>
      if q !in s.restores || !s.restores[q].record.RecordJson? then s
      else
        var id := s.restores[q].id;
        var (io, outcome) := Restored(faults, s.io, id, s.restores[q].record);
        s.(io := io, restores := s.restores - {q}, kept := if outcome == Done then s.kept - {id} else s.kept)
    case Write(files) => if SameVault(s.io.files, files) then s.(io := s.io.(files := files)) else s
  }

  ghost function Run(faults: nat -> bool, s: State, actions: seq<Action>): State
    decreases |actions|
  {
    if actions == [] then s else Run(faults, Next(faults, s, actions[0]), actions[1..])
  }

  /** No vault yet. */
  function Initial(files: Files): State
    requires VaultPaths(files) == {}
  {
    State(Io(files, 0, []), {}, map[], map[], map[], map[])
  }

  // ----- whatever fails: an operation puts at most two files into its directory

  predicate Named(s: State, path: Path) {
    path.Vault? ==> path.operation in s.names && path.name in {"record.json", s.names[path.operation]}
  }

  ghost predicate CallNamed(s: State, c: Call) {
    && Checked(c.m, c.phase)
    && c.m.operationId in s.names && s.names[c.m.operationId] == c.m.source.name
    && (c.phase.Transferring? ==> c.m.operationId in s.folders)
    && (c.phase.Reading? ==> c.phase.source.entries <= 1)
    && (c.phase.Recording? ==> 3 * c.phase.usage.entries <= 2 * SCANNED && c.phase.source.entries <= 1)
  }

  ghost predicate NamedInv(s: State) {
    && (forall path | path in VaultPaths(s.io.files) :: Named(s, path) && path.operation in s.folders)
    && (forall r | r in s.calls :: CallNamed(s, s.calls[r]))
    && (forall q | q in s.restores :: s.restores[q].record.RecordJson?)
  }

  lemma {:induction false} FolderIsSmall(folder: Entry, files: Files, name: string)
    requires ShowsFolder(folder, files)
    requires forall path | path in VaultPaths(files) && path.operation == folder.name ::
               path.name in {"record.json", name}
    ensures |folder.entries| <= 2
  {
    var entries := folder.entries;
    var two := {File(Vault(folder.name, "record.json")), File(Vault(folder.name, name))};
    forall entry | entry in entries
      ensures entry in two
    {
      assert entry == File(entry.path) && File(entry.path) in entries;
    }
    NoRepeatSize(entries);
    SubsetSize(SetOf(entries), two);
  }

  /** So a listing never holds more than 67 files, whatever order the walk takes. */
  lemma {:induction false} FewListed(s: State, files: Files, vault: seq<Entry>)
    requires forall path | path in VaultPaths(files) :: Named(s, path)
    requires Shows(vault, files, s.folders)
    ensures 3 * |Listed(vault)| <= 2 * SCANNED
  {
    forall i | 0 <= i < |vault|
      ensures |vault[i].entries| <= 2
    {
      var name := vault[i].name;
      FolderIsSmall(vault[i], files, if name in s.names then s.names[name] else "");
    }
    SmallListsFew(vault, SCANNED);
  }

  /** A step that neither writes a record nor transfers leaves the vault as it is. */
  lemma {:induction false} StepLeavesVault(faults: nat -> bool, io: Io, m: Manifest, phase: Phase, vault: seq<Entry>,
                                           recordLength: nat)
    requires Checked(m, phase) && !phase.Recording? && !phase.Transferring?
    ensures SameVault(io.files, Step(faults, io, m, phase, vault, recordLength).0.files)
  {
  }

  lemma {:induction false} ProceedKeepsNamed(faults: nat -> bool, s: State, r: nat, vault: seq<Entry>, made: bool)
    requires NamedInv(s) && r in s.calls
    requires s.calls[r].phase.Reading? ==> Shows(vault, s.io.files, s.folders)
    ensures NamedInv(Proceeded(faults, s, r, vault, made))
  {
    var c, s' := s.calls[r], Proceeded(faults, s, r, vault, made);
    assert CallNamed(s, c);
    CallStaysNamed(faults, s, r, vault, made);
    ProceedVault(faults, s, r, vault, made);
  }

  lemma {:induction false} CallStaysNamed(faults: nat -> bool, s: State, r: nat, vault: seq<Entry>, made: bool)
    requires NamedInv(s) && r in s.calls
    requires s.calls[r].phase.Reading? ==> Shows(vault, s.io.files, s.folders)
    ensures var s' := Proceeded(faults, s, r, vault, made);
            CallNamed(s', s'.calls[r])
  {
    var c := s.calls[r];
    assert CallNamed(s, c);
    StepKeepsChecked(faults, s.io, c.m, c.phase, vault, c.recordLength);
    if c.phase.Reading? {
      FewListed(s, s.io.files, vault);
    }
  }

  lemma {:induction false} ProceedVault(faults: nat -> bool, s: State, r: nat, vault: seq<Entry>, made: bool)
    requires NamedInv(s) && r in s.calls
    ensures var s' := Proceeded(faults, s, r, vault, made);
            forall path | path in VaultPaths(s'.io.files) :: Named(s, path) && path.operation in s'.folders
  {
    var c, s' := s.calls[r], Proceeded(faults, s, r, vault, made);
    var id := c.m.operationId;
    assert CallNamed(s, c);
    if c.phase.Recording? || c.phase.Transferring? {
      NothingLost(faults, s.io, c.m, c.phase, vault, c.recordLength);
      forall path | path in VaultPaths(s'.io.files)
        ensures Named(s, path) && path.operation in s'.folders
      {
        if !Touches(c.m, path) {
          assert At(s'.io.files, path) == At(s.io.files, path);
          assert path in VaultPaths(s.io.files);
        } else {
          assert path == RecordPath(id) || path == StoredPath(id, c.m.source);
          if c.phase.Recording? && !MakesFolder(c.phase, s'.calls[r].phase, made) {
            assert s'.io.files == s.io.files;
            assert path in VaultPaths(s.io.files);
          }
        }
      }
    } else {
      StepLeavesVault(faults, s.io, c.m, c.phase, vault, c.recordLength);
      forall path | path in VaultPaths(s'.io.files)
        ensures path in VaultPaths(s.io.files)
      {
        assert At(s'.io.files, path) == At(s.io.files, path);
      }
    }
  }

  lemma {:induction false} NextKeepsNamed(faults: nat -> bool, s: State, action: Action)
    requires NamedInv(s)
    ensures NamedInv(Next(faults, s, action))
  {
    match action
    case Begin(r, m, recordLength) => BeginKeepsNamed(faults, s, r, m, recordLength);
    case Proceed(r, vault, made) =>
      if r in s.calls && (s.calls[r].phase.Reading? ==> Shows(vault, s.io.files, s.folders)) {
        ProceedKeepsNamed(faults, s, r, vault, made);
      }
    case ReadRecord(q, id) =>
    case PutBack(q) => PutBackKeepsNamed(faults, s, q);
    case Write(files) =>
      if SameVault(s.io.files, files) {
        forall path | path in VaultPaths(files)
          ensures path in VaultPaths(s.io.files)
        {
          assert At(files, path) == At(s.io.files, path);
        }
      }
  }

  lemma {:induction false} BeginKeepsNamed(faults: nat -> bool, s: State, r: nat, m: Manifest, recordLength: nat)
    requires NamedInv(s)
    ensures NamedInv(Next(faults, s, Begin(r, m, recordLength)))
  {
    var s' := Next(faults, s, Begin(r, m, recordLength));
    forall other | other in s'.calls
      ensures CallNamed(s', s'.calls[other])
    {
      assert other in s.calls && s' != s && other != r ==> CallNamed(s, s.calls[other]);
      if s' == s {
        assert CallNamed(s, s.calls[other]);
      }
    }
    assert forall path | path in VaultPaths(s.io.files) :: Named(s, path) && Named(s', path);
  }

  lemma {:induction false} PutBackKeepsNamed(faults: nat -> bool, s: State, q: nat)
    requires NamedInv(s)
    ensures NamedInv(Next(faults, s, PutBack(q)))
  {
    if q in s.restores {
      var io := Restored(faults, s.io, s.restores[q].id, s.restores[q].record).0;
      assert VaultPaths(io.files) <= VaultPaths(s.io.files);
    }
  }

  lemma {:induction false} RunKeepsNamed(faults: nat -> bool, s: State, actions: seq<Action>)
    requires NamedInv(s)
    ensures NamedInv(Run(faults, s, actions))
    decreases |actions|
  {
    if actions != [] {
      NextKeepsNamed(faults, s, actions[0]);
      RunKeepsNamed(faults, Next(faults, s, actions[0]), actions[1..]);
    }
  }

  /** In every run, whatever fails and in whatever order the walk meets the vault, a listing holds at
      most 67 files, so the count of files never refuses an operation: it is refused for want of room
      exactly when the sizes listed and its own are over the byte limit. */
  lemma {:induction false} CountNeverRefuses(faults: nat -> bool, files: Files, actions: seq<Action>, r: nat)
    requires VaultPaths(files) == {}
    requires var s := Run(faults, Initial(files), actions); r in s.calls && s.calls[r].phase.Recording?
    ensures var phase := Run(faults, Initial(files), actions).calls[r].phase;
            && phase.usage.entries <= 67
            && (Full(phase.source, phase.usage) <==>
                phase.usage.bytes + phase.source.bytes > MAX_RECOVERY_BYTES)
  {
    RunKeepsNamed(faults, Initial(files), actions);
    var s := Run(faults, Initial(files), actions);
    assert CallNamed(s, s.calls[r]);
  }

  // ----- when nothing fails: the vault holds exactly what is kept

  /** A record is kept for every operation between its record and its payload, and record and payload
      for every operation done and not restored; the vault holds that and nothing else. */
  ghost predicate Matches(files: Files, names: map<string, string>, kept: map<string, Kept>) {
    && (forall id | id in kept :: KeptAt(files, names, id, kept[id]))
    && forall path | path in VaultPaths(files) :: IsKept(names, kept, path)
  }

  ghost predicate KeptAt(files: Files, names: map<string, string>, id: string, k: Kept) {
    && id in names && k.record.RecordJson? && k.record.record.originalPath.name == names[id]
    && Holds(files, RecordPath(id), k.record)
    && (k.payload.Some? ==> names[id] != "record.json" && At(files, Vault(id, names[id])) == k.payload)
  }

  predicate IsKept(names: map<string, string>, kept: map<string, Kept>, path: Path)
    requires path.Vault?
  {
    var id := path.operation;
    && id in kept && id in names
    && (path.name == "record.json" || (path.name == names[id] && kept[id].payload.Some?))
  }

  ghost predicate CallKept(s: State, c: Call) {
    && Checked(c.m, c.phase)
    && c.m.operationId in s.names && s.names[c.m.operationId] == c.m.source.name
    && (c.phase.Transferring? ==>
          && c.m.operationId in s.kept && s.kept[c.m.operationId] == Kept(c.phase.record, None)
          && c.phase.record.RecordJson? && c.phase.record.record.originalPath == c.m.source)
    && (!c.phase.Transferring? && !c.phase.Ended? ==>
          c.m.operationId !in s.kept && forall q | q in s.restores :: s.restores[q].id != c.m.operationId)
  }

  ghost predicate RestoreKept(s: State, r: Suspended) {
    && r.record.RecordJson? && r.id in s.names && r.record.record.originalPath.name == s.names[r.id]
    && (r.id in s.kept ==> s.kept[r.id].record == r.record)
  }

  predicate OwnIds(calls: map<nat, Call>) {
    forall r, r' | r in calls && r' in calls && r != r' :: calls[r].m.operationId != calls[r'].m.operationId
  }

  ghost predicate KeptInv(s: State) {
    && Matches(s.io.files, s.names, s.kept) && OwnIds(s.calls)
    && (forall r | r in s.calls :: CallKept(s, s.calls[r]))
    && (forall q | q in s.restores :: RestoreKept(s, s.restores[q]))
  }

  lemma {:induction false} MatchesSame(before: Files, after: Files, names: map<string, string>, kept: map<string, Kept>)
    requires Matches(before, names, kept) && SameVault(before, after)
    ensures Matches(after, names, kept)
  {
    forall path | path in VaultPaths(after)
      ensures path in VaultPaths(before)
    {
      assert At(after, path) == At(before, path);
    }
    assert forall id | id in kept && id in names ::
        At(after, RecordPath(id)) == At(before, RecordPath(id))
        && At(after, Vault(id, names[id])) == At(before, Vault(id, names[id]));
  }

  /** Only the two vault files of one operation have changed. */
  ghost predicate SameButFor(before: Files, after: Files, id: string, name: string) {
    forall path: Path | path.Vault? && path != RecordPath(id) && path != Vault(id, name) ::
      At(after, path) == At(before, path)
  }

  lemma {:induction false} MatchesAfter(before: Files, after: Files, names: map<string, string>,
                                        kept: map<string, Kept>, kept': map<string, Kept>, id: string)
    requires Matches(before, names, kept) && id in names && SameButFor(before, after, id, names[id])
    requires kept' - {id} == kept - {id} && (id in kept' ==> KeptAt(after, names, id, kept'[id]))
    requires RecordPath(id) in after ==> id in kept'
    requires names[id] != "record.json" && Vault(id, names[id]) in after ==> id in kept' && kept'[id].payload.Some?
    ensures Matches(after, names, kept')
  {
    forall other | other in kept'
      ensures KeptAt(after, names, other, kept'[other])
    {
      if other != id {
        assert other in kept' - {id} && kept'[other] == (kept' - {id})[other] == kept[other];
        assert KeptAt(before, names, other, kept[other]);
        assert At(after, RecordPath(other)) == At(before, RecordPath(other));
        assert At(after, Vault(other, names[other])) == At(before, Vault(other, names[other]));
      }
    }
    forall path | path in VaultPaths(after)
      ensures IsKept(names, kept', path)
    {
      if path != RecordPath(id) && path != Vault(id, names[id]) {
        assert At(after, path) == At(before, path);
        assert IsKept(names, kept, path);
        assert path.operation != id;
        assert path.operation in kept - {id} && kept'[path.operation] == (kept' - {id})[path.operation];
      }
    }
  }

  lemma {:induction false} RecordMatches(faults: nat -> bool, s: State, c: Call)
    requires NoFaultFrom(faults, 0) && Matches(s.io.files, s.names, s.kept) && CallKept(s, c) && c.phase.Recording?
    ensures var (io, phase) := Step(faults, s.io, c.m, c.phase, [], c.recordLength);
            && Matches(io.files, s.names, KeptAfter(s.kept, c.m.operationId, c.phase, phase))
            && (phase.Ended? || (phase.Transferring? && phase.record.RecordJson?
                                 && phase.record.record.originalPath == c.m.source))
  {
    var (io, phase) := Step(faults, s.io, c.m, c.phase, [], c.recordLength);
    var id := c.m.operationId;
    if phase.Transferring? {
      var kept' := s.kept[id := Kept(phase.record, None)];
      assert kept' - {id} == s.kept - {id};
      forall path | path in VaultPaths(s.io.files)
        ensures path.operation != id
      {
        assert IsKept(s.names, s.kept, path);
      }
      MatchesAfter(s.io.files, io.files, s.names, s.kept, kept', id);
    }
  }

  lemma {:induction false} PayloadAbsent(files: Files, names: map<string, string>, kept: map<string, Kept>, id: string)
    requires Matches(files, names, kept) && id in names && names[id] != "record.json"
    ensures Vault(id, names[id]) in files ==> id in kept && kept[id].payload.Some?
  {
    assert Vault(id, names[id]) in files ==> Vault(id, names[id]) in VaultPaths(files);
  }

  lemma {:induction false} TransferMatches(faults: nat -> bool, s: State, c: Call)
    requires NoFaultFrom(faults, 0) && Matches(s.io.files, s.names, s.kept) && CallKept(s, c) && c.phase.Transferring?
    ensures var (io, phase) := Step(faults, s.io, c.m, c.phase, [], c.recordLength);
            phase.Ended? && Matches(io.files, s.names, KeptAfter(s.kept, c.m.operationId, c.phase, phase))
  {
    var (io, outcome) := Guarded(faults, s.io, c.m, c.phase.payload, c.phase.record);
    TransferExactly(faults, s.io, c.m, c.phase.payload, c.phase.record);
    GuardedFails(faults, s.io, c.m, c.phase.payload, c.phase.record);
    if outcome == Done {
      DoneMatches(s, c);
    } else {
      FailureRestoresAll(faults, s.io, c.m, c.phase.payload, c.phase.record);
      FailedMatches(s, c);
    }
  }

  lemma {:induction false} DoneMatches(s: State, c: Call)
    requires Matches(s.io.files, s.names, s.kept) && CallKept(s, c) && c.phase.Transferring?
    requires CanTransfer(s.io.files, c.m, c.phase.payload)
    ensures Matches(Transferred(s.io.files, c.m, c.phase.payload), s.names,
                    s.kept[c.m.operationId := Kept(c.phase.record, Some(c.phase.payload))])
  {
    var id := c.m.operationId;
    var kept' := s.kept[id := Kept(c.phase.record, Some(c.phase.payload))];
    assert KeptAt(s.io.files, s.names, id, s.kept[id]);
    assert kept' - {id} == s.kept - {id};
    MatchesAfter(s.io.files, Transferred(s.io.files, c.m, c.phase.payload), s.names, s.kept, kept', id);
  }

  lemma {:induction false} FailedMatches(s: State, c: Call)
    requires Matches(s.io.files, s.names, s.kept) && CallKept(s, c) && c.phase.Transferring?
    ensures Matches(Without(s.io.files, RecordPath(c.m.operationId), c.phase.record), s.names,
                    s.kept - {c.m.operationId})
  {
    var id := c.m.operationId;
    assert KeptAt(s.io.files, s.names, id, s.kept[id]);
    if c.m.source.name != "record.json" {
      PayloadAbsent(s.io.files, s.names, s.kept, id);
    }
    MatchesAfter(s.io.files, s.io.files - {RecordPath(id)}, s.names, s.kept, s.kept - {id}, id);
  }

  lemma {:induction false} GuardedFails(faults: nat -> bool, io: Io, m: Manifest, bytes: Bytes, record: Bytes)
    ensures Guarded(faults, io, m, bytes, record).1 != Rejected
  {
  }

  /** Putting back one operation's payload takes its two files out of the vault, or changes nothing. */
  lemma {:induction false} PutBackMatches(faults: nat -> bool, s: State, r: Suspended)
    requires NoFaultFrom(faults, 0) && Matches(s.io.files, s.names, s.kept) && RestoreKept(s, r)
    ensures var (io, outcome) := Restored(faults, s.io, r.id, r.record);
            Matches(io.files, s.names, if outcome == Done then s.kept - {r.id} else s.kept)
  {
    var (io, outcome) := Restored(faults, s.io, r.id, r.record);
    var path := r.record.record.originalPath;
    var stored := Vault(r.id, s.names[r.id]);
    if outcome != Rejected {
      RecordHoldsNoOwnHash(r.record);
      assert stored in VaultPaths(s.io.files) && IsKept(s.names, s.kept, stored);
      assert KeptAt(s.io.files, s.names, r.id, s.kept[r.id]);
      if path in s.io.files {
        assert io.files == s.io.files;
      } else {
        assert io.files == s.io.files[path := s.io.files[stored]] - {stored} - {RecordPath(r.id)};
        MatchesAfter(s.io.files, io.files, s.names, s.kept, s.kept - {r.id}, r.id);
      }
    }
  }

  /** No record holds the hash of its own text. */
  lemma {:induction false} RecordHoldsNoOwnHash(record: Bytes)
    requires record.RecordJson?
    ensures Some(Digest(record)) != record.record.beforeHash
  {
  }

  lemma {:induction false} ProceedKeepsKept(faults: nat -> bool, s: State, r: nat, vault: seq<Entry>, made: bool)
    requires NoFaultFrom(faults, 0) && KeptInv(s) && r in s.calls
    ensures KeptInv(Proceeded(faults, s, r, vault, made))
  {
    var c, s' := s.calls[r], Proceeded(faults, s, r, vault, made);
    assert CallKept(s, c);
    ProceedMatches(faults, s, c, vault, made);
    forall other | other in s'.calls
      ensures CallKept(s', s'.calls[other])
    {
      assert CallKept(s, s.calls[other]);
      if other == r {
        ProceedsKept(faults, s, r, vault, made);
      } else {
        assert s.calls[other].m.operationId != c.m.operationId;
        OtherStaysKept(faults, s, r, vault, made, s.calls[other]);
      }
    }
    assert forall q | q in s.restores :: RestoreKept(s, s.restores[q]) && RestoreKept(s', s.restores[q]);
  }

  lemma {:induction false} ProceedsKept(faults: nat -> bool, s: State, r: nat, vault: seq<Entry>, made: bool)
    requires NoFaultFrom(faults, 0) && Matches(s.io.files, s.names, s.kept) && r in s.calls && CallKept(s, s.calls[r])
    ensures var s' := Proceeded(faults, s, r, vault, made); CallKept(s', s'.calls[r])
  {
    var c := s.calls[r];
    ProceedMatches(faults, s, c, vault, made);
    StepKeepsChecked(faults, s.io, c.m, c.phase, vault, c.recordLength);
  }

  lemma {:induction false} OtherStaysKept(faults: nat -> bool, s: State, r: nat, vault: seq<Entry>, made: bool, c: Call)
    requires r in s.calls && CallKept(s, c) && c.m.operationId != s.calls[r].m.operationId
    ensures CallKept(Proceeded(faults, s, r, vault, made), c)
  {
  }

  lemma {:induction false} ProceedMatches(faults: nat -> bool, s: State, c: Call, vault: seq<Entry>, made: bool)
    requires NoFaultFrom(faults, 0) && Matches(s.io.files, s.names, s.kept) && CallKept(s, c)
    ensures var (io, phase) := Step(faults, s.io, c.m, c.phase, vault, c.recordLength);
            && Matches(io.files, s.names, KeptAfter(s.kept, c.m.operationId, c.phase, phase))
            && (c.phase.Recording? ==>
                  phase.Ended? || (phase.Transferring? && phase.record.RecordJson?
                                   && phase.record.record.originalPath == c.m.source))
            && (c.phase.Transferring? ==> phase.Ended?)
  {
    if c.phase.Recording? {
      RecordMatches(faults, s, c);
    } else if c.phase.Transferring? {
      TransferMatches(faults, s, c);
    } else {
      StepLeavesVault(faults, s.io, c.m, c.phase, vault, c.recordLength);
      MatchesSame(s.io.files, Step(faults, s.io, c.m, c.phase, vault, c.recordLength).0.files, s.names, s.kept);
    }
  }

  lemma {:induction false} NextKeepsKept(faults: nat -> bool, s: State, action: Action)
    requires NoFaultFrom(faults, 0) && KeptInv(s)
    ensures KeptInv(Next(faults, s, action))
  {
    match action
    case Begin(r, m, recordLength) => BeginKeepsKept(faults, s, r, m, recordLength);
    case Proceed(r, vault, made) =>
      if r in s.calls {
        ProceedKeepsKept(faults, s, r, vault, made);
      }
    case ReadRecord(q, id) => ReadKeepsKept(faults, s, q, id);
    case PutBack(q) => PutBackKeepsKept(faults, s, q);
    case Write(files) => WriteKeepsKept(faults, s, files);
  }

  lemma {:induction false} BeginKeepsKept(faults: nat -> bool, s: State, r: nat, m: Manifest, recordLength: nat)
    requires KeptInv(s)
    ensures KeptInv(Next(faults, s, Begin(r, m, recordLength)))
  {
    var s' := Next(faults, s, Begin(r, m, recordLength));
    if s' != s {
      assert m.operationId !in s.kept;
      forall other | other in s.calls
        ensures CallKept(s', s.calls[other]) && s.calls[other].m.operationId != m.operationId
      {
        assert CallKept(s, s.calls[other]);
      }
      forall q | q in s.restores
        ensures RestoreKept(s', s.restores[q]) && s.restores[q].id != m.operationId
      {
        assert RestoreKept(s, s.restores[q]);
      }
      assert Matches(s.io.files, s'.names, s.kept) by {
        assert forall id | id in s.kept :: KeptAt(s.io.files, s.names, id, s.kept[id])
                                           && KeptAt(s.io.files, s'.names, id, s.kept[id]);
        assert forall path | path in VaultPaths(s.io.files) :: IsKept(s.names, s.kept, path)
                                                               && IsKept(s'.names, s.kept, path);
      }
    }
  }

  lemma {:induction false} ReadKeepsKept(faults: nat -> bool, s: State, q: nat, id: string)
    requires KeptInv(s)
    ensures KeptInv(Next(faults, s, ReadRecord(q, id)))
  {
    var s' := Next(faults, s, ReadRecord(q, id));
    if s' != s {
      assert RecordPath(id) in VaultPaths(s.io.files) && IsKept(s.names, s.kept, RecordPath(id));
      assert KeptAt(s.io.files, s.names, id, s.kept[id]);
      forall other | other in s.calls
        ensures CallKept(s', s.calls[other])
      {
        assert CallKept(s, s.calls[other]);
      }
      forall p | p in s'.restores
        ensures RestoreKept(s', s'.restores[p])
      {
        assert p != q ==> RestoreKept(s, s.restores[p]);
      }
    }
  }

  lemma {:induction false} PutBackKeepsKept(faults: nat -> bool, s: State, q: nat)
    requires NoFaultFrom(faults, 0) && KeptInv(s)
    ensures KeptInv(Next(faults, s, PutBack(q)))
  {
    var s' := Next(faults, s, PutBack(q));
    if q in s.restores && s.restores[q].record.RecordJson? {
      assert RestoreKept(s, s.restores[q]);
      PutBackMatches(faults, s, s.restores[q]);
      forall p | p in s'.restores
        ensures RestoreKept(s', s'.restores[p])
      {
        assert RestoreKept(s, s.restores[p]);
      }
      PutBackLeavesCalls(faults, s, q);
    }
  }

  lemma {:induction false} PutBackLeavesCalls(faults: nat -> bool, s: State, q: nat)
    requires NoFaultFrom(faults, 0) && KeptInv(s) && q in s.restores && s.restores[q].record.RecordJson?
    ensures var s' := Next(faults, s, PutBack(q)); forall r | r in s'.calls :: CallKept(s', s'.calls[r])
  {
    var s', id := Next(faults, s, PutBack(q)), s.restores[q].id;
    assert RestoreKept(s, s.restores[q]);
    forall r | r in s'.calls
      ensures CallKept(s', s'.calls[r])
    {
      assert CallKept(s, s.calls[r]);
      if s.calls[r].phase.Transferring? && s.calls[r].m.operationId == id {
        NotYetStored(faults, s, s.calls[r], s.restores[q].record);
      }
    }
  }

  /** An operation that is still to transfer has no payload to put back. */
  lemma {:induction false} NotYetStored(faults: nat -> bool, s: State, c: Call, record: Bytes)
    requires Matches(s.io.files, s.names, s.kept) && CallKept(s, c) && c.phase.Transferring? && record == c.phase.record
    ensures Restored(faults, s.io, c.m.operationId, record).1 == Rejected
  {
    var id := c.m.operationId;
    assert KeptAt(s.io.files, s.names, id, s.kept[id]);
    RecordHoldsNoOwnHash(record);
    if c.m.source.name != "record.json" {
      PayloadAbsent(s.io.files, s.names, s.kept, id);
    }
  }

  lemma {:induction false} WriteKeepsKept(faults: nat -> bool, s: State, files: Files)
    requires KeptInv(s)
    ensures KeptInv(Next(faults, s, Write(files)))
  {
    var s' := Next(faults, s, Write(files));
    if SameVault(s.io.files, files) {
      MatchesSame(s.io.files, files, s.names, s.kept);
      assert forall r | r in s.calls :: CallKept(s, s.calls[r]) && CallKept(s', s.calls[r]);
      assert forall q | q in s.restores :: RestoreKept(s, s.restores[q]) && RestoreKept(s', s.restores[q]);
    }
  }

  lemma {:induction false} RunKeepsKept(faults: nat -> bool, s: State, actions: seq<Action>)
    requires NoFaultFrom(faults, 0) && KeptInv(s)
    ensures KeptInv(Run(faults, s, actions))
    decreases |actions|
  {
    if actions != [] {
      NextKeepsKept(faults, s, actions[0]);
      RunKeepsKept(faults, Next(faults, s, actions[0]), actions[1..]);
    }
  }

  // ----- the limits

  /** The operations whose payload is in the vault. */
  function Stored(kept: map<string, Kept>): set<string> {
    set id | id in kept && kept[id].payload.Some?
  }

  function KeptSize(k: Kept): nat {
    Size(k.record) + if k.payload.Some? then Size(k.payload.value) else 0
  }

  ghost function KeptBytes(kept: map<string, Kept>): nat
    decreases |kept|
  {
    if kept == map[] then 0
    else
      var id :| id in kept;
      KeptSize(kept[id]) + KeptBytes(kept - {id})
  }

  /** The vault without one operation. */
  function WithoutOne(files: Files, names: map<string, string>, id: string): Files
    requires id in names
  {
    files - {RecordPath(id), Vault(id, names[id])}
  }

  lemma {:induction false} OneApart(files: Files, names: map<string, string>, kept: map<string, Kept>, id: string)
    requires Matches(files, names, kept) && id in kept
    ensures id in names && Matches(WithoutOne(files, names, id), names, kept - {id})
    ensures VaultPaths(files) == VaultPaths(WithoutOne(files, names, id)) + {RecordPath(id)}
                                 + (if kept[id].payload.Some? then {Vault(id, names[id])} else {})
  {
    assert KeptAt(files, names, id, kept[id]);
    var less := WithoutOne(files, names, id);
    if names[id] != "record.json" {
      PayloadAbsent(files, names, kept, id);
    }
    MatchesAfter(files, less, names, kept, kept - {id}, id);
    forall path | path in VaultPaths(files) && path !in less
      ensures path == RecordPath(id) || (kept[id].payload.Some? && path == Vault(id, names[id]))
    {
    }
  }

  lemma {:induction false} OneApartSizes(files: Files, names: map<string, string>, kept: map<string, Kept>, id: string)
    requires Matches(files, names, kept) && id in kept && id in names
    ensures var less := WithoutOne(files, names, id);
            && |VaultPaths(files)| == |VaultPaths(less)| + (if kept[id].payload.Some? then 2 else 1)
            && VaultBytes(files) == VaultBytes(less) + KeptSize(kept[id])
  {
    assert KeptAt(files, names, id, kept[id]);
    var less, record, stored := WithoutOne(files, names, id), RecordPath(id), Vault(id, names[id]);
    var paths := VaultPaths(less);
    OneApart(files, names, kept, id);
    TotalSizeFrame(less, files, paths);
    TotalSizeSplit(files, paths + {record}, record);
    assert paths + {record} - {record} == paths;
    if kept[id].payload.Some? {
      TotalSizeSplit(files, paths + {record} + {stored}, stored);
      assert paths + {record} + {stored} - {stored} == paths + {record};
    } else {
      assert VaultPaths(files) == paths + {record};
    }
  }

  lemma {:induction false} OneLess(kept: map<string, Kept>, id: string)
    requires id in kept
    ensures |kept| == |kept - {id}| + 1
    ensures |Stored(kept)| == |Stored(kept - {id})| + (if kept[id].payload.Some? then 1 else 0)
  {
    assert (kept - {id}).Keys == kept.Keys - {id};
    assert |kept - {id}| == |(kept - {id}).Keys| && |kept| == |kept.Keys|;
    assert Stored(kept - {id}) == Stored(kept) - {id};
  }

  lemma {:induction false} KeptBytesChoice(kept: map<string, Kept>) returns (id: string)
    requires kept != map[]
    ensures id in kept && KeptBytes(kept) == KeptSize(kept[id]) + KeptBytes(kept - {id})
  {
    id :| id in kept && KeptBytes(kept) == KeptSize(kept[id]) + KeptBytes(kept - {id});
  }

  lemma {:induction false} NoneKept(files: Files, names: map<string, string>)
    requires Matches(files, names, map[])
    ensures VaultPaths(files) == {} && Stored(map[]) == {}
  {
  }

  lemma {:induction false} KeptCounts(files: Files, names: map<string, string>, kept: map<string, Kept>)
    requires Matches(files, names, kept)
    ensures |VaultPaths(files)| == |kept| + |Stored(kept)|
    ensures VaultBytes(files) == KeptBytes(kept)
    decreases |kept|
  {
    if kept == map[] {
      NoneKept(files, names);
    } else {
      var id := KeptBytesChoice(kept);
      OneLess(kept, id);
      OneApart(files, names, kept, id);
      OneApartSizes(files, names, kept, id);
      KeptCounts(WithoutOne(files, names, id), names, kept - {id});
    }
  }

  /** In every run in which no call fails for a reason of its own, however operations and restores are
      interleaved, the vault holds the record of every operation from its writing on and the payload of
      every operation done, until the operation is taken back or restored, and nothing else: so its
      limits hold exactly when these are at most 100 and fit in 50 MiB. */
  lemma {:induction false} VaultIsWhatIsKept(faults: nat -> bool, files: Files, actions: seq<Action>)
    requires VaultPaths(files) == {} && NoFaultFrom(faults, 0)
    ensures var s := Run(faults, Initial(files), actions);
            && Matches(s.io.files, s.names, s.kept)
            && |VaultPaths(s.io.files)| == |s.kept| + |Stored(s.kept)|
            && VaultBytes(s.io.files) == KeptBytes(s.kept)
  {
    RunKeepsKept(faults, Initial(files), actions);
    var s := Run(faults, Initial(files), actions);
    KeptCounts(s.io.files, s.names, s.kept);
  }

  lemma {:induction false} KeptBytesSplit(kept: map<string, Kept>, id: string)
    requires id in kept
    ensures KeptBytes(kept) == KeptSize(kept[id]) + KeptBytes(kept - {id})
    decreases |kept|
  {
    var other := KeptBytesChoice(kept);
    if other != id {
      OneLess(kept, other);
      OneLess(kept, id);
      KeptBytesSplit(kept - {other}, id);
      KeptBytesSplit(kept - {id}, other);
      assert kept - {other} - {id} == kept - {id} - {other};
    }
  }

  /** What a step adds to the vault: a record, which the byte check does not count, then a payload. */
  function Adds(was: Phase, phase: Phase): int {
    if was.Recording? && phase.Transferring? then Size(phase.record) as int
    else if was.Transferring? && phase == Ended(Done) then Size(was.payload) as int
    else if was.Transferring? then -(Size(was.record) as int)
    else 0
  }

  lemma {:induction false} KeptAdds(kept: map<string, Kept>, id: string, was: Phase, phase: Phase)
    requires was.Recording? ==> id !in kept
    requires was.Transferring? ==> id in kept && kept[id] == Kept(was.record, None)
    ensures KeptBytes(KeptAfter(kept, id, was, phase)) == KeptBytes(kept) + Adds(was, phase)
  {
    var kept' := KeptAfter(kept, id, was, phase);
    if id in kept {
      KeptBytesSplit(kept, id);
    }
    if id in kept' {
      KeptBytesSplit(kept', id);
    }
    assert kept' - {id} == kept - {id};
    assert id !in kept ==> kept - {id} == kept;
    assert id !in kept' ==> kept' - {id} == kept';
  }

  /** Each step of an operation changes the bytes of the vault by exactly that. */
  lemma {:induction false} ProceedAddsExactly(faults: nat -> bool, s: State, r: nat, vault: seq<Entry>, made: bool)
    requires NoFaultFrom(faults, 0) && KeptInv(s) && r in s.calls
    ensures var s' := Proceeded(faults, s, r, vault, made);
            VaultBytes(s'.io.files) == VaultBytes(s.io.files) + Adds(s.calls[r].phase, s'.calls[r].phase)
  {
    var s' := Proceeded(faults, s, r, vault, made);
    assert CallKept(s, s.calls[r]);
    ProceedMatches(faults, s, s.calls[r], vault, made);
    KeptCounts(s.io.files, s.names, s.kept);
    KeptCounts(s'.io.files, s.names, s'.kept);
    KeptAdds(s.kept, s.calls[r].m.operationId, s.calls[r].phase, s'.calls[r].phase);
  }

  /** When the sum counted the whole vault, still counts it when the record is written, and the payload
      has the size of the snapshot, the operation exceeds the byte limit by its record at most. */
  lemma {:induction false} OverrunAtMostRecord(faults: nat -> bool, s: State, r: nat, vault: seq<Entry>, made: bool)
    requires NoFaultFrom(faults, 0) && KeptInv(s) && r in s.calls && s.calls[r].phase.Recording?
    requires var phase := s.calls[r].phase;
             phase.usage.bytes == VaultBytes(s.io.files) && phase.source.bytes == Size(phase.payload)
             && phase.usage.bytes <= MAX_RECOVERY_BYTES
    ensures var s1 := Proceeded(faults, s, r, vault, made); var s2 := Proceeded(faults, s1, r, vault, made);
            && VaultBytes(s1.io.files) <= MAX_RECOVERY_BYTES + s.calls[r].recordLength
            && VaultBytes(s2.io.files) <= MAX_RECOVERY_BYTES + s.calls[r].recordLength
  {
    var s1 := Proceeded(faults, s, r, vault, made);
    var s2 := Proceeded(faults, s1, r, vault, made);
    assert KeptInv(s1) by {
      ProceedKeepsKept(faults, s, r, vault, made);
    }
    ProceedAddsExactly(faults, s, r, vault, made);
    ProceedAddsExactly(faults, s1, r, vault, made);
    RecordsWithinLimit(faults, s.io, s.calls[r], vault);
  }

  lemma {:induction false} RecordsWithinLimit(faults: nat -> bool, io: Io, c: Call, vault: seq<Entry>)
    requires c.phase.Recording?
    ensures var phase := Step(faults, io, c.m, c.phase, vault, c.recordLength).1;
            phase.Ended? || (phase.Transferring? && Size(phase.record) == c.recordLength
                             && phase.payload == c.phase.payload
                             && c.phase.usage.bytes + c.phase.source.bytes <= MAX_RECOVERY_BYTES)
  {
  }

  // ----- deletes pile up

  /** The state with one call in another phase. */
  function InPhase(s: State, r: nat, phase: Phase): State
    requires r in s.calls
  {
    s.(calls := s.calls[r := s.calls[r].(phase := phase)])
  }

  function Proceeding(r: nat, vault: seq<Entry>, n: nat): seq<Action> {
    seq(n, _ => Proceed(r, vault, false))
  }

  lemma {:induction false} MovesOn(faults: nat -> bool, s: State, r: nat, vault: seq<Entry>, was: Phase, phase: Phase,
                                   n: nat)
    requires r in s.calls && !was.Recording? && !was.Transferring? && n > 0
    requires Step(faults, s.io, s.calls[r].m, was, vault, s.calls[r].recordLength) == (s.io, phase)
    requires was.Reading? ==> Shows(vault, s.io.files, s.folders)
    ensures Run(faults, InPhase(s, r, was), Proceeding(r, vault, n))
         == Run(faults, InPhase(s, r, phase), Proceeding(r, vault, n - 1))
  {
    var s0 := InPhase(s, r, was);
    assert Proceeding(r, vault, n)[1..] == Proceeding(r, vault, n - 1);
    assert s0.calls[r := s.calls[r].(phase := phase)] == InPhase(s, r, phase).calls;
    assert s0.folders + {} == s0.folders;
    assert Next(faults, s0, Proceed(r, vault, false)) == InPhase(s, r, phase);
  }

  lemma {:induction false} DeleteChecks(faults: nat -> bool, s: State, r: nat, vault: seq<Entry>)
    requires r in s.calls && s.calls[r].m.destination.None? && SourceVerified(s.io.files, s.calls[r].m)
    ensures Run(faults, InPhase(s, r, Verifying(0)), Proceeding(r, vault, 6))
         == Run(faults, InPhase(s, r, Locating), Proceeding(r, vault, 5))
  {
    MovesOn(faults, s, r, vault, Verifying(0), Locating, 6);
  }

  lemma {:induction false} DeleteLocates(faults: nat -> bool, s: State, r: nat, vault: seq<Entry>)
    requires r in s.calls && SourceVerified(s.io.files, s.calls[r].m)
    ensures Run(faults, InPhase(s, r, Locating), Proceeding(r, vault, 5))
         == Run(faults, InPhase(s, r, Inspecting), Proceeding(r, vault, 4))
  {
    MovesOn(faults, s, r, vault, Locating, Inspecting, 5);
  }

  /** A delete that nobody interferes with, up to its record. */
  lemma {:induction false} DeleteReads(faults: nat -> bool, s: State, r: nat, vault: seq<Entry>)
    requires r in s.calls && s.calls[r].phase == Verifying(0)
    requires s.calls[r].m.capability == Delete && s.calls[r].m.destination.None?
    requires SourceVerified(s.io.files, s.calls[r].m) && Shows(vault, s.io.files, s.folders)
    ensures var files, m := s.io.files, s.calls[r].m;
            var phase := Recording(SnapshotAt(files, m.source), files[m.source], UsageOf(files, vault));
            Run(faults, s, Proceeding(r, vault, 6)) == Run(faults, InPhase(s, r, phase), Proceeding(r, vault, 2))
  {
    var files, m := s.io.files, s.calls[r].m;
    var snapshot := SnapshotAt(files, m.source);
    assert InPhase(s, r, Verifying(0)) == s by {
      assert InPhase(s, r, Verifying(0)).calls == s.calls;
    }
    DeleteChecks(faults, s, r, vault);
    DeleteLocates(faults, s, r, vault);
    MovesOn(faults, s, r, vault, Inspecting, Reading(snapshot), 4);
    MovesOn(faults, s, r, vault, Reading(snapshot), Recording(snapshot, files[m.source], UsageOf(files, vault)), 3);
  }

  /** What a delete has done when it is done. */
  ghost predicate Deletion(s: State, s': State, r: nat)
    requires r in s.calls && s.calls[r].m.source in s.io.files
  {
    var c, files := s.calls[r], s.io.files;
    var record := RecordJson(RecordOf(c.m, SnapshotAt(files, c.m.source)), c.recordLength);
    && s'.io.files == files[RecordPath(c.m.operationId) := record]
                           [StoredPath(c.m.operationId, c.m.source) := files[c.m.source]] - {c.m.source}
    && s'.calls == s.calls[r := c.(phase := Ended(Done))]
    && s'.folders == s.folders + {c.m.operationId} && s'.names == s.names && s'.restores == s.restores
    && s'.kept == s.kept[c.m.operationId := Kept(record, Some(files[c.m.source]))]
  }

  lemma {:induction false} DeleteRecords(faults: nat -> bool, s: State, r: nat, vault: seq<Entry>, usage: Usage)
    requires r in s.calls && s.calls[r].m.source in s.io.files && NoFaultFrom(faults, 0)
    requires RecordPath(s.calls[r].m.operationId) !in s.io.files
    requires !Full(SnapshotAt(s.io.files, s.calls[r].m.source), usage)
    ensures var files, c := s.io.files, s.calls[r];
            var snapshot, payload := SnapshotAt(files, c.m.source), files[c.m.source];
            var record := RecordJson(RecordOf(c.m, snapshot), c.recordLength);
            var s1 := Next(faults, InPhase(s, r, Recording(snapshot, payload, usage)), Proceed(r, vault, false));
            s1 == InPhase(s, r, Transferring(snapshot, payload, record)).(
                    io := Replaced(faults, s.io, RecordPath(c.m.operationId), None, record).0,
                    folders := s.folders + {c.m.operationId},
                    kept := s.kept[c.m.operationId := Kept(record, None)])
            && s1.io.files == files[RecordPath(c.m.operationId) := record]
  {
    var files, c := s.io.files, s.calls[r];
    var snapshot, payload := SnapshotAt(files, c.m.source), files[c.m.source];
    var record := RecordJson(RecordOf(c.m, snapshot), c.recordLength);
    var s0 := InPhase(s, r, Recording(snapshot, payload, usage));
    assert s0.calls[r := c.(phase := Transferring(snapshot, payload, record))]
        == InPhase(s, r, Transferring(snapshot, payload, record)).calls;
  }

  lemma {:induction false} DeleteTransfers(faults: nat -> bool, s: State, r: nat, vault: seq<Entry>)
    requires r in s.calls && s.calls[r].phase.Transferring? && s.calls[r].m.capability == Delete
    requires s.calls[r].m.source.Work? && s.calls[r].m.destination.None? && NoFaultFrom(faults, 0)
    requires CanTransfer(s.io.files, s.calls[r].m, s.calls[r].phase.payload)
    ensures var c := s.calls[r]; var s' := Run(faults, s, Proceeding(r, vault, 1));
            && s'.io.files == Transferred(s.io.files, c.m, c.phase.payload)
            && s'.calls == s.calls[r := c.(phase := Ended(Done))]
            && s'.folders == s.folders && s'.names == s.names && s'.restores == s.restores
            && s'.kept == s.kept[c.m.operationId := Kept(c.phase.record, Some(c.phase.payload))]
  {
    var c := s.calls[r];
    TransferExactly(faults, s.io, c.m, c.phase.payload, c.phase.record);
    var s' := Next(faults, s, Proceed(r, vault, false));
    assert Proceeding(r, vault, 1)[1..] == [];
    assert Run(faults, s, Proceeding(r, vault, 1)) == Run(faults, s', []);
    assert s.folders + {} == s.folders;
  }

  lemma {:induction false} DeleteEnds(faults: nat -> bool, s: State, r: nat, vault: seq<Entry>, usage: Usage)
    requires r in s.calls && s.calls[r].m.capability == Delete && s.calls[r].m.source.Work?
    requires s.calls[r].m.destination.None? && NoFaultFrom(faults, 0)
    requires var files, m := s.io.files, s.calls[r].m;
             && Readable(files, m.source) && !Full(SnapshotAt(files, m.source), usage)
             && m.source.name != "record.json"
             && RecordPath(m.operationId) !in files && StoredPath(m.operationId, m.source) !in files
    ensures var files, m := s.io.files, s.calls[r].m;
            var phase := Recording(SnapshotAt(files, m.source), files[m.source], usage);
            Deletion(s, Run(faults, InPhase(s, r, phase), Proceeding(r, vault, 2)), r)
  {
    var files, c := s.io.files, s.calls[r];
    var s0 := InPhase(s, r, Recording(SnapshotAt(files, c.m.source), files[c.m.source], usage));
    var s1 := Next(faults, s0, Proceed(r, vault, false));
    DeleteRecords(faults, s, r, vault, usage);
    DeleteTransfers(faults, s1, r, vault);
    assert Proceeding(r, vault, 2)[1..] == Proceeding(r, vault, 1);
    assert Run(faults, s0, Proceeding(r, vault, 2)) == Run(faults, s1, Proceeding(r, vault, 1));
    assert s1.calls[r := c.(phase := Ended(Done))] == s.calls[r := c.(phase := Ended(Done))];
    var id := c.m.operationId;
    assert s1.kept[id := Kept(s1.calls[r].phase.record, Some(files[c.m.source]))]
        == s.kept[id := Kept(s1.calls[r].phase.record, Some(files[c.m.source]))];
  }

  // A file, and a record, of up to 700 KiB.
  const SMALL: nat := 700 * 1024

  const SCRATCH: Path := Work("", "scratch")

  /** The ids of the operations, one after the other. */
  type Ids = nat -> string

  /** Ids that are pairwise different, as the program makes them. */
  ghost predicate Distinct(ids: Ids) {
    forall i: nat, j: nat | i < j :: ids(i) != ids(j)
  }

  function DeleteOf(ids: Ids, k: nat, x: Bytes): Manifest {
    Manifest(ids(k), Delete, SCRATCH, Digest(x), None)
  }

  /** A file is written and then deleted, with nobody interfering. */
  function WriteAndDelete(s: State, ids: Ids, k: nat, x: Bytes, recordLength: nat, vault: seq<Entry>): seq<Action> {
    [Write(s.io.files[SCRATCH := x]), Begin(k, DeleteOf(ids, k, x), recordLength)] + Proceeding(k, vault, 6)
  }

  /** The same file written and deleted again and again; each delete walks through the vault in an
      order of its own. */
  ghost function Pile(faults: nat -> bool, ids: Ids, x: Bytes, recordLength: nat, vaults: seq<seq<Entry>>): State {
    if vaults == [] then Initial(map[])
    else
      var n := |vaults| - 1;
      var s := Pile(faults, ids, x, recordLength, vaults[..n]);
      Run(faults, s, WriteAndDelete(s, ids, n, x, recordLength, vaults[n]))
  }

  ghost predicate Piled(s: State, ids: Ids, n: nat, x: Bytes, recordLength: nat) {
    NamedInv(s) && KeptInv(s) && Heap(s, ids, n, x, recordLength)
  }

  ghost predicate Heap(s: State, ids: Ids, n: nat, x: Bytes, recordLength: nat) {
    && SCRATCH !in s.io.files && s.restores == map[]
    && HeapIds(s.calls.Keys, s.names, s.folders, ids, n) && HeapKept(s.kept, n, x, recordLength)
  }

  predicate IsOneOf(ids: Ids, n: nat, id: string) {
    exists k: nat | k < n :: ids(k) == id
  }

  /** The ids of the calls and of their operations, so far. */
  predicate HeapIds(calls: set<nat>, names: map<string, string>, folders: set<string>, ids: Ids, n: nat) {
    && (forall r | r in calls :: r < n) && (forall id | id in names :: IsOneOf(ids, n, id))
    && folders <= names.Keys && |folders| == n
  }

  predicate HeapKept(kept: map<string, Kept>, n: nat, x: Bytes, recordLength: nat) {
    && |kept| == n
    && forall id | id in kept :: kept[id].payload == Some(x) && Size(kept[id].record) == recordLength
  }

  lemma {:induction false} SummedAtMost(files: Files, listing: seq<Path>, k: nat, bytes: nat)
    requires k <= |listing| && forall path | path in listing :: SizeAt(files, path) <= SMALL
    ensures Summed(files, listing, k, bytes) <= bytes + (|listing| - k) * SMALL
    decreases |listing| - k
  {
    if k < |listing| {
      assert listing[k] in listing;
      SummedAtMost(files, listing, k + 1, bytes + SizeAt(files, listing[k]));
    }
  }

  lemma {:induction false} PileHasRoom(s: State, ids: Ids, n: nat, x: Bytes, recordLength: nat,
                                       vault: seq<Entry>)
    requires Piled(s, ids, n, x, recordLength) && Size(x) <= SMALL && recordLength <= SMALL
    requires Shows(vault, s.io.files[SCRATCH := x], s.folders)
    ensures !Full(SnapshotAt(s.io.files[SCRATCH := x], SCRATCH), UsageOf(s.io.files[SCRATCH := x], vault))
  {
    var files := s.io.files[SCRATCH := x];
    assert VaultPaths(files) == VaultPaths(s.io.files);
    forall path | path in VaultPaths(files)
      ensures SizeAt(files, path) <= SMALL
    {
      PiledSize(s, ids, n, x, recordLength, path);
    }
    ListedIsSmall(s, files, vault);
    RoomForSmall(files, vault);
  }

  lemma {:induction false} RoomForSmall(files: Files, vault: seq<Entry>)
    requires 3 * |Listed(vault)| <= 2 * SCANNED && SizeAt(files, SCRATCH) <= SMALL
    requires forall path | path in Listed(vault) :: SizeAt(files, path) <= SMALL
    ensures !Full(SnapshotAt(files, SCRATCH), UsageOf(files, vault))
  {
    SummedAtMost(files, Listed(vault), 0, 0);
  }

  lemma {:induction false} ListedIsSmall(s: State, files: Files, vault: seq<Entry>)
    requires forall path | path in VaultPaths(files) :: Named(s, path) && SizeAt(files, path) <= SMALL
    requires Shows(vault, files, s.folders)
    ensures 3 * |Listed(vault)| <= 2 * SCANNED
    ensures forall path | path in Listed(vault) :: SizeAt(files, path) <= SMALL
  {
    FewListed(s, files, vault);
    ListedExactly(vault, files, s.folders);
    assert forall path | path in Listed(vault) :: path in SetOf(Listed(vault));
  }

  lemma {:induction false} PiledSize(s: State, ids: Ids, n: nat, x: Bytes, recordLength: nat, path: Path)
    requires Piled(s, ids, n, x, recordLength) && path in VaultPaths(s.io.files)
    ensures Size(s.io.files[path]) == recordLength || Size(s.io.files[path]) == Size(x)
  {
    assert IsKept(s.names, s.kept, path);
    assert KeptAt(s.io.files, s.names, path.operation, s.kept[path.operation]);
  }

  /** The state in which the call of the n-th delete has begun. */
  function Begun(s: State, ids: Ids, n: nat, x: Bytes, recordLength: nat): State {
    s.(io := s.io.(files := s.io.files[SCRATCH := x]),
       calls := s.calls[n := Call(DeleteOf(ids, n, x), recordLength, Verifying(0))],
       names := s.names[DeleteOf(ids, n, x).operationId := SCRATCH.name])
  }

  lemma {:induction false} RunTwoMore(faults: nat -> bool, s: State, first: Action, second: Action, rest: seq<Action>)
    ensures Run(faults, s, [first, second] + rest) == Run(faults, Next(faults, Next(faults, s, first), second), rest)
  {
    var s1, actions := Next(faults, s, first), [first, second] + rest;
    assert actions[1..] == [second] + rest && actions[1..][1..] == rest;
    assert Run(faults, s, actions) == Run(faults, s1, actions[1..]);
  }

  lemma {:induction false} PileBegins(faults: nat -> bool, s: State, ids: Ids, n: nat, x: Bytes, recordLength: nat,
                                      vault: seq<Entry>)
    requires n !in s.calls && DeleteOf(ids, n, x).operationId !in s.names
    ensures Run(faults, s, WriteAndDelete(s, ids, n, x, recordLength, vault))
         == Run(faults, Begun(s, ids, n, x, recordLength), Proceeding(n, vault, 6))
  {
    var files, m := s.io.files[SCRATCH := x], DeleteOf(ids, n, x);
    RunTwoMore(faults, s, Write(files), Begin(n, m, recordLength), Proceeding(n, vault, 6));
    assert SameVault(s.io.files, files);
    assert Next(faults, s, Write(files)) == s.(io := s.io.(files := files));
  }

  lemma {:induction false} PileDeletes(faults: nat -> bool, s: State, ids: Ids, n: nat, x: Bytes, recordLength: nat,
                                       vault: seq<Entry>)
    requires Distinct(ids) && Piled(s, ids, n, x, recordLength)
    requires Size(x) <= SMALL && recordLength <= SMALL && NoFaultFrom(faults, 0)
    requires Shows(vault, s.io.files[SCRATCH := x], s.folders)
    ensures Deletion(Begun(s, ids, n, x, recordLength),
                     Run(faults, s, WriteAndDelete(s, ids, n, x, recordLength, vault)), n)
  {
    FreshPaths(s, ids, n, x, recordLength);
    PileBegins(faults, s, ids, n, x, recordLength, vault);
    PileHasRoom(s, ids, n, x, recordLength, vault);
    DeleteReads(faults, Begun(s, ids, n, x, recordLength), n, vault);
    DeleteEnds(faults, Begun(s, ids, n, x, recordLength), n, vault, UsageOf(s.io.files[SCRATCH := x], vault));
  }

  lemma {:induction false} FreshPaths(s: State, ids: Ids, n: nat, x: Bytes, recordLength: nat)
    requires Distinct(ids) && Piled(s, ids, n, x, recordLength)
    ensures var m := DeleteOf(ids, n, x);
            && RecordPath(m.operationId) !in s.io.files && StoredPath(m.operationId, SCRATCH) !in s.io.files
            && n !in s.calls
            && m.operationId !in s.names && m.operationId !in s.kept && m.operationId !in s.folders
  {
    var id := DeleteOf(ids, n, x).operationId;
    assert !IsOneOf(ids, n, id) && id !in s.names;
    assert forall path | path in VaultPaths(s.io.files) :: Named(s, path);
    assert forall other | other in s.kept :: KeptAt(s.io.files, s.names, other, s.kept[other]);
    assert Named(s, RecordPath(id)) ==> id in s.names;
  }

  lemma {:induction false} HeapGrows(s: State, s': State, ids: Ids, n: nat, x: Bytes, recordLength: nat)
    requires Heap(s, ids, n, x, recordLength) && Deletion(Begun(s, ids, n, x, recordLength), s', n)
    requires DeleteOf(ids, n, x).operationId !in s.kept && DeleteOf(ids, n, x).operationId !in s.folders
    ensures Heap(s', ids, n + 1, x, recordLength)
  {
    var id := DeleteOf(ids, n, x).operationId;
    assert s'.calls.Keys == s.calls.Keys + {n} && s'.names == s.names[id := SCRATCH.name];
    IdsGrow(s.calls.Keys, s.names, s.folders, n, ids);
    KeptGrows(s.kept, n, x, recordLength, id, s'.kept[id]);
  }

  lemma {:induction false} IdsGrow(calls: set<nat>, names: map<string, string>, folders: set<string>, n: nat,
                                   ids: Ids)
    requires HeapIds(calls, names, folders, ids, n) && ids(n) !in folders
    ensures HeapIds(calls + {n}, names[ids(n) := SCRATCH.name], folders + {ids(n)}, ids, n + 1)
  {
    assert IsOneOf(ids, n + 1, ids(n));
    forall id | id in names
      ensures IsOneOf(ids, n + 1, id)
    {
      var k: nat :| k < n && ids(k) == id;
    }
  }

  lemma {:induction false} KeptGrows(kept: map<string, Kept>, n: nat, x: Bytes, recordLength: nat, id: string, k: Kept)
    requires HeapKept(kept, n, x, recordLength) && id !in kept
    requires k.payload == Some(x) && Size(k.record) == recordLength
    ensures HeapKept(kept[id := k], n + 1, x, recordLength)
  {
  }

  lemma {:induction false} PileGrows(faults: nat -> bool, s: State, s': State, ids: Ids, n: nat, x: Bytes,
                                     recordLength: nat, vault: seq<Entry>)
    requires Distinct(ids) && Piled(s, ids, n, x, recordLength)
    requires Size(x) <= SMALL && recordLength <= SMALL && NoFaultFrom(faults, 0)
    requires Shows(vault, s.io.files[SCRATCH := x], s.folders)
    requires s' == Run(faults, s, WriteAndDelete(s, ids, n, x, recordLength, vault))
    ensures Piled(s', ids, n + 1, x, recordLength)
  {
    RunKeepsNamed(faults, s, WriteAndDelete(s, ids, n, x, recordLength, vault));
    RunKeepsKept(faults, s, WriteAndDelete(s, ids, n, x, recordLength, vault));
    PileDeletes(faults, s, ids, n, x, recordLength, vault);
    FreshPaths(s, ids, n, x, recordLength);
    HeapGrows(s, s', ids, n, x, recordLength);
  }

  function Repeated(n: nat, size: nat): nat {
    if n == 0 then 0 else Repeated(n - 1, size) + size
  }

  lemma {:induction false} RepeatedIs(n: nat, size: nat)
    ensures Repeated(n, size) == n * size
  {
    if n > 0 {
      RepeatedIs(n - 1, size);
    }
  }

  /** Equal operations keep equally much. */
  lemma {:induction false} EqualBytes(kept: map<string, Kept>, size: nat)
    requires forall id | id in kept :: KeptSize(kept[id]) == size
    ensures KeptBytes(kept) == Repeated(|kept|, size)
    decreases |kept|
  {
    if kept != map[] {
      var id := KeptBytesChoice(kept);
      OneLess(kept, id);
      EqualBytes(kept - {id}, size);
    }
  }

  lemma {:induction false} NoPile(ids: Ids, x: Bytes, recordLength: nat)
    ensures Piled(Initial(map[]), ids, 0, x, recordLength)
  {
  }

  /** Every delete walks through the vault as it finds it. */
  ghost predicate Walked(faults: nat -> bool, ids: Ids, x: Bytes, recordLength: nat, vaults: seq<seq<Entry>>) {
    vaults != [] ==>
      var front := vaults[..|vaults| - 1];
      var s := Pile(faults, ids, x, recordLength, front);
      Walked(faults, ids, x, recordLength, front) && Shows(vaults[|front|], s.io.files[SCRATCH := x], s.folders)
  }

  lemma {:induction false} PileIsPiled(faults: nat -> bool, ids: Ids, x: Bytes, recordLength: nat,
                                       vaults: seq<seq<Entry>>)
    requires Distinct(ids) && Size(x) <= SMALL && recordLength <= SMALL && NoFaultFrom(faults, 0)
    requires Walked(faults, ids, x, recordLength, vaults)
    ensures Piled(Pile(faults, ids, x, recordLength, vaults), ids, |vaults|, x, recordLength)
  {
    if vaults == [] {
      NoPile(ids, x, recordLength);
    } else {
      var n := |vaults| - 1;
      var s := Pile(faults, ids, x, recordLength, vaults[..n]);
      PileIsPiled(faults, ids, x, recordLength, vaults[..n]);
      PileGrows(faults, s, Pile(faults, ids, x, recordLength, vaults), ids, n, x, recordLength, vaults[n]);
    }
  }

  /** There is such a series of any length. */
  lemma {:induction false} PilesExist(faults: nat -> bool, ids: Ids, n: nat, x: Bytes, recordLength: nat)
    returns (vaults: seq<seq<Entry>>)
    requires Distinct(ids) && Size(x) <= SMALL && recordLength <= SMALL && NoFaultFrom(faults, 0)
    ensures |vaults| == n && Walked(faults, ids, x, recordLength, vaults)
  {
    vaults := [];
    if n > 0 {
      var front := PilesExist(faults, ids, n - 1, x, recordLength);
      var s := Pile(faults, ids, x, recordLength, front);
      var files := s.io.files[SCRATCH := x];
      PileIsPiled(faults, ids, x, recordLength, front);
      assert NamedInv(s) && VaultPaths(files) == VaultPaths(s.io.files);
      var last := ShowFolders(files, s.folders);
      vaults := front + [last];
      assert vaults[..n - 1] == front;
    }
  }

  /** So neither limit holds: a small file is deleted as often as one likes, whatever order each delete
      walks the vault in, and n deletes leave 2n files in n directories, all their bytes summed up. */
  lemma {:induction false} DeletesPileUp(faults: nat -> bool, ids: Ids, x: Bytes, recordLength: nat,
                                         vaults: seq<seq<Entry>>)
    requires Distinct(ids) && Size(x) <= SMALL && recordLength <= SMALL && NoFaultFrom(faults, 0)
    requires Walked(faults, ids, x, recordLength, vaults)
    ensures var s := Pile(faults, ids, x, recordLength, vaults); var n := |vaults|;
            && |VaultPaths(s.io.files)| == 2 * n && |s.folders| == n
            && VaultBytes(s.io.files) == n * (recordLength + Size(x))
  {
    var s := Pile(faults, ids, x, recordLength, vaults);
    PileIsPiled(faults, ids, x, recordLength, vaults);
    assert KeptInv(s) && Heap(s, ids, |vaults|, x, recordLength);
    HeapCounts(s, |vaults|, x, recordLength);
  }

  lemma {:induction false} HeapCounts(s: State, n: nat, x: Bytes, recordLength: nat)
    requires HeapKept(s.kept, n, x, recordLength) && Matches(s.io.files, s.names, s.kept)
    ensures |VaultPaths(s.io.files)| == 2 * n && VaultBytes(s.io.files) == n * (recordLength + Size(x))
  {
    KeptCounts(s.io.files, s.names, s.kept);
    EqualBytes(s.kept, recordLength + Size(x));
    RepeatedIs(n, recordLength + Size(x));
    assert Stored(s.kept) == s.kept.Keys;
    assert |s.kept| == |s.kept.Keys|;
  }
}
