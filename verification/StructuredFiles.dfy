/** Copy, move, delete and restore of a workspace file, with a recovery vault and rollback
    (src/runtime/structured-files.ts). A call is suspended at its awaits, and the files may be
    changed by others while it is. */
module StructuredFiles {
  import opened Wrappers
  import opened WorkspaceFiles
  import opened WorkspaceListing

  const MAX_OPERATION_BYTES: nat := 10 * 1024 * 1024
  const MAX_RECOVERY_BYTES: nat := 50 * 1024 * 1024
  const MAX_RECOVERY_ENTRIES: nat := 100

  /** What was reviewed: the source with its hash, and the destination, known to be missing. */
  datatype Manifest = Manifest(operationId: string, capability: Capability, source: Path, sourceHash: Digest,
                               destination: Option<Path>)

  datatype Outcome = Done | Rejected | Failed(call: nat)

  /** What a snapshot of a path found. */
  datatype Snapshot = Snapshot(hash: Option<Digest>, bytes: nat, entries: nat)

  datatype Usage = Usage(bytes: nat, entries: nat)

  /** Where a call is suspended, with what it has found so far. */
  datatype Phase =
    | Verifying(target: nat)
    | Locating
    | Inspecting
    | Reading(source: Snapshot)
    | Recording(source: Snapshot, payload: Bytes, usage: Usage)
    | Transferring(source: Snapshot, payload: Bytes, record: Bytes)
    | Ended(outcome: Outcome)

  function RecordPath(operationId: string): Path {
    Vault(operationId, "record.json")
  }

  function StoredPath(operationId: string, source: Path): Path {
    Vault(operationId, source.name)
  }

  function SnapshotAt(files: Files, path: Path): Snapshot {
    if path in files then Snapshot(Some(Digest(files[path])), Size(files[path]), 1) else Snapshot(None, 0, 0)
  }

  function RecordOf(m: Manifest, source: Snapshot): Record {
    Record(m.operationId, m.capability, m.source, m.destination, source.hash)
  }

  /** A file that can be read within the limit. */
  predicate Readable(files: Files, path: Path) {
    path in files && Size(files[path]) <= MAX_OPERATION_BYTES
  }

  // ----- the use of the vault

  function SizeAt(files: Files, path: Path): nat {
    if path in files then Size(files[path]) else 0
  }

  /** The sum of the sizes from the k-th path on, broken off once it is over the limit. */
  function Summed(files: Files, listing: seq<Path>, k: nat, bytes: nat): nat
    requires k <= |listing|
    decreases |listing| - k
  {
    if k == |listing| then bytes
    else
      var more := bytes + SizeAt(files, listing[k]);
      if more > MAX_RECOVERY_BYTES then more else Summed(files, listing, k + 1, more)
  }

  /** The listing is asked for one entry more than the vault may hold. */
  function Listed(vault: seq<Entry>): seq<Path> {
    Listing(vault, MAX_RECOVERY_ENTRIES + 1).paths
  }

  function UsageOf(files: Files, vault: seq<Entry>): Usage {
    Usage(Summed(files, Listed(vault), 0, 0), |Listed(vault)|)
  }

  predicate Full(source: Snapshot, usage: Usage) {
    usage.entries + source.entries + 1 > MAX_RECOVERY_ENTRIES || usage.bytes + source.bytes > MAX_RECOVERY_BYTES
  }

  // ----- the steps of an operation

  /** Takes one step back, if it was taken; a failure is passed over. */
  function Undone(faults: nat -> bool, io: Io, taken: bool, path: Path, bytes: Bytes): Io {
    if taken then Deleted(faults, io, path, bytes).0 else io
  }

  /** The rollback: the destination, the stored payload, the record. */
  function RolledBack(faults: nat -> bool, io: Io, m: Manifest, bytes: Bytes, record: Bytes, destinationCreated: bool,
                      recoveryStored: bool): Io
    requires destinationCreated ==> m.destination.Some?
  {
    var io1 := if destinationCreated then Deleted(faults, io, m.destination.value, bytes).0 else io;
    var io2 := Undone(faults, io1, recoveryStored, StoredPath(m.operationId, m.source), bytes);
    Deleted(faults, io2, RecordPath(m.operationId), record).0
  }

  /** The guarded part of a move or a delete, behind the record. */
  function Guarded(faults: nat -> bool, io: Io, m: Manifest, bytes: Bytes, record: Bytes): (Io, Outcome) {
    var (io1, stored) := Replaced(faults, io, StoredPath(m.operationId, m.source), None, bytes);
    if !stored then (RolledBack(faults, io1, m, bytes, record, false, false), Failed(io.calls))
    else if m.capability == Move then
      if m.destination.None? then (RolledBack(faults, io1, m, bytes, record, false, true), Failed(io.calls))
      else
        var (io2, created) := Replaced(faults, io1, m.destination.value, None, bytes);
        if !created then (RolledBack(faults, io2, m, bytes, record, false, true), Failed(io1.calls))
        else
          var (io3, deleted) := Deleted(faults, io2, m.source, bytes);
          if deleted then (io3, Done) else (RolledBack(faults, io3, m, bytes, record, true, true), Failed(io2.calls))
    else
      var (io3, deleted) := Deleted(faults, io1, m.source, bytes);
      if deleted then (io3, Done) else (RolledBack(faults, io3, m, bytes, record, false, true), Failed(io1.calls))
  }

  /** The source is a workspace file in its reviewed state. */
  predicate SourceVerified(files: Files, m: Manifest) {
    m.source.Work? && Readable(files, m.source) && Digest(files[m.source]) == m.sourceHash
  }

  predicate DestinationVerified(files: Files, m: Manifest) {
    m.destination.Some? && m.destination.value.Work? && m.destination.value !in files
  }

  function ReadStep(faults: nat -> bool, io: Io, m: Manifest, source: Snapshot, vault: seq<Entry>): (Io, Phase) {
    if !Readable(io.files, m.source) then (io, Ended(Rejected))
    else
      var payload := io.files[m.source];
      if m.capability != Copy then (io, Recording(source, payload, UsageOf(io.files, vault)))
      else if m.destination.None? then (io, Ended(Rejected))
      else
        var (io1, copied) := Replaced(faults, io, m.destination.value, None, payload);
        (io1, Ended(if copied then Done else Failed(io.calls)))
  }

  function RecordStep(faults: nat -> bool, io: Io, m: Manifest, source: Snapshot, payload: Bytes, usage: Usage,
                      recordLength: nat): (Io, Phase) {
    if Full(source, usage) then (io, Ended(Rejected))
    else
      var record := RecordJson(RecordOf(m, source), recordLength);
      var (io1, recorded) := Replaced(faults, io, RecordPath(m.operationId), None, record);
      (io1, if recorded then Transferring(source, payload, record) else Ended(Failed(io.calls)))
  }

  /** A call goes on from one await to the next. `vault` is the vault's directory, which it lists when
      it has read the source; `recordLength` is the length of the printed record. */
  function Step(faults: nat -> bool, io: Io, m: Manifest, phase: Phase, vault: seq<Entry>,
                recordLength: nat): (Io, Phase) {
    match phase
    case Verifying(target) =>
      if !(if target == 0 then SourceVerified(io.files, m) else DestinationVerified(io.files, m))
      then (io, Ended(Rejected))
      else if target == 0 && m.destination.Some? then (io, Verifying(1))
      else (io, Locating)
    case Locating => (io, if m.source in io.files then Inspecting else Ended(Rejected))
    case Inspecting =>
      if m.source in io.files && !Readable(io.files, m.source) then (io, Ended(Rejected))
      else (io, Reading(SnapshotAt(io.files, m.source)))
    case Reading(source) => ReadStep(faults, io, m, source, vault)
    case Recording(source, payload, usage) => RecordStep(faults, io, m, source, payload, usage, recordLength)
    case Transferring(source, payload, record) =>
      var (io1, outcome) := Guarded(faults, io, m, payload, record);
      (io1, Ended(outcome))
    case Ended(_) => (io, phase)
  }

  // ----- what every call along the way leaves

  ghost predicate Along(before: Io, after: Io, holds: Files -> bool) {
    && before.trace <= after.trace
    && holds(after.files)
    && forall k | |before.trace| <= k < |after.trace| :: holds(after.trace[k])
  }

  lemma {:induction false} AlongTwice(a: Io, b: Io, c: Io, holds: Files -> bool)
    requires Along(a, b, holds) && Along(b, c, holds)
    ensures Along(a, c, holds)
  {
    forall k | |a.trace| <= k < |c.trace|
      ensures holds(c.trace[k])
    {
      if k < |b.trace| {
        assert c.trace[k] == b.trace[k];
      }
    }
  }

  /** A path holds the bytes. */
  predicate Holds(files: Files, path: Path, bytes: Bytes) {
    At(files, path) == Some(bytes)
  }

  /** All that an operation may ever change: the source, the destination, and its two vault files. */
  predicate Touches(m: Manifest, path: Path) {
    path == m.source || Some(path) == m.destination || path == RecordPath(m.operationId)
    || path == StoredPath(m.operationId, m.source)
  }

  ghost predicate SameOutside(before: Files, after: Files, m: Manifest) {
    forall path | !Touches(m, path) :: At(after, path) == At(before, path)
  }

  /** Nothing outside the operation's paths has changed, and a source that was there is as it was. */
  ghost predicate Untaken(before: Files, after: Files, m: Manifest) {
    SameOutside(before, after, m) && (m.source in before ==> At(after, m.source) == At(before, m.source))
  }

  /** Nothing outside the operation's paths has changed, and the source is as it was, or it held the
      payload and the payload is in the vault. */
  ghost predicate Safe(before: Files, files: Files, m: Manifest, payload: Bytes) {
    || Untaken(before, files, m)
    || (&& SameOutside(before, files, m)
        && Holds(before, m.source, payload) && Holds(files, StoredPath(m.operationId, m.source), payload))
  }

  lemma {:induction false} UndoneKeepsSource(faults: nat -> bool, before: Files, io: Io, taken: bool, m: Manifest,
                                             path: Path, bytes: Bytes)
    requires Untaken(before, io.files, m) && Touches(m, path) && (path != m.source || path !in before)
    ensures Along(io, Undone(faults, io, taken, path, bytes), files => Untaken(before, files, m))
  {
  }

  lemma {:induction false} RollbackKeepsSource(faults: nat -> bool, before: Files, io: Io, m: Manifest, bytes: Bytes,
                                               record: Bytes, destinationCreated: bool, recoveryStored: bool)
    requires Untaken(before, io.files, m) && m.source.Work?
    requires destinationCreated ==> m.destination.Some? && m.destination.value !in before
    ensures Along(io, RolledBack(faults, io, m, bytes, record, destinationCreated, recoveryStored),
                  files => Untaken(before, files, m))
  {
    var holds := files => Untaken(before, files, m);
    var io1 := if destinationCreated then Deleted(faults, io, m.destination.value, bytes).0 else io;
    var io2 := Undone(faults, io1, recoveryStored, StoredPath(m.operationId, m.source), bytes);
    if destinationCreated {
      UndoneKeepsSource(faults, before, io, true, m, m.destination.value, bytes);
    }
    UndoneKeepsSource(faults, before, io1, recoveryStored, m, StoredPath(m.operationId, m.source), bytes);
    UndoneKeepsSource(faults, before, io2, true, m, RecordPath(m.operationId), record);
    AlongTwice(io, io1, io2, holds);
    AlongTwice(io, io2, Undone(faults, io2, true, RecordPath(m.operationId), record), holds);
  }

  /** A failed attempt along the guarded part: safe throughout, and the source untaken at the end. */
  ghost predicate Backed(before: Files, a: Io, b: Io, m: Manifest, bytes: Bytes) {
    Along(a, b, files => Safe(before, files, m, bytes)) && Untaken(before, b.files, m)
  }

  lemma {:induction false} RollbackBacks(faults: nat -> bool, before: Files, start: Io, io: Io, m: Manifest,
                                         bytes: Bytes, record: Bytes, destinationCreated: bool, recoveryStored: bool)
    requires m.source.Work? && (destinationCreated ==> m.destination.Some? && m.destination.value !in before)
    requires Backed(before, start, io, m, bytes)
    ensures Backed(before, start, RolledBack(faults, io, m, bytes, record, destinationCreated, recoveryStored), m,
                   bytes)
  {
    var end := RolledBack(faults, io, m, bytes, record, destinationCreated, recoveryStored);
    RollbackKeepsSource(faults, before, io, m, bytes, record, destinationCreated, recoveryStored);
    assert Along(io, end, files => Safe(before, files, m, bytes));
    AlongTwice(start, io, end, files => Safe(before, files, m, bytes));
  }

  lemma {:induction false} ReplaceBacks(faults: nat -> bool, before: Files, start: Io, io: Io, m: Manifest,
                                        path: Path, bytes: Bytes, replacement: Bytes)
    requires Touches(m, path) && Backed(before, start, io, m, bytes)
    ensures Backed(before, start, Replaced(faults, io, path, None, replacement).0, m, bytes)
  {
    var end := Replaced(faults, io, path, None, replacement).0;
    assert Untaken(before, end.files, m);
    AlongTwice(start, io, end, files => Safe(before, files, m, bytes));
  }

  /** Deleting the source once its payload is stored. */
  lemma {:induction false} TakeIsSafe(faults: nat -> bool, before: Files, start: Io, io: Io, m: Manifest, bytes: Bytes)
    requires m.source.Work? && Backed(before, start, io, m, bytes)
    requires Holds(io.files, StoredPath(m.operationId, m.source), bytes)
    ensures Along(start, Deleted(faults, io, m.source, bytes).0, files => Safe(before, files, m, bytes))
    ensures !Deleted(faults, io, m.source, bytes).1 ==> Untaken(before, Deleted(faults, io, m.source, bytes).0.files, m)
  {
    var end := Deleted(faults, io, m.source, bytes).0;
    assert Safe(before, end.files, m, bytes);
    AlongTwice(start, io, end, files => Safe(before, files, m, bytes));
  }

  lemma {:induction false} GuardedSafe(faults: nat -> bool, io: Io, m: Manifest, bytes: Bytes, record: Bytes)
    requires m.source.Work? && (m.destination.Some? ==> m.destination.value.Work?)
    ensures var (end, outcome) := Guarded(faults, io, m, bytes, record);
            && Along(io, end, files => Safe(io.files, files, m, bytes))
            && (outcome != Done ==> Untaken(io.files, end.files, m))
  {
    var before, storedPath := io.files, StoredPath(m.operationId, m.source);
    assert Backed(before, io, io, m, bytes);
    ReplaceBacks(faults, before, io, io, m, storedPath, bytes, bytes);
    var (io1, stored) := Replaced(faults, io, storedPath, None, bytes);
    if !stored {
      RollbackBacks(faults, before, io, io1, m, bytes, record, false, false);
    } else if m.capability == Move {
      RollbackBacks(faults, before, io, io1, m, bytes, record, false, true);
      if m.destination.Some? {
        ReplaceBacks(faults, before, io, io1, m, m.destination.value, bytes, bytes);
        var (io2, created) := Replaced(faults, io1, m.destination.value, None, bytes);
        RollbackBacks(faults, before, io, io2, m, bytes, record, false, true);
        if created {
          TakeIsSafe(faults, before, io, io2, m, bytes);
          var (io3, deleted) := Deleted(faults, io2, m.source, bytes);
          if !deleted {
            RollbackBacks(faults, before, io, io3, m, bytes, record, true, true);
          }
        }
      }
    } else {
      TakeIsSafe(faults, before, io, io1, m, bytes);
      var (io3, deleted) := Deleted(faults, io1, m.source, bytes);
      if !deleted {
        RollbackBacks(faults, before, io, io3, m, bytes, record, false, true);
      }
    }
  }

  // ----- main results: nothing is lost

  /** What a call has verified by the time it is in a phase. */
  predicate Checked(m: Manifest, phase: Phase) {
    && (!phase.Ended? && phase != Verifying(0) ==> m.source.Work?)
    && (!phase.Ended? && !phase.Verifying? && m.destination.Some? ==> m.destination.value.Work?)
  }

  function PayloadOf(io: Io, m: Manifest, phase: Phase): Bytes {
    match phase
    case Recording(_, payload, _) => payload
    case Transferring(_, payload, _) => payload
    case _ => if m.source in io.files then io.files[m.source] else Data([])
  }

  lemma {:induction false} StepKeepsChecked(faults: nat -> bool, io: Io, m: Manifest, phase: Phase, vault: seq<Entry>,
                                            recordLength: nat)
    requires Checked(m, phase)
    ensures Checked(m, Step(faults, io, m, phase, vault, recordLength).1)
  {
  }

  /** Whatever files a step of a call finds and whatever of its calls fail, those of the rollback
      included: after each of them no path but the operation's own has changed, and a source that was
      there is as it was, or is safe in the vault; and unless the operation is done, it is as it was. */
  lemma {:induction false} NothingLost(faults: nat -> bool, io: Io, m: Manifest, phase: Phase, vault: seq<Entry>,
                                       recordLength: nat)
    requires Checked(m, phase)
    ensures var (end, phase') := Step(faults, io, m, phase, vault, recordLength);
            && Along(io, end, files => Safe(io.files, files, m, PayloadOf(io, m, phase)))
            && (phase' != Ended(Done) ==> Untaken(io.files, end.files, m))
  {
    var payload := PayloadOf(io, m, phase);
    assert Backed(io.files, io, io, m, payload);
    match phase
    case Reading(source) =>
      if Readable(io.files, m.source) && m.capability == Copy && m.destination.Some? {
        ReplaceBacks(faults, io.files, io, io, m, m.destination.value, payload, io.files[m.source]);
      }
    case Recording(source, _, usage) =>
      ReplaceBacks(faults, io.files, io, io, m, RecordPath(m.operationId), payload,
                   RecordJson(RecordOf(m, source), recordLength));
    case Transferring(_, _, record) => GuardedSafe(faults, io, m, payload, record);
    case _ =>
  }

  // ----- main results: all or nothing

  /** The files with the payload and the destination as far as they were made. */
  function Grown(files: Files, m: Manifest, bytes: Bytes, destinationCreated: bool, recoveryStored: bool): Files
    requires destinationCreated ==> m.destination.Some?
  {
    var stored := if recoveryStored then files[StoredPath(m.operationId, m.source) := bytes] else files;
    if destinationCreated then stored[m.destination.value := bytes] else stored
  }

  /** The files without a file, if it still holds the bytes. */
  function Without(files: Files, path: Path, bytes: Bytes): Files {
    if Holds(files, path, bytes) then files - {path} else files
  }

  lemma {:induction false} DeleteUndoes(faults: nat -> bool, io: Io, files: Files, path: Path, bytes: Bytes)
    requires NoFaultFrom(faults, io.calls) && path !in files && io.files == files[path := bytes]
    ensures var io' := Deleted(faults, io, path, bytes).0; io'.files == files && NoFaultFrom(faults, io'.calls)
  {
    assert io.files - {path} == files;
  }

  lemma {:induction false} RollbackUndoes(faults: nat -> bool, files: Files, io: Io, m: Manifest, bytes: Bytes,
                                          record: Bytes, destinationCreated: bool, recoveryStored: bool)
    requires NoFaultFrom(faults, io.calls)
    requires destinationCreated ==> m.destination.Some? && m.destination.value.Work? && m.destination.value !in files
    requires recoveryStored ==> StoredPath(m.operationId, m.source) !in files
    requires io.files == Grown(files, m, bytes, destinationCreated, recoveryStored)
    ensures RolledBack(faults, io, m, bytes, record, destinationCreated, recoveryStored).files
         == Without(files, RecordPath(m.operationId), record)
  {
    var stored := Grown(files, m, bytes, false, recoveryStored);
    var io1 := if destinationCreated then Deleted(faults, io, m.destination.value, bytes).0 else io;
    if destinationCreated {
      DeleteUndoes(faults, io, stored, m.destination.value, bytes);
    }
    if recoveryStored {
      DeleteUndoes(faults, io1, files, StoredPath(m.operationId, m.source), bytes);
    }
  }

  /** A transfer that fails takes back all it did, provided the calls after the failing one, those of
      its rollback, succeed: it leaves the files as it found them, without its record. */
  lemma {:induction false} FailureRestoresAll(faults: nat -> bool, io: Io, m: Manifest, bytes: Bytes, record: Bytes)
    requires m.destination.Some? ==> m.destination.value.Work?
    requires var outcome := Guarded(faults, io, m, bytes, record).1;
        outcome.Failed? && NoFaultFrom(faults, outcome.call + 1)
    ensures Guarded(faults, io, m, bytes, record).0.files == Without(io.files, RecordPath(m.operationId), record)
  {
    var files := io.files;
    var (io1, stored) := Replaced(faults, io, StoredPath(m.operationId, m.source), None, bytes);
    if !stored {
      RollbackUndoes(faults, files, io1, m, bytes, record, false, false);
    } else if m.capability == Move && m.destination.None? {
      RollbackUndoes(faults, files, io1, m, bytes, record, false, true);
    } else if m.capability == Move {
      var (io2, created) := Replaced(faults, io1, m.destination.value, None, bytes);
      if !created {
        RollbackUndoes(faults, files, io2, m, bytes, record, false, true);
      } else {
        RollbackUndoes(faults, files, Deleted(faults, io2, m.source, bytes).0, m, bytes, record, true, true);
      }
    } else {
      RollbackUndoes(faults, files, Deleted(faults, io1, m.source, bytes).0, m, bytes, record, false, true);
    }
  }

  /** The files that a finished transfer leaves of those it found. */
  function Transferred(files: Files, m: Manifest, bytes: Bytes): Files
    requires m.capability == Move ==> m.destination.Some?
  {
    Grown(files, m, bytes, m.capability == Move, true) - {m.source}
  }

  /** When a transfer can be done. The payload of a file called `record.json` would have to be stored
      over the record. */
  predicate CanTransfer(files: Files, m: Manifest, bytes: Bytes) {
    && StoredPath(m.operationId, m.source) !in files
    && (m.capability == Move ==> m.destination.Some? && m.destination.value !in files)
    && Holds(if m.capability == Move then files[m.destination.value := bytes] else files, m.source, bytes)
  }

  lemma {:induction false} TransferExactly(faults: nat -> bool, io: Io, m: Manifest, bytes: Bytes, record: Bytes)
    requires m.source.Work? && (m.destination.Some? ==> m.destination.value.Work?)
    ensures var (end, outcome) := Guarded(faults, io, m, bytes, record);
            && (outcome == Done ==>
                  CanTransfer(io.files, m, bytes) && end.files == Transferred(io.files, m, bytes))
            && (NoFaultFrom(faults, io.calls) ==> (outcome == Done <==> CanTransfer(io.files, m, bytes)))
  {
    var (io1, stored) := Replaced(faults, io, StoredPath(m.operationId, m.source), None, bytes);
  }

  // ----- a whole call, with the files it finds at each of its steps

  /** A call that goes on with the files found, one entry a step; in between anyone may change them. */
  function Run(faults: nat -> bool, calls: nat, m: Manifest, phase: Phase, vault: seq<Entry>, recordLength: nat,
               found: seq<Files>): (Files, Phase)
    requires found != []
    decreases |found|
  {
    var (io, phase') := Step(faults, Io(found[0], calls, []), m, phase, vault, recordLength);
    if |found| == 1 then (io.files, phase')
    else Run(faults, io.calls, m, phase', vault, recordLength, found[1..])
  }

  /** The step at which the source is looked for, behind the verification of the targets. */
  function Lookup(m: Manifest): nat {
    if m.destination.Some? then 2 else 1
  }

  /** The steps of a call: verification, look-up, snapshot, reading, and behind it the record and the
      transfer. */
  function Steps(m: Manifest): nat {
    Lookup(m) + if m.capability == Copy then 3 else 5
  }

  /** The reviewed state is found, and nothing ends the call up to its snapshot. */
  predicate CanSnapshot(m: Manifest, found: seq<Files>)
    requires |found| == Steps(m)
  {
    && SourceVerified(found[0], m) && (m.destination.Some? ==> DestinationVerified(found[1], m))
    && m.source in found[Lookup(m)]
    && (m.source in found[Lookup(m) + 1] ==> Readable(found[Lookup(m) + 1], m.source))
  }

  predicate CanRead(m: Manifest, found: seq<Files>)
    requires |found| == Steps(m)
  {
    CanSnapshot(m, found) && Readable(found[Lookup(m) + 2], m.source)
  }

  function PayloadIn(m: Manifest, found: seq<Files>): Bytes
    requires |found| == Steps(m) && CanRead(m, found)
  {
    found[Lookup(m) + 2][m.source]
  }

  /** When a call can be done with the files it finds. */
  predicate CanBeDone(m: Manifest, vault: seq<Entry>, found: seq<Files>)
    requires |found| == Steps(m)
  {
    && CanRead(m, found)
    && (m.capability == Copy ==> m.destination.Some? && m.destination.value !in found[Lookup(m) + 2])
    && (m.capability != Copy ==>
          && !Full(SnapshotAt(found[Lookup(m) + 1], m.source), UsageOf(found[Lookup(m) + 2], vault))
          && RecordPath(m.operationId) !in found[Lookup(m) + 3]
          && CanTransfer(found[Lookup(m) + 4], m, PayloadIn(m, found)))
  }

  /** The files a finished call leaves. */
  function Intended(m: Manifest, found: seq<Files>): Files
    requires |found| == Steps(m) && CanRead(m, found) && (m.capability != Delete ==> m.destination.Some?)
  {
    if m.capability == Copy then found[Lookup(m) + 2][m.destination.value := PayloadIn(m, found)]
    else Transferred(found[Lookup(m) + 4], m, PayloadIn(m, found))
  }

  lemma {:induction false} EndedStays(faults: nat -> bool, calls: nat, m: Manifest, outcome: Outcome, vault: seq<Entry>,
                                      recordLength: nat, found: seq<Files>)
    requires found != []
    ensures Run(faults, calls, m, Ended(outcome), vault, recordLength, found).1 == Ended(outcome)
    decreases |found|
  {
    if |found| > 1 {
      EndedStays(faults, calls, m, outcome, vault, recordLength, found[1..]);
    }
  }

  /** The last steps of a move or a delete, from its reading on. */
  lemma {:induction false} MoveDoneExactly(faults: nat -> bool, calls: nat, m: Manifest, source: Snapshot,
                                           vault: seq<Entry>, recordLength: nat, found: seq<Files>)
    requires m.capability != Copy && |found| == 3 && Checked(m, Reading(source))
    ensures var (end, phase) := Run(faults, calls, m, Reading(source), vault, recordLength, found);
            var possible := Readable(found[0], m.source) && !Full(source, UsageOf(found[0], vault))
                            && RecordPath(m.operationId) !in found[1]
                            && CanTransfer(found[2], m, found[0][m.source]);
            && (phase == Ended(Done) ==> possible && end == Transferred(found[2], m, found[0][m.source]))
            && (NoFaultFrom(faults, calls) ==> (phase == Ended(Done) <==> possible))
  {
    var io, rest := Io(found[0], calls, []), found[1..];
    if !Readable(found[0], m.source) {
      EndedStays(faults, calls, m, Rejected, vault, recordLength, rest);
    } else {
      var payload, usage := found[0][m.source], UsageOf(found[0], vault);
      var (io1, phase1) := RecordStep(faults, Io(rest[0], calls, []), m, source, payload, usage, recordLength);
      assert Run(faults, calls, m, Reading(source), vault, recordLength, found)
          == Run(faults, calls, m, Recording(source, payload, usage), vault, recordLength, rest)
          == Run(faults, io1.calls, m, phase1, vault, recordLength, rest[1..]);
      if phase1.Transferring? {
        TransferExactly(faults, Io(found[2], io1.calls, []), m, payload, phase1.record);
        assert rest[1..][0] == found[2];
      } else {
        EndedStays(faults, io1.calls, m, phase1.outcome, vault, recordLength, rest[1..]);
      }
    }
  }

  lemma {:induction false} LocatedExactly(faults: nat -> bool, calls: nat, m: Manifest, vault: seq<Entry>,
                                          recordLength: nat, found: seq<Files>)
    requires |found| >= 3
    ensures var run := Run(faults, calls, m, Locating, vault, recordLength, found);
            var snapshot := SnapshotAt(found[1], m.source);
            if m.source in found[0] && (m.source in found[1] ==> Readable(found[1], m.source))
            then run == Run(faults, calls, m, Reading(snapshot), vault, recordLength, found[2..])
            else run.1 == Ended(Rejected)
  {
    assert found[1..][0] == found[1] && found[1..][1..] == found[2..];
    if m.source !in found[0] {
      EndedStays(faults, calls, m, Rejected, vault, recordLength, found[1..]);
    } else if m.source in found[1] && !Readable(found[1], m.source) {
      EndedStays(faults, calls, m, Rejected, vault, recordLength, found[2..]);
      assert Run(faults, calls, m, Locating, vault, recordLength, found)
          == Run(faults, calls, m, Inspecting, vault, recordLength, found[1..]);
    } else {
      assert Run(faults, calls, m, Locating, vault, recordLength, found)
          == Run(faults, calls, m, Inspecting, vault, recordLength, found[1..]);
    }
  }

  lemma {:induction false} SnapshotExactly(faults: nat -> bool, calls: nat, m: Manifest, vault: seq<Entry>,
                                           recordLength: nat, found: seq<Files>)
    requires |found| == Steps(m)
    ensures var run := Run(faults, calls, m, Verifying(0), vault, recordLength, found);
            var snapshot := SnapshotAt(found[Lookup(m) + 1], m.source);
            if CanSnapshot(m, found)
            then run == Run(faults, calls, m, Reading(snapshot), vault, recordLength, found[Lookup(m) + 2..])
            else run.1 == Ended(Rejected)
  {
    var rest := found[1..];
    assert rest[0] == found[1];
    if !SourceVerified(found[0], m) {
      EndedStays(faults, calls, m, Rejected, vault, recordLength, rest);
    } else if m.destination.None? {
      LocatedExactly(faults, calls, m, vault, recordLength, rest);
      assert rest[2..] == found[3..];
    } else {
      assert Run(faults, calls, m, Verifying(0), vault, recordLength, found)
          == Run(faults, calls, m, Verifying(1), vault, recordLength, rest);
      if !DestinationVerified(found[1], m) {
        EndedStays(faults, calls, m, Rejected, vault, recordLength, rest[1..]);
      } else {
        LocatedExactly(faults, calls, m, vault, recordLength, rest[1..]);
        assert rest[1..][2..] == found[4..] && rest[1..][0] == found[2] && rest[1..][1] == found[3];
      }
    }
  }

  /** A call that is done was possible with the files it found, and it has done exactly what it is for;
      and when none of its calls fails it is done exactly when it was possible. */
  lemma {:induction false} DoneExactly(faults: nat -> bool, calls: nat, m: Manifest, vault: seq<Entry>,
                                       recordLength: nat, found: seq<Files>)
    requires |found| == Steps(m)
    ensures var (end, phase) := Run(faults, calls, m, Verifying(0), vault, recordLength, found);
            && (phase == Ended(Done) ==> CanBeDone(m, vault, found) && end == Intended(m, found))
            && (NoFaultFrom(faults, calls) ==> (phase == Ended(Done) <==> CanBeDone(m, vault, found)))
  {
    var n := Lookup(m) + 2;
    SnapshotExactly(faults, calls, m, vault, recordLength, found);
    if CanSnapshot(m, found) && m.capability != Copy {
      MoveDoneExactly(faults, calls, m, SnapshotAt(found[n - 1], m.source), vault, recordLength, found[n..]);
      assert found[n..][0] == found[n] && found[n..][1] == found[n + 1] && found[n..][2] == found[n + 2];
    } else if CanSnapshot(m, found) {
      assert found[n..][0] == found[n];
    }
  }

  // ----- main results: what was reviewed

  /** The bytes a finished call has acted on: those at the destination, or in the vault. */
  function ActedOn(m: Manifest, end: Files): Option<Bytes> {
    At(end, if m.capability == Copy && m.destination.Some? then m.destination.value
            else StoredPath(m.operationId, m.source))
  }

  /** A finished call acted on the reviewed bytes exactly when the source, at the moment it was read,
      was as at its verification. */
  lemma {:induction false} ReviewedExactly(faults: nat -> bool, calls: nat, m: Manifest, vault: seq<Entry>,
                                           recordLength: nat, found: seq<Files>)
    requires |found| == Steps(m)
    requires Run(faults, calls, m, Verifying(0), vault, recordLength, found).1 == Ended(Done)
    ensures var end := Run(faults, calls, m, Verifying(0), vault, recordLength, found).0;
            var acted := ActedOn(m, end);
            && acted == At(found[Lookup(m) + 2], m.source) && acted.Some?
            && (Digest(acted.value) == m.sourceHash <==>
                At(found[Lookup(m) + 2], m.source) == At(found[0], m.source))
            && (m.capability == Delete ==> Holds(found[Steps(m) - 1], m.source, acted.value) && m.source !in end)
  {
    DoneExactly(faults, calls, m, vault, recordLength, found);
  }

  // ----- the steps of a restore

  /** What was reviewed of a restore: the missing target, the record and the payload with their hashes. */
  datatype RestoreManifest = RestoreManifest(id: string, target: Path, recordPath: Path, recordHash: Digest,
                                             storedPath: Path, storedHash: Digest)

  predicate HexDigit(c: char) {
    '0' <= c <= '9' || 'a' <= c <= 'f' || 'A' <= c <= 'F'
  }

  /** The pattern of recovery ids. */
  predicate RecoveryId(id: string) {
    && |id| == 36
    && (forall k | 0 <= k < 36 :: if k in {8, 13, 18, 23} then id[k] == '-' else HexDigit(id[k]))
    && '1' <= id[14] <= '8' && id[19] in {'8', '9', 'a', 'b', 'A', 'B'}
  }

  /** The manifest of a restore, of the files found at its four steps: the record's snapshot, its
      reading, and the snapshots of payload and target. */
  function CreateRestoreManifest(id: string, found: seq<Files>): Option<RestoreManifest>
    requires |found| == 4
  {
    var recordPath := RecordPath(id);
    if !RecoveryId(id) || !Readable(found[0], recordPath) || !Readable(found[1], recordPath)
       || !found[1][recordPath].RecordJson? || found[1][recordPath].record.operationId != id then None
    else
      var record := found[1][recordPath].record;
      var storedPath := StoredPath(id, record.originalPath);
      if !Readable(found[2], storedPath) || Some(Digest(found[2][storedPath])) != record.beforeHash
         || !record.originalPath.Work? || record.originalPath in found[3] then None
      else Some(RestoreManifest(id, record.originalPath, recordPath, Digest(found[0][recordPath]), storedPath,
                                Digest(found[2][storedPath])))
  }

  datatype RestorePhase = RestoreVerifying(target: nat) | RestoreReading | Restoring(record: Bytes)
                        | RestoreEnded(outcome: Outcome)

  /** The behind-the-record part of a restore. */
  function Restored(faults: nat -> bool, io: Io, id: string, recordBytes: Bytes): (Io, Outcome)
    requires recordBytes.RecordJson?
  {
    var record := recordBytes.record;
    var stored := StoredPath(id, record.originalPath);
    if !record.originalPath.Work? || !Readable(io.files, stored) || Some(Digest(io.files[stored])) != record.beforeHash
    then (io, Rejected)
    else
      var bytes := io.files[stored];
      var (io1, restored) := Replaced(faults, io, record.originalPath, None, bytes);
      if !restored then (io1, Failed(io.calls))
      else
        var (io2, emptied) := Deleted(faults, io1, stored, bytes);
        if !emptied then (io2, Failed(io1.calls))
        else
          var (io3, erased) := Deleted(faults, io2, RecordPath(id), recordBytes);
          (io3, if erased then Done else Failed(io2.calls))
  }

  predicate RestoreBound(m: RestoreManifest) {
    RecoveryId(m.id) && m.recordPath.Vault? && m.recordPath.operation == m.id
    && m.storedPath.Vault? && m.storedPath.operation == m.id
  }

  predicate RestoreTargetHolds(files: Files, m: RestoreManifest, target: nat) {
    if target == 0 then m.target.Work? && m.target !in files
    else
      var (path, hash) := if target == 1 then (m.recordPath, m.recordHash) else (m.storedPath, m.storedHash);
      Readable(files, path) && Digest(files[path]) == hash
  }

  /** A restore goes on from one await to the next. */
  function RestoreStep(faults: nat -> bool, io: Io, m: RestoreManifest, phase: RestorePhase): (Io, RestorePhase) {
    match phase
    case RestoreVerifying(target) =>
      if !RestoreBound(m) || !RestoreTargetHolds(io.files, m, target) then (io, RestoreEnded(Rejected))
      else (io, if target < 2 then RestoreVerifying(target + 1) else RestoreReading)
    case RestoreReading =>
      var path := RecordPath(m.id);
      if !Readable(io.files, path) || !io.files[path].RecordJson? then (io, RestoreEnded(Rejected))
      else (io, Restoring(io.files[path]))
    case Restoring(record) =>
      if !record.RecordJson? then (io, RestoreEnded(Rejected))
      else
        var (io1, outcome) := Restored(faults, io, m.id, record);
        (io1, RestoreEnded(outcome))
    case RestoreEnded(_) => (io, phase)
  }

  /** A whole restore, with the files found at its five steps. */
  function RestoreRun(faults: nat -> bool, calls: nat, m: RestoreManifest, phase: RestorePhase,
                      found: seq<Files>): (Files, RestorePhase)
    requires found != []
    decreases |found|
  {
    var (io, phase') := RestoreStep(faults, Io(found[0], calls, []), m, phase);
    if |found| == 1 then (io.files, phase') else RestoreRun(faults, io.calls, m, phase', found[1..])
  }

  // ----- main results: restores

  /** After every call of a restore, whatever files it found and whatever fails, the payload is in the
      vault or at the original path. */
  lemma {:induction false} RestoreLosesNothing(faults: nat -> bool, io: Io, id: string, recordBytes: Bytes)
    requires recordBytes.RecordJson? && Restored(faults, io, id, recordBytes).1 != Rejected
    ensures var path := recordBytes.record.originalPath; var stored := StoredPath(id, path);
            && stored in io.files
            && Along(io, Restored(faults, io, id, recordBytes).0, files =>
                 Holds(files, stored, io.files[stored]) || Holds(files, path, io.files[stored]))
  {
    var record := recordBytes.record;
    var stored := StoredPath(id, record.originalPath);
    var bytes := io.files[stored];
    var holds := files => Holds(files, stored, bytes) || Holds(files, record.originalPath, bytes);
    var (io1, restored) := Replaced(faults, io, record.originalPath, None, bytes);
    assert Along(io, io1, holds);
    if restored {
      var (io2, emptied) := Deleted(faults, io1, stored, bytes);
      assert Along(io1, io2, holds);
      AlongTwice(io, io1, io2, holds);
      if emptied {
        var io3 := Deleted(faults, io2, RecordPath(id), recordBytes).0;
        assert Along(io2, io3, holds);
        AlongTwice(io, io2, io3, holds);
      }
    }
  }

  function RecordIn(m: Manifest, found: seq<Files>, recordLength: nat): Bytes
    requires |found| == Steps(m)
  {
    RecordJson(RecordOf(m, SnapshotAt(found[Lookup(m) + 1], m.source)), recordLength)
  }

  /** The payload of a finished move or delete can be restored exactly when the source was the same at
      the snapshot and at the reading. Otherwise, as long as record and payload are what the operation
      wrote, no restore of it can be reviewed, and none that was reviewed before is carried out. */
  lemma {:induction false} RestorableExactly(faults: nat -> bool, calls: nat, m: Manifest, vault: seq<Entry>,
                                             recordLength: nat, found: seq<Files>, later: seq<Files>, io: Io)
    requires |found| == Steps(m) && m.capability != Copy && |later| == 4
    requires Run(faults, calls, m, Verifying(0), vault, recordLength, found).1 == Ended(Done)
    requires RecoveryId(m.operationId) && recordLength <= MAX_OPERATION_BYTES && m.source !in later[3]
    requires var record, payload := RecordIn(m, found, recordLength), At(found[Lookup(m) + 2], m.source);
             && Holds(later[0], RecordPath(m.operationId), record) && Holds(later[1], RecordPath(m.operationId), record)
             && At(later[2], StoredPath(m.operationId, m.source)) == payload
             && At(io.files, StoredPath(m.operationId, m.source)) == payload
    ensures var same := At(found[Lookup(m) + 2], m.source) == At(found[Lookup(m) + 1], m.source);
            && (CreateRestoreManifest(m.operationId, later).Some? <==> same)
            && (Restored(faults, io, m.operationId, RecordIn(m, found, recordLength)).1 != Rejected <==> same)
  {
    DoneExactly(faults, calls, m, vault, recordLength, found);
  }

  /** Neither has to be so: for any three contents within the limit there is a finished delete whose
      source holds the first at its verification, the second at its snapshot and the third when it is
      read and deleted. */
  lemma {:induction false} DoneWithAny(faults: nat -> bool, path: Path, id: string, x: Bytes, y: Bytes, z: Bytes,
                                       recordLength: nat)
    returns (m: Manifest, found: seq<Files>)
    requires path.Work? && path.name != "record.json" && NoFaultFrom(faults, 0)
    requires Size(x) <= MAX_OPERATION_BYTES && Size(y) <= MAX_OPERATION_BYTES && Size(z) <= MAX_OPERATION_BYTES
    ensures m == Manifest(id, Delete, path, Digest(x), None) && |found| == Steps(m)
    ensures At(found[0], path) == Some(x) && At(found[2], path) == Some(y) && At(found[3], path) == Some(z)
    ensures var (end, phase) := Run(faults, 0, m, Verifying(0), [], recordLength, found);
            phase == Ended(Done) && end == map[RecordPath(id) := RecordIn(m, found, recordLength),
                                               StoredPath(id, path) := z]
  {
    m := Manifest(id, Delete, path, Digest(x), None);
    var record := RecordJson(RecordOf(m, SnapshotAt(map[path := y], path)), recordLength);
    found := [map[path := x], map[path := x], map[path := y], map[path := z], map[path := z],
              map[path := z, RecordPath(id) := record]];
    NothingListed();
    DoneExactly(faults, 0, m, [], recordLength, found);
  }

  lemma {:induction false} NothingListed()
    ensures Listed([]) == []
  {
    ListingIs([], MAX_RECOVERY_ENTRIES + 1);
  }

  /** The five files found by a restore that nobody interferes with, and the four of its review. */
  function Always(files: Files, n: nat): seq<Files> {
    seq(n, _ => files)
  }

  lemma {:induction false} UndisturbedRestore(faults: nat -> bool, calls: nat, files: Files, id: string)
    requires CreateRestoreManifest(id, Always(files, 4)).Some?
    ensures var m := CreateRestoreManifest(id, Always(files, 4)).value;
            var (io, outcome) := Restored(faults, Io(files, calls, []), id, files[RecordPath(id)]);
            RestoreRun(faults, calls, m, RestoreVerifying(0), Always(files, 5)) == (io.files, RestoreEnded(outcome))
  {
    var m := CreateRestoreManifest(id, Always(files, 4)).value;
    assert forall n: nat :: n > 0 ==> Always(files, n)[1..] == Always(files, n - 1);
    assert RestoreRun(faults, calls, m, RestoreVerifying(0), Always(files, 5))
        == RestoreRun(faults, calls, m, RestoreVerifying(1), Always(files, 4))
        == RestoreRun(faults, calls, m, RestoreVerifying(2), Always(files, 3));
    assert RestoreRun(faults, calls, m, RestoreVerifying(2), Always(files, 3))
        == RestoreRun(faults, calls, m, RestoreReading, Always(files, 2))
        == RestoreRun(faults, calls, m, Restoring(files[RecordPath(id)]), Always(files, 1));
  }

  /** What a restore makes of the files that a transfer found: the destination of a move stays, the
      record goes. */
  function WithoutRecord(files: Files, m: Manifest, bytes: Bytes): Files
    requires m.capability == Move ==> m.destination.Some?
  {
    (if m.capability == Move then files[m.destination.value := bytes] else files) - {RecordPath(m.operationId)}
  }

  lemma {:induction false} RestoreTakesBack(faults: nat -> bool, calls: nat, m: Manifest, files: Files, bytes: Bytes,
                                            record: Bytes)
    requires m.capability != Copy && CanTransfer(files, m, bytes) && NoFaultFrom(faults, calls)
    requires m.source.Work? && (m.destination.Some? ==> m.destination.value.Work?)
    requires Size(bytes) <= MAX_OPERATION_BYTES && Holds(files, RecordPath(m.operationId), record)
    requires record.RecordJson? && record.record.originalPath == m.source
    requires record.record.beforeHash == Some(Digest(bytes))
    ensures var (io, outcome) := Restored(faults, Io(Transferred(files, m, bytes), calls, []), m.operationId, record);
            io.files == WithoutRecord(files, m, bytes) && outcome == Done
  {
    var end, stored := Transferred(files, m, bytes), StoredPath(m.operationId, m.source);
    var io := Restored(faults, Io(end, calls, []), m.operationId, record).0;
    assert io.files == end[m.source := bytes] - {stored} - {RecordPath(m.operationId)};
  }

  /** Restoring a finished delete gives back the files as its transfer found them, without its record;
      after a move, the copy at the destination stays as well. */
  lemma {:induction false} RestoreUndoes(faults: nat -> bool, calls: nat, m: Manifest, vault: seq<Entry>,
                                         recordLength: nat, found: seq<Files>, later: nat)
    requires |found| == Steps(m) && m.capability != Copy && NoFaultFrom(faults, later)
    requires Run(faults, calls, m, Verifying(0), vault, recordLength, found).1 == Ended(Done)
    requires At(found[Lookup(m) + 2], m.source) == At(found[Lookup(m) + 1], m.source)
    requires Holds(found[Steps(m) - 1], RecordPath(m.operationId), RecordIn(m, found, recordLength))
    requires RecoveryId(m.operationId) && recordLength <= MAX_OPERATION_BYTES
    ensures CanBeDone(m, vault, found)
    ensures var end := Run(faults, calls, m, Verifying(0), vault, recordLength, found).0;
            var review := CreateRestoreManifest(m.operationId, Always(end, 4));
            && review.Some?
            && RestoreRun(faults, later, review.value, RestoreVerifying(0), Always(end, 5))
               == (WithoutRecord(found[Steps(m) - 1], m, PayloadIn(m, found)), RestoreEnded(Done))
  {
    DoneExactly(faults, calls, m, vault, recordLength, found);
    var end := Intended(m, found);
    var record, bytes := RecordIn(m, found, recordLength), PayloadIn(m, found);
    assert Holds(end, RecordPath(m.operationId), record) && Holds(end, StoredPath(m.operationId, m.source), bytes);
    assert CreateRestoreManifest(m.operationId, Always(end, 4)).Some?;
    UndisturbedRestore(faults, later, end, m.operationId);
    RestoreTakesBack(faults, later, m, found[Steps(m) - 1], bytes, record);
  }

  /** A finished restore put back bytes with the hash that its record tells, at the path that it tells;
      it went by the reviewed record exactly when the record, at the moment it was read, was as at its
      verification, and then what it put back is the reviewed payload, at the reviewed target. */
  lemma {:induction false} RestoreReviewedExactly(faults: nat -> bool, calls: nat, m: RestoreManifest,
                                                  review: seq<Files>, found: seq<Files>)
    requires |review| == 4 && CreateRestoreManifest(m.id, review) == Some(m)
    requires At(review[0], m.recordPath) == At(review[1], m.recordPath)
    requires |found| == 5 && RestoreRun(faults, calls, m, RestoreVerifying(0), found).1 == RestoreEnded(Done)
    ensures var end := RestoreRun(faults, calls, m, RestoreVerifying(0), found).0;
            && At(found[3], m.recordPath).Some? && found[3][m.recordPath].RecordJson?
            && var record := found[3][m.recordPath].record;
            && record.originalPath in end && Some(Digest(end[record.originalPath])) == record.beforeHash
            && (Digest(found[3][m.recordPath]) == m.recordHash <==>
                At(found[3], m.recordPath) == At(found[1], m.recordPath))
            && (Digest(found[3][m.recordPath]) == m.recordHash ==>
                  record.originalPath == m.target && Digest(end[m.target]) == m.storedHash)
  {
    RestoreUnrolled(faults, calls, m, found);
  }

  /** A restore that will be done goes on. */
  lemma {:induction false} RestoreGoesOn(faults: nat -> bool, calls: nat, m: RestoreManifest, phase: RestorePhase,
                                         found: seq<Files>)
    requires |found| > 1 && (phase.RestoreVerifying? || phase.RestoreReading?)
    requires RestoreRun(faults, calls, m, phase, found).1 == RestoreEnded(Done)
    ensures var next := RestoreStep(faults, Io(found[0], calls, []), m, phase).1;
            && !next.RestoreEnded?
            && RestoreRun(faults, calls, m, phase, found) == RestoreRun(faults, calls, m, next, found[1..])
  {
    var next := RestoreStep(faults, Io(found[0], calls, []), m, phase).1;
    if next.RestoreEnded? {
      RestoreEndedStays(faults, calls, m, next.outcome, found[1..]);
    }
  }

  lemma {:induction false} RestoreUnrolled(faults: nat -> bool, calls: nat, m: RestoreManifest, found: seq<Files>)
    requires |found| == 5 && RestoreRun(faults, calls, m, RestoreVerifying(0), found).1 == RestoreEnded(Done)
    ensures forall k | 0 <= k < 3 :: RestoreTargetHolds(found[k], m, k)
    ensures var path := RecordPath(m.id);
            && Readable(found[3], path) && found[3][path].RecordJson?
            && var (io, outcome) := Restored(faults, Io(found[4], calls, []), m.id, found[3][path]);
            RestoreRun(faults, calls, m, RestoreVerifying(0), found) == (io.files, RestoreEnded(outcome))
  {
    var r1, r2, r3, r4 := found[1..], found[2..], found[3..], found[4..];
    assert r1[1..] == r2 && r2[1..] == r3 && r3[1..] == r4;
    RestoreGoesOn(faults, calls, m, RestoreVerifying(0), found);
    RestoreGoesOn(faults, calls, m, RestoreVerifying(1), r1);
    RestoreGoesOn(faults, calls, m, RestoreVerifying(2), r2);
    RestoreGoesOn(faults, calls, m, RestoreReading, r3);
  }

  lemma {:induction false} RestoreEndedStays(faults: nat -> bool, calls: nat, m: RestoreManifest, outcome: Outcome,
                                             found: seq<Files>)
    requires found != []
    ensures RestoreRun(faults, calls, m, RestoreEnded(outcome), found).1 == RestoreEnded(outcome)
    decreases |found|
  {
    if |found| > 1 {
      RestoreEndedStays(faults, calls, m, outcome, found[1..]);
    }
  }

  // ----- the methods

  /** The size loop, which stops once over the limit. */
  method SumSizes(files: Files, listing: seq<Path>) returns (bytes: nat)
    ensures bytes == Summed(files, listing, 0, 0)
  {
    bytes := 0;
    for k := 0 to |listing|
      invariant Summed(files, listing, k, bytes) == Summed(files, listing, 0, 0)
    {
      bytes := bytes + SizeAt(files, listing[k]);
      if bytes > MAX_RECOVERY_BYTES {
        return;
      }
    }
  }

  method RecoveryUsage(files: Files, vault: seq<Entry>) returns (usage: Usage)
    ensures usage == UsageOf(files, vault)
  {
    var list := new PathList(MAX_RECOVERY_ENTRIES + 1);
    list.WalkDirectory(vault);
    var bytes := SumSizes(files, list.paths);
    usage := Usage(bytes, |list.paths|);
  }

  /** A call of `executeStructuredFileOperation`: a method for each stretch between two awaits. */
  class StructuredFileOperation {
    const workspace: Workspace
    const m: Manifest
    const recordLength: nat
    var phase: Phase

    constructor (workspace: Workspace, m: Manifest, recordLength: nat)
      ensures this.workspace == workspace && this.m == m && this.recordLength == recordLength
      ensures phase == Verifying(0)
    {
      this.workspace, this.m, this.recordLength := workspace, m, recordLength;
      phase := Verifying(0);
    }

    ghost predicate Stepped(before: Io, was: Phase, vault: seq<Entry>)
      reads this, workspace
    {
      (workspace.View(), phase) == Step(workspace.faults, before, m, was, vault, recordLength)
    }

    method VerifyTarget()
      requires phase.Verifying?
      modifies this
      ensures Stepped(old(workspace.View()), old(phase), [])
    {
      var files := workspace.files;
      if phase.target == 0 {
        if !m.source.Work? || !Readable(files, m.source) || Digest(files[m.source]) != m.sourceHash {
          phase := Ended(Rejected);
        } else {
          phase := if m.destination.Some? then Verifying(1) else Locating;
        }
      } else if m.destination.None? || !m.destination.value.Work? || m.destination.value in files {
        phase := Ended(Rejected);
      } else {
        phase := Locating;
      }
    }

    method LocateSource()
      requires phase.Locating?
      modifies this
      ensures Stepped(old(workspace.View()), old(phase), [])
    {
      phase := if m.source in workspace.files then Inspecting else Ended(Rejected);
    }

    method SnapshotSource()
      requires phase.Inspecting?
      modifies this
      ensures Stepped(old(workspace.View()), old(phase), [])
    {
      if m.source in workspace.files && Size(workspace.files[m.source]) > MAX_OPERATION_BYTES {
        phase := Ended(Rejected);
      } else {
        phase := Reading(SnapshotAt(workspace.files, m.source));
      }
    }

    /** Reads the source; a copy is made at once, and else the use of the vault is counted. */
    method ReadSource(vault: seq<Entry>)
      requires phase.Reading?
      modifies this, workspace
      ensures Stepped(old(workspace.View()), old(phase), vault)
    {
      if !Readable(workspace.files, m.source) {
        phase := Ended(Rejected);
        return;
      }
      var payload := workspace.files[m.source];
      if m.capability != Copy {
        var usage := RecoveryUsage(workspace.files, vault);
        phase := Recording(phase.source, payload, usage);
      } else if m.destination.None? {
        phase := Ended(Rejected);
      } else {
        var call := workspace.calls;
        var copied := workspace.Replace(m.destination.value, None, payload);
        phase := Ended(if copied then Done else Failed(call));
      }
    }

    method WriteRecord()
      requires phase.Recording?
      modifies this, workspace
      ensures Stepped(old(workspace.View()), old(phase), [])
    {
      var source, usage := phase.source, phase.usage;
      if usage.entries + source.entries + 1 > MAX_RECOVERY_ENTRIES
         || usage.bytes + source.bytes > MAX_RECOVERY_BYTES {
        phase := Ended(Rejected);
        return;
      }
      var record := RecordJson(RecordOf(m, source), recordLength);
      var call := workspace.calls;
      var recorded := workspace.Replace(RecordPath(m.operationId), None, record);
      phase := if recorded then Transferring(source, phase.payload, record) else Ended(Failed(call));
    }

    method Transfer()
      requires phase.Transferring?
      modifies this, workspace
      ensures Stepped(old(workspace.View()), old(phase), [])
    {
      var outcome := TransferGuarded(workspace, m, phase.payload, phase.record);
      phase := Ended(outcome);
    }
  }

  method TransferGuarded(workspace: Workspace, m: Manifest, bytes: Bytes, record: Bytes) returns (outcome: Outcome)
    modifies workspace
    ensures (workspace.View(), outcome) == Guarded(workspace.faults, old(workspace.View()), m, bytes, record)
  {
    var destinationCreated, recoveryStored := false, false;
    var call := workspace.calls;
    recoveryStored := workspace.Replace(StoredPath(m.operationId, m.source), None, bytes);
    var ok := recoveryStored;
    if ok && m.capability == Move {
      if m.destination.None? {
        ok := false;
      } else {
        call := workspace.calls;
        destinationCreated := workspace.Replace(m.destination.value, None, bytes);
        ok := destinationCreated;
      }
    }
    if ok {
      call := workspace.calls;
      ok := workspace.Delete(m.source, bytes);
    }
    if !ok {
      if destinationCreated {
        var _ := workspace.Delete(m.destination.value, bytes);
      }
      if recoveryStored {
        var _ := workspace.Delete(StoredPath(m.operationId, m.source), bytes);
      }
      var _ := workspace.Delete(RecordPath(m.operationId), record);
      return Failed(call);
    }
    outcome := Done;
  }

  /** A call of `executeRestoreOperation`. */
  class RestoreOperation {
    const workspace: Workspace
    const m: RestoreManifest
    var phase: RestorePhase

    constructor (workspace: Workspace, m: RestoreManifest)
      ensures this.workspace == workspace && this.m == m && phase == RestoreVerifying(0)
    {
      this.workspace, this.m := workspace, m;
      phase := RestoreVerifying(0);
    }

    ghost predicate Stepped(before: Io, was: RestorePhase)
      reads this, workspace
    {
      (workspace.View(), phase) == RestoreStep(workspace.faults, before, m, was)
    }

    method VerifyTarget()
      requires phase.RestoreVerifying?
      modifies this
      ensures Stepped(old(workspace.View()), old(phase))
    {
      if !RestoreBound(m) || !RestoreTargetHolds(workspace.files, m, phase.target) {
        phase := RestoreEnded(Rejected);
      } else {
        phase := if phase.target < 2 then RestoreVerifying(phase.target + 1) else RestoreReading;
      }
    }

    method ReadRecord()
      requires phase.RestoreReading?
      modifies this
      ensures Stepped(old(workspace.View()), old(phase))
    {
      var path := RecordPath(m.id);
      if !Readable(workspace.files, path) || !workspace.files[path].RecordJson? {
        phase := RestoreEnded(Rejected);
      } else {
        phase := Restoring(workspace.files[path]);
      }
    }

    method PutBack()
      requires phase.Restoring? && phase.record.RecordJson?
      modifies this, workspace
      ensures Stepped(old(workspace.View()), old(phase))
    {
      var recordBytes := phase.record;
      var record := recordBytes.record;
      var stored := StoredPath(m.id, record.originalPath);
      if !record.originalPath.Work? || !Readable(workspace.files, stored)
         || Some(Digest(workspace.files[stored])) != record.beforeHash {
        phase := RestoreEnded(Rejected);
        return;
      }
      var storedBytes := workspace.files[stored];
      var call := workspace.calls;
      var ok := workspace.Replace(record.originalPath, None, storedBytes);
      if ok {
        call := workspace.calls;
        ok := workspace.Delete(stored, storedBytes);
      }
      if ok {
        call := workspace.calls;
        ok := workspace.Delete(RecordPath(m.id), recordBytes);
      }
      phase := RestoreEnded(if ok then Done else Failed(call));
    }
  }
}
