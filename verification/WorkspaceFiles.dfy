/** Files of a workspace behind compare-and-swap primitives (src/runtime/workspace-broker.ts): each
    call takes its whole effect or fails without any. */
module WorkspaceFiles {

  import opened Wrappers

  /** A path in the workspace proper, or in the recovery vault under the id of an operation. */
  datatype Path = Work(directory: string, name: string) | Vault(operation: string, name: string)

  /** The bytes of a file: plain data, or a recovery record printed as JSON. */
  datatype Bytes = Data(bytes: seq<bv8>) | RecordJson(record: Record, length: nat)

  datatype Capability = Copy | Move | Delete

  /** SHA-256 of a file's bytes, told apart by the bytes themselves. */
  datatype Digest = Digest(of: Bytes)

  /** A recovery record; `beforeHash` is what a snapshot found, `None` for a missing file. */
  datatype Record = Record(operationId: string, capability: Capability, originalPath: Path,
                           destinationPath: Option<Path>, beforeHash: Option<Digest>)

  type Files = map<Path, Bytes>

  function Size(bytes: Bytes): nat {
    match bytes
    case Data(data) => |data|
    case RecordJson(_, length) => length
  }

  function At(files: Files, path: Path): Option<Bytes> {
    if path in files then Some(files[path]) else None
  }

  /** The files, the number of primitive calls made so far, and the files after each call. */
  datatype Io = Io(files: Files, calls: nat, trace: seq<Files>)

  function Calling(io: Io, files: Files): Io {
    Io(files, io.calls + 1, io.trace + [files])
  }

  /** `faults(n)` says that the n-th call fails for a reason of its own. */
  predicate Succeeds(faults: nat -> bool, io: Io, path: Path, expected: Option<Bytes>) {
    !faults(io.calls) && At(io.files, path) == expected
  }

  ghost predicate NoFaultFrom(faults: nat -> bool, call: nat) {
    forall n | n >= call :: !faults(n)
  }

  function Replaced(faults: nat -> bool, io: Io, path: Path, expected: Option<Bytes>, replacement: Bytes): (Io, bool) {
    if Succeeds(faults, io, path, expected) then (Calling(io, io.files[path := replacement]), true)
    else (Calling(io, io.files), false)
  }

  function Deleted(faults: nat -> bool, io: Io, path: Path, expected: Bytes): (Io, bool) {
    if Succeeds(faults, io, path, Some(expected)) then (Calling(io, io.files - {path}), true)
    else (Calling(io, io.files), false)
  }

  /** Whether nothing is at the path; the inspection may fail as well. */
  function Inspected(faults: nat -> bool, io: Io, path: Path): (Io, bool) {
    (Calling(io, io.files), Succeeds(faults, io, path, None))
  }

  class Workspace {
    const faults: nat -> bool
    var files: Files
    var calls: nat
    ghost var trace: seq<Files>

    ghost function View(): Io
      reads this
    {
      Io(files, calls, trace)
    }

    constructor (files: Files, faults: nat -> bool)
      ensures this.faults == faults && View() == Io(files, 0, [])
    {
      this.faults := faults;
      this.files := files;
      calls, trace := 0, [];
    }

    method Replace(path: Path, expected: Option<Bytes>, replacement: Bytes) returns (ok: bool)
      modifies this
      ensures (View(), ok) == Replaced(faults, old(View()), path, expected, replacement)
    {
      ok := !faults(calls) && At(files, path) == expected;
      if ok {
        files := files[path := replacement];
      }
      calls := calls + 1;
      trace := trace + [files];
    }

    method Delete(path: Path, expected: Bytes) returns (ok: bool)
      modifies this
      ensures (View(), ok) == Deleted(faults, old(View()), path, expected)
    {
      ok := !faults(calls) && At(files, path) == Some(expected);
      if ok {
        files := files - {path};
      }
      calls := calls + 1;
      trace := trace + [files];
    }

    method IsMissing(path: Path) returns (ok: bool)
      modifies this
      ensures (View(), ok) == Inspected(faults, old(View()), path)
    {
      ok := !faults(calls) && At(files, path) == None;
      calls := calls + 1;
      trace := trace + [files];
    }
  }
}
