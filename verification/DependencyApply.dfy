/** Applying a reviewed dependency proposal to its files, all of them or none
    (src/runtime/dependency-operations.ts). */
module DependencyApply {
  import opened Wrappers
  import opened WorkspaceFiles

  /** A file of a proposal: what it held at the preview and what it is to hold; `None` is absent. */
  datatype Change = Change(path: Path, before: Option<Bytes>, after: Option<Bytes>)

  datatype Target = Target(path: Path, beforeHash: Option<Digest>)

  datatype Proposal = Proposal(changes: seq<Change>, targets: seq<Target>, digest: string, threadId: string,
                               turnId: string, expiresAt: int)

  datatype Manifest = Manifest(previewId: string, digest: string, threadId: string, turnId: string,
                               targets: seq<Target>)

  /** `Failed` carries the number of the first call of the rollback. */
  datatype Outcome = Applied | Failed(rollbackFrom: nat)

  ghost predicate Distinct(changes: seq<Change>) {
    forall i, j | 0 <= i < j < |changes| :: changes[i].path != changes[j].path
  }

  // ----- one file

  function AppliedFile(faults: nat -> bool, io: Io, path: Path, expected: Option<Bytes>,
                       replacement: Option<Bytes>): (Io, bool) {
    if replacement.Some? then Replaced(faults, io, path, expected, replacement.value)
    else if expected.Some? then Deleted(faults, io, path, expected.value)
    else Inspected(faults, io, path)
  }

  // ----- all files

  /** Applies the changes from the k-th on, up to the first failure; also how many are applied then. */
  function AppliedFrom(faults: nat -> bool, io: Io, changes: seq<Change>, k: nat): (Io, nat)
    requires k <= |changes|
    decreases |changes| - k
  {
    if k == |changes| then (io, k)
    else
      var (io1, ok) := AppliedFile(faults, io, changes[k].path, changes[k].before, changes[k].after);
      if ok then AppliedFrom(faults, io1, changes, k + 1) else (io1, k)
  }

  /** Takes back the applied changes from the k-th to the n-th, in the order they were made, passing
      over failures. */
  function RolledBack(faults: nat -> bool, io: Io, changes: seq<Change>, k: nat, n: nat): Io
    requires k <= n <= |changes|
    decreases n - k
  {
    if k == n then io
    else RolledBack(faults, AppliedFile(faults, io, changes[k].path, changes[k].after, changes[k].before).0, changes,
                    k + 1, n)
  }

  function Transaction(faults: nat -> bool, io: Io, changes: seq<Change>): (Io, Outcome) {
    var (io1, n) := AppliedFrom(faults, io, changes, 0);
    AppliedCount(faults, io, changes, 0);
    if n == |changes| then (io1, Applied) else (RolledBack(faults, io1, changes, 0, n), Failed(io1.calls))
  }

  lemma {:induction false} AppliedCount(faults: nat -> bool, io: Io, changes: seq<Change>, k: nat)
    requires k <= |changes|
    ensures k <= AppliedFrom(faults, io, changes, k).1 <= |changes|
    decreases |changes| - k
  {
    if k < |changes| {
      var (io1, ok) := AppliedFile(faults, io, changes[k].path, changes[k].before, changes[k].after);
      if ok {
        AppliedCount(faults, io1, changes, k + 1);
      }
    }
  }

  // ----- between the old files and the new

  ghost predicate Outside(changes: seq<Change>, lo: nat, hi: nat, path: Path)
    requires hi <= |changes|
  {
    forall i | lo <= i < hi :: changes[i].path != path
  }

  /** The files are the original ones with exactly the changes from `lo` to `hi` made. */
  ghost predicate Between(original: Files, files: Files, changes: seq<Change>, lo: nat, hi: nat)
    requires hi <= |changes|
  {
    && (forall i | lo <= i < hi :: At(files, changes[i].path) == changes[i].after)
    && (forall path | Outside(changes, lo, hi, path) :: At(files, path) == At(original, path))
  }

  /** The original holds what was there at the preview, for the changes from `lo` to `hi`. */
  ghost predicate AsPreviewed(original: Files, changes: seq<Change>, lo: nat, hi: nat)
    requires hi <= |changes|
  {
    forall i | lo <= i < hi :: At(original, changes[i].path) == changes[i].before
  }

  lemma {:induction false} OneMore(faults: nat -> bool, original: Files, io: Io, changes: seq<Change>, k: nat)
    requires Distinct(changes) && k < |changes| && Between(original, io.files, changes, 0, k)
    requires AppliedFile(faults, io, changes[k].path, changes[k].before, changes[k].after).1
    ensures At(original, changes[k].path) == changes[k].before
    ensures Between(original, AppliedFile(faults, io, changes[k].path, changes[k].before, changes[k].after).0.files,
                    changes, 0, k + 1)
  {
    var io1 := AppliedFile(faults, io, changes[k].path, changes[k].before, changes[k].after).0;
    assert Outside(changes, 0, k, changes[k].path);
    forall path | Outside(changes, 0, k + 1, path)
      ensures At(io1.files, path) == At(original, path)
    {
      assert path != changes[k].path;
      assert Outside(changes, 0, k, path);
    }
  }

  lemma {:induction false} AppliedUpTo(faults: nat -> bool, original: Files, io: Io, changes: seq<Change>, k: nat)
    requires Distinct(changes) && k <= |changes|
    requires Between(original, io.files, changes, 0, k) && AsPreviewed(original, changes, 0, k)
    ensures var (io1, n) := AppliedFrom(faults, io, changes, k);
            && k <= n <= |changes|
            && Between(original, io1.files, changes, 0, n) && AsPreviewed(original, changes, 0, n)
    decreases |changes| - k
  {
    if k < |changes| {
      var (io1, ok) := AppliedFile(faults, io, changes[k].path, changes[k].before, changes[k].after);
      if ok {
        OneMore(faults, original, io, changes, k);
        AppliedUpTo(faults, original, io1, changes, k + 1);
      } else {
        assert io1.files == io.files;
      }
    }
  }

  lemma {:induction false} OneBack(faults: nat -> bool, original: Files, io: Io, changes: seq<Change>, k: nat, n: nat)
    requires Distinct(changes) && k < n <= |changes| && NoFaultFrom(faults, io.calls)
    requires Between(original, io.files, changes, k, n) && AsPreviewed(original, changes, k, n)
    ensures var io1 := AppliedFile(faults, io, changes[k].path, changes[k].after, changes[k].before).0;
            Between(original, io1.files, changes, k + 1, n) && NoFaultFrom(faults, io1.calls)
  {
    var io1 := AppliedFile(faults, io, changes[k].path, changes[k].after, changes[k].before).0;
    forall path | Outside(changes, k + 1, n, path)
      ensures At(io1.files, path) == At(original, path)
    {
      if path != changes[k].path {
        assert Outside(changes, k, n, path);
      }
    }
  }

  lemma {:induction false} BackToOriginal(faults: nat -> bool, original: Files, io: Io, changes: seq<Change>, k: nat,
                                          n: nat)
    requires Distinct(changes) && k <= n <= |changes| && NoFaultFrom(faults, io.calls)
    requires Between(original, io.files, changes, k, n) && AsPreviewed(original, changes, k, n)
    ensures RolledBack(faults, io, changes, k, n).files == original
    decreases n - k
  {
    if k == n {
      SameEverywhere(original, io.files, changes, k);
    } else {
      OneBack(faults, original, io, changes, k, n);
      BackToOriginal(faults, original,
                     AppliedFile(faults, io, changes[k].path, changes[k].after, changes[k].before).0, changes, k
                         + 1, n);
    }
  }

  lemma {:induction false} SameEverywhere(original: Files, files: Files, changes: seq<Change>, k: nat)
    requires k <= |changes| && Between(original, files, changes, k, k)
    ensures files == original
  {
    forall path
      ensures At(files, path) == At(original, path)
    {
      assert Outside(changes, k, k, path);
    }
    assert forall path | path in files :: At(files, path).Some? && At(original, path) == At(files, path);
    assert forall path | path in original :: At(original, path).Some? && At(files, path) == At(original, path);
  }

  // ----- main results

  /** All or nothing: when the transaction applies, the files are the original ones with exactly its
      changes made, each from what was previewed; when it fails, and the calls of the rollback
      succeed, they are the original ones, whichever files were created, deleted or absent. */
  lemma {:induction false} AllOrNothing(faults: nat -> bool, io: Io, changes: seq<Change>)
    requires Distinct(changes)
    ensures var (end, outcome) := Transaction(faults, io, changes);
            && (outcome == Applied ==>
                  Between(io.files, end.files, changes, 0, |changes|) && AsPreviewed(io.files, changes, 0, |changes|))
            && (outcome.Failed? && NoFaultFrom(faults, outcome.rollbackFrom) ==> end.files == io.files)
  {
    AppliedUpTo(faults, io.files, io, changes, 0);
    var (io1, n) := AppliedFrom(faults, io, changes, 0);
    if n < |changes| && NoFaultFrom(faults, io1.calls) {
      BackToOriginal(faults, io.files, io1, changes, 0, n);
    }
  }

  /** With no faults it applies exactly when every file still holds what was previewed. */
  lemma {:induction false} AppliesExactly(faults: nat -> bool, io: Io, changes: seq<Change>)
    requires Distinct(changes) && NoFaultFrom(faults, io.calls)
    ensures Transaction(faults, io, changes).1 == Applied <==> AsPreviewed(io.files, changes, 0, |changes|)
  {
    AllOrNothing(faults, io, changes);
    if AsPreviewed(io.files, changes, 0, |changes|) {
      AllApply(faults, io.files, io, changes, 0);
    }
  }

  lemma {:induction false} AllApply(faults: nat -> bool, original: Files, io: Io, changes: seq<Change>, k: nat)
    requires Distinct(changes) && k <= |changes| && NoFaultFrom(faults, io.calls)
    requires Between(original, io.files, changes, 0, k) && AsPreviewed(original, changes, 0, |changes|)
    ensures AppliedFrom(faults, io, changes, k).1 == |changes|
    decreases |changes| - k
  {
    if k < |changes| {
      assert Outside(changes, 0, k, changes[k].path);
      assert At(io.files, changes[k].path) == changes[k].before;
      OneMore(faults, original, io, changes, k);
      AllApply(faults, original, AppliedFile(faults, io, changes[k].path, changes[k].before, changes[k].after).0,
               changes, k + 1);
    }
  }

  /** Every file of the proposal is old or new, and every other file untouched. */
  ghost predicate OldOrNew(original: Files, files: Files, changes: seq<Change>) {
    forall path ::
      || At(files, path) == At(original, path)
      || exists i | 0 <= i < |changes| :: changes[i].path == path && At(files, path) == changes[i].after
  }

  ghost predicate AllOldOrNew(original: Files, before: Io, after: Io, changes: seq<Change>) {
    && before.trace <= after.trace
    && OldOrNew(original, after.files, changes)
    && forall k | |before.trace| <= k < |after.trace| :: OldOrNew(original, after.trace[k], changes)
  }

  lemma {:induction false} StepOldOrNew(faults: nat -> bool, original: Files, start: Io, io: Io, changes: seq<Change>,
                                        i: nat, expected: Option<Bytes>, replacement: Option<Bytes>)
    requires i < |changes| && AllOldOrNew(original, start, io, changes)
    requires replacement == changes[i].after || At(original, changes[i].path) == replacement
    ensures AllOldOrNew(original, start, AppliedFile(faults, io, changes[i].path, expected, replacement).0, changes)
  {
    var io1 := AppliedFile(faults, io, changes[i].path, expected, replacement).0;
    forall path
      ensures At(io1.files, path) == At(original, path)
              || exists j | 0 <= j < |changes| :: changes[j].path == path && At(io1.files, path) == changes[j].after
    {
      assert At(io.files, path) == At(original, path)
             || exists j | 0 <= j < |changes| :: changes[j].path == path && At(io.files, path) == changes[j].after;
      if path == changes[i].path && At(io1.files, path) != At(io.files, path) {
        assert At(io1.files, path) == replacement;
      }
    }
    assert OldOrNew(original, io1.files, changes);
  }

  lemma {:induction false} ForwardOldOrNew(faults: nat -> bool, original: Files, start: Io, io: Io,
                                           changes: seq<Change>, k: nat)
    requires k <= |changes| && AllOldOrNew(original, start, io, changes)
    ensures AllOldOrNew(original, start, AppliedFrom(faults, io, changes, k).0, changes)
    decreases |changes| - k
  {
    if k < |changes| {
      StepOldOrNew(faults, original, start, io, changes, k, changes[k].before, changes[k].after);
      var (io1, ok) := AppliedFile(faults, io, changes[k].path, changes[k].before, changes[k].after);
      if ok {
        ForwardOldOrNew(faults, original, start, io1, changes, k + 1);
      }
    }
  }

  lemma {:induction false} BackwardOldOrNew(faults: nat -> bool, original: Files, start: Io, io: Io,
                                            changes: seq<Change>, k: nat, n: nat)
    requires k <= n <= |changes| && AllOldOrNew(original, start, io, changes) && AsPreviewed(original, changes, 0, n)
    ensures AllOldOrNew(original, start, RolledBack(faults, io, changes, k, n), changes)
    decreases n - k
  {
    if k < n {
      StepOldOrNew(faults, original, start, io, changes, k, changes[k].after, changes[k].before);
      BackwardOldOrNew(faults, original, start,
                       AppliedFile(faults, io, changes[k].path, changes[k].after, changes[k].before).0, changes, k
                           + 1, n);
    }
  }

  /** Whatever calls fail, those of the rollback included: after every call each file holds what it
      held before or what the proposal gives it, and files outside the proposal are untouched. */
  lemma {:induction false} NeverInBetween(faults: nat -> bool, io: Io, changes: seq<Change>)
    requires Distinct(changes)
    ensures AllOldOrNew(io.files, io, Transaction(faults, io, changes).0, changes)
  {
    ForwardOldOrNew(faults, io.files, io, io, changes, 0);
    AppliedUpTo(faults, io.files, io, changes, 0);
    var (io1, n) := AppliedFrom(faults, io, changes, 0);
    if n < |changes| {
      BackwardOldOrNew(faults, io.files, io, io1, changes, 0, n);
    }
  }

  /** A first file that is not as previewed stops the transaction, with no effect. */
  lemma {:induction false} FirstChangeStops(faults: nat -> bool, io: Io, changes: seq<Change>)
    requires changes != [] && At(io.files, changes[0].path) != changes[0].before
    ensures Transaction(faults, io, changes).1.Failed? && Transaction(faults, io, changes).0.files == io.files
  {
    var io1 := AppliedFile(faults, io, changes[0].path, changes[0].before, changes[0].after).0;
    assert AppliedFrom(faults, io, changes, 0) == (io1, 0);
    assert RolledBack(faults, io1, changes, 0, 0) == io1;
  }

  // ----- the broker

  /** A proposal as a preview leaves it: its first file, the package file, is there before and after
      and is changed. */
  predicate WellMade(p: Proposal) {
    && p.changes != [] && p.changes[0].before.Some? && p.changes[0].after.Some?
    && p.changes[0].before != p.changes[0].after
    && forall i, j | 0 <= i < j < |p.changes| :: p.changes[i].path != p.changes[j].path
  }

  /** A call of `apply` between its check of the proposal and its transaction, suspended at the
      verification of the targets; so many are verified. */
  datatype Waiting = Waiting(previewId: string, proposal: Proposal, verified: nat)

  /** The broker with its suspended calls, all ids that previews ever had, the ids applied so far in
      their order, and the files. */
  datatype State = State(proposals: map<string, Proposal>, used: set<string>, waiting: map<nat, Waiting>,
                         applied: seq<string>, io: Io)

  datatype Action =
    | Prune(now: int)
    | Store(id: string, proposal: Proposal)
    | Begin(request: nat, manifest: Manifest, now: int)
    | Verify(request: nat, readable: bool)
    | Commit(request: nat)
    | Write(files: Files)

  function Pruned(proposals: map<string, Proposal>, now: int): map<string, Proposal> {
    map id | id in proposals && proposals[id].expiresAt > now :: proposals[id]
  }

  predicate Matches(p: Proposal, m: Manifest) {
    p.threadId == m.threadId && p.turnId == m.turnId && p.digest == m.digest && p.targets == m.targets
  }

  predicate TargetHolds(files: Files, target: Target) {
    target.beforeHash == if target.path in files then Some(Digest(files[target.path])) else None
  }

  predicate Verified(s: State, request: nat) {
    request in s.waiting && s.waiting[request].verified == |s.waiting[request].proposal.targets|
  }

  /** What the transaction of a call would come to. */
  function Committing(faults: nat -> bool, s: State, request: nat): (Io, Outcome)
    requires request in s.waiting
  {
    Transaction(faults, s.io, s.waiting[request].proposal.changes)
  }

  predicate CommitApplies(faults: nat -> bool, s: State, request: nat) {
    Verified(s, request) && Committing(faults, s, request).1 == Applied
  }

  /** One step: a prune, a preview that is stored under a fresh id, a call of `apply` up to its wait,
      the verification of its next target, its transaction, or a write from outside. */
  function Next(faults: nat -> bool, s: State, action: Action): State {
    match action
    case Prune(now) => s.(proposals := Pruned(s.proposals, now))
    case Store(id, proposal) =>
      if id in s.used || !WellMade(proposal) then s
      else s.(proposals := s.proposals[id := proposal], used := s.used + {id})
    case Begin(request, m, now) =>
      var live := Pruned(s.proposals, now);
      if request !in s.waiting && m.previewId in live && Matches(live[m.previewId], m)
      then s.(proposals := live, waiting := s.waiting[request := Waiting(m.previewId, live[m.previewId], 0)])
      else s.(proposals := live)
    case Verify(request, readable) =>
      if request !in s.waiting || Verified(s, request) then s
      else
        var w := s.waiting[request];
        if readable && w.verified < |w.proposal.targets| && TargetHolds(s.io.files, w.proposal.targets[w.verified])
        then s.(waiting := s.waiting[request := w.(verified := w.verified + 1)])
        else s.(waiting := s.waiting - {request})
    case Commit(request) =>
      if !Verified(s, request) then s
      else
        var id := s.waiting[request].previewId;
        var (io, outcome) := Committing(faults, s, request);
        var ended := s.(waiting := s.waiting - {request}, io := io);
        if outcome == Applied then ended.(proposals := s.proposals - {id}, applied := s.applied + [id]) else ended
    case Write(files) => s.(io := s.io.(files := files))
  }

  function Run(faults: nat -> bool, s: State, actions: seq<Action>): State
    decreases |actions|
  {
    if actions == [] then s else Run(faults, Next(faults, s, actions[0]), actions[1..])
  }

  function Initial(files: Files): State {
    State(map[], {}, map[], [], Io(files, 0, []))
  }

  ghost predicate Inv(s: State) {
    && (forall id | id in s.proposals :: id in s.used && id !in s.applied && WellMade(s.proposals[id]))
    && (forall id | id in s.applied :: id in s.used)
    && (forall r | r in s.waiting :: s.waiting[r].previewId in s.used && WellMade(s.waiting[r].proposal)
                                     && s.waiting[r].verified <= |s.waiting[r].proposal.targets|)
    && (forall r | r in s.waiting && s.waiting[r].previewId in s.proposals ::
          s.proposals[s.waiting[r].previewId] == s.waiting[r].proposal)
    && (forall q, r | q in s.waiting && r in s.waiting && s.waiting[q].previewId == s.waiting[r].previewId ::
          s.waiting[q].proposal == s.waiting[r].proposal)
  }

  lemma {:induction false} NextKeepsInv(faults: nat -> bool, s: State, action: Action)
    requires Inv(s)
    ensures Inv(Next(faults, s, action))
  {
    match action
    case Prune(now) =>
    case Store(id, proposal) => StoreKeepsInv(faults, s, id, proposal);
    case Begin(request, m, now) => BeginKeepsInv(faults, s, request, m, now);
    case Verify(request, readable) => VerifyKeepsInv(faults, s, request, readable);
    case Commit(request) => CommitKeepsInv(faults, s, request);
    case Write(files) =>
  }

  lemma {:induction false} StoreKeepsInv(faults: nat -> bool, s: State, id: string, proposal: Proposal)
    requires Inv(s)
    ensures Inv(Next(faults, s, Store(id, proposal)))
  {
  }

  lemma {:induction false} BeginKeepsInv(faults: nat -> bool, s: State, request: nat, m: Manifest, now: int)
    requires Inv(s)
    ensures Inv(Next(faults, s, Begin(request, m, now)))
  {
  }

  lemma {:induction false} VerifyKeepsInv(faults: nat -> bool, s: State, request: nat, readable: bool)
    requires Inv(s)
    ensures Inv(Next(faults, s, Verify(request, readable)))
  {
  }

  lemma {:induction false} CommitKeepsInv(faults: nat -> bool, s: State, request: nat)
    requires Inv(s)
    ensures Inv(Next(faults, s, Commit(request)))
  {
  }

  lemma {:induction false} InitialInv(files: Files)
    ensures Inv(Initial(files))
  {
  }

  lemma {:induction false} RunKeepsInv(faults: nat -> bool, s: State, actions: seq<Action>)
    requires Inv(s)
    ensures Inv(Run(faults, s, actions))
    decreases |actions|
  {
    if actions != [] {
      NextKeepsInv(faults, s, actions[0]);
      RunKeepsInv(faults, Next(faults, s, actions[0]), actions[1..]);
    }
  }

  lemma {:induction false} RunConcat(faults: nat -> bool, s: State, left: seq<Action>, right: seq<Action>)
    ensures Run(faults, s, left + right) == Run(faults, Run(faults, s, left), right)
    decreases |left|
  {
    if left == [] {
      assert left + right == right;
    } else {
      assert (left + right)[0] == left[0] && (left + right)[1..] == left[1..] + right;
      RunConcat(faults, Next(faults, s, left[0]), left[1..], right);
    }
  }

  // ----- the class alone: its only caller lets no second call wait (OperationQueue)

  function Times(s: State, id: string): nat {
    multiset(s.applied)[id]
  }

  predicate IsWaiting(s: State, id: string) {
    exists r | r in s.waiting :: s.waiting[r].previewId == id
  }

  /** A proposal that was applied while no other call for it was waiting is gone: in every later run
      every call for it is refused at its check, and it is never applied again. */
  lemma {:induction false} AppliedOnce(faults: nat -> bool, s: State, actions: seq<Action>, id: string)
    requires Inv(s) && id in s.applied && !IsWaiting(s, id)
    ensures var s' := Run(faults, s, actions);
        Times(s', id) == Times(s, id) && id !in s'.proposals && !IsWaiting(s', id)
    decreases |actions|
  {
    if actions != [] {
      NextKeepsInv(faults, s, actions[0]);
      StaysGone(faults, s, actions[0], id);
      AppliedOnce(faults, Next(faults, s, actions[0]), actions[1..], id);
    }
  }

  ghost predicate NoNewCalls(s: State, s': State, id: string) {
    forall r | r in s'.waiting && s'.waiting[r].previewId == id ::
      r in s.waiting && s.waiting[r].previewId == id && s.waiting[r].proposal == s'.waiting[r].proposal
  }

  lemma {:induction false} NoCallBegins(faults: nat -> bool, s: State, action: Action, id: string)
    requires id !in s.proposals
    ensures NoNewCalls(s, Next(faults, s, action), id)
  {
  }

  /** Once applied, a proposal gains no waiting call. */
  lemma {:induction false} StaysGone(faults: nat -> bool, s: State, action: Action, id: string)
    requires Inv(s) && id in s.applied
    ensures var s' := Next(faults, s, action);
            && id in s'.applied && NoNewCalls(s, s', id)
            && Times(s', id) == Times(s, id)
                                + if action.Commit? && CommitApplies(faults, s, action.request)
                                     && s.waiting[action.request].previewId == id then 1 else 0
  {
    NoCallBegins(faults, s, action, id);
    if action.Commit? {
      CommitCounts(faults, s, action.request, id);
    }
  }

  lemma {:induction false} CommitCounts(faults: nat -> bool, s: State, request: nat, id: string)
    ensures Times(Next(faults, s, Commit(request)), id)
         == Times(s, id) + if CommitApplies(faults, s, request) && s.waiting[request].previewId == id then 1 else 0
  {
    if CommitApplies(faults, s, request) {
      var other := s.waiting[request].previewId;
      assert multiset(s.applied + [other]) == multiset(s.applied) + multiset{other};
    }
  }

  ghost predicate MayApplyAgain(faults: nat -> bool, s: State, id: string) {
    exists actions: seq<Action> :: Times(Run(faults, s, actions), id) > Times(s, id)
  }

  /** What the queue of the caller is for: without it an applied proposal could be applied a second
      time if and only if another call for it were already waiting behind the check. */
  lemma {:induction false} AppliedAgainExactly(faults: nat -> bool, s: State, id: string)
    requires Inv(s) && id in s.applied && NoFaultFrom(faults, s.io.calls)
    ensures MayApplyAgain(faults, s, id) <==> IsWaiting(s, id)
  {
    if IsWaiting(s, id) {
      var r :| r in s.waiting && s.waiting[r].previewId == id;
      var actions := AppliesAgain(faults, s, r);
      assert Times(Run(faults, s, actions), id) > Times(s, id);
    } else {
      forall actions: seq<Action>
        ensures Times(Run(faults, s, actions), id) == Times(s, id)
      {
        AppliedOnce(faults, s, actions, id);
      }
    }
  }

  /** Files that are as previewed. */
  function Previewed(changes: seq<Change>): Files {
    if changes == [] then map[]
    else
      var rest := Previewed(changes[1..]);
      if changes[0].before.Some? then rest[changes[0].path := changes[0].before.value] else rest - {changes[0].path}
  }

  lemma {:induction false} PreviewedAt(changes: seq<Change>, i: nat)
    requires i < |changes| && forall k, j | 0 <= k < j < |changes| :: changes[k].path != changes[j].path
    ensures At(Previewed(changes), changes[i].path) == changes[i].before
  {
    if i > 0 {
      PreviewedAt(changes[1..], i - 1);
      assert changes[1..][i - 1] == changes[i];
    }
  }

  /** The waiting call is led to its transaction, and finds the files as previewed. */
  lemma {:induction false} AppliesAgain(faults: nat -> bool, s: State, r: nat) returns (actions: seq<Action>)
    requires Inv(s) && r in s.waiting && NoFaultFrom(faults, s.io.calls)
    ensures var id, s' := s.waiting[r].previewId, Run(faults, s, actions);
            Times(s', id) == Times(s, id) + 1 && s'.waiting == s.waiting - {r}
  {
    var id, changes := s.waiting[r].previewId, s.waiting[r].proposal.changes;
    var verifying := VerifiesAll(faults, s, r);
    var s1 := Run(faults, s, verifying);
    var s2 := Next(faults, s1, Write(Previewed(changes)));
    forall i | 0 <= i < |changes|
      ensures At(s2.io.files, changes[i].path) == changes[i].before
    {
      PreviewedAt(changes, i);
    }
    AppliesExactly(faults, s2.io, changes);
    assert multiset(s2.applied + [id]) == multiset(s2.applied) + multiset{id};
    actions := verifying + [Write(Previewed(changes)), Commit(r)];
    RunConcat(faults, s, verifying, [Write(Previewed(changes)), Commit(r)]);
    RunTwo(faults, s1, Write(Previewed(changes)), Commit(r));
  }

  lemma {:induction false} RunTwo(faults: nat -> bool, s: State, first: Action, second: Action)
    ensures Run(faults, s, [first, second]) == Next(faults, Next(faults, s, first), second)
  {
    var s1 := Next(faults, s, first);
    assert [first, second][1..] == [second] && [second][1..] == [];
    assert Run(faults, s1, [second]) == Run(faults, Next(faults, s1, second), []);
  }

  function Holding(target: Target): Files {
    if target.beforeHash.Some? then map[target.path := target.beforeHash.value.of] else map[]
  }

  lemma {:induction false} VerifiesAll(faults: nat -> bool, s: State, r: nat) returns (actions: seq<Action>)
    requires r in s.waiting && s.waiting[r].verified <= |s.waiting[r].proposal.targets|
    ensures var s' := Run(faults, s, actions);
            && Verified(s', r) && s'.waiting[r].previewId == s.waiting[r].previewId
            && s'.waiting[r].proposal == s.waiting[r].proposal
            && s'.waiting - {r} == s.waiting - {r}
            && s'.applied == s.applied && s'.io.calls == s.io.calls
    decreases |s.waiting[r].proposal.targets| - s.waiting[r].verified
  {
    var w := s.waiting[r];
    if w.verified == |w.proposal.targets| {
      actions := [];
    } else {
      var write := Write(Holding(w.proposal.targets[w.verified]));
      var s1 := Next(faults, Next(faults, s, write), Verify(r, true));
      assert s1.waiting[r] == w.(verified := w.verified + 1);
      var rest := VerifiesAll(faults, s1, r);
      actions := [write, Verify(r, true)] + rest;
      RunConcat(faults, s, [write, Verify(r, true)], rest);
      RunTwo(faults, s, write, Verify(r, true));
    }
  }

  // ----- what would hold a waiting call off

  /** Every step but the transactions for `id` itself leaves the file at `path` as it is. */
  ghost predicate OthersKeep(faults: nat -> bool, s: State, actions: seq<Action>, id: string, path: Path)
    decreases |actions|
  {
    actions == [] ||
    (var s' := Next(faults, s, actions[0]);
     && (|| At(s'.io.files, path) == At(s.io.files, path)
         || (actions[0].Commit? && actions[0].request in s.waiting && s.waiting[actions[0].request].previewId == id))
     && OthersKeep(faults, s', actions[1..], id, path))
  }

  /** The compare-and-swap of the package file: after a proposal was applied, no call for it that is
      still waiting applies it again, in any run in which nothing else changes that file back. */
  lemma {:induction false} HeldOff(faults: nat -> bool, s: State, r: nat, actions: seq<Action>)
    requires Inv(s) && CommitApplies(faults, s, r)
    requires var w := s.waiting[r];
             OthersKeep(faults, Next(faults, s, Commit(r)), actions, w.previewId, w.proposal.changes[0].path)
    ensures var id := s.waiting[r].previewId;
            Times(Run(faults, Next(faults, s, Commit(r)), actions), id) == Times(s, id) + 1
  {
    var w := s.waiting[r];
    var s1 := Next(faults, s, Commit(r));
    AllOrNothing(faults, s.io, w.proposal.changes);
    NextKeepsInv(faults, s, Commit(r));
    assert multiset(s.applied + [w.previewId]) == multiset(s.applied) + multiset{w.previewId};
    assert w.previewId == s1.applied[|s.applied|];
    StaysHeldOff(faults, s1, actions, w.previewId, w.proposal);
  }

  lemma {:induction false} StaysHeldOff(faults: nat -> bool, s: State, actions: seq<Action>, id: string, p: Proposal)
    requires Inv(s) && WellMade(p) && id in s.applied && OthersKeep(faults, s, actions, id, p.changes[0].path)
    requires At(s.io.files, p.changes[0].path) == p.changes[0].after
    requires forall r | r in s.waiting && s.waiting[r].previewId == id :: s.waiting[r].proposal == p
    ensures Times(Run(faults, s, actions), id) == Times(s, id)
    decreases |actions|
  {
    if actions != [] {
      var action := actions[0];
      StaysGone(faults, s, action, id);
      NextKeepsInv(faults, s, action);
      if action.Commit? && Verified(s, action.request) && s.waiting[action.request].previewId == id {
        FirstChangeStops(faults, s.io, p.changes);
      }
      StaysHeldOff(faults, Next(faults, s, action), actions[1..], id, p);
    }
  }

  /** A failed attempt keeps the proposal, and ends the call. */
  lemma {:induction false} FailedStays(faults: nat -> bool, s: State, r: nat)
    requires Verified(s, r) && Committing(faults, s, r).1.Failed?
    ensures var s' := Next(faults, s, Commit(r));
            s'.proposals == s.proposals && s'.applied == s.applied && s'.waiting == s.waiting - {r}
  {
  }

  class DependencyOperationBroker {
    const workspace: Workspace
    var proposals: map<string, Proposal>
    var waiting: map<nat, Waiting>
    ghost var used: set<string>
    ghost var applied: seq<string>

    ghost function View(): State
      reads this, workspace
    {
      State(proposals, used, waiting, applied, workspace.View())
    }

    constructor (workspace: Workspace)
      ensures this.workspace == workspace && proposals == map[] && waiting == map[] && used == {} && applied == []
    {
      this.workspace := workspace;
      proposals, waiting := map[], map[];
      used, applied := {}, [];
    }

    method Prune(now: int)
      modifies this`proposals
      ensures proposals == Pruned(old(proposals), now)
    {
      ghost var before := proposals;
      var left := proposals.Keys;
      while left != {}
        invariant left <= before.Keys
        invariant proposals == map id | id in before && (id in left || before[id].expiresAt > now) :: before[id]
        decreases |left|
      {
        var id :| id in left;
        left := left - {id};
        if proposals[id].expiresAt <= now {
          proposals := proposals - {id};
        }
      }
    }

    /** The end of a preview: the id is fresh. */
    method StorePreview(id: string, proposal: Proposal)
      requires id !in used && WellMade(proposal)
      modifies this`proposals, this`used
      ensures View() == Next(workspace.faults, old(View()), Store(id, proposal))
    {
      proposals, used := proposals[id := proposal], used + {id};
    }

    method ApplyFile(path: Path, expected: Option<Bytes>, replacement: Option<Bytes>) returns (ok: bool)
      modifies workspace
      ensures (workspace.View(), ok)
          == AppliedFile(workspace.faults, old(workspace.View()), path, expected, replacement)
    {
      if replacement.Some? {
        ok := workspace.Replace(path, expected, replacement.value);
      } else if expected.Some? {
        ok := workspace.Delete(path, expected.value);
      } else {
        ok := workspace.IsMissing(path);
      }
    }

    /** `apply` up to its wait. */
    method BeginApply(request: nat, m: Manifest, now: int) returns (accepted: bool)
      requires request !in waiting
      modifies this`proposals, this`waiting
      ensures View() == Next(workspace.faults, old(View()), Begin(request, m, now))
      ensures accepted == (request in waiting)
    {
      Prune(now);
      accepted := m.previewId in proposals && Matches(proposals[m.previewId], m);
      if accepted {
        waiting := waiting[request := Waiting(m.previewId, proposals[m.previewId], 0)];
      }
    }

    /** The verification of one target, between two waits. */
    method VerifyTarget(request: nat, readable: bool) returns (ok: bool)
      requires request in waiting && waiting[request].verified < |waiting[request].proposal.targets|
      modifies this`waiting
      ensures View() == Next(workspace.faults, old(View()), Verify(request, readable))
      ensures ok == (request in waiting)
    {
      var w := waiting[request];
      ok := readable && TargetHolds(workspace.files, w.proposal.targets[w.verified]);
      waiting := if ok then waiting[request := w.(verified := w.verified + 1)] else waiting - {request};
    }

    /** `apply` behind its wait: the transaction and the end of the proposal, without another wait. */
    method FinishApply(request: nat) returns (outcome: Outcome)
      requires request in waiting && waiting[request].verified == |waiting[request].proposal.targets|
      modifies this, workspace
      ensures View() == Next(workspace.faults, old(View()), Commit(request))
      ensures outcome == Committing(workspace.faults, old(View()), request).1
    {
      var w := waiting[request];
      outcome := RunTransaction(w.proposal.changes);
      waiting := waiting - {request};
      if outcome == Applied {
        proposals := proposals - {w.previewId};
        applied := applied + [w.previewId];
      }
    }

    method RunTransaction(changes: seq<Change>) returns (outcome: Outcome)
      modifies workspace
      ensures (workspace.View(), outcome) == Transaction(workspace.faults, old(workspace.View()), changes)
    {
      ghost var start := workspace.View();
      AppliedCount(workspace.faults, start, changes, 0);
      var applied, failed := 0, false;
      while applied < |changes| && !failed
        invariant 0 <= applied <= |changes|
        invariant !failed ==>
                    AppliedFrom(workspace.faults, workspace.View(), changes, applied)
                    == AppliedFrom(workspace.faults, start, changes, 0)
        invariant failed ==>
                    && applied < |changes|
                    && AppliedFrom(workspace.faults, start, changes, 0) == (workspace.View(), applied)
        decreases |changes| - applied, !failed
      {
        var ok := ApplyFile(changes[applied].path, changes[applied].before, changes[applied].after);
        if ok {
          applied := applied + 1;
        } else {
          failed := true;
        }
      }
      if !failed {
        return Applied;
      }
      ghost var io1 := workspace.View();
      var rollbackFrom := workspace.calls;
      for k := 0 to applied
        invariant RolledBack(workspace.faults, workspace.View(), changes, k, applied)
            == RolledBack(workspace.faults, io1, changes, 0, applied)
      {
        var _ := ApplyFile(changes[k].path, changes[k].after, changes[k].before);
      }
      outcome := Failed(rollbackFrom);
    }
  }
}
