/** The queue in front of the dependency operations (src/main/operation-broker.ts): every preview,
    apply and process waits for the promise of the call before it and resolves its own at its end. */
module OperationQueue {
  import opened Sets
  import opened WorkspaceFiles
  import Dependencies = DependencyApply

  const MAX_PROPOSALS: nat := 16

  datatype Job = Preview | Apply(manifest: Dependencies.Manifest) | Process

  /** The calls so far, in the order of their promises, those whose promise is resolved, those that
      are running, and the dependency broker behind the queue. */
  datatype State = State(jobs: seq<Job>, released: set<nat>, running: set<nat>, broker: Dependencies.State)

  datatype Action =
    | Submit(job: Job)
    | Start(ticket: nat, now: int, valid: bool)
    | Store(ticket: nat, id: string, proposal: Dependencies.Proposal)
    | Check(ticket: nat, readable: bool)
    | Commit(ticket: nat)
    | Fail(ticket: nat)
    | Write(files: Files)

  /** A call may start once the promise it took over is resolved; the first one took over none. */
  predicate MayStart(s: State, ticket: nat) {
    && ticket < |s.jobs| && ticket !in s.running && ticket !in s.released
    && (ticket == 0 || ticket - 1 in s.released)
  }

  predicate Runs(s: State, ticket: nat) {
    ticket < |s.jobs| && ticket in s.running
  }

  function Ended(s: State, ticket: nat): State {
    s.(running := s.running - {ticket}, released := s.released + {ticket})
  }

  /** A call starts; it ends at once when it is refused. `valid` says that the manifest's own checks
      succeed. */
  function Started(faults: nat -> bool, s: State, ticket: nat, now: int, valid: bool): State
    requires ticket < |s.jobs|
  {
    var broker := match s.jobs[ticket]
      case Apply(m) =>
        Dependencies.Next(faults, s.broker,
                          if valid then Dependencies.Begin(ticket, m, now) else Dependencies.Prune(now))
      case Preview => Dependencies.Next(faults, s.broker, Dependencies.Prune(now))
      case Process => s.broker;
    var admitted := match s.jobs[ticket]
      case Apply(m) => valid && ticket in broker.waiting
      case Preview => valid && |broker.proposals| < MAX_PROPOSALS
      case Process => true;
    var s' := s.(broker := broker);
    if admitted then s'.(running := s.running + {ticket}) else Ended(s', ticket)
  }

  /** One step: a call is submitted, starts, ends with a stored preview, verifies a target, ends with
      its transaction, ends without anything; or a write from outside. */
  function Next(faults: nat -> bool, s: State, action: Action): State {
    match action
    case Submit(job) => s.(jobs := s.jobs + [job])
    case Start(ticket, now, valid) => if MayStart(s, ticket) then Started(faults, s, ticket, now, valid) else s
    case Store(ticket, id, proposal) =>
      if Runs(s, ticket) && s.jobs[ticket].Preview? && id !in s.broker.used && Dependencies.WellMade(proposal)
      then Ended(s.(broker := Dependencies.Next(faults, s.broker, Dependencies.Store(id, proposal))), ticket)
      else s
    case Check(ticket, readable) =>
      if !Runs(s, ticket) || ticket !in s.broker.waiting then s
      else
        var broker := Dependencies.Next(faults, s.broker, Dependencies.Verify(ticket, readable));
        if ticket in broker.waiting then s.(broker := broker) else Ended(s.(broker := broker), ticket)
    case Commit(ticket) =>
      if Runs(s, ticket) && Dependencies.Verified(s.broker, ticket)
      then Ended(s.(broker := Dependencies.Next(faults, s.broker, Dependencies.Commit(ticket))), ticket)
      else s
    case Fail(ticket) => if Runs(s, ticket) && !s.jobs[ticket].Apply? then Ended(s, ticket) else s
    case Write(files) => s.(broker := Dependencies.Next(faults, s.broker, Dependencies.Write(files)))
  }

  function Run(faults: nat -> bool, s: State, actions: seq<Action>): State
    decreases |actions|
  {
    if actions == [] then s else Run(faults, Next(faults, s, actions[0]), actions[1..])
  }

  function Initial(files: Files): State {
    State([], {}, {}, Dependencies.Initial(files))
  }

  // ----- one call at a time

  /** Exactly the first n calls have ended, and at most the one behind them runs. */
  ghost predicate InLine(s: State, n: nat) {
    && n <= |s.jobs|
    && (forall ticket: nat :: ticket in s.released <==> ticket < n)
    && s.running <= {n} && (n in s.running ==> n < |s.jobs|)
  }

  /** The calls of `apply` that run are those that wait in the dependency broker, and their proposals
      were never applied. */
  ghost predicate Unapplied(s: State) {
    && s.broker.waiting.Keys <= s.running
    && (forall ticket: nat | Runs(s, ticket) :: s.jobs[ticket].Apply? <==> ticket in s.broker.waiting)
    && (forall ticket | ticket in s.broker.waiting :: s.broker.waiting[ticket].previewId !in s.broker.applied)
  }

  /** There is room for the proposal of a preview that runs. */
  ghost predicate Bounded(s: State) {
    && |s.broker.proposals| <= MAX_PROPOSALS
    && forall ticket: nat | Runs(s, ticket) && s.jobs[ticket].Preview? :: |s.broker.proposals| < MAX_PROPOSALS
  }

  ghost predicate Inv(s: State, n: nat) {
    InLine(s, n) && Dependencies.Inv(s.broker) && Unapplied(s) && NoRepeat(s.broker.applied) && Bounded(s)
  }

  lemma {:induction false} LineMoves(faults: nat -> bool, s: State, n: nat, action: Action) returns (n': nat)
    requires InLine(s, n)
    ensures InLine(Next(faults, s, action), n')
    ensures action.Start? && MayStart(s, action.ticket) ==> action.ticket == n && s.running == {}
  {
    var s' := Next(faults, s, action);
    n' := if n in s'.released then n + 1 else n;
  }

  lemma {:induction false} StartBroker(faults: nat -> bool, s: State, ticket: nat, now: int, valid: bool)
    requires Dependencies.Inv(s.broker) && ticket < |s.jobs|
    ensures Dependencies.Inv(Started(faults, s, ticket, now, valid).broker)
  {
    Dependencies.NextKeepsInv(faults, s.broker, Dependencies.Prune(now));
    if s.jobs[ticket].Apply? {
      Dependencies.NextKeepsInv(faults, s.broker, Dependencies.Begin(ticket, s.jobs[ticket].manifest, now));
    }
  }

  lemma {:induction false} StoreBroker(faults: nat -> bool, s: State, ticket: nat, id: string,
                                       proposal: Dependencies.Proposal)
    requires Dependencies.Inv(s.broker)
    ensures Dependencies.Inv(Next(faults, s, Store(ticket, id, proposal)).broker)
  {
    Dependencies.NextKeepsInv(faults, s.broker, Dependencies.Store(id, proposal));
  }

  lemma {:induction false} CheckBroker(faults: nat -> bool, s: State, ticket: nat, readable: bool)
    requires Dependencies.Inv(s.broker)
    ensures Dependencies.Inv(Next(faults, s, Check(ticket, readable)).broker)
  {
    Dependencies.NextKeepsInv(faults, s.broker, Dependencies.Verify(ticket, readable));
  }

  lemma {:induction false} CommitBroker(faults: nat -> bool, s: State, ticket: nat)
    requires Dependencies.Inv(s.broker)
    ensures Dependencies.Inv(Next(faults, s, Commit(ticket)).broker)
  {
    Dependencies.NextKeepsInv(faults, s.broker, Dependencies.Commit(ticket));
  }

  lemma {:induction false} BrokerKeepsInv(faults: nat -> bool, s: State, action: Action)
    requires Dependencies.Inv(s.broker)
    ensures Dependencies.Inv(Next(faults, s, action).broker)
  {
    match action
    case Submit(job) =>
    case Start(ticket, now, valid) => if MayStart(s, ticket) { StartBroker(faults, s, ticket, now, valid); }
    case Store(ticket, id, proposal) => StoreBroker(faults, s, ticket, id, proposal);
    case Check(ticket, readable) => CheckBroker(faults, s, ticket, readable);
    case Commit(ticket) => CommitBroker(faults, s, ticket);
    case Fail(ticket) =>
    case Write(files) => Dependencies.NextKeepsInv(faults, s.broker, Dependencies.Write(files));
  }

  lemma {:induction false} FewerProposals(less: map<string, Dependencies.Proposal>,
                                          more: map<string, Dependencies.Proposal>)
    requires less.Keys <= more.Keys
    ensures |less| <= |more|
  {
    SubsetSize(less.Keys, more.Keys);
    assert |less| == |less.Keys| && |more| == |more.Keys|;
  }

  /** What a start does to the dependency broker, with nothing waiting in it. */
  lemma {:induction false} StartOf(faults: nat -> bool, s: State, ticket: nat, now: int, valid: bool)
    requires Dependencies.Inv(s.broker) && s.broker.waiting == map[] && ticket < |s.jobs| && ticket !in s.running
    ensures var s' := Started(faults, s, ticket, now, valid); var broker := s'.broker;
            && broker.applied == s.broker.applied && broker.proposals.Keys <= s.broker.proposals.Keys
            && broker.waiting.Keys == (if s.jobs[ticket].Apply? && ticket in s'.running then {ticket} else {})
            && (ticket in broker.waiting ==> broker.waiting[ticket].previewId !in s.broker.applied)
  {
  }

  lemma {:induction false} StartKeepsInv(faults: nat -> bool, s: State, n: nat, ticket: nat, now: int, valid: bool)
    requires Inv(s, n) && MayStart(s, ticket)
    ensures var s' := Next(faults, s, Start(ticket, now, valid));
            Unapplied(s') && NoRepeat(s'.broker.applied) && Bounded(s')
  {
    var s' := Next(faults, s, Start(ticket, now, valid));
    assert s.running == {} by { var _ := LineMoves(faults, s, n, Start(ticket, now, valid)); }
    assert s.broker.waiting == map[];
    StartOf(faults, s, ticket, now, valid);
    FewerProposals(s'.broker.proposals, s.broker.proposals);
  }

  lemma {:induction false} StoreKeepsInv(faults: nat -> bool, s: State, n: nat, ticket: nat, id: string,
                                         proposal: Dependencies.Proposal)
    requires InLine(s, n) && Unapplied(s) && NoRepeat(s.broker.applied) && Bounded(s)
    ensures var s' := Next(faults, s, Store(ticket, id, proposal));
            Unapplied(s') && NoRepeat(s'.broker.applied) && Bounded(s')
  {
    var s' := Next(faults, s, Store(ticket, id, proposal));
    assert |s'.broker.proposals| <= |s.broker.proposals| + 1;
  }

  lemma {:induction false} VerifyOf(faults: nat -> bool, b: Dependencies.State, ticket: nat, readable: bool)
    ensures var b' := Dependencies.Next(faults, b, Dependencies.Verify(ticket, readable));
            && b'.applied == b.applied && b'.proposals == b.proposals
            && b'.waiting.Keys <= b.waiting.Keys <= b'.waiting.Keys + {ticket}
            && forall r | r in b'.waiting :: b'.waiting[r].previewId == b.waiting[r].previewId
  {
  }

  lemma {:induction false} CheckKeepsInv(faults: nat -> bool, s: State, ticket: nat, readable: bool)
    requires Unapplied(s) && NoRepeat(s.broker.applied) && Bounded(s)
    ensures var s' := Next(faults, s, Check(ticket, readable));
            Unapplied(s') && NoRepeat(s'.broker.applied) && Bounded(s')
  {
    VerifyOf(faults, s.broker, ticket, readable);
    var broker := Dependencies.Next(faults, s.broker, Dependencies.Verify(ticket, readable));
    var s' := Next(faults, s, Check(ticket, readable));
    if s' != s {
      assert s'.broker == broker && s'.running == s.running - (if ticket in broker.waiting then {} else {ticket});
    }
  }

  lemma {:induction false} CommitOf(faults: nat -> bool, b: Dependencies.State, ticket: nat)
    requires Dependencies.Verified(b, ticket) && b.waiting.Keys <= {ticket}
    ensures var b' := Dependencies.Next(faults, b, Dependencies.Commit(ticket));
            && (b'.applied == b.applied || b'.applied == b.applied + [b.waiting[ticket].previewId])
            && b'.proposals.Keys <= b.proposals.Keys && b'.waiting.Keys == {}
  {
  }

  lemma {:induction false} CommitKeepsInv(faults: nat -> bool, s: State, n: nat, ticket: nat)
    requires InLine(s, n) && Unapplied(s) && NoRepeat(s.broker.applied) && Bounded(s)
    ensures var s' := Next(faults, s, Commit(ticket));
            Unapplied(s') && NoRepeat(s'.broker.applied) && Bounded(s')
  {
    if Runs(s, ticket) && Dependencies.Verified(s.broker, ticket) {
      CommitOf(faults, s.broker, ticket);
      FewerProposals(Next(faults, s, Commit(ticket)).broker.proposals, s.broker.proposals);
    }
  }

  lemma {:induction false} NextKeepsInv(faults: nat -> bool, s: State, n: nat, action: Action) returns (n': nat)
    requires Inv(s, n)
    ensures Inv(Next(faults, s, action), n')
  {
    n' := LineMoves(faults, s, n, action);
    BrokerKeepsInv(faults, s, action);
    match action
    case Submit(job) => SubmitKeepsInv(faults, s, n, job);
    case Start(ticket, now, valid) =>
      if MayStart(s, ticket) {
        StartKeepsInv(faults, s, n, ticket, now, valid);
      }
    case Store(ticket, id, proposal) => StoreKeepsInv(faults, s, n, ticket, id, proposal);
    case Check(ticket, readable) => CheckKeepsInv(faults, s, ticket, readable);
    case Commit(ticket) => CommitKeepsInv(faults, s, n, ticket);
    case Fail(ticket) => FailKeepsInv(faults, s, ticket);
    case Write(files) => WriteKeepsInv(faults, s, files);
  }

  lemma {:induction false} SubmitKeepsInv(faults: nat -> bool, s: State, n: nat, job: Job)
    requires InLine(s, n) && Unapplied(s) && Bounded(s)
    ensures var s' := Next(faults, s, Submit(job)); Unapplied(s') && Bounded(s')
  {
    var s' := Next(faults, s, Submit(job));
    assert forall ticket: nat | Runs(s', ticket) :: Runs(s, ticket) && s'.jobs[ticket] == s.jobs[ticket];
  }

  lemma {:induction false} FailKeepsInv(faults: nat -> bool, s: State, ticket: nat)
    requires Unapplied(s) && Bounded(s)
    ensures var s' := Next(faults, s, Fail(ticket)); Unapplied(s') && Bounded(s')
  {
  }

  lemma {:induction false} WriteKeepsInv(faults: nat -> bool, s: State, files: Files)
    requires Unapplied(s) && Bounded(s)
    ensures var s' := Next(faults, s, Write(files)); Unapplied(s') && Bounded(s')
  {
  }

  lemma {:induction false} RunKeepsInv(faults: nat -> bool, s: State, n: nat, actions: seq<Action>) returns (n': nat)
    requires Inv(s, n)
    ensures Inv(Run(faults, s, actions), n')
    decreases |actions|
  {
    if actions == [] {
      n' := n;
    } else {
      var n1 := NextKeepsInv(faults, s, n, actions[0]);
      n' := RunKeepsInv(faults, Next(faults, s, actions[0]), n1, actions[1..]);
    }
  }

  lemma {:induction false} RunFromStart(faults: nat -> bool, files: Files, actions: seq<Action>) returns (n: nat)
    ensures Inv(Run(faults, Initial(files), actions), n)
  {
    n := RunKeepsInv(faults, Initial(files), 0, actions);
  }

  lemma {:induction false} RunConcat(faults: nat -> bool, s: State, left: seq<Action>, right: seq<Action>)
    ensures Run(faults, s, left + right) == Run(faults, Run(faults, s, left), right)
    decreases |left|
  {
    if left == [] {
      assert left + right == right;
    } else {
      assert (left + right)[0] == left[0] && (left + right)[1..] == left[1..] + right;
      RunConcat(faults, Next(faults, s, left[0]), left[1..], right);
    }
  }

  // ----- main results

  /** In every run the calls end in the order in which they were submitted and never two run at once;
      a call may start exactly when it is the next in line and nothing runs. */
  lemma {:induction false} OneAtATime(faults: nat -> bool, files: Files, actions: seq<Action>)
    returns (ended: nat)
    ensures var s := Run(faults, Initial(files), actions);
            && (forall ticket: nat :: ticket in s.released <==> ticket < ended)
            && s.running <= {ended}
            && forall ticket :: MayStart(s, ticket) <==> s.running == {} && ticket == ended < |s.jobs|
  {
    ended := RunFromStart(faults, files, actions);
  }

  /** A proposal is applied at most once in any run, and once it is applied no call for it waits and
      it is not offered any more. */
  lemma {:induction false} AppliedAtMostOnce(faults: nat -> bool, files: Files, actions: seq<Action>, id: string)
    ensures var broker := Run(faults, Initial(files), actions).broker;
            && Dependencies.Times(broker, id) <= 1
            && (id in broker.applied ==> id !in broker.proposals && !Dependencies.IsWaiting(broker, id))
  {
    var _ := RunFromStart(faults, files, actions);
    NoRepeatTimes(Run(faults, Initial(files), actions).broker.applied, id);
  }

  lemma {:induction false} NoRepeatTimes(ids: seq<string>, id: string)
    requires NoRepeat(ids)
    ensures multiset(ids)[id] <= 1
  {
    if ids != [] {
      var front := ids[..|ids| - 1];
      assert ids == front + [ids[|ids| - 1]];
      NoRepeatTimes(front, id);
    }
  }

  /** And every later call for it is refused as soon as it starts, without an effect on files or on
      what was applied. */
  lemma {:induction false} RefusedAfterwards(faults: nat -> bool, files: Files, before: seq<Action>,
                                             after: seq<Action>, ticket: nat, now: int, valid: bool)
    requires var s := Run(faults, Initial(files), before + after);
             && MayStart(s, ticket) && s.jobs[ticket].Apply?
             && s.jobs[ticket].manifest.previewId in Run(faults, Initial(files), before).broker.applied
    ensures var s := Run(faults, Initial(files), before + after); var s' := Next(faults, s, Start(ticket, now, valid));
            && ticket in s'.released && s'.running == s.running
            && s'.broker.io == s.broker.io && s'.broker.applied == s.broker.applied
  {
    var s0 := Run(faults, Initial(files), before);
    var s := Run(faults, Initial(files), before + after);
    var _ := RunFromStart(faults, files, before + after);
    RunConcat(faults, Initial(files), before, after);
    StaysApplied(faults, s0, after);
  }

  lemma {:induction false} BrokerAppends(faults: nat -> bool, b: Dependencies.State, action: Dependencies.Action)
    ensures b.applied <= Dependencies.Next(faults, b, action).applied
  {
  }

  lemma {:induction false} StartAppends(faults: nat -> bool, s: State, ticket: nat, now: int, valid: bool)
    requires ticket < |s.jobs|
    ensures s.broker.applied <= Started(faults, s, ticket, now, valid).broker.applied
  {
    BrokerAppends(faults, s.broker, Dependencies.Prune(now));
    if s.jobs[ticket].Apply? {
      BrokerAppends(faults, s.broker, Dependencies.Begin(ticket, s.jobs[ticket].manifest, now));
    }
  }

  lemma {:induction false} NextAppends(faults: nat -> bool, s: State, action: Action)
    ensures s.broker.applied <= Next(faults, s, action).broker.applied
  {
    match action
    case Submit(job) =>
    case Start(ticket, now, valid) => if MayStart(s, ticket) { StartAppends(faults, s, ticket, now, valid); }
    case Store(ticket, id, proposal) => BrokerAppends(faults, s.broker, Dependencies.Store(id, proposal));
    case Check(ticket, readable) => BrokerAppends(faults, s.broker, Dependencies.Verify(ticket, readable));
    case Commit(ticket) => BrokerAppends(faults, s.broker, Dependencies.Commit(ticket));
    case Fail(ticket) =>
    case Write(files) => BrokerAppends(faults, s.broker, Dependencies.Write(files));
  }

  lemma {:induction false} StaysApplied(faults: nat -> bool, s: State, actions: seq<Action>)
    ensures s.broker.applied <= Run(faults, s, actions).broker.applied
    decreases |actions|
  {
    if actions != [] {
      NextAppends(faults, s, actions[0]);
      StaysApplied(faults, Next(faults, s, actions[0]), actions[1..]);
    }
  }

  /** Never more than 16 previews are open, though a preview counts them long before it adds its own. */
  lemma {:induction false} PreviewsBounded(faults: nat -> bool, files: Files, actions: seq<Action>)
    ensures |Run(faults, Initial(files), actions).broker.proposals| <= MAX_PROPOSALS
  {
    var _ := RunFromStart(faults, files, actions);
  }

  // ----- the class

  class OperationBroker {
    const dependencyBroker: Dependencies.DependencyOperationBroker
    var jobs: seq<Job>
    var released: set<nat>
    var running: set<nat>

    ghost function View(): State
      reads this, dependencyBroker, dependencyBroker.workspace
    {
      State(jobs, released, running, dependencyBroker.View())
    }

    constructor (dependencyBroker: Dependencies.DependencyOperationBroker)
      ensures this.dependencyBroker == dependencyBroker && View() == State([], {}, {}, dependencyBroker.View())
    {
      this.dependencyBroker := dependencyBroker;
      jobs, released, running := [], {}, {};
    }

    /** Takes over the promise of the call before and leaves its own. */
    method Submit(job: Job) returns (ticket: nat)
      modifies this`jobs
      ensures View() == Next(dependencyBroker.workspace.faults, old(View()), Action.Submit(job))
      ensures ticket == |old(jobs)|
    {
      ticket := |jobs|;
      jobs := jobs + [job];
    }

    method End(ticket: nat)
      modifies this`running, this`released
      ensures View() == Ended(old(View()), ticket)
    {
      running, released := running - {ticket}, released + {ticket};
    }

    /** The call behind the promise it took over: a preview up to its sandbox, an apply up to its wait. */
    method Start(ticket: nat, now: int, valid: bool) returns (admitted: bool)
      requires MayStart(View(), ticket) && ticket !in dependencyBroker.waiting
      modifies this`running, this`released, dependencyBroker
      ensures View() == Next(dependencyBroker.workspace.faults, old(View()), Action.Start(ticket, now, valid))
      ensures admitted == (ticket in running)
    {
      match jobs[ticket] {
        case Apply(m) =>
          if valid {
            admitted := dependencyBroker.BeginApply(ticket, m, now);
          } else {
            dependencyBroker.Prune(now);
            admitted := false;
          }
        case Preview =>
          dependencyBroker.Prune(now);
          admitted := valid && |dependencyBroker.proposals| < MAX_PROPOSALS;
        case Process =>
          admitted := true;
      }
      if admitted {
        running := running + {ticket};
      } else {
        End(ticket);
      }
    }

    method FinishPreview(ticket: nat, id: string, proposal: Dependencies.Proposal)
      requires Runs(View(), ticket) && jobs[ticket].Preview?
      requires id !in dependencyBroker.used && Dependencies.WellMade(proposal)
      modifies this`running, this`released, dependencyBroker
      ensures View() == Next(dependencyBroker.workspace.faults, old(View()), Store(ticket, id, proposal))
    {
      dependencyBroker.StorePreview(id, proposal);
      End(ticket);
    }

    method CheckTarget(ticket: nat, readable: bool)
      requires Runs(View(), ticket) && ticket in dependencyBroker.waiting
      requires var w := dependencyBroker.waiting[ticket]; w.verified < |w.proposal.targets|
      modifies this`running, this`released, dependencyBroker
      ensures View() == Next(dependencyBroker.workspace.faults, old(View()), Check(ticket, readable))
    {
      var ok := dependencyBroker.VerifyTarget(ticket, readable);
      if !ok {
        End(ticket);
      }
    }

    method FinishApply(ticket: nat) returns (outcome: Dependencies.Outcome)
      requires Runs(View(), ticket) && Dependencies.Verified(dependencyBroker.View(), ticket)
      modifies this`running, this`released, dependencyBroker, dependencyBroker.workspace
      ensures View() == Next(dependencyBroker.workspace.faults, old(View()), Commit(ticket))
    {
      outcome := dependencyBroker.FinishApply(ticket);
      End(ticket);
    }
  }
}
