/** The life of a lease between the scheduler and the process of the task that holds it
    (src/main/runtime-supervisor.ts). Each action is one uninterrupted piece of a handler; an
    `await` or an event callback separates two actions, which may come in any order. */
module SupervisorLeases {
  import S = Scheduler

  /** How far the launch of a turn has come. */
  datatype Phase = Queued | Awaiting | Forked | Resolved | Rejected

  /** A turn and the child forked for it. `closing` is set once the supervisor has given it up.
      Two history counters: how often `finish` or the exit handler gave its lease back, and how
      often the scheduler dropped it because its launch rejected. */
  datatype Turn = Turn(thread: string, phase: Phase, forked: bool, closing: bool, exited: bool,
                       givenBack: nat, dropped: nat)

  /** `asked` holds the threads whose start has passed its check and not yet taken its lease. */
  datatype State = State(sched: S.State, pending: map<string, string>, active: map<string, string>,
                         turns: map<string, Turn>, asked: set<string>)

  datatype Action =
    | Ask(thread: string)
    | Abandon(thread: string)
    | Start(thread: string, lease: S.Lease)
    | BeginLaunch(turn: string)
    | ForkChild(turn: string)
    | LaunchResolves(turn: string)
    | LaunchRejects(turn: string)
    | Finish(turn: string)
    | ChildExits(turn: string)
    | StopPending(thread: string)

  predicate IsPending(s: State, turn: string)
    requires turn in s.turns
  {
    s.turns[turn].thread in s.pending && s.pending[s.turns[turn].thread] == turn
  }

  predicate IsCurrent(s: State, turn: string)
    requires turn in s.turns
  {
    s.turns[turn].thread in s.active && s.active[s.turns[turn].thread] == turn
  }

  /** Only tasks the scheduler has started are launched, and each once. */
  predicate CanBegin(s: State, turn: string) {
    turn in s.turns && s.turns[turn].phase == Queued && S.Holds(s.sched.active, turn)
  }

  predicate CanReject(s: State, turn: string) {
    CanBegin(s, turn) || (turn in s.turns && (s.turns[turn].phase == Awaiting || s.turns[turn].phase == Forked))
  }

  predicate CanExit(s: State, turn: string) {
    turn in s.turns && s.turns[turn].forked && !s.turns[turn].exited
  }

  // ----- the pieces of the handlers

  function Count(yes: bool): nat {
    if yes then 1 else 0
  }

  function GiveBack(s: State, turn: string): State
    requires turn in s.turns
  {
    var held := S.Holds(s.sched.active, turn);
    s.(sched := S.Step(s.sched, S.Release(turn)),
       turns := s.turns[turn := s.turns[turn].(givenBack := s.turns[turn].givenBack + Count(held))])
  }

  /** The end of `finish`: the child is given up and no longer current. */
  function Close(s: State, turn: string): State
    requires turn in s.turns
  {
    s.(turns := s.turns[turn := s.turns[turn].(closing := true)], active := s.active - {s.turns[turn].thread})
  }

  function Finished(s: State, turn: string): State
    requires turn in s.turns
  {
    if !IsCurrent(s, turn) then s
    else if s.turns[turn].exited then GiveBack(Close(s, turn), turn)
    else Close(s, turn)
  }

  /** The scheduler's rejection handler drops the lease, if it is still held. */
  function Drop(s: State, turn: string): State
    requires turn in s.turns
  {
    var held := S.Holds(s.sched.active, turn);
    s.(sched := S.Step(s.sched, S.StartFailed(turn)),
       turns := s.turns[turn := s.turns[turn].(phase := Rejected, dropped := s.turns[turn].dropped + Count(held))])
  }

  /** What a rejected launch leads to. `failed` runs with the lease gone, so closing the child
      gives nothing back. */
  function Reject(s: State, turn: string): State
    requires turn in s.turns
  {
    var s' := Drop(s, turn);
    if !S.Holds(s.sched.active, turn) then s'
    else if IsCurrent(s', turn) then Close(s', turn)
    else if IsPending(s', turn) then s'.(pending := s'.pending - {s'.turns[turn].thread})
    else s'
  }

  function Marked(s: State, turn: string): State
    requires turn in s.turns
  {
    s.(turns := s.turns[turn := s.turns[turn].(exited := true)])
  }

  function ExitHandled(s: State, turn: string): State
    requires turn in s.turns
  {
    if s.turns[turn].closing then GiveBack(Marked(s, turn), turn) else Finished(Marked(s, turn), turn)
  }

  function Started(s: State, thread: string, lease: S.Lease): State {
    if S.Accepted(s.sched, S.Enqueue(lease)) then
      s.(sched := S.Step(s.sched, S.Enqueue(lease)),
         pending := s.pending[thread := lease.id],
         asked := s.asked - {thread},
         turns := s.turns[lease.id := Turn(thread, Queued, false, false, false, 0, 0)])
    else s.(pending := s.pending - {thread}, asked := s.asked - {thread})
  }

  /** A thread can be started while it is neither active nor queued nor being started. */
  predicate CanAsk(s: State, thread: string) {
    thread !in s.asked && thread !in s.pending && thread !in s.active
  }

  function Next(s: State, action: Action): State {
    match action
    case Ask(thread) => if CanAsk(s, thread) then s.(asked := s.asked + {thread}) else s
    case Abandon(thread) => s.(asked := s.asked - {thread})
    case Start(thread, lease) =>
      if lease.id in s.turns || thread !in s.asked then s else Started(s, thread, lease)
    case BeginLaunch(turn) =>
      if !CanBegin(s, turn) then s
      else if IsPending(s, turn) then s.(turns := s.turns[turn := s.turns[turn].(phase := Awaiting)])
      else Reject(s, turn)
    case ForkChild(turn) =>
      if turn in s.turns && s.turns[turn].phase == Awaiting then
        s.(turns := s.turns[turn := s.turns[turn].(phase := Forked, forked := true)],
           pending := s.pending - {s.turns[turn].thread},
           active := s.active[s.turns[turn].thread := turn])
      else s
    case LaunchResolves(turn) =>
      if turn in s.turns && s.turns[turn].phase == Forked then
        s.(turns := s.turns[turn := s.turns[turn].(phase := Resolved)])
      else s
    case LaunchRejects(turn) => if CanReject(s, turn) then Reject(s, turn) else s
    case Finish(turn) => if turn in s.turns then Finished(s, turn) else s
    case ChildExits(turn) => if CanExit(s, turn) then ExitHandled(s, turn) else s
    case StopPending(thread) =>
      if thread in s.pending then
        s.(pending := s.pending - {thread}, sched := S.Step(s.sched, S.Cancel(s.pending[thread])))
      else s
  }

  function Run(s: State, actions: seq<Action>): State
    decreases |actions|
  {
    if actions == [] then s else Run(Next(s, actions[0]), actions[1..])
  }

  function Initial(capacity: nat): State {
    State(S.Initial(capacity), map[], map[], map[], {})
  }

  // ----- the invariant

  predicate Live(turn: Turn) {
    (turn.phase == Awaiting || turn.phase == Forked || turn.phase == Resolved) && !turn.exited
  }

  /** What holds of each turn, given whether the scheduler has it active, has it at all, and
      whether its child is current: a live turn holds its lease; the lease is returned at most
      once and then gone for good, given back only after the exit, dropped only by a rejection. */
  predicate TurnOk(turn: Turn, held: bool, scheduled: bool, current: bool) {
    && (Live(turn) ==> held)
    && (turn.phase == Forked || turn.phase == Resolved ==> turn.forked)
    && (turn.phase == Queued || turn.phase == Awaiting ==> !turn.forked && !turn.closing)
    && (turn.exited ==> turn.forked)
    && (current ==> (turn.phase == Forked || turn.phase == Resolved) && !turn.closing && !turn.exited)
    && turn.givenBack + turn.dropped <= 1
    && (turn.givenBack + turn.dropped == 1 ==> !scheduled)
    && (turn.givenBack == 1 ==> turn.exited)
    && (turn.dropped == 1 ==> turn.phase == Rejected)
    && (turn.forked && !turn.exited && turn.phase == Rejected ==> !scheduled)
  }

  predicate Ok(s: State, turn: string)
    requires turn in s.turns
  {
    TurnOk(s.turns[turn], S.Holds(s.sched.active, turn), S.Scheduled(s.sched, turn), IsCurrent(s, turn))
  }

  ghost predicate Tracked(s: State) {
    && (forall id | S.Scheduled(s.sched, id) :: id in s.turns)
    && (forall thread | thread in s.pending ::
          s.pending[thread] in s.turns && s.turns[s.pending[thread]].thread == thread)
    && (forall thread | thread in s.active ::
          s.active[thread] in s.turns && s.turns[s.active[thread]].thread == thread)
    && (forall thread | thread in s.asked :: thread !in s.pending)
  }

  ghost predicate Inv(s: State) {
    S.Valid(s.sched) && Tracked(s) && forall turn | turn in s.turns :: Ok(s, turn)
  }

  // ----- the invariant is kept

  lemma {:induction false} SchedulerStep(sched: S.State, op: S.Op)
    requires S.Valid(sched)
    ensures S.Valid(S.Step(sched, op))
    ensures forall id | S.Scheduled(S.Step(sched, op), id) ::
              S.Scheduled(sched, id) || (op.Enqueue? && op.task.id == id)
    ensures forall id | S.Holds(sched.active, id) && ((op.Release? || op.StartFailed?) ==> op.id != id) ::
              S.Holds(S.Step(sched, op).active, id)
    ensures (op.Release? || op.StartFailed?) && S.Holds(sched.active, op.id) ==>
              !S.Scheduled(S.Step(sched, op), op.id)
  {
    S.StepKeepsValid(sched, op);
    forall id | S.Scheduled(S.Step(sched, op), id)
      ensures S.Scheduled(sched, id) || (op.Enqueue? && op.task.id == id)
    {
      S.NothingFromNowhere(sched, op, id);
    }
    forall id | S.Holds(sched.active, id) && ((op.Release? || op.StartFailed?) ==> op.id != id)
      ensures S.Holds(S.Step(sched, op).active, id)
    {
      var k :| 0 <= k < |sched.active| && sched.active[k].id == id;
      S.ActiveStays(sched, op, sched.active[k]);
      var after := S.Step(sched, op).active;
      var j :| 0 <= j < |after| && after[j] == sched.active[k];
    }
    if op.Release? || op.StartFailed? {
      S.GoneAfterRemoval(sched, op);
    }
  }

  /** A turn whose own record is untouched stays in order when it keeps its lease. */
  lemma {:induction false} OtherStaysOk(s: State, s': State, t: string)
    requires t in s.turns && t in s'.turns && s'.turns[t] == s.turns[t] && Ok(s, t)
    requires S.Holds(s.sched.active, t) ==> S.Holds(s'.sched.active, t)
    requires S.Scheduled(s'.sched, t) ==> S.Scheduled(s.sched, t)
    requires IsCurrent(s', t) ==> IsCurrent(s, t)
    ensures Ok(s', t)
  {
  }

  lemma {:induction false} GiveBackKeepsOk(s: State, turn: string, t: string)
    requires Inv(s) && turn in s.turns && s.turns[turn].exited
    requires t in s.turns
    ensures t in GiveBack(s, turn).turns && Ok(GiveBack(s, turn), t)
  {
    SchedulerStep(s.sched, S.Release(turn));
    if t != turn {
      OtherStaysOk(s, GiveBack(s, turn), t);
    } else {
      assert Ok(s, turn);
    }
  }

  lemma {:induction false} GiveBackKeepsInv(s: State, turn: string)
    requires Inv(s) && turn in s.turns && s.turns[turn].exited
    ensures Inv(GiveBack(s, turn))
  {
    SchedulerStep(s.sched, S.Release(turn));
    forall t | t in GiveBack(s, turn).turns
      ensures Ok(GiveBack(s, turn), t)
    {
      GiveBackKeepsOk(s, turn, t);
    }
  }

  lemma {:induction false} CloseKeepsOk(s: State, turn: string, t: string)
    requires Inv(s) && turn in s.turns && IsCurrent(s, turn)
    requires t in s.turns
    ensures t in Close(s, turn).turns && Ok(Close(s, turn), t)
  {
    if t != turn {
      OtherStaysOk(s, Close(s, turn), t);
    } else {
      assert Ok(s, turn);
    }
  }

  lemma {:induction false} CloseKeepsInv(s: State, turn: string)
    requires Inv(s) && turn in s.turns && IsCurrent(s, turn)
    ensures Inv(Close(s, turn))
  {
    forall t | t in Close(s, turn).turns
      ensures Ok(Close(s, turn), t)
    {
      CloseKeepsOk(s, turn, t);
    }
  }

  lemma {:induction false} FinishKeepsInv(s: State, turn: string)
    requires Inv(s) && turn in s.turns
    ensures Inv(Finished(s, turn))
  {
    assert Ok(s, turn);
    if IsCurrent(s, turn) {
      CloseKeepsInv(s, turn);
    }
  }

  lemma {:induction false} MarkKeepsInv(s: State, turn: string)
    requires Inv(s) && CanExit(s, turn) && !IsCurrent(s, turn)
    ensures Inv(Marked(s, turn))
  {
    var s' := Marked(s, turn);
    forall t | t in s'.turns
      ensures Ok(s', t)
    {
      if t != turn {
        OtherStaysOk(s, s', t);
      } else {
        assert Ok(s, turn);
      }
    }
  }

  lemma {:induction false} ExitOfCurrentKeepsInv(s: State, turn: string)
    requires Inv(s) && CanExit(s, turn) && IsCurrent(s, turn)
    ensures Inv(GiveBack(Marked(Close(s, turn), turn), turn))
  {
    CloseKeepsInv(s, turn);
    MarkKeepsInv(Close(s, turn), turn);
    GiveBackKeepsInv(Marked(Close(s, turn), turn), turn);
  }

  lemma {:induction false} MarkAndCloseCommute(s: State, turn: string)
    requires turn in s.turns
    ensures Close(Marked(s, turn), turn) == Marked(Close(s, turn), turn)
  {
    assert Close(Marked(s, turn), turn).turns == Marked(Close(s, turn), turn).turns;
  }

  lemma {:induction false} ExitKeepsInv(s: State, turn: string)
    requires Inv(s) && CanExit(s, turn)
    ensures Inv(ExitHandled(s, turn))
  {
    assert Ok(s, turn);
    if IsCurrent(s, turn) {
      ExitOfCurrentKeepsInv(s, turn);
      MarkAndCloseCommute(s, turn);
    } else {
      MarkKeepsInv(s, turn);
      if s.turns[turn].closing {
        GiveBackKeepsInv(Marked(s, turn), turn);
      }
    }
  }

  lemma {:induction false} DropKeepsOk(s: State, turn: string, t: string)
    requires Inv(s) && turn in s.turns && !IsCurrent(s, turn)
    requires t in s.turns
    ensures t in Drop(s, turn).turns && Ok(Drop(s, turn), t)
  {
    SchedulerStep(s.sched, S.StartFailed(turn));
    if t != turn {
      OtherStaysOk(s, Drop(s, turn), t);
    } else {
      assert Ok(s, turn);
    }
  }

  lemma {:induction false} DropKeepsInv(s: State, turn: string)
    requires Inv(s) && turn in s.turns && !IsCurrent(s, turn)
    ensures Inv(Drop(s, turn))
  {
    SchedulerStep(s.sched, S.StartFailed(turn));
    forall t | t in Drop(s, turn).turns
      ensures Ok(Drop(s, turn), t)
    {
      DropKeepsOk(s, turn, t);
    }
  }

  lemma {:induction false} DropAndCloseCommute(s: State, turn: string)
    requires turn in s.turns
    ensures Close(Drop(s, turn), turn) == Drop(Close(s, turn), turn)
  {
    assert Close(Drop(s, turn), turn).turns == Drop(Close(s, turn), turn).turns;
  }

  lemma {:induction false} UnpendKeepsInv(s: State, thread: string)
    requires Inv(s)
    ensures Inv(s.(pending := s.pending - {thread}))
  {
    var s' := s.(pending := s.pending - {thread});
    forall t | t in s'.turns
      ensures Ok(s', t)
    {
      OtherStaysOk(s, s', t);
    }
  }

  lemma {:induction false} AskedKeepsInv(s: State, asked: set<string>)
    requires Inv(s) && forall thread | thread in asked :: thread !in s.pending
    ensures Inv(s.(asked := asked))
  {
    var s' := s.(asked := asked);
    forall t | t in s'.turns
      ensures Ok(s', t)
    {
      OtherStaysOk(s, s', t);
    }
  }

  lemma {:induction false} RejectKeepsInv(s: State, turn: string)
    requires Inv(s) && CanReject(s, turn)
    ensures Inv(Reject(s, turn))
  {
    assert Ok(s, turn);
    if IsCurrent(s, turn) {
      DropAndCloseCommute(s, turn);
      CloseKeepsInv(s, turn);
      DropKeepsInv(Close(s, turn), turn);
    } else {
      DropKeepsInv(s, turn);
      UnpendKeepsInv(Drop(s, turn), s.turns[turn].thread);
    }
  }

  lemma {:induction false} StartKeepsOk(s: State, thread: string, lease: S.Lease, t: string)
    requires Inv(s) && lease.id !in s.turns && S.Accepted(s.sched, S.Enqueue(lease)) && (t in s.turns || t == lease.id)
    ensures t in Started(s, thread, lease).turns && Ok(Started(s, thread, lease), t)
  {
    SchedulerStep(s.sched, S.Enqueue(lease));
    if t != lease.id {
      OtherStaysOk(s, Started(s, thread, lease), t);
    }
  }

  lemma {:induction false} StartKeepsInv(s: State, thread: string, lease: S.Lease)
    requires Inv(s) && lease.id !in s.turns && S.Accepted(s.sched, S.Enqueue(lease))
    ensures Inv(Started(s, thread, lease))
  {
    SchedulerStep(s.sched, S.Enqueue(lease));
    forall t | t in Started(s, thread, lease).turns
      ensures Ok(Started(s, thread, lease), t)
    {
      StartKeepsOk(s, thread, lease, t);
    }
  }

  lemma {:induction false} PhaseKeepsInv(s: State, turn: string, phase: Phase)
    requires Inv(s) && turn in s.turns
    requires (s.turns[turn].phase == Queued && phase == Awaiting && S.Holds(s.sched.active, turn))
          || (s.turns[turn].phase == Forked && phase == Resolved)
    ensures Inv(s.(turns := s.turns[turn := s.turns[turn].(phase := phase)]))
  {
    var s' := s.(turns := s.turns[turn := s.turns[turn].(phase := phase)]);
    assert Ok(s, turn);
    forall t | t in s'.turns
      ensures Ok(s', t)
    {
      if t != turn {
        OtherStaysOk(s, s', t);
      }
    }
  }

  lemma {:induction false} ForkKeepsInv(s: State, turn: string)
    requires Inv(s) && turn in s.turns && s.turns[turn].phase == Awaiting
    ensures Inv(Next(s, ForkChild(turn)))
  {
    var s' := Next(s, ForkChild(turn));
    ForkedOk(s, turn);
    forall t | t in s'.turns
      ensures Ok(s', t)
    {
      if t != turn {
        OtherStaysOk(s, s', t);
      }
    }
  }

  lemma {:induction false} ForkedOk(s: State, turn: string)
    requires turn in s.turns && s.turns[turn].phase == Awaiting && Ok(s, turn)
    ensures Ok(Next(s, ForkChild(turn)), turn)
  {
  }

  lemma {:induction false} StopKeepsInv(s: State, thread: string)
    requires Inv(s) && thread in s.pending
    ensures Inv(Next(s, StopPending(thread)))
  {
    SchedulerStep(s.sched, S.Cancel(s.pending[thread]));
    var s' := Next(s, StopPending(thread));
    forall t | t in s'.turns
      ensures Ok(s', t)
    {
      OtherStaysOk(s, s', t);
    }
  }

  lemma {:induction false} NextKeepsInv(s: State, action: Action)
    requires Inv(s)
    ensures Inv(Next(s, action))
  {
    match action
    case Ask(thread) => AskedKeepsInv(s, if CanAsk(s, thread) then s.asked + {thread} else s.asked);
    case Abandon(thread) => AskedKeepsInv(s, s.asked - {thread});
    case Start(thread, lease) =>
      if lease.id !in s.turns && S.Accepted(s.sched, S.Enqueue(lease)) { StartKeepsInv(s, thread, lease); }
      UnpendKeepsInv(s, thread);
      AskedKeepsInv(s.(pending := s.pending - {thread}), s.asked - {thread});
    case BeginLaunch(turn) =>
      if CanBegin(s, turn) && IsPending(s, turn) { PhaseKeepsInv(s, turn, Awaiting); }
      if CanBegin(s, turn) && !IsPending(s, turn) { RejectKeepsInv(s, turn); }
    case ForkChild(turn) =>
      if turn in s.turns && s.turns[turn].phase == Awaiting { ForkKeepsInv(s, turn); }
    case LaunchResolves(turn) =>
      if turn in s.turns && s.turns[turn].phase == Forked { PhaseKeepsInv(s, turn, Resolved); }
    case LaunchRejects(turn) => if CanReject(s, turn) { RejectKeepsInv(s, turn); }
    case Finish(turn) => if turn in s.turns { FinishKeepsInv(s, turn); }
    case ChildExits(turn) => if CanExit(s, turn) { ExitKeepsInv(s, turn); }
    case StopPending(thread) => if thread in s.pending { StopKeepsInv(s, thread); }
  }

  lemma {:induction false} RunKeepsInv(s: State, actions: seq<Action>)
    requires Inv(s)
    ensures Inv(Run(s, actions))
    decreases |actions|
  {
    if actions != [] {
      NextKeepsInv(s, actions[0]);
      RunKeepsInv(Next(s, actions[0]), actions[1..]);
    }
  }

  lemma {:induction false} InitialInv(capacity: nat)
    requires S.MIN_RUNTIME_WORKERS <= capacity <= S.MAX_RUNTIME_WORKERS
    ensures Inv(Initial(capacity))
  {
  }

  // ----- main results

  /** Whatever order the handlers run in: a lease is returned at most once and is then gone for
      good; it is given back only once the exit of its child has been seen, and that of a launch
      that resolved is never returned in any other way. */
  lemma {:induction false} LeaseReturnedOnceAfterExit(capacity: nat, actions: seq<Action>, t: string)
    requires S.MIN_RUNTIME_WORKERS <= capacity <= S.MAX_RUNTIME_WORKERS
    requires t in Run(Initial(capacity), actions).turns
    ensures var s := Run(Initial(capacity), actions); var turn := s.turns[t];
            && turn.givenBack + turn.dropped <= 1
            && (turn.givenBack + turn.dropped == 1 ==> !S.Scheduled(s.sched, t))
            && (turn.givenBack == 1 ==> turn.exited)
            && (turn.phase == Resolved ==> turn.dropped == 0)
            && (turn.phase == Resolved && !turn.exited ==> turn.givenBack == 0 && S.Holds(s.sched.active, t))
  {
    InitialInv(capacity);
    RunKeepsInv(Initial(capacity), actions);
    assert Ok(Run(Initial(capacity), actions), t);
  }

  /** In every run a running child holds its lease if and only if its launch was not rejected. */
  lemma {:induction false} RunningChildHoldsExactly(capacity: nat, actions: seq<Action>, t: string)
    requires S.MIN_RUNTIME_WORKERS <= capacity <= S.MAX_RUNTIME_WORKERS
    requires t in Run(Initial(capacity), actions).turns
    ensures var s := Run(Initial(capacity), actions); var turn := s.turns[t];
            turn.forked && !turn.exited ==>
              (S.Holds(s.sched.active, t) <==> turn.phase != Rejected)
              && (S.Scheduled(s.sched, t) <==> turn.phase != Rejected)
  {
    InitialInv(capacity);
    RunKeepsInv(Initial(capacity), actions);
    assert Ok(Run(Initial(capacity), actions), t);
  }

  predicate Running(s: State, t: string) {
    t in s.turns && s.turns[t].forked && !s.turns[t].exited
  }

  /** Two running children whose launches were not rejected hold leases at the same time, so theirs
      never conflict. */
  lemma {:induction false} LiveChildrenNeverConflict(capacity: nat, actions: seq<Action>, t: string, u: string)
    returns (x: S.Lease, y: S.Lease)
    requires S.MIN_RUNTIME_WORKERS <= capacity <= S.MAX_RUNTIME_WORKERS && t != u
    requires var s := Run(Initial(capacity), actions);
             && Running(s, t) && s.turns[t].phase != Rejected
             && Running(s, u) && s.turns[u].phase != Rejected
    ensures var s := Run(Initial(capacity), actions);
            && x in s.sched.active && x.id == t && y in s.sched.active && y.id == u
            && !S.LeasesConflict(x, y)
  {
    var s := Run(Initial(capacity), actions);
    RunningChildHoldsExactly(capacity, actions, t);
    RunningChildHoldsExactly(capacity, actions, u);
    InitialInv(capacity);
    RunKeepsInv(Initial(capacity), actions);
    var i :| 0 <= i < |s.sched.active| && s.sched.active[i].id == t;
    var j :| 0 <= j < |s.sched.active| && s.sched.active[j].id == u;
    x, y := s.sched.active[i], s.sched.active[j];
    S.ConflictShape();
  }

  /** The exit of a child that was not rejected gives its lease back exactly when the supervisor has
      given the child up or still has it as the current one of its thread. */
  lemma {:induction false} ExitGivesBackExactly(s: State, t: string)
    requires Inv(s) && CanExit(s, t) && s.turns[t].phase != Rejected
    ensures var s' := Next(s, ChildExits(t));
            && s'.turns[t].exited && s'.turns[t].phase == s.turns[t].phase
            && s'.turns[t].givenBack == Count(s.turns[t].closing || IsCurrent(s, t))
            && S.Scheduled(s'.sched, t) == !(s.turns[t].closing || IsCurrent(s, t))
  {
    assert Ok(s, t);
    SchedulerStep(s.sched, S.Release(t));
  }

  // ----- what the handlers of one turn leave alone

  /** Everything of the other turns, and what no handler but the fork and the start changes: the
      maps only lose entries, and the active map only that of a child being closed. */
  ghost predicate OnlyTouches(s: State, s': State, turn: string) {
    && s'.turns.Keys == s.turns.Keys && turn in s.turns
    && s'.sched.capacity == s.sched.capacity
    && (forall t | t in s.turns && t != turn :: s'.turns[t] == s.turns[t])
    && s'.turns[turn].thread == s.turns[turn].thread && s'.turns[turn].forked == s.turns[turn].forked
    && (s.turns[turn].closing ==> s'.turns[turn].closing)
    && (s'.turns[turn].phase == s.turns[turn].phase || s'.turns[turn].phase == Rejected)
    && (forall thread | thread in s'.pending :: thread in s.pending && s'.pending[thread] == s.pending[thread])
    && (forall thread | thread in s'.active :: thread in s.active && s'.active[thread] == s.active[thread])
    && (forall thread | thread in s.active && thread !in s'.active ::
        s.active[thread] == turn && s'.turns[turn].closing)
  }

  lemma {:induction false} StepKeepsCapacity(sched: S.State, op: S.Op)
    ensures S.Step(sched, op).capacity == sched.capacity
  {
  }

  lemma {:induction false} GiveBackTouches(s: State, turn: string)
    requires turn in s.turns
    ensures OnlyTouches(s, GiveBack(s, turn), turn)
  {
    StepKeepsCapacity(s.sched, S.Release(turn));
  }

  lemma {:induction false} FinishedTouches(s: State, turn: string)
    requires turn in s.turns
    ensures OnlyTouches(s, Finished(s, turn), turn)
  {
    if IsCurrent(s, turn) {
      GiveBackTouches(Close(s, turn), turn);
    }
  }

  lemma {:induction false} ExitTouches(s: State, turn: string)
    requires turn in s.turns
    ensures OnlyTouches(s, ExitHandled(s, turn), turn)
  {
    GiveBackTouches(Marked(s, turn), turn);
    FinishedTouches(Marked(s, turn), turn);
  }

  lemma {:induction false} RejectTouches(s: State, turn: string)
    requires turn in s.turns
    ensures OnlyTouches(s, Reject(s, turn), turn)
    ensures S.Holds(s.sched.active, turn) && IsCurrent(s, turn) ==> Reject(s, turn).turns[turn].closing
  {
    StepKeepsCapacity(s.sched, S.StartFailed(turn));
  }

  // ----- one worker, as the desktop runtime is configured

  ghost predicate NoneSuperseded(s: State) {
    s.sched.capacity == 1
    && forall t | t in s.turns && s.turns[t].forked && !s.turns[t].closing :: IsCurrent(s, t)
  }

  lemma {:induction false} OneHolder(sched: S.State, t: string, u: string)
    requires |sched.active| <= 1 && S.Holds(sched.active, t) && S.Holds(sched.active, u)
    ensures t == u
  {
  }

  lemma {:induction false} TouchKeepsNoneSuperseded(s: State, s': State, turn: string)
    requires NoneSuperseded(s) && OnlyTouches(s, s', turn)
    ensures NoneSuperseded(s')
  {
    forall t | t in s'.turns && s'.turns[t].forked && !s'.turns[t].closing
      ensures IsCurrent(s', t)
    {
      assert IsCurrent(s, t);
    }
  }

  /** With one worker, a launch that waits at its await is alone: every other child was given up. */
  lemma {:induction false} OthersGivenUp(s: State, turn: string, t: string)
    requires Inv(s) && NoneSuperseded(s) && turn in s.turns && s.turns[turn].phase == Awaiting
    requires t in s.turns && t != turn
    ensures s.turns[t].forked ==> s.turns[t].closing
  {
    if s.turns[t].forked && !s.turns[t].closing {
      assert Ok(s, turn) && Ok(s, t);
      OneHolder(s.sched, turn, t);
    }
  }

  lemma {:induction false} ForkKeepsNoneSuperseded(s: State, turn: string)
    requires Inv(s) && NoneSuperseded(s) && turn in s.turns && s.turns[turn].phase == Awaiting
    ensures NoneSuperseded(Next(s, ForkChild(turn)))
  {
    var s' := Next(s, ForkChild(turn));
    forall t | t in s'.turns && s'.turns[t].forked && !s'.turns[t].closing
      ensures IsCurrent(s', t)
    {
      if t != turn {
        OthersGivenUp(s, turn, t);
      }
    }
  }

  lemma {:induction false} NextKeepsNoneSuperseded(s: State, action: Action)
    requires Inv(s) && NoneSuperseded(s)
    ensures NoneSuperseded(Next(s, action))
  {
    match action
    case Ask(thread) =>
    case Abandon(thread) =>
    case Start(thread, lease) => StepKeepsCapacity(s.sched, S.Enqueue(lease));
    case BeginLaunch(turn) =>
      if CanBegin(s, turn) && !IsPending(s, turn) {
        RejectTouches(s, turn);
        TouchKeepsNoneSuperseded(s, Reject(s, turn), turn);
      }
    case ForkChild(turn) =>
      if turn in s.turns && s.turns[turn].phase == Awaiting { ForkKeepsNoneSuperseded(s, turn); }
    case LaunchResolves(turn) =>
    case LaunchRejects(turn) =>
      if CanReject(s, turn) {
        RejectTouches(s, turn);
        TouchKeepsNoneSuperseded(s, Reject(s, turn), turn);
      }
    case Finish(turn) =>
      if turn in s.turns {
        FinishedTouches(s, turn);
        TouchKeepsNoneSuperseded(s, Finished(s, turn), turn);
      }
    case ChildExits(turn) =>
      if CanExit(s, turn) {
        ExitTouches(s, turn);
        TouchKeepsNoneSuperseded(s, ExitHandled(s, turn), turn);
      }
    case StopPending(thread) =>
      if thread in s.pending { StepKeepsCapacity(s.sched, S.Cancel(s.pending[thread])); }
  }

  /** With one worker no child is superseded by another of its thread, so in every run each exit
      of a launched child gives its lease back. */
  lemma {:induction false} OneWorkerNeverLeaks(s: State, actions: seq<Action>, t: string)
    requires Inv(s) && NoneSuperseded(s)
    requires var s' := Run(s, actions); CanExit(s', t) && s'.turns[t].phase == Resolved
    ensures Next(Run(s, actions), ChildExits(t)).turns[t].givenBack == 1
    decreases |actions|
  {
    if actions == [] {
      ExitGivesBackExactly(s, t);
    } else {
      NextKeepsInv(s, actions[0]);
      NextKeepsNoneSuperseded(s, actions[0]);
      OneWorkerNeverLeaks(Next(s, actions[0]), actions[1..], t);
    }
  }

  predicate Returned(turn: Turn) {
    turn.exited && turn.phase != Rejected ==> turn.givenBack == 1
  }

  lemma {:induction false} NextKeepsReturned(s: State, action: Action, t: string)
    requires Inv(s) && NoneSuperseded(s) && (t in s.turns ==> Returned(s.turns[t]))
    ensures t in Next(s, action).turns ==> Returned(Next(s, action).turns[t])
  {
    if t in s.turns {
      assert Ok(s, t);
      if !action.ChildExits? {
        OthersKeepReturned(s, action, t);
      } else if CanExit(s, action.turn) {
        ExitReturns(s, action.turn, t);
      }
    }
  }

  lemma {:induction false} OthersKeepReturned(s: State, action: Action, t: string)
    requires t in s.turns && Ok(s, t) && Returned(s.turns[t]) && !action.ChildExits?
    ensures t in Next(s, action).turns && Returned(Next(s, action).turns[t])
  {
    match action
    case Ask(thread) =>
    case Abandon(thread) =>
    case Start(thread, lease) =>
    case BeginLaunch(turn) => if CanBegin(s, turn) && !IsPending(s, turn) { RejectTouches(s, turn); }
    case ForkChild(turn) =>
    case LaunchResolves(turn) =>
    case LaunchRejects(turn) => if CanReject(s, turn) { RejectTouches(s, turn); }
    case Finish(turn) => if turn in s.turns { FinishedTouches(s, turn); }
    case StopPending(thread) =>
  }

  lemma {:induction false} ExitReturns(s: State, turn: string, t: string)
    requires Inv(s) && NoneSuperseded(s) && CanExit(s, turn) && t in s.turns && Returned(s.turns[t])
    ensures t in Next(s, ChildExits(turn)).turns && Returned(Next(s, ChildExits(turn)).turns[t])
  {
    ExitTouches(s, turn);
    if t == turn {
      assert Ok(s, t);
      if s.turns[t].phase != Rejected {
        ExitGivesBackExactly(s, t);
      }
    }
  }

  lemma {:induction false} RunKeepsReturned(s: State, actions: seq<Action>, t: string)
    requires Inv(s) && NoneSuperseded(s) && (t in s.turns ==> Returned(s.turns[t]))
    ensures t in Run(s, actions).turns ==> Returned(Run(s, actions).turns[t])
    decreases |actions|
  {
    if actions != [] {
      NextKeepsInv(s, actions[0]);
      NextKeepsNoneSuperseded(s, actions[0]);
      NextKeepsReturned(s, actions[0], t);
      RunKeepsReturned(Next(s, actions[0]), actions[1..], t);
    }
  }

  /** So with one worker no lease is ever lost: in every run from the start the lease of each launched
      child that has exited was given back. */
  lemma {:induction false} OneWorkerReturnsAll(actions: seq<Action>, t: string)
    requires var s := Run(Initial(1), actions); t in s.turns && s.turns[t].phase == Resolved && s.turns[t].exited
    ensures var s := Run(Initial(1), actions); s.turns[t].givenBack == 1 && !S.Scheduled(s.sched, t)
  {
    InitialInv(1);
    RunKeepsInv(Initial(1), actions);
    RunKeepsReturned(Initial(1), actions, t);
    assert Ok(Run(Initial(1), actions), t);
  }

  // ----- stopping a pending turn

  predicate NeverLaunches(s: State, t: string) {
    t in s.turns && !s.turns[t].forked && s.turns[t].phase != Awaiting && !IsPending(s, t)
  }

  lemma {:induction false} NeverLaunchesStays(s: State, actions: seq<Action>, t: string)
    requires Inv(s) && NeverLaunches(s, t)
    ensures NeverLaunches(Run(s, actions), t)
    decreases |actions|
  {
    if actions != [] {
      assert Ok(s, t);
      NextKeepsInv(s, actions[0]);
      OneActionStaysUnlaunched(s, actions[0], t);
      NeverLaunchesStays(Next(s, actions[0]), actions[1..], t);
    }
  }

  lemma {:induction false} OneActionStaysUnlaunched(s: State, action: Action, t: string)
    requires NeverLaunches(s, t) && Ok(s, t)
    ensures NeverLaunches(Next(s, action), t)
  {
    match action
    case Ask(thread) =>
    case Abandon(thread) =>
    case Start(thread, lease) =>
    case BeginLaunch(turn) => if CanBegin(s, turn) && !IsPending(s, turn) { RejectTouches(s, turn); }
    case ForkChild(turn) =>
    case LaunchResolves(turn) =>
    case LaunchRejects(turn) => if CanReject(s, turn) { RejectTouches(s, turn); }
    case Finish(turn) => if turn in s.turns { FinishedTouches(s, turn); }
    case ChildExits(turn) => if CanExit(s, turn) { ExitTouches(s, turn); }
    case StopPending(thread) =>
  }

  ghost predicate MayStillFork(s: State, t: string) {
    exists actions: seq<Action> :: t in Run(s, actions).turns && Run(s, actions).turns[t].forked
  }

  /** Stopping a pending turn keeps its child from ever being forked, unless the launch has passed
      its check and is waiting: then the fork can still happen. */
  lemma {:induction false} StopPreventsForkExactly(s: State, thread: string)
    requires Inv(s) && thread in s.pending && !s.turns[s.pending[thread]].forked
    ensures MayStillFork(Next(s, StopPending(thread)), s.pending[thread])
        <==> s.turns[s.pending[thread]].phase == Awaiting
  {
    var t := s.pending[thread];
    var s' := Next(s, StopPending(thread));
    NextKeepsInv(s, StopPending(thread));
    if s.turns[t].phase == Awaiting {
      var actions := [ForkChild(t)];
      assert Run(Next(s', ForkChild(t)), actions[1..]) == Next(s', ForkChild(t));
      assert Run(s', actions) == Next(s', ForkChild(t));
      assert Run(s', actions).turns[t].forked;
    } else {
      forall actions
        ensures !(t in Run(s', actions).turns && Run(s', actions).turns[t].forked)
      {
        NeverLaunchesStays(s', actions, t);
      }
    }
  }

  // ----- a rejected launch

  /** A launch that rejects after its fork drops the lease at once, with the child still running. */
  lemma {:induction false} RejectDropsBeforeExit(s: State, t: string)
    requires Inv(s) && t in s.turns && s.turns[t].phase == Forked && !s.turns[t].exited
    ensures var s' := Next(s, LaunchRejects(t));
            s'.turns[t].dropped == 1 && !s'.turns[t].exited && !S.Scheduled(s'.sched, t)
  {
    assert Ok(s, t);
    SchedulerStep(s.sched, S.StartFailed(t));
  }

  lemma {:induction false} RunConcat(s: State, left: seq<Action>, right: seq<Action>)
    ensures Run(s, left + right) == Run(Run(s, left), right)
    decreases |left|
  {
    if left == [] {
      assert left + right == right;
    } else {
      assert (left + right)[0] == left[0] && (left + right)[1..] == left[1..] + right;
      RunConcat(Next(s, left[0]), left[1..], right);
    }
  }

  lemma {:induction false} RunTwo(s: State, a: Action, b: Action)
    ensures Run(s, [a, b]) == Next(Next(s, a), b)
  {
    var s1 := Next(s, a);
    assert [a, b][1..] == [b] && [b][1..] == [];
    assert Run(s1, [b]) == Run(Next(s1, b), []);
  }

  lemma {:induction false} RunThree(s: State, a: Action, b: Action, c: Action)
    ensures Run(s, [a, b, c]) == Next(Next(Next(s, a), b), c)
  {
    assert [a, b, c][1..] == [b, c];
    RunTwo(Next(s, a), b, c);
  }

  lemma {:induction false} RunFour(s: State, a: Action, b: Action, c: Action, d: Action)
    ensures Run(s, [a, b, c, d]) == Next(Next(Next(Next(s, a), b), c), d)
  {
    assert [a, b, c, d][1..] == [b, c, d];
    RunThree(Next(s, a), b, c, d);
  }

  lemma {:induction false} AskedStarts(s: State, thread: string, lease: S.Lease)
    requires CanAsk(s, thread) && lease.id !in s.turns
    ensures Next(Next(s, Ask(thread)), Start(thread, lease)) == Started(s, thread, lease)
  {
    assert s.asked + {thread} - {thread} == s.asked - {thread};
  }

  function TurnAt(thread: string, phase: Phase): Turn {
    Turn(thread, phase, phase == Forked || phase == Resolved, false, false, 0, 0)
  }

  function OneForked(capacity: nat, thread: string, x: S.Lease): State {
    State(S.State(capacity, [x], []), map[], map[thread := x.id], map[x.id := TurnAt(thread, Forked)], {})
  }

  lemma {:induction false} StartsFirst(capacity: nat, thread: string, x: S.Lease)
    requires capacity > 0
    ensures Started(Initial(capacity), thread, x)
         == State(S.State(capacity, [x], []), map[thread := x.id], map[], map[x.id := TurnAt(thread, Queued)], {})
  {
    S.EnqueueAlone(S.Initial(capacity), x);
    assert [] + [x] == [x];
  }

  function OneAwaiting(capacity: nat, thread: string, x: S.Lease): State {
    State(S.State(capacity, [x], []), map[thread := x.id], map[], map[x.id := TurnAt(thread, Awaiting)], {})
  }

  lemma {:induction false} AwaitsFirst(capacity: nat, thread: string, x: S.Lease)
    requires capacity > 0
    ensures Next(Started(Initial(capacity), thread, x), BeginLaunch(x.id)) == OneAwaiting(capacity, thread, x)
  {
    StartsFirst(capacity, thread, x);
    var s := Started(Initial(capacity), thread, x);
    assert S.Holds([x], x.id) by { assert [x][0] == x; }
    assert Next(s, BeginLaunch(x.id)).turns == map[x.id := TurnAt(thread, Awaiting)];
  }

  lemma {:induction false} LaunchesFirst(capacity: nat, thread: string, x: S.Lease)
    requires capacity > 0
    ensures Run(Initial(capacity), [Ask(thread), Start(thread, x), BeginLaunch(x.id), ForkChild(x.id)])
        == OneForked(capacity, thread, x)
  {
    AskedStarts(Initial(capacity), thread, x);
    AwaitsFirst(capacity, thread, x);
    assert Next(OneAwaiting(capacity, thread, x), ForkChild(x.id)) == OneForked(capacity, thread, x);
    RunFour(Initial(capacity), Ask(thread), Start(thread, x), BeginLaunch(x.id), ForkChild(x.id));
  }

  function HandedOver(capacity: nat, thread: string, other: string, x: S.Lease, y: S.Lease): State {
    State(S.State(capacity, [y], []), map[other := y.id], map[],
          map[x.id := Turn(thread, Rejected, true, true, false, 0, 1), y.id := TurnAt(other, Queued)], {})
  }

  lemma {:induction false} RejectionHandsOver(capacity: nat, thread: string, other: string, x: S.Lease, y: S.Lease)
    requires capacity > 0 && thread != other && x.id != y.id && S.LeasesConflict(x, y)
    ensures Run(OneForked(capacity, thread, x), [Ask(other), Start(other, y), LaunchRejects(x.id)])
         == HandedOver(capacity, thread, other, x, y)
  {
    SecondWaits(capacity, thread, other, x, y);
    FirstRejects(capacity, thread, other, x, y);
    AskedStarts(OneForked(capacity, thread, x), other, y);
    RunThree(OneForked(capacity, thread, x), Ask(other), Start(other, y), LaunchRejects(x.id));
  }

  lemma {:induction false} FirstRejects(capacity: nat, thread: string, other: string, x: S.Lease, y: S.Lease)
    requires capacity > 0 && thread != other && x.id != y.id
    ensures Next(OneWaiting(capacity, thread, other, x, y), LaunchRejects(x.id))
         == HandedOver(capacity, thread, other, x, y)
  {
    FirstDrops(capacity, thread, other, x, y);
    DroppedCloses(capacity, thread, other, x, y);
    assert S.Holds([x], x.id) by { assert [x][0] == x; }
  }

  /** Between the drop of the lease and the end of the child's turn. */
  function Dropped(capacity: nat, thread: string, other: string, x: S.Lease, y: S.Lease): State {
    State(S.State(capacity, [y], []), map[other := y.id], map[thread := x.id],
          map[x.id := Turn(thread, Rejected, true, false, false, 0, 1), y.id := TurnAt(other, Queued)], {})
  }

  lemma {:induction false} FirstDrops(capacity: nat, thread: string, other: string, x: S.Lease, y: S.Lease)
    requires capacity > 0 && x.id != y.id
    ensures Drop(OneWaiting(capacity, thread, other, x, y), x.id) == Dropped(capacity, thread, other, x, y)
  {
    assert S.Holds([x], x.id) by { assert [x][0] == x; }
    S.FailureHandsOver(capacity, x, y);
    assert Drop(OneWaiting(capacity, thread, other, x, y), x.id).turns == Dropped(capacity, thread, other, x, y).turns;
  }

  lemma {:induction false} DroppedCloses(capacity: nat, thread: string, other: string, x: S.Lease, y: S.Lease)
    requires x.id != y.id
    ensures Close(Dropped(capacity, thread, other, x, y), x.id) == HandedOver(capacity, thread, other, x, y)
    ensures IsCurrent(Dropped(capacity, thread, other, x, y), x.id)
  {
    var closed := Close(Dropped(capacity, thread, other, x, y), x.id);
    assert closed.turns == HandedOver(capacity, thread, other, x, y).turns && closed.active == map[];
  }

  function OneWaiting(capacity: nat, thread: string, other: string, x: S.Lease, y: S.Lease): State {
    State(S.State(capacity, [x], [y]), map[other := y.id], map[thread := x.id],
          map[x.id := TurnAt(thread, Forked), y.id := TurnAt(other, Queued)], {})
  }

  lemma {:induction false} SecondWaits(capacity: nat, thread: string, other: string, x: S.Lease, y: S.Lease)
    requires capacity > 0 && thread != other && x.id != y.id && S.LeasesConflict(x, y)
    ensures Started(OneForked(capacity, thread, x), other, y) == OneWaiting(capacity, thread, other, x, y)
  {
    assert S.Clashes([x], y) by { assert [x][0] == x; }
    S.EnqueueAlone(S.State(capacity, [x], []), y);
  }

  /** A launch that rejects drops its lease while the child still runs, so a conflicting task that
      waits is started and launched beside it. */
  lemma {:induction false} RejectedChildRunsBeside(capacity: nat, thread: string, other: string, x: S.Lease, y: S.Lease)
    returns (actions: seq<Action>)
    requires S.MIN_RUNTIME_WORKERS <= capacity <= S.MAX_RUNTIME_WORKERS
    requires thread != other && x.id != y.id && S.LeasesConflict(x, y)
    ensures var s := Run(Initial(capacity), actions);
            && Running(s, x.id) && s.turns[x.id].phase == Rejected
            && Running(s, y.id) && s.turns[y.id].phase == Resolved && s.sched.active == [y]
  {
    var launching := [Ask(thread), Start(thread, x), BeginLaunch(x.id), ForkChild(x.id)];
    var rejecting := [Ask(other), Start(other, y), LaunchRejects(x.id)];
    var resolving := [BeginLaunch(y.id), ForkChild(y.id), LaunchResolves(y.id)];
    actions := launching + (rejecting + resolving);
    LaunchesFirst(capacity, thread, x);
    RejectionHandsOver(capacity, thread, other, x, y);
    RunConcat(Initial(capacity), launching, rejecting + resolving);
    RunConcat(OneForked(capacity, thread, x), rejecting, resolving);
    var s := HandedOver(capacity, thread, other, x, y);
    assert S.Holds([y], y.id) by { assert [y][0] == y; }
    RunThree(s, BeginLaunch(y.id), ForkChild(y.id), LaunchResolves(y.id));
  }

  // ----- a superseded child

  /** The child has exited, and its lease is held all the same. */
  predicate Lost(s: State, t: string) {
    t in s.turns && s.turns[t].phase == Resolved && s.turns[t].exited && S.Holds(s.sched.active, t)
  }

  /** A lost lease stays lost: no handler gives it back in any later run. */
  lemma {:induction false} LostStays(s: State, actions: seq<Action>, t: string)
    requires Inv(s) && Lost(s, t)
    ensures Lost(Run(s, actions), t)
    decreases |actions|
  {
    if actions != [] {
      LostStaysOnce(s, actions[0], t);
      NextKeepsInv(s, actions[0]);
      LostStays(Next(s, actions[0]), actions[1..], t);
    }
  }

  lemma {:induction false} HeldStays(sched: S.State, op: S.Op, id: string)
    requires S.Holds(sched.active, id)
    requires op.Release? || op.StartFailed? ==> op.id != id
    ensures S.Holds(S.Step(sched, op).active, id)
  {
    var k :| 0 <= k < |sched.active| && sched.active[k].id == id;
    S.ActiveStays(sched, op, sched.active[k]);
    var after := S.Step(sched, op).active;
    var j :| 0 <= j < |after| && after[j] == sched.active[k];
  }

  lemma {:induction false} LostStaysOnce(s: State, action: Action, t: string)
    requires Inv(s) && Lost(s, t)
    ensures Lost(Next(s, action), t)
  {
    assert Ok(s, t);
    match action
    case Ask(thread) =>
    case Abandon(thread) =>
    case Start(thread, lease) => HeldStays(s.sched, S.Enqueue(lease), t);
    case BeginLaunch(turn) => if CanBegin(s, turn) { LostOverReject(s, turn, t); }
    case ForkChild(turn) =>
    case LaunchResolves(turn) =>
    case LaunchRejects(turn) => if CanReject(s, turn) { LostOverReject(s, turn, t); }
    case Finish(turn) => if turn != t { LostOverFinish(s, turn, t); }
    case ChildExits(turn) => if turn != t { LostOverExit(s, turn, t); }
    case StopPending(thread) => if thread in s.pending { HeldStays(s.sched, S.Cancel(s.pending[thread]), t); }
  }

  lemma {:induction false} LostOverReject(s: State, turn: string, t: string)
    requires Lost(s, t) && turn in s.turns && turn != t
    ensures Lost(Reject(s, turn), t)
  {
    HeldStays(s.sched, S.StartFailed(turn), t);
  }

  lemma {:induction false} LostOverFinish(s: State, turn: string, t: string)
    requires Lost(s, t) && turn != t
    ensures Lost(Next(s, Finish(turn)), t)
  {
    HeldStays(s.sched, S.Release(turn), t);
  }

  lemma {:induction false} LostOverExit(s: State, turn: string, t: string)
    requires Lost(s, t) && turn != t
    ensures Lost(Next(s, ChildExits(turn)), t)
  {
    HeldStays(s.sched, S.Release(turn), t);
  }

  /** The exit of a launched child loses its lease, for every later run, if and only if the child is
      neither given up nor the current one of its thread. */
  lemma {:induction false} ExitLosesExactly(s: State, t: string)
    requires Inv(s) && CanExit(s, t) && s.turns[t].phase == Resolved
    ensures (forall actions: seq<Action> :: S.Holds(Run(Next(s, ChildExits(t)), actions).sched.active, t))
       <==> !s.turns[t].closing && !IsCurrent(s, t)
  {
    var s' := Next(s, ChildExits(t));
    ExitGivesBackExactly(s, t);
    assert Ok(s, t);
    NextKeepsInv(s, ChildExits(t));
    if !s.turns[t].closing && !IsCurrent(s, t) {
      forall actions: seq<Action>
        ensures S.Holds(Run(s', actions).sched.active, t)
      {
        LostStays(s', actions, t);
      }
    } else {
      var none: seq<Action> := [];
      assert Run(s', none) == s' && !S.Scheduled(s'.sched, t);
      assert !S.Holds(Run(s', none).sched.active, t);
    }
  }

  /** And with two workers it happens: a turn is stopped while its launch waits at its await, the thread
      is started again, both children are forked, the second takes the first one's place, and the worker
      of the first is lost. */
  lemma {:induction false} SupersededChildLosesLease(capacity: nat, thread: string, x: S.Lease, y: S.Lease)
    returns (actions: seq<Action>)
    requires 2 <= capacity <= S.MAX_RUNTIME_WORKERS && x.id != y.id && !S.LeasesConflict(x, y)
    ensures Lost(Run(Initial(capacity), actions), x.id)
  {
    var stopped := [Ask(thread), Start(thread, x), BeginLaunch(x.id), StopPending(thread)];
    var starting := stopped + [Ask(thread), Start(thread, y)];
    var forking := [BeginLaunch(y.id), ForkChild(x.id), ForkChild(y.id)];
    var exiting := [LaunchResolves(x.id), ChildExits(x.id)];
    actions := starting + (forking + exiting);
    StopsWaiting(capacity, thread, x);
    RunConcat(Initial(capacity), stopped, [Ask(thread), Start(thread, y)]);
    BothStart(capacity, thread, x, y);
    BothFork(capacity, thread, x, y);
    RunConcat(Initial(capacity), starting, forking + exiting);
    RunConcat(TwoAwaiting(capacity, thread, x, y), forking, exiting);
    var s := TwoForked(capacity, thread, x, y);
    assert S.Holds([x, y], x.id) by { assert [x, y][0] == x; }
    RunTwo(s, LaunchResolves(x.id), ChildExits(x.id));
  }

  function TwoAwaiting(capacity: nat, thread: string, x: S.Lease, y: S.Lease): State {
    State(S.State(capacity, [x, y], []), map[thread := y.id], map[],
          map[x.id := TurnAt(thread, Awaiting), y.id := TurnAt(thread, Queued)], {})
  }

  function TwoForked(capacity: nat, thread: string, x: S.Lease, y: S.Lease): State {
    State(S.State(capacity, [x, y], []), map[], map[thread := y.id],
          map[x.id := TurnAt(thread, Forked), y.id := TurnAt(thread, Forked)], {})
  }

  function OneStopped(capacity: nat, thread: string, x: S.Lease): State {
    State(S.State(capacity, [x], []), map[], map[], map[x.id := TurnAt(thread, Awaiting)], {})
  }

  /** Stopping a turn whose launch waits at its await leaves the launch and its lease. */
  lemma {:induction false} StopsWaiting(capacity: nat, thread: string, x: S.Lease)
    requires capacity > 0
    ensures Run(Initial(capacity), [Ask(thread), Start(thread, x), BeginLaunch(x.id), StopPending(thread)])
         == OneStopped(capacity, thread, x)
  {
    AskedStarts(Initial(capacity), thread, x);
    AwaitsFirst(capacity, thread, x);
    RunFour(Initial(capacity), Ask(thread), Start(thread, x), BeginLaunch(x.id), StopPending(thread));
    var s := Next(OneAwaiting(capacity, thread, x), StopPending(thread));
    assert s.pending == map[];
  }

  lemma {:induction false} BothStart(capacity: nat, thread: string, x: S.Lease, y: S.Lease)
    requires 2 <= capacity && x.id != y.id && !S.LeasesConflict(x, y)
    ensures Run(OneStopped(capacity, thread, x), [Ask(thread), Start(thread, y)]) == TwoAwaiting(capacity, thread, x, y)
  {
    var s := OneStopped(capacity, thread, x);
    AskedStarts(s, thread, y);
    S.EnqueueAlone(s.sched, y);
    assert [x] + [y] == [x, y];
    RunTwo(s, Ask(thread), Start(thread, y));
  }

  lemma {:induction false} BothFork(capacity: nat, thread: string, x: S.Lease, y: S.Lease)
    requires x.id != y.id
    ensures Run(TwoAwaiting(capacity, thread, x, y), [BeginLaunch(y.id), ForkChild(x.id), ForkChild(y.id)])
         == TwoForked(capacity, thread, x, y)
  {
    var s := TwoAwaiting(capacity, thread, x, y);
    assert S.Holds([x, y], y.id) by { assert [x, y][1] == y; }
    var s1 := Next(s, BeginLaunch(y.id));
    assert s1.turns == map[x.id := TurnAt(thread, Awaiting), y.id := TurnAt(thread, Awaiting)];
    var s2 := Next(s1, ForkChild(x.id));
    assert s2.turns == map[x.id := TurnAt(thread, Forked), y.id := TurnAt(thread, Awaiting)];
    assert s2.pending == map[] && s2.active == map[thread := x.id];
    var s3 := Next(s2, ForkChild(y.id));
    assert s3.turns == TwoForked(capacity, thread, x, y).turns && s3.active == map[thread := y.id];
    assert s3.pending == map[];
    RunThree(s, BeginLaunch(y.id), ForkChild(x.id), ForkChild(y.id));
  }

  // ----- the class

  class RuntimeSupervisor {
    const scheduler: S.RuntimeScheduler
    var pending: map<string, string>
    var active: map<string, string>
    var turns: map<string, Turn>
    var asked: set<string>

    ghost function View(): State
      reads this, scheduler
    {
      State(scheduler.View(), pending, active, turns, asked)
    }

    constructor (scheduler: S.RuntimeScheduler)
      requires scheduler.View() == S.Initial(scheduler.capacity)
      ensures this.scheduler == scheduler && View() == Initial(scheduler.capacity)
    {
      this.scheduler := scheduler;
      pending, active, turns, asked := map[], map[], map[], {};
    }

    /** The check at the head of `start`: a thread that is active, queued or being started is refused. */
    method Ask(thread: string) returns (refused: bool)
      requires Inv(View())
      modifies this
      ensures View() == Next(old(View()), Action.Ask(thread)) && Inv(View())
      ensures refused <==> !CanAsk(old(View()), thread)
    {
      NextKeepsInv(View(), Action.Ask(thread));
      if thread in asked || thread in pending || thread in active {
        return true;
      }
      asked := asked + {thread};
      return false;
    }

    /** A start that fails before it takes its lease. */
    method Abandon(thread: string)
      requires Inv(View())
      modifies this
      ensures View() == Next(old(View()), Action.Abandon(thread)) && Inv(View())
    {
      NextKeepsInv(View(), Action.Abandon(thread));
      asked := asked - {thread};
    }

    /** The part of `start` behind its last `await`; turn ids are fresh. */
    method Start(thread: string, lease: S.Lease)
      requires Inv(View()) && lease.id !in turns && thread in asked
      modifies this, scheduler
      ensures View() == Next(old(View()), Action.Start(thread, lease)) && Inv(View())
    {
      NextKeepsInv(View(), Action.Start(thread, lease));
      var before := pending;
      pending := pending[thread := lease.id];
      var result := scheduler.Enqueue(lease);
      if result == S.AlreadyScheduled || result == S.QueueFull {
        pending := pending - {thread};
        assert pending == before - {thread};
      } else {
        turns := turns[lease.id := Turn(thread, Queued, false, false, false, 0, 0)];
      }
      asked := asked - {thread};
    }

    /** `launch` up to its `await`. */
    method BeginLaunch(turn: string)
      requires Inv(View()) && CanBegin(View(), turn)
      modifies this, scheduler
      ensures View() == Next(old(View()), Action.BeginLaunch(turn)) && Inv(View())
    {
      NextKeepsInv(View(), Action.BeginLaunch(turn));
      var thread := turns[turn].thread;
      if thread in pending && pending[thread] == turn {
        turns := turns[turn := turns[turn].(phase := Awaiting)];
      } else {
        HandleLaunchFailure(turn);
      }
    }

    /** `launch` from its first `await` to the one for the child's readiness. */
    method ForkChild(turn: string)
      requires Inv(View()) && turn in turns && turns[turn].phase == Awaiting
      modifies this
      ensures View() == Next(old(View()), Action.ForkChild(turn)) && Inv(View())
    {
      NextKeepsInv(View(), Action.ForkChild(turn));
      var thread := turns[turn].thread;
      pending := pending - {thread};
      turns := turns[turn := turns[turn].(phase := Forked, forked := true)];
      active := active[thread := turn];
    }

    /** The scheduler's rejection handler and the `failed` callback it calls. */
    method HandleLaunchFailure(turn: string)
      requires S.Valid(scheduler.View()) && turn in turns
      modifies this, scheduler
      ensures View() == Reject(old(View()), turn)
    {
      var thread := turns[turn].thread;
      var notified := scheduler.StartFailed(turn);
      turns := turns[turn := turns[turn].(phase := Rejected, dropped := turns[turn].dropped + Count(notified))];
      if notified {
        if thread in active && active[thread] == turn {
          turns := turns[turn := turns[turn].(closing := true)];
          active := active - {thread};
        } else if thread in pending && pending[thread] == turn {
          pending := pending - {thread};
        }
      }
    }

    /** `finish`, called by a terminal event, a crash, or the stop timer. */
    method Finish(turn: string)
      requires S.Valid(scheduler.View()) && turn in turns
      modifies this, scheduler
      ensures View() == Finished(old(View()), turn)
    {
      var thread := turns[turn].thread;
      if !(thread in active && active[thread] == turn) {
        return;
      }
      turns := turns[turn := turns[turn].(closing := true)];
      active := active - {thread};
      if turns[turn].exited {
        Release(turn);
      }
    }

    method Release(turn: string)
      requires S.Valid(scheduler.View()) && turn in turns
      modifies this, scheduler
      ensures View() == GiveBack(old(View()), turn)
    {
      var found := scheduler.Release(turn);
      turns := turns[turn := turns[turn].(givenBack := turns[turn].givenBack + Count(found))];
    }

    /** The child's exit handler. */
    method ChildExits(turn: string)
      requires Inv(View()) && CanExit(View(), turn)
      modifies this, scheduler
      ensures View() == Next(old(View()), Action.ChildExits(turn)) && Inv(View())
    {
      NextKeepsInv(View(), Action.ChildExits(turn));
      turns := turns[turn := turns[turn].(exited := true)];
      if turns[turn].closing {
        Release(turn);
        return;
      }
      Finish(turn);
    }

    /** `stop` for a turn whose child is not forked yet. */
    method StopPending(thread: string)
      requires Inv(View()) && thread in pending
      modifies this, scheduler
      ensures View() == Next(old(View()), Action.StopPending(thread)) && Inv(View())
    {
      NextKeepsInv(View(), Action.StopPending(thread));
      var turn := pending[thread];
      pending := pending - {thread};
      var _ := scheduler.Cancel(turn);
    }
  }
}
