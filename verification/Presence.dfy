/** The presence gate: a prompt after a minute of un-paused time, and the boundary that waits for
    its acknowledgement (src/runtime/presence.ts). */
module Presence {
  import opened Wrappers

  const INTERVAL: int := 60_000
  const MINIMUM_SHOWN: int := 250

  datatype Prompt = Prompt(taskId: string, promptId: nat)

  /** `timerAt` is the moment for which the timer is set, if it is. */
  datatype State = State(taskId: Option<string>, pending: Option<Prompt>, deadline: int, remaining: int,
                         paused: nat, issuedAt: int, timerAt: Option<int>, nextPrompt: nat)

  const FRESH: State := State(None, None, 0, INTERVAL, 0, 0, None, 0)

  function Max(x: int, y: int): int {
    if x >= y then x else y
  }

  /** The clock readings of one call, in the order it makes them: for the comparison with the deadline,
      for the moment of the prompt, for the third purpose a call may have (how long the prompt was
      shown, or what is left at a pause), and for the next deadline. */
  datatype Readings = Readings(check: int, issue: int, third: int, arm: int) {
    predicate Ordered() { check <= issue <= third <= arm }
  }

  // ----- the pieces

  function Armed(s: State, now: int): State {
    if s.taskId.None? || s.pending.Some? || s.paused > 0 then s
    else s.(deadline := now + s.remaining, timerAt := Some(now + s.remaining))
  }

  function Checked(s: State, r: Readings): State {
    if s.taskId.None? || s.pending.Some? || s.paused > 0 || r.check < s.deadline then s
    else s.(timerAt := None, pending := Some(Prompt(s.taskId.value, s.nextPrompt)), issuedAt := r.issue,
            nextPrompt := s.nextPrompt + 1)
  }

  function Stopped(s: State): State {
    s.(timerAt := None, taskId := None, pending := None, paused := 0)
  }

  function Started(s: State, taskId: string, r: Readings): State {
    Armed(Stopped(s).(taskId := Some(taskId), remaining := INTERVAL), r.arm)
  }

  predicate Acknowledges(s: State, taskId: string, promptId: nat, r: Readings) {
    s.pending == Some(Prompt(taskId, promptId)) && r.third - s.issuedAt >= MINIMUM_SHOWN
  }

  function Acknowledged(s: State, r: Readings): State {
    Armed(s.(pending := None, remaining := INTERVAL), r.arm)
  }

  function Paused(s: State, r: Readings): State {
    var checked := Checked(s, r);
    var deeper := checked.(paused := checked.paused + 1);
    if checked.paused > 0 then deeper
    else deeper.(remaining := Max(0, checked.deadline - r.third), timerAt := None)
  }

  function Resumed(s: State, r: Readings): State {
    if s.paused == 0 then s
    else
      var shallower := s.(paused := s.paused - 1);
      if shallower.paused == 0 then Armed(shallower, r.arm) else shallower
  }

  // ----- events

  datatype Event = Start(taskId: string) | Check | Acknowledge(taskId: string, promptId: nat) | Pause | Resume | Stop

  /** Whether the event is an acknowledgement the gate takes. */
  predicate Takes(s: State, event: Event, r: Readings) {
    event.Acknowledge? && Acknowledges(Checked(s, r), event.taskId, event.promptId, r)
  }

  function Step(s: State, event: Event, r: Readings): State {
    match event
    case Start(taskId) => Started(s, taskId, r)
    case Check => Checked(s, r)
    case Acknowledge(_, _) => if Takes(s, event, r) then Acknowledged(Checked(s, r), r) else Checked(s, r)
    case Pause => Paused(s, r)
    case Resume => Resumed(s, r)
    case Stop => Stopped(s)
  }

  datatype BoundaryOutcome = Passes | Waits | Refuses

  /** One turn of the loop in `boundary`: the prompt is looked up, which checks the clock. */
  function Boundary(s: State, interactive: bool, r: Readings): (State, BoundaryOutcome) {
    var checked := Checked(s, r);
    (checked, if checked.pending.None? then Passes else if interactive then Waits else Refuses)
  }

  /** The loop goes on after a wake-up, unless the task has changed meanwhile. */
  function Woken(s: State, entered: Option<string>, interactive: bool, r: Readings): (State, BoundaryOutcome) {
    if entered != s.taskId then (s, Refuses) else Boundary(s, interactive, r)
  }

  // ----- the class

  class PresenceGate {
    var taskId: Option<string>
    var pending: Option<Prompt>
    var deadline: int
    var remaining: int
    var paused: nat
    var issuedAt: int
    var timerAt: Option<int>
    var nextPrompt: nat

    function View(): State
      reads this
    {
      State(taskId, pending, deadline, remaining, paused, issuedAt, timerAt, nextPrompt)
    }

    constructor ()
      ensures View() == FRESH
    {
      taskId, pending, deadline, remaining := None, None, 0, INTERVAL;
      paused, issuedAt, timerAt, nextPrompt := 0, 0, None, 0;
    }

    method Start(id: string, r: Readings)
      modifies this
      ensures View() == Step(old(View()), Event.Start(id), r)
    {
      Stop();
      taskId := Some(id);
      remaining := INTERVAL;
      Arm(r.arm);
    }

    method Arm(now: int)
      modifies this`deadline, this`timerAt
      ensures View() == Armed(old(View()), now)
    {
      if taskId.None? || pending.Some? || paused > 0 {
        return;
      }
      deadline := now + remaining;
      timerAt := Some(now + remaining);
    }

    method Check(r: Readings)
      modifies this`timerAt, this`pending, this`issuedAt, this`nextPrompt
      ensures View() == Step(old(View()), Event.Check, r)
    {
      if taskId.None? || pending.Some? || paused > 0 || r.check < deadline {
        return;
      }
      timerAt := None;
      pending := Some(Prompt(taskId.value, nextPrompt));
      nextPrompt := nextPrompt + 1;
      issuedAt := r.issue;
    }

    method Acknowledge(id: string, promptId: nat, r: Readings) returns (taken: bool)
      modifies this
      ensures taken == Takes(old(View()), Event.Acknowledge(id, promptId), r)
      ensures View() == Step(old(View()), Event.Acknowledge(id, promptId), r)
    {
      Check(r);
      if pending.None? || pending.value.taskId != id || pending.value.promptId != promptId
          || r.third - issuedAt < MINIMUM_SHOWN {
        return false;
      }
      pending := None;
      remaining := INTERVAL;
      Arm(r.arm);
      taken := true;
    }

    method Pause(r: Readings)
      modifies this
      ensures View() == Step(old(View()), Event.Pause, r)
    {
      Check(r);
      paused := paused + 1;
      if paused == 1 {
        remaining := Max(0, deadline - r.third);
        timerAt := None;
      }
    }

    method Resume(r: Readings)
      modifies this
      ensures View() == Step(old(View()), Event.Resume, r)
    {
      if paused > 0 {
        paused := paused - 1;
        if paused == 0 {
          Arm(r.arm);
        }
      }
    }

    method BoundaryTurn(interactive: bool, r: Readings) returns (outcome: BoundaryOutcome)
      modifies this`timerAt, this`pending, this`issuedAt, this`nextPrompt
      ensures (View(), outcome) == Boundary(old(View()), interactive, r)
    {
      Check(r);
      if pending.None? {
        return Passes;
      }
      outcome := if !interactive then Refuses else Waits;
    }

    method Stop()
      modifies this`timerAt, this`taskId, this`pending, this`paused
      ensures View() == Stopped(old(View()))
    {
      timerAt := None;
      taskId := None;
      pending := None;
      paused := 0;
    }
  }

  // ----- the reference: a stopwatch told by the history alone

  /** An event with its clock readings, and whether it was an acknowledgement that was taken. */
  datatype Entry = Entry(event: Event, at: Readings, taken: bool)

  /** A stopwatch: whether a task runs, how deep it is paused, the un-paused time since the start or
      the last acknowledgement, the moment up to which it is counted, and whether that time reached a
      minute between the two readings of the pause that holds. */
  datatype Watch = Watch(running: bool, depth: nat, elapsed: int, upTo: int, overrun: bool)

  function Advanced(w: Watch, at: int): Watch {
    w.(elapsed := if w.running && w.depth == 0 then w.elapsed + (at - w.upTo) else w.elapsed, upTo := at)
  }

  function Ticked(w: Watch, entry: Entry): Watch {
    var r := entry.at;
    match entry.event
    case Start(_) => Watch(true, 0, 0, r.arm, false)
    case Check => Advanced(w, r.check)
    case Acknowledge(_, _) => if entry.taken then Advanced(w, r.arm).(elapsed := 0) else Advanced(w, r.check)
    case Pause =>
      var over := Advanced(w, r.check).elapsed < INTERVAL && Advanced(w, r.third).elapsed >= INTERVAL;
      Advanced(w, r.third).(depth := w.depth + 1, overrun := if w.depth == 0 then over else w.overrun)
    case Resume => if w.depth > 0 then Advanced(w, r.arm).(depth := w.depth - 1) else Advanced(w, r.arm)
    case Stop => Watch(false, 0, 0, r.check, false)
  }

  function WatchOf(history: seq<Entry>, start: int): Watch {
    if history == [] then Watch(false, 0, 0, start, false)
    else Ticked(WatchOf(history[..|history| - 1], start), history[|history| - 1])
  }

  // ----- runs

  datatype Timed = Timed(event: Event, at: Readings)

  function Run(events: seq<Timed>): (State, seq<Entry>) {
    if events == [] then (FRESH, [])
    else
      var (s, history) := Run(events[..|events| - 1]);
      var last := events[|events| - 1];
      (Step(s, last.event, last.at), history + [Entry(last.event, last.at, Takes(s, last.event, last.at))])
  }

  /** The clock never goes back, neither between two calls nor between two readings. */
  predicate Clocked(events: seq<Timed>, start: int) {
    && (forall i | 0 <= i < |events| :: start <= events[i].at.check && events[i].at.Ordered())
    && (forall i, j | 0 <= i < j < |events| :: events[i].at.arm <= events[j].at.check)
  }

  predicate Later(events: seq<Timed>, start: int, r: Readings) {
    r.Ordered() && start <= r.check && forall i | 0 <= i < |events| :: events[i].at.arm <= r.check
  }

  /** The gate's fields say what the stopwatch says. */
  predicate Agrees(s: State, w: Watch) {
    && w.running == s.taskId.Some?
    && w.depth == s.paused
    && (s.pending.Some? ==>
          && s.taskId == Some(s.pending.value.taskId) && w.elapsed >= INTERVAL && !Hidden(w)
          && s.pending.value.promptId < s.nextPrompt)
    && (s.taskId.Some? && s.pending.None? && s.paused == 0 ==> DeadlineAgrees(s, w) && s.timerAt == Some(s.deadline))
    && (s.taskId.Some? && s.pending.None? && s.paused > 0 ==>
          s.remaining == Max(0, INTERVAL - w.elapsed) && (w.overrun <==> w.elapsed >= INTERVAL))
    && (s.taskId.None? || s.pending.Some? || s.paused > 0 ==> s.timerAt.None?)
  }

  /** A minute has passed, but the pause that holds keeps the prompt from being seen. */
  predicate Hidden(w: Watch) {
    w.depth > 0 && w.overrun
  }

  predicate DeadlineAgrees(s: State, w: Watch) {
    if w.elapsed < INTERVAL then s.deadline - w.upTo == INTERVAL - w.elapsed else s.deadline <= w.upTo
  }

  lemma {:induction false} StepAgrees(s: State, w: Watch, event: Event, r: Readings)
    requires Agrees(s, w) && w.upTo <= r.check && r.Ordered()
    ensures Agrees(Step(s, event, r), Ticked(w, Entry(event, r, Takes(s, event, r))))
    ensures Ticked(w, Entry(event, r, Takes(s, event, r))).upTo <= r.arm
  {
  }

  lemma {:induction false} RunAgrees(events: seq<Timed>, start: int)
    requires Clocked(events, start)
    ensures Agrees(Run(events).0, WatchOf(Run(events).1, start))
    ensures WatchOf(Run(events).1, start).upTo <= if events == [] then start else events[|events| - 1].at.arm
    decreases |events|
  {
    if events != [] {
      var front, last := events[..|events| - 1], events[|events| - 1];
      RunAgrees(front, start);
      var (s, history) := Run(front);
      var entry := Entry(last.event, last.at, Takes(s, last.event, last.at));
      assert (history + [entry])[..|history|] == history;
      StepAgrees(s, WatchOf(history, start), last.event, last.at);
    }
  }

  // ----- main results

  /** At any moment after any run, an observed prompt is pending if and only if a task runs, its
      un-paused time since the start or the last acknowledgement has reached a minute, and it did not
      do so between the two clock readings of a pause that still holds. */
  lemma {:induction false} PendingExactly(events: seq<Timed>, start: int, r: Readings)
    requires Clocked(events, start) && Later(events, start, r)
    ensures var (s, history) := Run(events); var w := Advanced(WatchOf(history, start), r.check);
            Checked(s, r).pending.Some? <==> w.running && w.elapsed >= INTERVAL && !Hidden(w)
  {
    RunAgrees(events, start);
  }

  /** When the readings of each call agree, a prompt is pending exactly when the minute has passed. */
  lemma {:induction false} PendingWhenReadingsAgree(events: seq<Timed>, start: int, r: Readings)
    requires Clocked(events, start) && Later(events, start, r)
    requires forall i | 0 <= i < |events| :: events[i].at.check == events[i].at.third
    ensures var (s, history) := Run(events); var w := Advanced(WatchOf(history, start), r.check);
            Checked(s, r).pending.Some? <==> w.running && w.elapsed >= INTERVAL
  {
    PendingExactly(events, start, r);
    NeverOverrun(events, start);
  }

  lemma {:induction false} NeverOverrun(events: seq<Timed>, start: int)
    requires forall i | 0 <= i < |events| :: events[i].at.check == events[i].at.third
    ensures !WatchOf(Run(events).1, start).overrun
    decreases |events|
  {
    if events != [] {
      var front, last := events[..|events| - 1], events[|events| - 1];
      NeverOverrun(front, start);
      var (s, history) := Run(front);
      var entry := Entry(last.event, last.at, Takes(s, last.event, last.at));
      assert (history + [entry])[..|history|] == history;
    }
  }

  /** But a pause hides the prompt whenever its first reading is before the deadline and its second is
      not: the minute has passed, and no prompt is pending until the gate is resumed. */
  lemma {:induction false} PauseHides(events: seq<Timed>, start: int, pause: Readings, r: Readings)
    requires Clocked(events, start) && Later(events, start, pause) && r.Ordered() && pause.arm <= r.check
    requires var s := Run(events).0;
             s.taskId.Some? && s.pending.None? && s.paused == 0 && pause.check < s.deadline <= pause.third
    ensures var (s, history) := Run(events + [Timed(Pause, pause)]);
            && Checked(s, r).pending.None?
            && Advanced(WatchOf(history, start), r.check).elapsed >= INTERVAL
  {
    var (s, history) := Run(events);
    var entry := Entry(Pause, pause, false);
    RunAgrees(events, start);
    assert (events + [Timed(Pause, pause)])[..|events|] == events;
    assert (history + [entry])[..|history|] == history;
  }

  /** The timer, when it is set, is set for the moment at which the un-paused minute is over if no
      event comes before, or for one that is over already; and it is set whenever a task runs un-paused
      with no prompt pending. */
  lemma {:induction false} TimerSetForTheMoment(events: seq<Timed>, start: int)
    requires Clocked(events, start)
    ensures var (s, history) := Run(events); var w := WatchOf(history, start);
            && (s.timerAt.Some? <==> s.taskId.Some? && s.pending.None? && s.paused == 0)
            && (s.timerAt.Some? && w.elapsed < INTERVAL ==> Advanced(w, s.timerAt.value).elapsed == INTERVAL)
            && (s.timerAt.Some? && w.elapsed >= INTERVAL ==> s.timerAt.value <= w.upTo)
  {
    RunAgrees(events, start);
  }

  /** A pause, however long, leaves the time that was left: after it the prompt comes due exactly that
      much later, and at once if the time was over at the pause's second reading. */
  lemma {:induction false} PauseSuspends(events: seq<Timed>, start: int, from: Readings, to: Readings)
    requires Clocked(events, start) && Later(events, start, from) && to.Ordered() && from.arm <= to.check
    requires var s := Run(events).0; s.taskId.Some? && s.paused == 0 && Checked(s, from).pending.None?
    ensures var s := Run(events).0; var s' := Resumed(Paused(s, from), to);
            && s'.pending.None? && s'.paused == 0
            && s'.deadline == Max(s.deadline, from.third) + (to.arm - from.third)
  {
    RunAgrees(events, start);
  }

  // ----- the calls that wait at the boundary

  /** A call of `boundary`: waiting for a wake-up or woken, with the task it entered under, or at its
      end. */
  datatype Caller = Waiting(entered: Option<string>) | Resuming(entered: Option<string>)
                  | Passed | Refused | Aborted

  datatype Gate = Gate(state: State, callers: map<nat, Caller>)

  /** An event of the gate; a call that enters, one that goes on after its wake-up, both with the
      readings of its check, whether the gate is interactive then and whether its signal is aborted; or
      a waiting call whose signal is aborted. */
  datatype Action =
    | Happens(event: Event)
    | Enter(caller: nat, interactive: bool, aborted: bool)
    | GoOn(caller: nat, interactive: bool, aborted: bool)
    | Abort(caller: nat)

  /** A taken acknowledgement, a stop and the stop in a start wake all that wait. */
  predicate Wakes(s: State, event: Event, r: Readings) {
    event.Start? || event.Stop? || Takes(s, event, r)
  }

  function WokenAll(callers: map<nat, Caller>): map<nat, Caller> {
    map c | c in callers :: if callers[c].Waiting? then Resuming(callers[c].entered) else callers[c]
  }

  function CallerAfter(outcome: BoundaryOutcome, entered: Option<string>): Caller {
    match outcome
    case Passes => Passed
    case Refuses => Refused
    case Waits => Waiting(entered)
  }

  function Next(g: Gate, action: Action, r: Readings): Gate {
    match action
    case Happens(event) =>
      Gate(Step(g.state, event, r), if Wakes(g.state, event, r) then WokenAll(g.callers) else g.callers)
    case Enter(c, interactive, aborted) =>
      if c in g.callers then g
      else if aborted then g.(callers := g.callers[c := Aborted])
      else
        var (s, outcome) := Boundary(g.state, interactive, r);
        Gate(s, g.callers[c := CallerAfter(outcome, g.state.taskId)])
    case GoOn(c, interactive, aborted) =>
      if c !in g.callers || !g.callers[c].Resuming? then g
      else if aborted then g.(callers := g.callers[c := Aborted])
      else
        var (s, outcome) := Woken(g.state, g.callers[c].entered, interactive, r);
        Gate(s, g.callers[c := CallerAfter(outcome, g.callers[c].entered)])
    case Abort(c) =>
      if c !in g.callers || !g.callers[c].Waiting? then g else g.(callers := g.callers[c := Aborted])
  }

  function RunGate(actions: seq<(Action, Readings)>): Gate {
    if actions == [] then Gate(FRESH, map[])
    else
      var last := actions[|actions| - 1];
      Next(RunGate(actions[..|actions| - 1]), last.0, last.1)
  }

  /** A call waits only for a prompt of the task it entered under. */
  ghost predicate WaitsForPrompt(g: Gate) {
    forall c | c in g.callers && g.callers[c].Waiting? ::
      g.state.pending.Some? && g.state.taskId == g.callers[c].entered
  }

  lemma {:induction false} NextWaitsForPrompt(g: Gate, action: Action, r: Readings)
    requires WaitsForPrompt(g)
    ensures WaitsForPrompt(Next(g, action, r))
  {
    if action.Happens? && !Wakes(g.state, action.event, r) {
      var s := Step(g.state, action.event, r);
      assert g.state.pending.Some? ==> s.pending.Some? && s.taskId == g.state.taskId;
    }
  }

  /** No wake-up is ever missed: in every run, while no prompt is pending no call waits, and a call that
      waits does so under the task of the prompt. */
  lemma {:induction false} NobodyForgotten(actions: seq<(Action, Readings)>)
    ensures WaitsForPrompt(RunGate(actions))
  {
    if actions != [] {
      var front, last := actions[..|actions| - 1], actions[|actions| - 1];
      NobodyForgotten(front);
      NextWaitsForPrompt(RunGate(front), last.0, last.1);
    }
  }

  predicate ClockedActions(actions: seq<(Action, Readings)>, start: int) {
    && (forall i | 0 <= i < |actions| :: start <= actions[i].1.check && actions[i].1.Ordered())
    && (forall i, j | 0 <= i < j < |actions| :: actions[i].1.arm <= actions[j].1.check)
  }

  /** What an action is to the gate itself. */
  function EventOf(g: Gate, action: Action): Option<Event> {
    match action
    case Happens(event) => Some(event)
    case Enter(c, _, aborted) => if c in g.callers || aborted then None else Some(Check)
    case GoOn(c, _, aborted) =>
      if c !in g.callers || !g.callers[c].Resuming? || aborted || g.callers[c].entered != g.state.taskId then None
      else Some(Check)
    case Abort(_) => None
  }

  function EventsOf(actions: seq<(Action, Readings)>): seq<Timed> {
    if actions == [] then []
    else
      var front, last := actions[..|actions| - 1], actions[|actions| - 1];
      var event := EventOf(RunGate(front), last.0);
      EventsOf(front) + if event.Some? then [Timed(event.value, last.1)] else []
  }

  lemma {:induction false} StateAfter(g: Gate, action: Action, r: Readings)
    ensures var event := EventOf(g, action);
            Next(g, action, r).state == if event.Some? then Step(g.state, event.value, r) else g.state
  {
  }

  /** All readings lie between `start` and `end`. */
  predicate Within(events: seq<Timed>, start: int, end: int) {
    forall i | 0 <= i < |events| :: start <= events[i].at.check && events[i].at.arm <= end
  }

  lemma {:induction false} ClockedSnoc(events: seq<Timed>, last: Timed, start: int, end: int)
    requires Clocked(events, start) && Within(events, start, end) && last.at.Ordered()
    requires start <= last.at.check && end <= last.at.check
    ensures Clocked(events + [last], start) && Within(events + [last], start, last.at.arm)
  {
  }

  lemma {:induction false} RunSnoc(events: seq<Timed>, last: Timed)
    ensures Run(events + [last]).0 == Step(Run(events).0, last.event, last.at)
  {
    assert (events + [last])[..|events|] == events;
  }

  /** The gate behind the calls is the gate of their events. */
  lemma {:induction false} GateOfEvents(actions: seq<(Action, Readings)>, start: int)
    requires ClockedActions(actions, start)
    ensures RunGate(actions).state == Run(EventsOf(actions)).0 && Clocked(EventsOf(actions), start)
    ensures Within(EventsOf(actions), start, if actions == [] then start else actions[|actions| - 1].1.arm)
    decreases |actions|
  {
    if actions != [] {
      var front, last := actions[..|actions| - 1], actions[|actions| - 1];
      var event, events := EventOf(RunGate(front), last.0), EventsOf(front);
      var end := if front == [] then start else front[|front| - 1].1.arm;
      GateOfEvents(front, start);
      StateAfter(RunGate(front), last.0, last.1);
      assert end <= last.1.check <= last.1.arm;
      if event.Some? {
        ClockedSnoc(events, Timed(event.value, last.1), start, end);
        RunSnoc(events, Timed(event.value, last.1));
      } else {
        assert EventsOf(actions) == events;
      }
    }
  }

  /** When a prompt is due, told by the stopwatch over the events of all calls. */
  ghost predicate Due(actions: seq<(Action, Readings)>, start: int, at: int) {
    var w := Advanced(WatchOf(Run(EventsOf(actions)).1, start), at);
    w.running && w.elapsed >= INTERVAL && !Hidden(w)
  }

  /** After any run, a call that enters passes exactly when no prompt is due and its signal is not
      aborted; one that was woken passes exactly when besides the task is still the one it entered
      under; and it waits, again or for the first time, exactly when the prompt is due and can be
      shown. */
  lemma {:induction false} CallsPassExactly(actions: seq<(Action, Readings)>, start: int, r: Readings, c: nat,
                                            interactive: bool, aborted: bool)
    requires ClockedActions(actions, start) && r.Ordered() && start <= r.check
    requires actions != [] ==> actions[|actions| - 1].1.arm <= r.check
    ensures var g, due := RunGate(actions), Due(actions, start, r.check);
            && (c !in g.callers ==>
                  var after := Next(g, Enter(c, interactive, aborted), r).callers[c];
                  && (after == Passed <==> !aborted && !due)
                  && (after.Waiting? <==> !aborted && due && interactive))
            && (c in g.callers && g.callers[c].Resuming? ==>
                  var same := g.callers[c].entered == g.state.taskId;
                  var after := Next(g, GoOn(c, interactive, aborted), r).callers[c];
                  && (after == Passed <==> !aborted && same && !due)
                  && (after.Waiting? <==> !aborted && same && due && interactive))
  {
    GateOfEvents(actions, start);
    PendingExactly(EventsOf(actions), start, r);
  }
}
