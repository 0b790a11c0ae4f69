/** The bounded queue of read and write leases (src/main/runtime-scheduler.ts). */
module Scheduler {
  import opened Wrappers

  const MIN_RUNTIME_WORKERS: nat := 1
  const MAX_RUNTIME_WORKERS: nat := 4
  const MAX_QUEUED_RUNTIMES: nat := 32

  datatype Mode = Read | Write
  datatype Lease = Lease(id: string, workspace: string, gitCommonDirectory: Option<string>, mode: Mode)

  predicate SharesResource(left: Lease, right: Lease) {
    left.workspace == right.workspace
    || (left.gitCommonDirectory.Some? && left.gitCommonDirectory == right.gitCommonDirectory)
  }

  predicate LeasesConflict(left: Lease, right: Lease) {
    SharesResource(left, right) && (left.mode == Write || right.mode == Write)
  }

  /** Conflict is symmetric but not transitive. */
  lemma {:induction false} ConflictShape()
    ensures forall x, y :: LeasesConflict(x, y) == LeasesConflict(y, x)
    ensures exists x, y, z :: LeasesConflict(x, y) && LeasesConflict(y, z) && !LeasesConflict(x, z)
  {
    var x := Lease("x", "a", None, Read);
    var y := Lease("y", "a", Some("g"), Write);
    var z := Lease("z", "b", Some("g"), Read);
    assert LeasesConflict(x, y) && LeasesConflict(y, z) && !LeasesConflict(x, z);
  }

  /** The scheduler's state: `active` in the order the tasks were started. */
  datatype State = State(capacity: nat, active: seq<Lease>, queue: seq<Lease>)

  predicate Clashes(leases: seq<Lease>, task: Lease) {
    exists k | 0 <= k < |leases| :: LeasesConflict(leases[k], task)
  }

  predicate Holds(leases: seq<Lease>, id: string) {
    exists k | 0 <= k < |leases| :: leases[k].id == id
  }

  predicate Scheduled(s: State, id: string) {
    Holds(s.active, id) || Holds(s.queue, id)
  }

  // ----- drain as one forward pass

  /** One pass over the queue with `slots` free workers: the tasks it starts and the tasks it
      leaves. A task starts when it clashes with no active task and no task earlier in the queue,
      whether that one was started or not; `ahead` lists both. */
  function Pass(ahead: seq<Lease>, slots: nat, queue: seq<Lease>): (result: (seq<Lease>, seq<Lease>))
    decreases |queue|
  {
    if queue == [] then ([], [])
    else if slots > 0 && !Clashes(ahead, queue[0]) then
      var rest := Pass(ahead + [queue[0]], slots - 1, queue[1..]);
      ([queue[0]] + rest.0, rest.1)
    else
      var rest := Pass(ahead + [queue[0]], slots, queue[1..]);
      (rest.0, [queue[0]] + rest.1)
  }

  function Slots(s: State): nat {
    if |s.active| >= s.capacity then 0 else s.capacity - |s.active|
  }

  function Drained(s: State): State {
    var pass := Pass(s.active, Slots(s), s.queue);
    State(s.capacity, s.active + pass.0, pass.1)
  }

  predicate CanStart(s: State, index: nat)
    requires index < |s.queue|
  {
    |s.active| < s.capacity && !Clashes(s.active, s.queue[index]) && !Clashes(s.queue[..index], s.queue[index])
  }

  predicate SameClashes(left: seq<Lease>, right: seq<Lease>) {
    (forall k | 0 <= k < |left| :: left[k] in right) && (forall k | 0 <= k < |right| :: right[k] in left)
  }

  lemma {:induction false} SameClashesAgree(left: seq<Lease>, right: seq<Lease>, task: Lease)
    requires SameClashes(left, right)
    ensures Clashes(left, task) <==> Clashes(right, task)
  {
    if Clashes(left, task) {
      var k :| 0 <= k < |left| && LeasesConflict(left[k], task);
      var j :| 0 <= j < |right| && right[j] == left[k];
    }
    if Clashes(right, task) {
      var k :| 0 <= k < |right| && LeasesConflict(right[k], task);
      var j :| 0 <= j < |left| && left[j] == right[k];
    }
  }

  /** A pass depends on which tasks are ahead, not on their order. */
  lemma {:induction false} PassIgnoresOrder(left: seq<Lease>, right: seq<Lease>, slots: nat, queue: seq<Lease>)
    requires SameClashes(left, right)
    ensures Pass(left, slots, queue) == Pass(right, slots, queue)
    decreases |queue|
  {
    if queue != [] {
      SameClashesAgree(left, right, queue[0]);
      assert SameClashes(left + [queue[0]], right + [queue[0]]);
      if slots > 0 && !Clashes(left, queue[0]) {
        PassIgnoresOrder(left + [queue[0]], right + [queue[0]], slots - 1, queue[1..]);
      } else {
        PassIgnoresOrder(left + [queue[0]], right + [queue[0]], slots, queue[1..]);
      }
    }
  }

  lemma {:induction false} PassWithoutSlots(ahead: seq<Lease>, queue: seq<Lease>)
    ensures Pass(ahead, 0, queue) == ([], queue)
    decreases |queue|
  {
    if queue != [] {
      PassWithoutSlots(ahead + [queue[0]], queue[1..]);
      assert [queue[0]] + queue[1..] == queue;
    }
  }

  lemma {:induction false} PassOverOne(ahead: seq<Lease>, slots: nat, queue: seq<Lease>, n: nat)
    requires 0 < n <= |queue| && Clashes(ahead, queue[0])
    requires var tail, next := queue[1..], ahead + [queue[0]];
             var rest := Pass(next + tail[..n - 1], slots, tail[n - 1..]);
             Pass(next, slots, tail) == (rest.0, tail[..n - 1] + rest.1)
    ensures var rest := Pass(ahead + queue[..n], slots, queue[n..]);
            Pass(ahead, slots, queue) == (rest.0, queue[..n] + rest.1)
  {
    var tail := queue[1..];
    assert ahead + [queue[0]] + tail[..n - 1] == ahead + queue[..n];
    assert tail[n - 1..] == queue[n..];
    ConsPrefix(queue, n, Pass(ahead + queue[..n], slots, queue[n..]).1);
  }

  lemma {:induction false} ConsPrefix(queue: seq<Lease>, n: nat, rest: seq<Lease>)
    requires 0 < n <= |queue|
    ensures [queue[0]] + (queue[1..][..n - 1] + rest) == queue[..n] + rest
  {
    assert [queue[0]] + queue[1..][..n - 1] == queue[..n];
    assert [queue[0]] + (queue[1..][..n - 1] + rest) == [queue[0]] + queue[1..][..n - 1] + rest;
  }

  /** A pass leaves a prefix in which nothing can start, and goes on behind it. */
  lemma {:induction false} PassOverBlocked(ahead: seq<Lease>, slots: nat, queue: seq<Lease>, n: nat)
    requires n <= |queue|
    requires forall k | 0 <= k < n :: Clashes(ahead + queue[..k], queue[k])
    ensures var rest := Pass(ahead + queue[..n], slots, queue[n..]);
            Pass(ahead, slots, queue) == (rest.0, queue[..n] + rest.1)
    decreases |queue|
  {
    assert ahead + queue[..0] == ahead;
    if n == 0 {
      assert queue[0..] == queue;
      assert queue[..0] + Pass(ahead, slots, queue).1 == Pass(ahead, slots, queue).1;
    } else {
      var tail := queue[1..];
      forall k | 0 <= k < n - 1
        ensures Clashes(ahead + [queue[0]] + tail[..k], tail[k])
      {
        assert ahead + [queue[0]] + tail[..k] == ahead + queue[..k + 1];
      }
      PassOverBlocked(ahead + [queue[0]], slots, tail, n - 1);
      assert Clashes(ahead, queue[0]);
      PassOverOne(ahead, slots, queue, n);
    }
  }

  lemma {:induction false} ClashesSplit(left: seq<Lease>, right: seq<Lease>, task: Lease)
    ensures Clashes(left + right, task) <==> Clashes(left, task) || Clashes(right, task)
  {
    var both := left + right;
    if Clashes(left, task) {
      var k :| 0 <= k < |left| && LeasesConflict(left[k], task);
      assert both[k] == left[k];
    }
    if Clashes(right, task) {
      var k :| 0 <= k < |right| && LeasesConflict(right[k], task);
      assert both[|left| + k] == right[k];
    }
  }

  lemma {:induction false} BlockedPrefix(s: State, n: nat)
    requires n <= |s.queue| && |s.active| < s.capacity
    requires forall k | 0 <= k < n :: !CanStart(s, k)
    ensures forall k | 0 <= k < n :: Clashes(s.active + s.queue[..k], s.queue[k])
  {
    forall k | 0 <= k < n
      ensures Clashes(s.active + s.queue[..k], s.queue[k])
    {
      assert !CanStart(s, k);
      ClashesSplit(s.active, s.queue[..k], s.queue[k]);
    }
  }

  lemma {:induction false} ClashesBehindMore(active: seq<Lease>, task: Lease, ahead: seq<Lease>, lease: Lease)
    requires Clashes(active + ahead, lease)
    ensures Clashes(active + [task] + ahead, lease)
  {
    ClashesSplit(active, ahead, lease);
    ClashesSplit(active + [task], ahead, lease);
    ClashesSplit(active, [task], lease);
  }

  /** Draining passes over the tasks before the first that can start, and starts it. */
  lemma {:induction false} DrainReaches(s: State, index: nat)
    requires index < |s.queue| && CanStart(s, index)
    requires forall k | 0 <= k < index :: !CanStart(s, k)
    ensures var task, before, after := s.queue[index], s.queue[..index], s.queue[index + 1..];
            var rest := Pass(s.active + before + [task], Slots(s) - 1, after);
            Drained(s) == State(s.capacity, s.active + ([task] + rest.0), before + rest.1)
  {
    var task := s.queue[index];
    BlockedPrefix(s, index);
    PassOverBlocked(s.active, Slots(s), s.queue, index);
    ClashesSplit(s.active, s.queue[..index], task);
    assert s.queue[index..][0] == task && s.queue[index..][1..] == s.queue[index + 1..];
  }

  /** Once it is started, draining passes over the same tasks. */
  lemma {:induction false} DrainGoesOn(s: State, index: nat)
    requires index < |s.queue| && CanStart(s, index)
    requires forall k | 0 <= k < index :: !CanStart(s, k)
    ensures var task, before, after := s.queue[index], s.queue[..index], s.queue[index + 1..];
            var rest := Pass(s.active + [task] + before, Slots(s) - 1, after);
            Drained(State(s.capacity, s.active + [task], before + after))
            == State(s.capacity, s.active + [task] + rest.0, before + rest.1)
  {
    var task, before, after := s.queue[index], s.queue[..index], s.queue[index + 1..];
    var left := before + after;
    BlockedPrefix(s, index);
    forall k | 0 <= k < index
      ensures Clashes(s.active + [task] + left[..k], left[k])
    {
      assert left[..k] == s.queue[..k] && left[k] == s.queue[k];
      ClashesBehindMore(s.active, task, s.queue[..k], left[k]);
    }
    PassOverBlocked(s.active + [task], Slots(s) - 1, left, index);
    assert left[..index] == before && left[index..] == after;
  }

  /** Starting the first task that can start, and draining what is left, is draining. */
  lemma {:induction false} DrainAfterStart(s: State, index: nat)
    requires index < |s.queue| && CanStart(s, index)
    requires forall k | 0 <= k < index :: !CanStart(s, k)
    ensures Drained(State(s.capacity, s.active + [s.queue[index]], s.queue[..index] + s.queue[index + 1..]))
         == Drained(s)
  {
    var task, before, after := s.queue[index], s.queue[..index], s.queue[index + 1..];
    var first, second := s.active + before + [task], s.active + [task] + before;
    DrainReaches(s, index);
    DrainGoesOn(s, index);
    assert SameClashes(first, second);
    PassIgnoresOrder(first, second, Slots(s) - 1, after);
    var started := Pass(first, Slots(s) - 1, after).0;
    assert s.active + [task] + started == s.active + ([task] + started);
  }

  /** Draining changes nothing when no queued task can start. */
  lemma {:induction false} DrainedAlready(s: State)
    requires |s.active| >= s.capacity || forall k | 0 <= k < |s.queue| :: !CanStart(s, k)
    ensures Drained(s) == s
  {
    if |s.active| >= s.capacity {
      PassWithoutSlots(s.active, s.queue);
    } else {
      BlockedPrefix(s, |s.queue|);
      PassOverBlocked(s.active, Slots(s), s.queue, |s.queue|);
      assert s.queue[|s.queue|..] == [] && s.queue[..|s.queue|] + [] == s.queue;
    }
    assert s.active + [] == s.active;
  }

  // ----- what one pass starts and leaves

  /** The tasks that clash with nothing ahead of them, in queue order. */
  function Ready(ahead: seq<Lease>, queue: seq<Lease>): seq<Lease>
    decreases |queue|
  {
    if queue == [] then []
    else (if Clashes(ahead, queue[0]) then [] else [queue[0]]) + Ready(ahead + [queue[0]], queue[1..])
  }

  function Min(x: nat, y: nat): nat {
    if x <= y then x else y
  }

  /** A pass starts exactly the first ready tasks, as many as there are slots. */
  lemma {:induction false} PassStartsFirstReady(ahead: seq<Lease>, slots: nat, queue: seq<Lease>)
    ensures Pass(ahead, slots, queue).0 == Ready(ahead, queue)[..Min(slots, |Ready(ahead, queue)|)]
    decreases |queue|
  {
    if queue != [] {
      var next := ahead + [queue[0]];
      if Clashes(ahead, queue[0]) {
        PassStartsFirstReady(next, slots, queue[1..]);
      } else if slots > 0 {
        PassStartsFirstReady(next, slots - 1, queue[1..]);
      } else {
        PassStartsFirstReady(next, 0, queue[1..]);
      }
    }
  }

  predicate Before(queue: seq<Lease>, x: Lease, y: Lease) {
    exists i, j | 0 <= i < j < |queue| :: queue[i] == x && queue[j] == y
  }

  lemma {:induction false} PassCounts(ahead: seq<Lease>, slots: nat, queue: seq<Lease>)
    ensures var pass := Pass(ahead, slots, queue);
            |pass.0| <= slots && multiset(pass.0) + multiset(pass.1) == multiset(queue)
    decreases |queue|
  {
    if queue != [] {
      assert queue == [queue[0]] + queue[1..];
      if slots > 0 && !Clashes(ahead, queue[0]) {
        PassCounts(ahead + [queue[0]], slots - 1, queue[1..]);
      } else {
        PassCounts(ahead + [queue[0]], slots, queue[1..]);
      }
    }
  }

  /** A started task sits in the queue at a place where nothing ahead of it clashes. */
  lemma {:induction false} StartedWasReady(ahead: seq<Lease>, slots: nat, queue: seq<Lease>, x: Lease) returns (i: nat)
    requires x in Pass(ahead, slots, queue).0
    ensures i < |queue| && queue[i] == x && !Clashes(ahead, x) && !Clashes(queue[..i], x)
    decreases |queue|
  {
    if slots > 0 && !Clashes(ahead, queue[0]) && x == queue[0] {
      i := 0;
    } else {
      var less := if slots > 0 && !Clashes(ahead, queue[0]) then slots - 1 else slots;
      i := StartedWasReady(ahead + [queue[0]], less, queue[1..], x);
      ClashesSplit(ahead, [queue[0]], x);
      ClashesSplit([queue[0]], queue[1..][..i], x);
      assert [queue[0]] + queue[1..][..i] == queue[..i + 1];
      i := i + 1;
    }
  }

  lemma {:induction false} LeftInOrder(ahead: seq<Lease>, slots: nat, queue: seq<Lease>, x: Lease, y: Lease)
    requires Before(Pass(ahead, slots, queue).1, x, y)
    ensures Before(queue, x, y)
    decreases |queue|
  {
    var left := Pass(ahead, slots, queue).1;
    var i, j :| 0 <= i < j < |left| && left[i] == x && left[j] == y;
    var starts := slots > 0 && !Clashes(ahead, queue[0]);
    var less := if starts then slots - 1 else slots;
    var rest := Pass(ahead + [queue[0]], less, queue[1..]).1;
    if !starts && i == 0 {
      PassCounts(ahead + [queue[0]], less, queue[1..]);
      assert rest[j - 1] == y && y in multiset(rest) && y in multiset(queue[1..]);
      var k :| 0 <= k < |queue[1..]| && queue[1..][k] == y;
      assert queue[0] == x && queue[k + 1] == y;
    } else {
      if starts {
        assert rest[i] == x && rest[j] == y;
      } else {
        assert rest[i - 1] == x && rest[j - 1] == y;
      }
      LeftInOrder(ahead + [queue[0]], less, queue[1..], x, y);
      var k, l :| 0 <= k < l < |queue[1..]| && queue[1..][k] == x && queue[1..][l] == y;
      assert queue[k + 1] == x && queue[l + 1] == y;
    }
  }

  // ----- invariants

  ghost predicate Unique(leases: seq<Lease>) {
    forall i, j | 0 <= i < j < |leases| :: leases[i].id != leases[j].id
  }

  ghost predicate Compatible(leases: seq<Lease>) {
    forall i, j | 0 <= i < j < |leases| :: !LeasesConflict(leases[i], leases[j])
  }

  /** No queued task can start: every worker is busy, or each queued task clashes with an active
      task or with one queued before it. */
  predicate Settled(s: State) {
    |s.active| >= s.capacity || forall k | 0 <= k < |s.queue| :: !CanStart(s, k)
  }

  ghost predicate Loaded(s: State) {
    && MIN_RUNTIME_WORKERS <= s.capacity <= MAX_RUNTIME_WORKERS
    && |s.active| <= s.capacity
    && |s.queue| <= MAX_QUEUED_RUNTIMES
    && Unique(s.active + s.queue)
    && Compatible(s.active)
  }

  ghost predicate Valid(s: State) {
    Loaded(s) && Settled(s)
  }

  lemma {:induction false} MultisetUnique(left: seq<Lease>, right: seq<Lease>)
    requires multiset(left) == multiset(right) && Unique(left)
    ensures Unique(right)
  {
    forall i, j | 0 <= i < j < |right|
      ensures right[i].id != right[j].id
    {
      if right[i].id == right[j].id {
        assert right[i] in multiset(right) && right[j] in multiset(right);
        var a :| 0 <= a < |left| && left[a] == right[i];
        var b :| 0 <= b < |left| && left[b] == right[j];
        assert a == b;
        TwoCopies(right, i, j);
        OneCopy(left, a);
        assert false;
      }
    }
  }

  lemma {:induction false} TwoCopies(leases: seq<Lease>, i: nat, j: nat)
    requires i < j < |leases| && leases[i] == leases[j]
    ensures multiset(leases)[leases[i]] >= 2
  {
    assert leases == leases[..i] + [leases[i]] + leases[i + 1..];
    assert leases[j] in leases[i + 1..] by {
      assert leases[i + 1..][j - i - 1] == leases[j];
    }
  }

  lemma {:induction false} OneCopy(leases: seq<Lease>, i: nat)
    requires i < |leases| && Unique(leases)
    ensures multiset(leases)[leases[i]] == 1
  {
    assert leases == leases[..i] + [leases[i]] + leases[i + 1..];
    assert leases[i] !in leases[..i] && leases[i] !in leases[i + 1..];
  }

  lemma {:induction false} StartedCompatible(ahead: seq<Lease>, slots: nat, queue: seq<Lease>)
    ensures Compatible(Pass(ahead, slots, queue).0)
    ensures forall k | 0 <= k < |Pass(ahead, slots, queue).0| :: !Clashes(ahead, Pass(ahead, slots, queue).0[k])
    decreases |queue|
  {
    if queue != [] {
      var starts := slots > 0 && !Clashes(ahead, queue[0]);
      var less := if starts then slots - 1 else slots;
      var rest := Pass(ahead + [queue[0]], less, queue[1..]).0;
      StartedCompatible(ahead + [queue[0]], less, queue[1..]);
      forall k | 0 <= k < |rest|
        ensures !Clashes(ahead, rest[k]) && !LeasesConflict(queue[0], rest[k])
      {
        ClashesSplit(ahead, [queue[0]], rest[k]);
        assert !Clashes([queue[0]], rest[k]);
        assert [queue[0]][0] == queue[0];
      }
    }
  }

  /** After a pass that had slots to spare, each task left clashes with one ahead of it in the
      queue that was left too, with one that was started, or with one that was active. */
  lemma {:induction false} LeftBlocked(active: seq<Lease>, passed: seq<Lease>, started: seq<Lease>,
                                       waiting: seq<Lease>, slots: nat, queue: seq<Lease>, k: nat)
    requires forall x | x in passed :: x in started || x in waiting
    requires var pass := Pass(active + passed, slots, queue); |pass.0| < slots && k < |pass.1|
    ensures var pass := Pass(active + passed, slots, queue);
            Clashes(active + started + pass.0 + waiting + pass.1[..k], pass.1[k])
    decreases |queue|
  {
    var pass := Pass(active + passed, slots, queue);
    var head := queue[0];
    var starts := slots > 0 && !Clashes(active + passed, head);
    var next := passed + [head];
    assert active + passed + [head] == active + next;
    if starts {
      var rest := Pass(active + next, slots - 1, queue[1..]);
      LeftBlocked(active, next, started + [head], waiting, slots - 1, queue[1..], k);
      assert active + (started + [head]) + rest.0 + waiting + rest.1[..k]
          == active + started + pass.0 + waiting + pass.1[..k];
    } else {
      var rest := Pass(active + next, slots, queue[1..]);
      if k == 0 {
        var a :| 0 <= a < |active + passed| && LeasesConflict((active + passed)[a], head);
        var all := active + started + pass.0 + waiting + pass.1[..k];
        assert (active + passed)[a] in all;
        var b :| 0 <= b < |all| && all[b] == (active + passed)[a];
      } else {
        LeftBlocked(active, next, started, waiting + [head], slots, queue[1..], k - 1);
        assert active + started + rest.0 + (waiting + [head]) + rest.1[..k - 1]
            == active + started + pass.0 + waiting + pass.1[..k];
      }
    }
  }

  lemma {:induction false} DrainedSettles(s: State)
    ensures Settled(Drained(s))
  {
    var after := Drained(s);
    var pass := Pass(s.active, Slots(s), s.queue);
    PassCounts(s.active, Slots(s), s.queue);
    if |after.active| < after.capacity {
      forall k | 0 <= k < |after.queue|
        ensures !CanStart(after, k)
      {
        assert s.active + [] == s.active;
        LeftBlocked(s.active, [], [], [], Slots(s), s.queue, k);
        assert s.active + [] + pass.0 + [] + pass.1[..k] == after.active + after.queue[..k];
        ClashesSplit(after.active, after.queue[..k], after.queue[k]);
      }
    }
  }

  lemma {:induction false} DrainKeepsLoaded(s: State)
    requires Loaded(s)
    ensures Valid(Drained(s))
  {
    var after := Drained(s);
    var pass := Pass(s.active, Slots(s), s.queue);
    PassCounts(s.active, Slots(s), s.queue);
    assert |multiset(pass.1)| <= |multiset(s.queue)|;
    assert multiset(after.active + after.queue) == multiset(s.active + s.queue);
    MultisetUnique(s.active + s.queue, after.active + after.queue);
    StartedCompatible(s.active, Slots(s), s.queue);
    forall i, j | 0 <= i < j < |after.active|
      ensures !LeasesConflict(after.active[i], after.active[j])
    {
      if i < |s.active| <= j {
        assert !Clashes(s.active, pass.0[j - |s.active|]);
      }
    }
    DrainedSettles(s);
  }

  // ----- the operations

  datatype Op = Enqueue(task: Lease) | Cancel(id: string) | Release(id: string) | StartFailed(id: string)

  function IndexOf(leases: seq<Lease>, id: string): (index: nat)
    ensures index <= |leases|
    ensures index < |leases| ==> leases[index].id == id
    ensures forall k | 0 <= k < index :: leases[k].id != id
  {
    if leases == [] || leases[0].id == id then 0 else IndexOf(leases[1..], id) + 1
  }

  function Without(leases: seq<Lease>, id: string): seq<Lease> {
    var index := IndexOf(leases, id);
    if index < |leases| then leases[..index] + leases[index + 1..] else leases
  }

  /** The state right after an operation's own change, before the drain that follows it. */
  function Changed(s: State, op: Op): State {
    match op
    case Enqueue(task) => s.(queue := s.queue + [task])
    case Cancel(id) => s.(queue := Without(s.queue, id))
    case Release(id) => s.(active := Without(s.active, id))
    case StartFailed(id) => s.(active := Without(s.active, id))
  }

  predicate Accepted(s: State, op: Op) {
    match op
    case Enqueue(task) => !Scheduled(s, task.id) && |s.queue| < MAX_QUEUED_RUNTIMES
    case Cancel(id) => Holds(s.queue, id)
    case Release(id) => Holds(s.active, id)
    case StartFailed(id) => Holds(s.active, id)
  }

  function Step(s: State, op: Op): State {
    if Accepted(s, op) then Drained(Changed(s, op)) else s
  }

  function Run(s: State, ops: seq<Op>): State
    decreases |ops|
  {
    if ops == [] then s else Run(Step(s, ops[0]), ops[1..])
  }

  function Initial(capacity: nat): State {
    State(capacity, [], [])
  }

  lemma {:induction false} EnqueueKeepsLoaded(s: State, task: Lease)
    requires Loaded(s) && Accepted(s, Enqueue(task))
    ensures Loaded(Changed(s, Enqueue(task)))
  {
    UniqueWith(s.active, s.queue, task);
  }

  lemma {:induction false} QueueRemovalKeepsLoaded(s: State, id: string)
    requires Loaded(s)
    ensures Loaded(s.(queue := Without(s.queue, id)))
  {
    UniqueWithout(s.active, s.queue, id);
  }

  lemma {:induction false} ActiveRemovalKeepsLoaded(s: State, id: string)
    requires Loaded(s)
    ensures Loaded(s.(active := Without(s.active, id)))
  {
    UniqueWithout(s.active, s.queue, id);
  }

  lemma {:induction false} ChangeKeepsLoaded(s: State, op: Op)
    requires Loaded(s) && Accepted(s, op)
    ensures Loaded(Changed(s, op))
  {
    match op
    case Enqueue(task) => EnqueueKeepsLoaded(s, task);
    case Cancel(id) => QueueRemovalKeepsLoaded(s, id);
    case Release(id) => ActiveRemovalKeepsLoaded(s, id);
    case StartFailed(id) => ActiveRemovalKeepsLoaded(s, id);
  }

  lemma {:induction false} UniqueWith(active: seq<Lease>, queue: seq<Lease>, task: Lease)
    requires Unique(active + queue) && !Holds(active, task.id) && !Holds(queue, task.id)
    ensures Unique(active + (queue + [task]))
  {
    assert active + (queue + [task]) == active + queue + [task];
  }

  lemma {:induction false} UniqueWithout(active: seq<Lease>, queue: seq<Lease>, id: string)
    requires Unique(active + queue)
    ensures Unique(Without(active, id) + queue) && Unique(active + Without(queue, id))
  {
    ActiveWithoutUnique(active, queue, id);
    QueueWithoutUnique(active, queue, id);
  }

  function Skipping(i: nat, k: nat): nat {
    if i < k then i else i + 1
  }

  lemma {:induction false} CutAt(leases: seq<Lease>, k: nat, i: nat)
    requires k < |leases| && i < |leases| - 1
    ensures (leases[..k] + leases[k + 1..])[i] == leases[Skipping(i, k)]
  {
  }

  lemma {:induction false} CutLeftAt(left: seq<Lease>, right: seq<Lease>, k: nat, i: nat)
    requires k < |left| && i < |left| + |right| - 1
    ensures (left[..k] + left[k + 1..] + right)[i] == (left + right)[Skipping(i, k)]
  {
    if i < |left| - 1 {
      CutAt(left, k, i);
    }
  }

  lemma {:induction false} CutRightAt(left: seq<Lease>, right: seq<Lease>, k: nat, i: nat)
    requires k < |right| && i < |left| + |right| - 1
    ensures (left + (right[..k] + right[k + 1..]))[i] == (left + right)[Skipping(i, |left| + k)]
  {
    if i >= |left| {
      CutAt(right, k, i - |left|);
    }
  }

  lemma {:induction false} ActiveWithoutUnique(active: seq<Lease>, queue: seq<Lease>, id: string)
    requires Unique(active + queue)
    ensures Unique(Without(active, id) + queue)
  {
    var k, left := IndexOf(active, id), Without(active, id) + queue;
    if k < |active| {
      forall i | 0 <= i < |left|
        ensures left[i] == (active + queue)[Skipping(i, k)]
      {
        CutLeftAt(active, queue, k, i);
      }
      SkippedUnique(active + queue, left, k);
    }
  }

  lemma {:induction false} QueueWithoutUnique(active: seq<Lease>, queue: seq<Lease>, id: string)
    requires Unique(active + queue)
    ensures Unique(active + Without(queue, id))
  {
    var k, left := IndexOf(queue, id), active + Without(queue, id);
    if k < |queue| {
      forall i | 0 <= i < |left|
        ensures left[i] == (active + queue)[Skipping(i, |active| + k)]
      {
        CutRightAt(active, queue, k, i);
      }
      SkippedUnique(active + queue, left, |active| + k);
    }
  }

  lemma {:induction false} SkippedUnique(all: seq<Lease>, left: seq<Lease>, k: nat)
    requires k < |all| && Unique(all) && |left| == |all| - 1
    requires forall i | 0 <= i < |left| :: left[i] == all[Skipping(i, k)]
    ensures Unique(left)
  {
    forall i, j | 0 <= i < j < |left|
      ensures left[i].id != left[j].id
    {
      assert left[i] == all[Skipping(i, k)] && left[j] == all[Skipping(j, k)];
    }
  }

  /** Every operation keeps the invariant: active leases pairwise compatible and within capacity,
      a bounded queue, one entry a task, and nothing startable left waiting. */
  lemma {:induction false} StepKeepsValid(s: State, op: Op)
    requires Valid(s)
    ensures Valid(Step(s, op))
  {
    if Accepted(s, op) {
      ChangeKeepsLoaded(s, op);
      DrainKeepsLoaded(Changed(s, op));
    }
  }

  lemma {:induction false} RunKeepsValid(s: State, ops: seq<Op>)
    requires Valid(s)
    ensures Valid(Run(s, ops))
    decreases |ops|
  {
    if ops != [] {
      StepKeepsValid(s, ops[0]);
      RunKeepsValid(Step(s, ops[0]), ops[1..]);
    }
  }

  // ----- what a step leaves alone

  /** An active task stays active through every operation that does not name it. */
  lemma {:induction false} ActiveStays(s: State, op: Op, x: Lease)
    requires x in s.active
    requires op.Release? || op.StartFailed? ==> op.id != x.id
    ensures x in Step(s, op).active
  {
    var changed := Changed(s, op);
    var k :| 0 <= k < |s.active| && s.active[k] == x;
    if op.Release? || op.StartFailed? {
      var index := IndexOf(s.active, op.id);
      assert index < |s.active| ==> changed.active[if k < index then k else k - 1] == x;
    }
    assert x in changed.active;
  }

  predicate Has(s: State, x: Lease) {
    x in s.active || x in s.queue
  }

  /** Draining moves tasks, and neither adds nor loses one. */
  lemma {:induction false} DrainKeepsTasks(s: State, x: Lease)
    ensures Has(Drained(s), x) <==> Has(s, x)
  {
    var pass := Pass(s.active, Slots(s), s.queue);
    PassCounts(s.active, Slots(s), s.queue);
    assert x in s.queue <==> x in multiset(s.queue);
    assert x in pass.0 <==> x in multiset(pass.0);
    assert x in pass.1 <==> x in multiset(pass.1);
  }

  lemma {:induction false} ScheduledMember(s: State, id: string) returns (x: Lease)
    requires Scheduled(s, id)
    ensures Has(s, x) && x.id == id
  {
    if Holds(s.active, id) {
      var k :| 0 <= k < |s.active| && s.active[k].id == id;
      x := s.active[k];
    } else {
      var k :| 0 <= k < |s.queue| && s.queue[k].id == id;
      x := s.queue[k];
    }
  }

  lemma {:induction false} MemberScheduled(s: State, x: Lease)
    requires Has(s, x)
    ensures Scheduled(s, x.id)
  {
    if x in s.active {
      var k :| 0 <= k < |s.active| && s.active[k] == x;
    } else {
      var k :| 0 <= k < |s.queue| && s.queue[k] == x;
    }
  }

  /** Only tasks that were there, or the one just enqueued, are there after a step. */
  lemma {:induction false} NothingFromNowhere(s: State, op: Op, id: string)
    requires Scheduled(Step(s, op), id)
    ensures Scheduled(s, id) || (op.Enqueue? && op.task.id == id)
  {
    var x := ScheduledMember(Step(s, op), id);
    if Accepted(s, op) {
      DrainKeepsTasks(Changed(s, op), x);
      assert Has(s, x) || (op.Enqueue? && op.task == x);
    }
    if Has(s, x) {
      MemberScheduled(s, x);
    }
  }

  /** A task taken out of the active set is nowhere in the state that follows. */
  lemma {:induction false} GoneAfterRemoval(s: State, op: Op)
    requires Valid(s) && (op.Release? || op.StartFailed?)
    ensures !Holds(Step(s, op).active, op.id)
    ensures Holds(s.active, op.id) ==> !Scheduled(Step(s, op), op.id)
  {
    if Holds(s.active, op.id) && Scheduled(Step(s, op), op.id) {
      var x := ScheduledMember(Step(s, op), op.id);
      DrainKeepsTasks(Changed(s, op), x);
      RemovedNowhere(s, op, x);
    }
  }

  lemma {:induction false} RemovedNowhere(s: State, op: Op, x: Lease)
    requires Unique(s.active + s.queue) && (op.Release? || op.StartFailed?)
    requires Holds(s.active, op.id) && Has(Changed(s, op), x)
    ensures x.id != op.id
  {
    var all := s.active + s.queue;
    var index := IndexOf(s.active, op.id);
    var k :| 0 <= k < |all| && k != index && all[k] == x by {
      if x in Changed(s, op).active {
        var j :| 0 <= j < |Changed(s, op).active| && Changed(s, op).active[j] == x;
        assert all[if j < index then j else j + 1] == x;
      } else {
        var j :| 0 <= j < |s.queue| && s.queue[j] == x;
        assert all[|s.active| + j] == x;
      }
    }
    assert all[index].id == op.id;
  }

  // ----- who waits for whom

  /** `x` blocks the queued task `y`: it conflicts with `y` and is active or queued before it. */
  predicate Blocks(s: State, x: Lease, y: Lease) {
    LeasesConflict(x, y) && ((x in s.active && y in s.queue) || Before(s.queue, x, y))
  }

  lemma {:induction false} StartedNotLeft(s: State, x: Lease)
    requires Loaded(s)
    ensures var pass := Pass(s.active, Slots(s), s.queue); x !in pass.0 || x !in pass.1
  {
    var pass := Pass(s.active, Slots(s), s.queue);
    PassCounts(s.active, Slots(s), s.queue);
    if x in s.queue {
      var i :| 0 <= i < |s.queue| && s.queue[i] == x;
      assert (s.active + s.queue)[|s.active|..] == s.queue;
      OneCopy(s.queue, i);
      assert multiset(pass.0)[x] + multiset(pass.1)[x] == 1;
    } else {
      assert multiset(pass.0)[x] + multiset(pass.1)[x] == 0;
    }
  }

  lemma {:induction false} DrainBlocksNoMore(s: State, x: Lease, y: Lease)
    requires Loaded(s) && Blocks(Drained(s), x, y)
    ensures Blocks(s, x, y)
  {
    var slots := Slots(s);
    var pass := Pass(s.active, slots, s.queue);
    PassCounts(s.active, slots, s.queue);
    assert y in pass.1 ==> y in multiset(pass.1) && y in multiset(s.queue);
    if Before(pass.1, x, y) {
      LeftInOrder(s.active, slots, s.queue, x, y);
    } else if x in pass.0 {
      StartedNotLeft(s, x);
      var i := StartedWasReady(s.active, slots, s.queue, x);
      var j :| 0 <= j < |s.queue| && s.queue[j] == y;
      assert j >= i by {
        assert j < i ==> s.queue[..i][j] == y && LeasesConflict(y, x);
      }
    }
  }

  lemma {:induction false} ChangeKeepsOrder(s: State, op: Op, x: Lease, y: Lease)
    requires Accepted(s, op) && y in s.queue && Before(Changed(s, op).queue, x, y)
    ensures Before(s.queue, x, y)
  {
    var queue := Changed(s, op).queue;
    var i, j :| 0 <= i < j < |queue| && queue[i] == x && queue[j] == y;
    if op.Enqueue? {
      var k :| 0 <= k < |s.queue| && s.queue[k] == y;
      assert y.id != op.task.id;
      assert s.queue[i] == x && s.queue[j] == y;
    } else if op.Cancel? {
      var c := IndexOf(s.queue, op.id);
      assert s.queue[Skipping(i, c)] == x && s.queue[Skipping(j, c)] == y;
    }
  }

  /** The set of tasks that block a queued task never gains a member, whatever happens. */
  lemma {:induction false} StepBlocksNoMore(s: State, op: Op, x: Lease, y: Lease)
    requires Valid(s) && y in s.queue && Blocks(Step(s, op), x, y)
    ensures Blocks(s, x, y)
  {
    if Accepted(s, op) {
      ChangeKeepsLoaded(s, op);
      DrainBlocksNoMore(Changed(s, op), x, y);
      if Before(Changed(s, op).queue, x, y) {
        ChangeKeepsOrder(s, op, x, y);
      }
    }
  }

  /** `y` has not overtaken `x`: it is not active, and not queued before `x`. */
  predicate Behind(s: State, x: Lease, y: Lease) {
    y !in s.active && !Before(s.queue, y, x)
  }

  lemma {:induction false} NotStartedBehind(s: State, x: Lease, y: Lease)
    requires LeasesConflict(x, y) && x != y && x in s.queue && !Before(s.queue, y, x)
    ensures y !in Pass(s.active, Slots(s), s.queue).0
  {
    if y in Pass(s.active, Slots(s), s.queue).0 {
      var i :| 0 <= i < |s.queue| && s.queue[i] == x;
      var j := StartedWasReady(s.active, Slots(s), s.queue, y);
      assert false;
    }
  }

  lemma {:induction false} StepKeepsBehind(s: State, op: Op, x: Lease, y: Lease)
    requires Valid(s) && LeasesConflict(x, y) && x != y && Behind(s, x, y)
    requires x in s.queue && x in Step(s, op).queue
    ensures Behind(Step(s, op), x, y)
  {
    if Accepted(s, op) {
      ChangeKeepsLoaded(s, op);
      var changed := Changed(s, op);
      var pass := Pass(changed.active, Slots(changed), changed.queue);
      if Before(changed.queue, y, x) {
        ChangeKeepsOrder(s, op, y, x);
      }
      PassCounts(changed.active, Slots(changed), changed.queue);
      assert x in multiset(pass.1) && x in multiset(changed.queue);
      NotStartedBehind(changed, x, y);
      if Before(pass.1, y, x) {
        LeftInOrder(changed.active, Slots(changed), changed.queue, y, x);
      }
    }
  }

  ghost predicate QueuedThroughout(s: State, ops: seq<Op>, x: Lease)
    decreases |ops|
  {
    x in s.queue && (ops == [] || QueuedThroughout(Step(s, ops[0]), ops[1..], x))
  }

  /** Conflicting tasks start in arrival order: over every run in which `x` stays queued, no
      conflicting task that was not ahead of it when the run began gets started. */
  lemma {:induction false} ArrivalOrder(s: State, ops: seq<Op>, x: Lease, y: Lease)
    requires Valid(s) && LeasesConflict(x, y) && x != y && Behind(s, x, y)
    requires QueuedThroughout(s, ops, x)
    ensures Behind(Run(s, ops), x, y)
    decreases |ops|
  {
    if ops != [] {
      assert QueuedThroughout(Step(s, ops[0]), ops[1..], x);
      StepKeepsBehind(s, ops[0], x, y);
      StepKeepsValid(s, ops[0]);
      ArrivalOrder(Step(s, ops[0]), ops[1..], x, y);
    }
  }

  /** The head of the queue starts as soon as a release leaves no active task it clashes with. */
  lemma {:induction false} HeadStarts(s: State, id: string)
    requires Valid(s) && s.queue != [] && Holds(s.active, id)
    requires !Clashes(Without(s.active, id), s.queue[0])
    ensures s.queue[0] in Step(s, Release(id)).active
  {
    var changed := Changed(s, Release(id));
    assert changed.queue[0] == s.queue[0];
    assert Pass(changed.active, Slots(changed), changed.queue).0[0] == s.queue[0];
    var after := Step(s, Release(id)).active;
    assert after[|changed.active|] == s.queue[0];
  }

  /** Whoever waits has a reason: all workers are busy, or some task blocks it. */
  lemma {:induction false} WaitingHasReason(s: State, y: Lease)
    requires Valid(s) && y in s.queue
    ensures |s.active| == s.capacity || exists x :: Blocks(s, x, y)
  {
    var j :| 0 <= j < |s.queue| && s.queue[j] == y;
    if |s.active| < s.capacity {
      assert !CanStart(s, j);
      if Clashes(s.active, y) {
        var k :| 0 <= k < |s.active| && LeasesConflict(s.active[k], y);
        assert Blocks(s, s.active[k], y);
      } else {
        var k :| 0 <= k < j && LeasesConflict(s.queue[..j][k], y);
        assert Blocks(s, s.queue[k], y);
      }
    }
  }

  lemma {:induction false} EnqueuedEndsUp(s: State, task: Lease)
    requires Loaded(s) && task in s.queue
    ensures Holds(Drained(s).active, task.id) ==> task in Drained(s).active
    ensures !Holds(Drained(s).active, task.id) ==> task in Drained(s).queue
  {
    var after := Drained(s);
    DrainKeepsLoaded(s);
    DrainKeepsTasks(s, task);
    if task in after.queue {
      var k :| 0 <= k < |after.queue| && after.queue[k] == task;
      assert (after.active + after.queue)[|after.active| + k] == task;
      assert forall j | 0 <= j < |after.active| :: (after.active + after.queue)[j] == after.active[j];
    }
  }

  // ----- small states

  lemma {:induction false} PassOne(ahead: seq<Lease>, slots: nat, x: Lease)
    ensures Pass(ahead, slots, [x]) == if slots > 0 && !Clashes(ahead, x) then ([x], []) else ([], [x])
  {
    assert [x][1..] == [];
    assert [x] + [] == [x];
  }

  /** A task enqueued behind an empty queue starts at once, or waits alone. */
  lemma {:induction false} EnqueueAlone(s: State, x: Lease)
    requires s.queue == [] && !Holds(s.active, x.id)
    ensures Step(s, Enqueue(x)) == if |s.active| < s.capacity && !Clashes(s.active, x)
                                   then State(s.capacity, s.active + [x], []) else State(s.capacity, s.active, [x])
  {
    PassOne(s.active, Slots(s), x);
    assert s.queue + [x] == [x];
    assert s.active + [] == s.active;
  }

  /** A task that alone waits for another takes over when the start of that one fails. */
  lemma {:induction false} FailureHandsOver(capacity: nat, x: Lease, y: Lease)
    requires capacity > 0
    ensures Step(State(capacity, [x], [y]), StartFailed(x.id)) == State(capacity, [y], [])
  {
    assert Holds([x], x.id) by { assert [x][0] == x; }
    assert Without([x], x.id) == [];
    PassOne([], capacity, y);
    assert [] + [y] == [y];
  }

  datatype EnqueueResult = Started | Queued | AlreadyScheduled | QueueFull

  class RuntimeScheduler {
    const capacity: nat
    var active: seq<Lease>
    var queue: seq<Lease>

    function View(): State
      reads this
    {
      State(capacity, active, queue)
    }

    constructor (capacity: nat)
      requires MIN_RUNTIME_WORKERS <= capacity <= MAX_RUNTIME_WORKERS
      ensures View() == Initial(capacity) && Valid(View())
    {
      this.capacity := capacity;
      active, queue := [], [];
    }

    method Enqueue(task: Lease) returns (result: EnqueueResult)
      requires Valid(View())
      modifies this
      ensures View() == Step(old(View()), Op.Enqueue(task)) && Valid(View())
      ensures result == AlreadyScheduled <==> old(Scheduled(View(), task.id))
      ensures result == QueueFull <==> !old(Scheduled(View(), task.id)) && |old(queue)| >= MAX_QUEUED_RUNTIMES
      ensures result == Started ==> task in active
      ensures result == Queued ==> task in queue
    {
      StepKeepsValid(View(), Op.Enqueue(task));
      if Holds(active, task.id) || Holds(queue, task.id) {
        return AlreadyScheduled;
      }
      if |queue| >= MAX_QUEUED_RUNTIMES {
        return QueueFull;
      }
      ChangeKeepsLoaded(View(), Op.Enqueue(task));
      queue := queue + [task];
      EnqueuedEndsUp(View(), task);
      Drain();
      result := if Holds(active, task.id) then Started else Queued;
    }

    method Cancel(id: string) returns (found: bool)
      requires Valid(View())
      modifies this
      ensures View() == Step(old(View()), Op.Cancel(id)) && Valid(View())
      ensures found == Holds(old(queue), id)
    {
      StepKeepsValid(View(), Op.Cancel(id));
      var index := IndexOf(queue, id);
      if index == |queue| {
        return false;
      }
      queue := queue[..index] + queue[index + 1..];
      Drain();
      found := true;
    }

    method Release(id: string) returns (found: bool)
      requires Valid(View())
      modifies this
      ensures View() == Step(old(View()), Op.Release(id)) && Valid(View())
      ensures found == Holds(old(active), id)
    {
      StepKeepsValid(View(), Op.Release(id));
      if !Holds(active, id) {
        return false;
      }
      active := Without(active, id);
      Drain();
      found := true;
    }

    /** The rejection handler that `drain` attaches to a task's start. */
    method StartFailed(id: string) returns (notified: bool)
      requires Valid(View())
      modifies this
      ensures View() == Step(old(View()), Op.StartFailed(id)) && Valid(View())
      ensures notified == Holds(old(active), id)
    {
      StepKeepsValid(View(), Op.StartFailed(id));
      notified := Holds(active, id);
      if notified {
        active := Without(active, id);
        Drain();
      }
    }

    method Start(index: nat)
      requires index < |queue| && CanStart(View(), index)
      requires forall k | 0 <= k < index :: !CanStart(View(), k)
      modifies this
      ensures active == old(active) + [old(queue)[index]]
      ensures queue == old(queue)[..index] + old(queue)[index + 1..]
      ensures Drained(View()) == Drained(old(View()))
    {
      DrainAfterStart(View(), index);
      var task := queue[index];
      queue := queue[..index] + queue[index + 1..];
      active := active + [task];
    }

    /** Scans from the front again after every start; the result is that of one forward pass. */
    method Drain()
      modifies this
      ensures View() == Drained(old(View()))
    {
      var started := true;
      while started && |active| < capacity
        invariant Drained(View()) == Drained(old(View()))
        invariant !started ==> forall k | 0 <= k < |queue| :: !CanStart(View(), k)
        decreases |queue|, started
      {
        started := false;
        var index := 0;
        while index < |queue|
          invariant 0 <= index <= |queue|
          invariant forall k | 0 <= k < index :: !CanStart(View(), k)
        {
          if CanStart(View(), index) {
            started := true;
            break;
          }
          index := index + 1;
        }
        if started {
          Start(index);
        }
      }
      DrainedAlready(View());
    }
  }
}
