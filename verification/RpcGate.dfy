/** The gate in front of signed local requests: clock skew, a sliding-window rate limit and nonces
    that expire (src/main/local-rpc-server.ts). */
module RpcGate {
  import opened Sets

  const REQUEST_SKEW_MS: int := 60_000
  const NONCE_LIFETIME_MS: int := 600_000
  const RATE_WINDOW_MS: int := 60_000
  const MAX_NONCES_PER_CLIENT: nat := 1_024
  const MAX_REQUESTS_PER_MINUTE: nat := 60

  datatype Denial = RequestSkew | ParamsChanged | ClientRevoked | ScopeDenied | BadSignature
                  | RateLimited | NonceReplay | NonceCapacity
  datatype Outcome = Accepted | Denied(why: Denial)

  /** A signed request. The four flags are the answers of the parameter digest, the client table,
      the scope table and the signature check. */
  datatype Request = Request(client: string, nonce: string, timestamp: int, digestMatches: bool,
                             clientActive: bool, scopeGranted: bool, signatureValid: bool)

  /** A request with the two clock readings of its verification: `at` first, `pruneAt` when the
      rate window is pruned. */
  datatype Event = Event(request: Request, at: int, pruneAt: int)

  datatype State = State(times: map<string, seq<int>>, nonces: map<string, map<string, int>>)

  function Abs(x: int): int {
    if x < 0 then -x else x
  }

  /** The values after `threshold`, in order. */
  function After(values: seq<int>, threshold: int): seq<int> {
    if values == [] then []
    else After(values[..|values| - 1], threshold)
         + if values[|values| - 1] > threshold then [values[|values| - 1]] else []
  }

  function TimesOf(s: State, client: string): seq<int> {
    if client in s.times then s.times[client] else []
  }

  function NoncesOf(s: State, client: string): map<string, int> {
    if client in s.nonces then s.nonces[client] else map[]
  }

  function Unexpired(nonces: map<string, int>, at: int): map<string, int> {
    map nonce | nonce in nonces && nonces[nonce] > at :: nonces[nonce]
  }

  /** The checks that change nothing, in the order they are made. */
  function Screened(e: Event): Outcome {
    var r := e.request;
    if Abs(r.timestamp - e.at) > REQUEST_SKEW_MS then Denied(RequestSkew)
    else if !r.digestMatches then Denied(ParamsChanged)
    else if !r.clientActive then Denied(ClientRevoked)
    else if !r.scopeGranted then Denied(ScopeDenied)
    else if !r.signatureValid then Denied(BadSignature)
    else Accepted
  }

  function Step(s: State, e: Event): (State, Outcome) {
    var r := e.request;
    var recent := After(TimesOf(s, r.client), e.pruneAt - RATE_WINDOW_MS);
    if Screened(e) != Accepted then (s, Screened(e))
    else if |recent| >= MAX_REQUESTS_PER_MINUTE then (s, Denied(RateLimited))
    else
      var times := s.times[r.client := recent + [e.at]];
      var nonces := Unexpired(NoncesOf(s, r.client), e.at);
      if r.nonce in nonces then (State(times, s.nonces[r.client := nonces]), Denied(NonceReplay))
      else if |nonces| >= MAX_NONCES_PER_CLIENT then (State(times, s.nonces[r.client := nonces]), Denied(NonceCapacity))
      else (State(times, s.nonces[r.client := nonces[r.nonce := e.at + NONCE_LIFETIME_MS]]), Accepted)
  }

  // ----- the class

  class SignedRequestGate {
    var times: map<string, seq<int>>
    var nonces: map<string, map<string, int>>

    function View(): State
      reads this
    {
      State(times, nonces)
    }

    constructor ()
      ensures View() == State(map[], map[])
    {
      times, nonces := map[], map[];
    }

    method VerifySignedRequest(e: Event) returns (outcome: Outcome)
      modifies this
      ensures (View(), outcome) == Step(old(View()), e)
    {
      var r := e.request;
      if Abs(r.timestamp - e.at) > REQUEST_SKEW_MS {
        return Denied(RequestSkew);
      }
      if !r.digestMatches {
        return Denied(ParamsChanged);
      }
      if !r.clientActive {
        return Denied(ClientRevoked);
      }
      if !r.scopeGranted {
        return Denied(ScopeDenied);
      }
      if !r.signatureValid {
        return Denied(BadSignature);
      }
      var requestTimes := After(if r.client in times then times[r.client] else [], e.pruneAt - RATE_WINDOW_MS);
      if |requestTimes| >= MAX_REQUESTS_PER_MINUTE {
        return Denied(RateLimited);
      }
      times := times[r.client := requestTimes + [e.at]];
      var live := Prune(if r.client in nonces then nonces[r.client] else map[], e.at);
      ghost var before := nonces;
      assert r.client !in nonces ==> live == map[];
      if r.client in nonces {
        nonces := nonces[r.client := live];
      }
      if r.nonce in live {
        return Denied(NonceReplay);
      }
      if |live| >= MAX_NONCES_PER_CLIENT {
        return Denied(NonceCapacity);
      }
      nonces := nonces[r.client := live[r.nonce := e.at + NONCE_LIFETIME_MS]];
      assert nonces == before[r.client := live[r.nonce := e.at + NONCE_LIFETIME_MS]];
      outcome := Accepted;
    }
  }

  /** Deletes the expired nonces one by one. */
  method Prune(nonces: map<string, int>, at: int) returns (live: map<string, int>)
    ensures live == Unexpired(nonces, at)
  {
    live := nonces;
    var left := nonces.Keys;
    while left != {}
      invariant left <= nonces.Keys
      invariant live == map nonce | nonce in nonces && (nonce in left || nonces[nonce] > at) :: nonces[nonce]
      decreases |left|
    {
      var nonce :| nonce in left;
      left := left - {nonce};
      if nonces[nonce] <= at {
        live := live - {nonce};
      }
    }
  }

  // ----- runs

  datatype Entry = Entry(event: Event, outcome: Outcome)

  /** Every event of a run, from the empty gate, with its outcome. */
  function Run(events: seq<Event>): (State, seq<Entry>) {
    if events == [] then (State(map[], map[]), [])
    else
      var last := events[|events| - 1];
      var (s, history) := Run(events[..|events| - 1]);
      var (s', outcome) := Step(s, last);
      (s', history + [Entry(last, outcome)])
  }

  /** The clock never goes back, neither between requests nor between two readings. */
  predicate Clocked(events: seq<Event>) {
    && (forall i | 0 <= i < |events| :: events[i].at <= events[i].pruneAt)
    && (forall i, j | 0 <= i < j < |events| :: events[i].pruneAt <= events[j].at)
  }

  predicate Synchronous(events: seq<Event>) {
    forall i | 0 <= i < |events| :: events[i].at == events[i].pruneAt
  }

  // ----- the reference: what a history says

  /** Past the rate limit: the request's time was recorded. */
  predicate Records(outcome: Outcome) {
    outcome == Accepted || outcome == Denied(NonceReplay) || outcome == Denied(NonceCapacity)
  }

  predicate Admitted(entry: Entry, client: string) {
    entry.event.request.client == client && Records(entry.outcome)
  }

  predicate AcceptedNonce(entry: Entry, client: string, nonce: string) {
    entry.outcome == Accepted && entry.event.request.client == client && entry.event.request.nonce == nonce
  }

  function Admissions(history: seq<Entry>, client: string): seq<Event> {
    if history == [] then []
    else
      var last := history[|history| - 1];
      Admissions(history[..|history| - 1], client) + if Admitted(last, client) then [last.event] else []
  }

  function CountAfter(admissions: seq<Event>, threshold: int): nat {
    if admissions == [] then 0
    else CountAfter(admissions[..|admissions| - 1], threshold) + if admissions[|admissions| - 1].at > threshold then 1
        else 0
  }

  predicate NonceLive(history: seq<Entry>, client: string, nonce: string, at: int) {
    exists k | 0 <= k < |history| ::
        AcceptedNonce(history[k], client, nonce) && history[k].event.at + NONCE_LIFETIME_MS > at
  }

  /** The gate told by its history alone. */
  function Judged(history: seq<Entry>, e: Event): Outcome {
    var r := e.request;
    if Screened(e) != Accepted then Screened(e)
    else if CountAfter(Admissions(history, r.client), e.pruneAt - RATE_WINDOW_MS) >= MAX_REQUESTS_PER_MINUTE
        then Denied(RateLimited)
    else if NonceLive(history, r.client, r.nonce, e.at) then Denied(NonceReplay)
    else Accepted
  }

  // ----- the invariant between the state and its history

  ghost predicate TimesAgree(s: State, history: seq<Entry>, clock: int) {
    forall client, threshold | threshold >= clock - RATE_WINDOW_MS ::
      |After(TimesOf(s, client), threshold)| == CountAfter(Admissions(history, client), threshold)
  }

  ghost predicate NoncesRecorded(s: State, history: seq<Entry>) {
    forall client, nonce | nonce in NoncesOf(s, client) ::
      exists k | 0 <= k < |history| :: AcceptedNonce(history[k], client, nonce)
                                       && history[k].event.at + NONCE_LIFETIME_MS == NoncesOf(s, client)[nonce]
  }

  ghost predicate NoncesKept(s: State, history: seq<Entry>, clock: int) {
    forall k, client, nonce | 0 <= k < |history| && AcceptedNonce(history[k], client, nonce)
                              && history[k].event.at + NONCE_LIFETIME_MS > clock ::
      nonce in NoncesOf(s, client) && NoncesOf(s, client)[nonce] == history[k].event.at + NONCE_LIFETIME_MS
  }

  ghost predicate NoncesCounted(s: State, history: seq<Entry>) {
    forall client, at {:trigger Unexpired(NoncesOf(s, client), at)} ::
      |Unexpired(NoncesOf(s, client), at)| <= CountAfter(Admissions(history, client), at - NONCE_LIFETIME_MS)
  }

  lemma {:induction false} AfterTwice(values: seq<int>, low: int, high: int)
    requires low <= high
    ensures After(After(values, low), high) == After(values, high)
  {
    if values != [] {
      var front, last := values[..|values| - 1], values[|values| - 1];
      AfterTwice(front, low, high);
      if last > low {
        assert After(values, low)[..|After(values, low)| - 1] == After(front, low);
      } else {
        assert After(values, low) == After(front, low);
        assert After(values, high) == After(front, high);
      }
    }
  }

  lemma {:induction false} AfterSnoc(values: seq<int>, value: int, threshold: int)
    ensures After(values + [value], threshold) == After(values, threshold) + if value > threshold then [value] else []
  {
    assert (values + [value])[..|values|] == values;
  }

  lemma {:induction false} AdmissionsSnoc(history: seq<Entry>, entry: Entry, client: string)
    ensures Admissions(history + [entry], client)
         == Admissions(history, client) + if Admitted(entry, client) then [entry.event] else []
  {
    assert (history + [entry])[..|history|] == history;
  }

  lemma {:induction false} CountSnoc(admissions: seq<Event>, e: Event, threshold: int)
    ensures CountAfter(admissions + [e], threshold) == CountAfter(admissions, threshold) + if e.at > threshold then 1
        else 0
  {
    assert (admissions + [e])[..|admissions|] == admissions;
  }

  lemma {:induction false} UnexpiredShrinks(nonces: map<string, int>, early: int, late: int)
    ensures |Unexpired(Unexpired(nonces, early), late)| <= |Unexpired(nonces, late)|
    ensures early <= late ==> Unexpired(Unexpired(nonces, early), late) == Unexpired(nonces, late)
  {
    var twice, once := Unexpired(Unexpired(nonces, early), late), Unexpired(nonces, late);
    assert twice.Keys <= once.Keys;
    SubsetSize(twice.Keys, once.Keys);
    assert |twice| == |twice.Keys| && |once| == |once.Keys|;
  }

  lemma {:induction false} UnexpiredInsert(nonces: map<string, int>, nonce: string, expiry: int, at: int)
    requires nonce !in nonces
    ensures |Unexpired(nonces[nonce := expiry], at)| == |Unexpired(nonces, at)| + if expiry > at then 1 else 0
  {
    if expiry > at {
      assert Unexpired(nonces[nonce := expiry], at) == Unexpired(nonces, at)[nonce := expiry];
    } else {
      assert Unexpired(nonces[nonce := expiry], at) == Unexpired(nonces, at);
    }
  }

  // ----- one step

  lemma {:induction false} CountGrows(history: seq<Entry>, entry: Entry, client: string, threshold: int)
    ensures CountAfter(Admissions(history + [entry], client), threshold)
         == CountAfter(Admissions(history, client), threshold)
            + if Admitted(entry, client) && entry.event.at > threshold then 1 else 0
  {
    AdmissionsSnoc(history, entry, client);
    if Admitted(entry, client) {
      CountSnoc(Admissions(history, client), entry.event, threshold);
    } else {
      assert Admissions(history, client) + [] == Admissions(history, client);
    }
  }

  /** What one step does to the recorded times and nonces of a client. */
  lemma {:induction false} StepOf(s: State, e: Event, client: string)
    ensures var (s', outcome) := Step(s, e);
            var mine := Records(outcome) && client == e.request.client;
            var live := Unexpired(NoncesOf(s, client), e.at);
            && TimesOf(s', client) == (if mine then After(TimesOf(s, client), e.pruneAt - RATE_WINDOW_MS) + [e.at]
                                       else TimesOf(s, client))
            && (mine ==> |After(TimesOf(s, client), e.pruneAt - RATE_WINDOW_MS)| < MAX_REQUESTS_PER_MINUTE)
            && (!mine ==> NoncesOf(s', client) == NoncesOf(s, client))
            && (mine && outcome != Accepted ==> NoncesOf(s', client) == live)
            && (mine && outcome == Accepted ==>
                  e.request.nonce !in live && NoncesOf(s', client) == live[e.request.nonce := e.at + NONCE_LIFETIME_MS])
  {
  }

  lemma {:induction false} TimesGrow(times: seq<int>, e: Event, threshold: int)
    requires threshold >= e.pruneAt - RATE_WINDOW_MS
    ensures |After(After(times, e.pruneAt - RATE_WINDOW_MS) + [e.at], threshold)|
         == |After(times, threshold)| + if e.at > threshold then 1 else 0
  {
    AfterSnoc(After(times, e.pruneAt - RATE_WINDOW_MS), e.at, threshold);
    AfterTwice(times, e.pruneAt - RATE_WINDOW_MS, threshold);
  }

  lemma {:induction false} StepTimes(s: State, history: seq<Entry>, e: Event, clock: int)
    requires TimesAgree(s, history, clock) && clock <= e.at <= e.pruneAt
    ensures TimesAgree(Step(s, e).0, history + [Entry(e, Step(s, e).1)], e.pruneAt)
  {
    var (s', outcome) := Step(s, e);
    forall client, threshold | threshold >= e.pruneAt - RATE_WINDOW_MS
      ensures |After(TimesOf(s', client), threshold)|
          == CountAfter(Admissions(history + [Entry(e, outcome)], client), threshold)
    {
      StepOf(s, e, client);
      CountGrows(history, Entry(e, outcome), client, threshold);
      TimesGrow(TimesOf(s, client), e, threshold);
    }
  }

  lemma {:induction false} StepRecorded(s: State, history: seq<Entry>, e: Event)
    requires NoncesRecorded(s, history)
    ensures NoncesRecorded(Step(s, e).0, history + [Entry(e, Step(s, e).1)])
  {
    var (s', outcome) := Step(s, e);
    var longer := history + [Entry(e, outcome)];
    forall client, nonce | nonce in NoncesOf(s', client)
      ensures exists k | 0 <= k < |longer| :: AcceptedNonce(longer[k], client, nonce)
                                              && longer[k].event.at + NONCE_LIFETIME_MS == NoncesOf(s', client)[nonce]
    {
      StepOf(s, e, client);
      if outcome == Accepted && client == e.request.client && nonce == e.request.nonce {
        assert AcceptedNonce(longer[|history|], client, nonce);
      } else {
        assert nonce in NoncesOf(s, client) && NoncesOf(s, client)[nonce] == NoncesOf(s', client)[nonce];
        var k :| 0 <= k < |history| && AcceptedNonce(history[k], client, nonce)
              && history[k].event.at + NONCE_LIFETIME_MS == NoncesOf(s, client)[nonce];
        assert longer[k] == history[k];
      }
    }
  }

  lemma {:induction false} StepKept(s: State, history: seq<Entry>, e: Event, clock: int)
    requires NoncesKept(s, history, clock) && clock <= e.at <= e.pruneAt
    ensures NoncesKept(Step(s, e).0, history + [Entry(e, Step(s, e).1)], e.pruneAt)
  {
    var (s', outcome) := Step(s, e);
    var longer := history + [Entry(e, outcome)];
    forall k, client, nonce | 0 <= k < |longer| && AcceptedNonce(longer[k], client, nonce)
                              && longer[k].event.at + NONCE_LIFETIME_MS > e.pruneAt
      ensures nonce in NoncesOf(s', client) && NoncesOf(s', client)[nonce] == longer[k].event.at + NONCE_LIFETIME_MS
    {
      StepOf(s, e, client);
      if k < |history| {
        assert AcceptedNonce(history[k], client, nonce);
        assert nonce in NoncesOf(s, client) && NoncesOf(s, client)[nonce] == history[k].event.at + NONCE_LIFETIME_MS;
      } else {
        assert longer[k] == Entry(e, outcome);
      }
    }
  }

  lemma {:induction false} LiveGrow(nonces: map<string, int>, e: Event, at: int)
    ensures |Unexpired(Unexpired(nonces, e.at), at)| <= |Unexpired(nonces, at)|
    ensures e.request.nonce !in Unexpired(nonces, e.at) ==>
              |Unexpired(Unexpired(nonces, e.at)[e.request.nonce := e.at + NONCE_LIFETIME_MS], at)|
              <= |Unexpired(nonces, at)| + if e.at > at - NONCE_LIFETIME_MS then 1 else 0
  {
    UnexpiredShrinks(nonces, e.at, at);
    if e.request.nonce !in Unexpired(nonces, e.at) {
      UnexpiredInsert(Unexpired(nonces, e.at), e.request.nonce, e.at + NONCE_LIFETIME_MS, at);
    }
  }

  lemma {:induction false} StepCounted(s: State, history: seq<Entry>, e: Event)
    requires NoncesCounted(s, history)
    ensures NoncesCounted(Step(s, e).0, history + [Entry(e, Step(s, e).1)])
  {
    var (s', outcome) := Step(s, e);
    forall client, at
      ensures |Unexpired(NoncesOf(s', client), at)|
           <= CountAfter(Admissions(history + [Entry(e, outcome)], client), at - NONCE_LIFETIME_MS)
    {
      StepOf(s, e, client);
      CountGrows(history, Entry(e, outcome), client, at - NONCE_LIFETIME_MS);
      LiveGrow(NoncesOf(s, client), e, at);
      assert |Unexpired(NoncesOf(s, client), at)| <= CountAfter(Admissions(history, client), at - NONCE_LIFETIME_MS);
    }
  }

  function ClockOf(events: seq<Event>, start: int): int {
    if events == [] then start else events[|events| - 1].pruneAt
  }

  ghost predicate Consistent(s: State, history: seq<Entry>, clock: int) {
    TimesAgree(s, history, clock) && NoncesRecorded(s, history) && NoncesKept(s, history, clock)
        && NoncesCounted(s, history)
  }

  /** In every run the state says what the history says. */
  lemma {:induction false} RunConsistent(events: seq<Event>, start: int)
    requires Clocked(events) && (events != [] ==> start <= events[0].at)
    ensures Consistent(Run(events).0, Run(events).1, ClockOf(events, start))
    decreases |events|
  {
    if events != [] {
      var front, last := events[..|events| - 1], events[|events| - 1];
      RunConsistent(front, start);
      var (s, history) := Run(front);
      var clock := ClockOf(front, start);
      assert clock <= last.at;
      StepTimes(s, history, last, clock);
      StepRecorded(s, history, last);
      StepKept(s, history, last, clock);
      StepCounted(s, history, last);
    }
  }

  // ----- the rate over any window

  /** What the gate makes sure of as it admits: fewer than 60 admissions lie in the minute before
      the second clock reading of each. */
  ghost predicate Paced(admissions: seq<Event>) {
    Clocked(admissions) && Spaced(admissions)
  }

  predicate Spaced(admissions: seq<Event>) {
    admissions == []
    || (var front, last := admissions[..|admissions| - 1], admissions[|admissions| - 1];
        Spaced(front) && CountAfter(front, last.pruneAt - RATE_WINDOW_MS) < MAX_REQUESTS_PER_MINUTE)
  }

  lemma {:induction false} ClockedSnoc(events: seq<Event>, e: Event)
    requires Clocked(events) && e.at <= e.pruneAt
    requires forall k | 0 <= k < |events| :: events[k].pruneAt <= e.at
    ensures Clocked(events + [e])
  {
    var longer := events + [e];
    forall i, j | 0 <= i < j < |longer|
      ensures longer[i].pruneAt <= longer[j].at
    {
      assert longer[i] == events[i];
    }
  }

  lemma {:induction false} PacedSnoc(admissions: seq<Event>, e: Event)
    requires Paced(admissions) && e.at <= e.pruneAt
    requires forall k | 0 <= k < |admissions| :: admissions[k].pruneAt <= e.at
    requires CountAfter(admissions, e.pruneAt - RATE_WINDOW_MS) < MAX_REQUESTS_PER_MINUTE
    ensures Paced(admissions + [e])
  {
    ClockedSnoc(admissions, e);
    assert (admissions + [e])[..|admissions|] == admissions;
  }

  lemma {:induction false} CountFalls(admissions: seq<Event>, low: int, high: int)
    requires low <= high
    ensures CountAfter(admissions, high) <= CountAfter(admissions, low)
  {
    if admissions != [] {
      CountFalls(admissions[..|admissions| - 1], low, high);
    }
  }

  lemma {:induction false} CountNone(admissions: seq<Event>, threshold: int)
    requires forall k | 0 <= k < |admissions| :: admissions[k].at <= threshold
    ensures CountAfter(admissions, threshold) == 0
  {
    if admissions != [] {
      CountNone(admissions[..|admissions| - 1], threshold);
    }
  }

  lemma {:induction false} PrunedInWindow(admissions: seq<Event>, end: int)
    requires Paced(admissions)
    requires admissions != [] ==> admissions[|admissions| - 1].pruneAt <= end
    ensures CountAfter(admissions, end - RATE_WINDOW_MS) <= MAX_REQUESTS_PER_MINUTE
  {
    if admissions != [] {
      var last := admissions[|admissions| - 1];
      CountFalls(admissions[..|admissions| - 1], last.pruneAt - RATE_WINDOW_MS, end - RATE_WINDOW_MS);
    }
  }

  /** No half-open minute sees more than 61 admissions, and none more than 60 when the two clock
      readings of a request agree. */
  lemma {:induction false} MinuteBound(admissions: seq<Event>, end: int)
    requires Paced(admissions)
    ensures CountAfter(admissions, end - RATE_WINDOW_MS) <= CountAfter(admissions, end) + MAX_REQUESTS_PER_MINUTE + 1
    ensures Synchronous(admissions) ==>
              CountAfter(admissions, end - RATE_WINDOW_MS) <= CountAfter(admissions, end) + MAX_REQUESTS_PER_MINUTE
  {
    if admissions != [] {
      var front, last := admissions[..|admissions| - 1], admissions[|admissions| - 1];
      if last.at > end {
        MinuteBound(front, end);
      } else if last.pruneAt <= end {
        PrunedInWindow(admissions, end);
      } else {
        PrunedInWindow(front, end);
      }
    }
  }

  lemma {:induction false} MinutesBound(admissions: seq<Event>, end: int, minutes: nat)
    requires Paced(admissions)
    ensures CountAfter(admissions, end - minutes * RATE_WINDOW_MS)
         <= CountAfter(admissions, end) + minutes * (MAX_REQUESTS_PER_MINUTE + 1)
    ensures Synchronous(admissions) ==>
              CountAfter(admissions, end - minutes * RATE_WINDOW_MS)
              <= CountAfter(admissions, end) + minutes * MAX_REQUESTS_PER_MINUTE
  {
    if minutes > 0 {
      MinutesBound(admissions, end, minutes - 1);
      MinuteBound(admissions, end - (minutes - 1) * RATE_WINDOW_MS);
    }
  }

  ghost predicate AllFrom(admissions: seq<Event>, events: seq<Event>, clock: int) {
    forall k | 0 <= k < |admissions| :: admissions[k] in events && admissions[k].pruneAt <= clock
  }

  lemma {:induction false} AdmittedPaced(s: State, history: seq<Entry>, e: Event, clock: int, client: string)
    requires TimesAgree(s, history, clock) && clock <= e.at <= e.pruneAt
    requires Paced(Admissions(history, client))
    requires forall k | 0 <= k < |Admissions(history, client)| :: Admissions(history, client)[k].pruneAt <= clock
    ensures Paced(Admissions(history + [Entry(e, Step(s, e).1)], client))
  {
    var entry := Entry(e, Step(s, e).1);
    AdmissionsSnoc(history, entry, client);
    StepOf(s, e, client);
    if Admitted(entry, client) {
      assert |After(TimesOf(s, client), e.pruneAt - RATE_WINDOW_MS)|
          == CountAfter(Admissions(history, client), e.pruneAt - RATE_WINDOW_MS);
      PacedSnoc(Admissions(history, client), e);
    } else {
      assert Admissions(history, client) + [] == Admissions(history, client);
    }
  }

  lemma {:induction false} AdmittedFrom(history: seq<Entry>, entry: Entry, front: seq<Event>, clock: int,
                                        client: string)
    requires AllFrom(Admissions(history, client), front, clock)
    requires clock <= entry.event.pruneAt
    ensures AllFrom(Admissions(history + [entry], client), front + [entry.event], entry.event.pruneAt)
  {
    AdmissionsSnoc(history, entry, client);
    var all := front + [entry.event];
    assert all[|front|] == entry.event;
    assert forall e | e in front :: e in all;
  }

  lemma {:induction false} RunPaced(events: seq<Event>, start: int, client: string)
    requires Clocked(events) && (events != [] ==> start <= events[0].at)
    ensures Paced(Admissions(Run(events).1, client))
    ensures AllFrom(Admissions(Run(events).1, client), events, ClockOf(events, start))
    decreases |events|
  {
    if events != [] {
      var front, last := events[..|events| - 1], events[|events| - 1];
      RunPaced(front, start, client);
      var (s, history) := Run(front);
      assert TimesAgree(s, history, ClockOf(front, start)) by {
        RunConsistent(front, start);
      }
      var entry := Entry(last, Step(s, last).1);
      assert front + [last] == events;
      AdmittedFrom(history, entry, front, ClockOf(front, start), client);
      AdmittedPaced(s, history, last, ClockOf(front, start), client);
      assert Run(events).1 == history + [entry];
    }
  }

  // ----- main results

  /** In every run with a clock that never goes back, at any later moment a client has at most 609
      unexpired nonces, and at most 600 when the two clock readings of each request agree. */
  lemma {:induction false} UnexpiredNoncesBounded(events: seq<Event>, start: int, client: string, at: int)
    requires Clocked(events) && (events != [] ==> start <= events[0].at) && at >= ClockOf(events, start)
    ensures |Unexpired(NoncesOf(Run(events).0, client), at)| <= 609
    ensures Synchronous(events) ==> |Unexpired(NoncesOf(Run(events).0, client), at)| <= 600
  {
    RunConsistent(events, start);
    RunPaced(events, start, client);
    var admissions := Admissions(Run(events).1, client);
    PrunedInWindow(admissions, at);
    MinutesBound(admissions, at - RATE_WINDOW_MS, 9);
    assert |Unexpired(NoncesOf(Run(events).0, client), at)| <= CountAfter(admissions, at - NONCE_LIFETIME_MS);
  }

  lemma {:induction false} LiveExactly(s: State, history: seq<Entry>, clock: int, client: string, nonce: string,
                                       at: int)
    requires NoncesRecorded(s, history) && NoncesKept(s, history, clock) && clock <= at
    ensures nonce in Unexpired(NoncesOf(s, client), at) <==> NonceLive(history, client, nonce, at)
  {
    if nonce in Unexpired(NoncesOf(s, client), at) {
      var k :| 0 <= k < |history| && AcceptedNonce(history[k], client, nonce)
            && history[k].event.at + NONCE_LIFETIME_MS == NoncesOf(s, client)[nonce];
    }
  }

  lemma {:induction false} StepOutcome(s: State, e: Event)
    ensures var r := e.request;
            var recent := After(TimesOf(s, r.client), e.pruneAt - RATE_WINDOW_MS);
            var live := Unexpired(NoncesOf(s, r.client), e.at);
            Step(s, e).1 == if Screened(e) != Accepted then Screened(e)
                            else if |recent| >= MAX_REQUESTS_PER_MINUTE then Denied(RateLimited)
                            else if r.nonce in live then Denied(NonceReplay)
                            else if |live| >= MAX_NONCES_PER_CLIENT then Denied(NonceCapacity)
                            else Accepted
  {
  }

  /** The gate refines its history: the outcome of the next request is the one that the earlier
      requests and their outcomes alone determine. The nonce capacity plays no part in it. */
  lemma {:induction false} OutcomeIsJudged(events: seq<Event>, e: Event)
    requires Clocked(events + [e])
    ensures Step(Run(events).0, e).1 == Judged(Run(events).1, e)
  {
    var start := FrontClocked(events, e);
    var (s, history) := Run(events);
    var c := e.request.client;
    StepOutcome(s, e);
    RunConsistent(events, start);
    UnexpiredNoncesBounded(events, start, c, e.at);
    LiveExactly(s, history, ClockOf(events, start), c, e.request.nonce, e.at);
    assert |After(TimesOf(s, c), e.pruneAt - RATE_WINDOW_MS)|
        == CountAfter(Admissions(history, c), e.pruneAt - RATE_WINDOW_MS);
  }

  lemma {:induction false} FrontClocked(events: seq<Event>, e: Event) returns (start: int)
    requires Clocked(events + [e])
    ensures Clocked(events) && (events != [] ==> start <= events[0].at)
    ensures ClockOf(events, start) <= e.at <= e.pruneAt
  {
    var all := events + [e];
    assert forall i | 0 <= i < |events| :: all[i] == events[i];
    assert all[|events|] == e;
    start := if events == [] then e.at else events[0].at;
  }

  /** No request is ever refused for want of room for its nonce. */
  lemma {:induction false} CapacityNeverReached(events: seq<Event>, e: Event)
    requires Clocked(events + [e])
    ensures Step(Run(events).0, e).1 != Denied(NonceCapacity)
  {
    OutcomeIsJudged(events, e);
  }

  lemma {:induction false} RunPrefix(events: seq<Event>, n: nat)
    requires n <= |events|
    ensures |Run(events).1| == |events| && Run(events).1[..n] == Run(events[..n]).1
    ensures n < |events| ==> Run(events).1[n] == Entry(events[n], Step(Run(events[..n]).0, events[n]).1)
    decreases |events|
  {
    if n < |events| {
      var front := events[..|events| - 1];
      RunPrefix(front, n);
      assert front[..n] == events[..n];
    } else if n > 0 {
      RunPrefix(events[..|events| - 1], n - 1);
      assert events[..n] == events;
      assert Run(events).1[..n] == Run(events).1;
    }
  }

  lemma {:induction false} OutcomeAt(events: seq<Event>, j: nat)
    requires Clocked(events) && j < |events|
    ensures |Run(events).1| == |events| && Run(events).1[j].event == events[j]
    ensures Run(events).1[j].outcome == Judged(Run(events).1[..j], events[j])
  {
    RunPrefix(events, j);
    assert events[..j] + [events[j]] == events[..j + 1];
    OutcomeIsJudged(events[..j], events[j]);
  }

  /** A nonce is accepted again only after its whole lifetime, so the same signed request, with its
      timestamp, is accepted at most once however other requests and pruning come in between. */
  lemma {:induction false} AcceptedOnce(events: seq<Event>, i: nat, j: nat, client: string, nonce: string)
    requires Clocked(events) && i < j < |Run(events).1|
    requires AcceptedNonce(Run(events).1[i], client, nonce) && AcceptedNonce(Run(events).1[j], client, nonce)
    ensures Run(events).1[j].event.at >= Run(events).1[i].event.at + NONCE_LIFETIME_MS
    ensures Run(events).1[i].event.request.timestamp != Run(events).1[j].event.request.timestamp
  {
    RunPrefix(events, 0);
    OutcomeAt(events, i);
    OutcomeAt(events, j);
    var history := Run(events).1;
    assert history[..j][i] == history[i];
    assert !NonceLive(history[..j], client, nonce, events[j].at);
    assert Screened(events[i]) == Accepted && Screened(events[j]) == Accepted;
  }

  // ----- restarts: the gate keeps times and nonces in memory only

  /** The history of several lives of the gate, each from the empty gate on. */
  function Lives(lives: seq<seq<Event>>): seq<Entry> {
    if lives == [] then [] else Lives(lives[..|lives| - 1]) + Run(lives[|lives| - 1]).1
  }

  function Flat(lives: seq<seq<Event>>): seq<Event> {
    if lives == [] then [] else Flat(lives[..|lives| - 1]) + lives[|lives| - 1]
  }

  lemma {:induction false} AcceptedScreened(events: seq<Event>, k: nat)
    requires k < |Run(events).1| && Run(events).1[k].outcome == Accepted
    ensures Run(events).1[k].event in events && Screened(Run(events).1[k].event) == Accepted
  {
    RunPrefix(events, 0);
    RunPrefix(events, k);
    StepOutcome(Run(events[..k]).0, events[k]);
  }

  lemma {:induction false} LivesScreened(lives: seq<seq<Event>>, k: nat)
    requires k < |Lives(lives)| && Lives(lives)[k].outcome == Accepted
    ensures Lives(lives)[k].event in Flat(lives) && Screened(Lives(lives)[k].event) == Accepted
    decreases |lives|
  {
    var front, last := lives[..|lives| - 1], lives[|lives| - 1];
    if k < |Lives(front)| {
      LivesScreened(front, k);
    } else {
      AcceptedScreened(last, k - |Lives(front)|);
    }
  }

  /** The request was accepted earlier, with its timestamp, in this life or one before. */
  predicate AcceptedBefore(history: seq<Entry>, r: Request) {
    exists k | 0 <= k < |history| ::
      AcceptedNonce(history[k], r.client, r.nonce) && history[k].event.request.timestamp == r.timestamp
  }

  predicate NonceAccepted(history: seq<Entry>, r: Request) {
    exists k | 0 <= k < |history| :: AcceptedNonce(history[k], r.client, r.nonce)
  }

  /** A signed request that was accepted is accepted again, with its timestamp, exactly when it still
      passes the checks, the requests since the last start of the gate leave it room, and none of them
      was accepted with its nonce: so at most once in each life. */
  lemma {:induction false} ReplayedExactly(earlier: seq<seq<Event>>, life: seq<Event>, e: Event)
    requires Clocked(Flat(earlier) + life + [e]) && AcceptedBefore(Lives(earlier) + Run(life).1, e.request)
    ensures var history := Run(life).1;
            Step(Run(life).0, e).1 == Accepted <==>
            && Screened(e) == Accepted
            && CountAfter(Admissions(history, e.request.client), e.pruneAt - RATE_WINDOW_MS) < MAX_REQUESTS_PER_MINUTE
            && !NonceAccepted(history, e.request)
  {
    var all := Flat(earlier) + life + [e];
    assert Clocked(life + [e]) by {
      assert forall i | 0 <= i < |life + [e]| :: (life + [e])[i] == all[|Flat(earlier)| + i];
    }
    OutcomeIsJudged(life, e);
    if Screened(e) == Accepted {
      AcceptedIsLive(earlier, life, e);
    }
  }

  lemma {:induction false} AcceptedIsLive(earlier: seq<seq<Event>>, life: seq<Event>, e: Event)
    requires Clocked(Flat(earlier) + life + [e]) && AcceptedBefore(Lives(earlier) + Run(life).1, e.request)
    requires Screened(e) == Accepted
    ensures var r := e.request;
            NonceAccepted(Run(life).1, r) <==> NonceLive(Run(life).1, r.client, r.nonce, e.at)
  {
    var r, before, history := e.request, Lives(earlier), Run(life).1;
    var k :| 0 <= k < |before + history| && AcceptedNonce((before + history)[k], r.client, r.nonce)
             && (before + history)[k].event.request.timestamp == r.timestamp;
    if k < |before| {
      assert (before + history)[k] == before[k];
      LivesScreened(earlier, k);
      LaterIsLive(earlier, life, e, before[k].event);
    } else {
      assert (before + history)[k] == history[k - |before|];
      AcceptedScreened(life, k - |before|);
    }
  }

  /** What this life accepted with the nonce has not expired. */
  lemma {:induction false} LaterIsLive(earlier: seq<seq<Event>>, life: seq<Event>, e: Event, first: Event)
    requires Clocked(Flat(earlier) + life + [e]) && first in Flat(earlier)
    requires first.request.timestamp == e.request.timestamp
    requires Screened(first) == Accepted && Screened(e) == Accepted
    ensures NonceAccepted(Run(life).1, e.request) ==> NonceLive(Run(life).1, e.request.client, e.request.nonce, e.at)
  {
    var all, r, history := Flat(earlier) + life + [e], e.request, Run(life).1;
    if NonceAccepted(history, r) {
      var k :| 0 <= k < |history| && AcceptedNonce(history[k], r.client, r.nonce);
      AcceptedScreened(life, k);
      var i :| 0 <= i < |Flat(earlier)| && Flat(earlier)[i] == first;
      var j :| 0 <= j < |life| && life[j] == history[k].event;
      assert all[i] == first && all[|Flat(earlier)| + j] == life[j];
    }
  }

  /** That happens to every request: a restart right behind its acceptance lets it in again. */
  lemma {:induction false} RestartForgets(e: Event)
    requires Screened(e) == Accepted && e.at <= e.pruneAt
    ensures Step(Run([e]).0, e).1 != Accepted && Step(Run([]).0, e).1 == Accepted
    ensures Clocked([e]) && AcceptedBefore(Lives([[e]]), e.request)
  {
    var (s, outcome) := Step(Run([]).0, e);
    StepOutcome(Run([]).0, e);
    assert [e][..0] == [] && [[e]][..0] == [];
    assert Run([e]) == (s, [] + [Entry(e, outcome)]);
    assert Lives([[e]]) == [] + Run([e]).1;
    assert AcceptedNonce(Lives([[e]])[0], e.request.client, e.request.nonce);
    StepOutcome(s, e);
    StepOf(Run([]).0, e, e.request.client);
    assert e.request.nonce in Unexpired(NoncesOf(s, e.request.client), e.at);
  }

  // ----- the bounds are met

  /** The k-th request of a client that sends 61 a minute. At the 61st the clock jumps by a minute
      between its two readings. */
  function Nth(k: nat): Event {
    var at := k / 61 * RATE_WINDOW_MS;
    Event(Request("client", seq(k, _ => 'x'), at, true, true, true, true), at, if k % 61 == 60
          then at + RATE_WINDOW_MS else at)
  }

  function FirstOf(n: nat): seq<Event> {
    seq(n, k requires 0 <= k < n => Nth(k))
  }

  /** The times recorded after the first n requests: those of the minute that has begun. */
  function RecordedTimes(n: nat): seq<int> {
    if n == 0 then []
    else if n % 61 == 0 then [(n / 61 - 1) * RATE_WINDOW_MS]
    else seq(n % 61, _ => n / 61 * RATE_WINDOW_MS)
  }

  ghost predicate AllAccepted(s: State, n: nat) {
    && TimesOf(s, "client") == RecordedTimes(n)
    && |NoncesOf(s, "client")| == n
    && forall nonce | nonce in NoncesOf(s, "client") :: |nonce| < n && NoncesOf(s, "client")[nonce] >= NONCE_LIFETIME_MS
  }

  lemma {:induction false} AfterConstant(values: seq<int>, value: int, threshold: int)
    requires forall k | 0 <= k < |values| :: values[k] == value
    ensures After(values, threshold) == if value > threshold then values else []
  {
    if values != [] {
      AfterConstant(values[..|values| - 1], value, threshold);
      assert values == values[..|values| - 1] + [values[|values| - 1]];
    }
  }

  lemma {:induction false} RecentTimes(n: nat)
    ensures var recent := After(RecordedTimes(n), Nth(n).pruneAt - RATE_WINDOW_MS);
            |recent| < MAX_REQUESTS_PER_MINUTE && recent + [Nth(n).at] == RecordedTimes(n + 1)
  {
    var value := if n % 61 == 0 then (n / 61 - 1) * RATE_WINDOW_MS else n / 61 * RATE_WINDOW_MS;
    AfterConstant(RecordedTimes(n), value, Nth(n).pruneAt - RATE_WINDOW_MS);
    if n % 61 == 60 {
      assert (n + 1) / 61 == n / 61 + 1 && (n + 1) % 61 == 0;
    } else {
      assert (n + 1) / 61 == n / 61 && (n + 1) % 61 == n % 61 + 1;
    }
  }

  lemma {:induction false} FreshNonce(nonces: map<string, int>, n: nat)
    requires n < 609
    requires forall nonce | nonce in nonces :: |nonce| < n && nonces[nonce] >= NONCE_LIFETIME_MS
    ensures Unexpired(nonces, Nth(n).at) == nonces
    ensures Nth(n).request.nonce !in nonces && |Nth(n).request.nonce| == n && Nth(n).at >= 0
    ensures Screened(Nth(n)) == Accepted
  {
    assert 0 <= Nth(n).at < NONCE_LIFETIME_MS;
  }

  lemma {:induction false} NextAccepted(s: State, n: nat)
    requires n < 609 && AllAccepted(s, n)
    ensures Step(s, Nth(n)).1 == Accepted && AllAccepted(Step(s, Nth(n)).0, n + 1)
  {
    var e := Nth(n);
    assert Screened(e) == Accepted && e.request.client == "client";
    RecentTimes(n);
    FreshNonce(NoncesOf(s, "client"), n);
    StepOutcome(s, e);
    StepAccepts(s, e, n);
  }

  lemma {:induction false} StepAccepts(s: State, e: Event, n: nat)
    requires AllAccepted(s, n) && Step(s, e).1 == Accepted
    requires e.request.client == "client" && e.at >= 0 && |e.request.nonce| == n
    requires Unexpired(NoncesOf(s, "client"), e.at) == NoncesOf(s, "client")
    requires After(RecordedTimes(n), e.pruneAt - RATE_WINDOW_MS) + [e.at] == RecordedTimes(n + 1)
    ensures AllAccepted(Step(s, e).0, n + 1)
  {
    StepOf(s, e, "client");
  }

  lemma {:induction false} FirstAccepted(n: nat)
    requires n <= 609
    ensures AllAccepted(Run(FirstOf(n)).0, n)
  {
    if n > 0 {
      FirstAccepted(n - 1);
      assert FirstOf(n)[..n - 1] == FirstOf(n - 1);
      NextAccepted(Run(FirstOf(n - 1)).0, n - 1);
    }
  }

  lemma {:induction false} FirstClocked(n: nat)
    ensures Clocked(FirstOf(n))
  {
    forall i, j | 0 <= i < j < n
      ensures Nth(i).pruneAt <= Nth(j).at
    {
      assert i / 61 <= j / 61;
      if i % 61 == 60 {
        assert i / 61 + 1 <= j / 61;
      }
    }
  }

  lemma {:induction false} AtMostAll(events: seq<Event>, client: string, threshold: int)
    ensures CountAfter(Admissions(Run(events).1, client), threshold) <= |events|
    decreases |events|
  {
    if events != [] {
      var (s, history) := Run(events[..|events| - 1]);
      AtMostAll(events[..|events| - 1], client, threshold);
      CountGrows(history, Entry(events[|events| - 1], Step(s, events[|events| - 1]).1), client, threshold);
    }
  }

  /** The 61st request, one millisecond before the minute is over by its first reading. */
  function Late(): Event {
    Event(Request("client", seq(60, _ => 'x'), 59_999, true, true, true, true), 59_999, 60_000)
  }

  function SixtyOne(): seq<Event> {
    FirstOf(60) + [Late()]
  }

  lemma {:induction false} LateAccepted()
    ensures Step(Run(FirstOf(60)).0, Late()).1 == Accepted
  {
    var s := Run(FirstOf(60)).0;
    FirstAccepted(60);
    AfterConstant(RecordedTimes(60), 0, 0);
    StepOutcome(s, Late());
    assert |Late().request.nonce| == 60;
    var nonces := NoncesOf(s, "client");
    assert Unexpired(nonces, 59_999) == nonces;
  }

  lemma {:induction false} SixtyOneClocked()
    ensures Clocked(SixtyOne())
    ensures forall e | e in SixtyOne() :: 0 <= e.at < RATE_WINDOW_MS && e.pruneAt - e.at <= 1
  {
    var events := SixtyOne();
    forall k | 0 <= k < 60
      ensures events[k] == Nth(k) && Nth(k).at == Nth(k).pruneAt == 0
    {
      assert k / 61 == 0 && k % 61 == k;
    }
    assert events[60] == Late();
  }

  lemma {:induction false} SixtyCounted()
    ensures CountAfter(Admissions(Run(FirstOf(60)).1, "client"), -1) == 60
  {
    LiveAdmitted(60);
    AtMostAll(FirstOf(60), "client", -1);
  }

  lemma {:induction false} SixtyOneCounted(events: seq<Event>)
    requires events == FirstOf(60) + [Late()]
    ensures CountAfter(Admissions(Run(events).1, "client"), -1) == 61
  {
    SixtyCounted();
    LateAccepted();
    LastCounts(FirstOf(60), Late(), "client");
  }

  /** The bound of 61 is met: a jump of one millisecond between two readings of the clock is enough for
      61 requests to be admitted with their first readings in the same minute. */
  lemma {:induction false} SixtyOneInOneMinute()
    ensures Clocked(SixtyOne())
    ensures forall e | e in SixtyOne() :: 0 <= e.at < RATE_WINDOW_MS && e.pruneAt - e.at <= 1
    ensures CountAfter(Admissions(Run(SixtyOne()).1, "client"), -1) == 61
  {
    SixtyOneClocked();
    SixtyOneCounted(SixtyOne());
  }

  lemma {:induction false} LastCounts(events: seq<Event>, e: Event, client: string)
    requires Step(Run(events).0, e).1 == Accepted && e.request.client == client && e.at > -1
    ensures CountAfter(Admissions(Run(events + [e]).1, client), -1)
         == CountAfter(Admissions(Run(events).1, client), -1) + 1
  {
    assert (events + [e])[..|events|] == events;
    CountGrows(Run(events).1, Entry(e, Accepted), client, -1);
  }

  lemma {:induction false} LiveAdmitted(n: nat)
    requires n <= 609
    ensures n <= CountAfter(Admissions(Run(FirstOf(n)).1, "client"), -1)
  {
    var (s, history) := Run(FirstOf(n));
    FirstClocked(n);
    FirstAccepted(n);
    assert NoncesCounted(s, history) by {
      RunConsistent(FirstOf(n), 0);
    }
    assert Unexpired(NoncesOf(s, "client"), NONCE_LIFETIME_MS - 1) == NoncesOf(s, "client");
  }

  /** The bound of 609 nonces is met as well, after nine minutes of 61 requests and 60 requests more,
      with a jump of a minute between the two readings of every 61st. */
  lemma {:induction false} NoncesReachBound(n: nat)
    requires n <= 609
    ensures Clocked(FirstOf(n)) && ClockOf(FirstOf(n), 0) <= 540_000
    ensures |Unexpired(NoncesOf(Run(FirstOf(n)).0, "client"), 540_000)| == n
  {
    FirstClocked(n);
    FirstAccepted(n);
    var nonces := NoncesOf(Run(FirstOf(n)).0, "client");
    assert Unexpired(nonces, 540_000) == nonces;
  }
}
