/** Series of compactions that alternate between the growing conversation and the contexts that were
    sent for it: a request that is over the input limit has its context compacted once more, with the
    same state (src/runtime/pi-provider.ts, src/runtime/agent-session.ts). */
module ForcedCompaction {
  import opened Wrappers
  import opened Compaction

  // ----- what a message stands for

  /** What each message stands for: a message of the conversation for itself, one that renders a summary
      for the messages of the summary. */
  type Means = Message -> seq<Message>

  function AllOrigins(means: Means, messages: seq<Message>): seq<Message> {
    if messages == [] then [] else means(messages[0]) + AllOrigins(means, messages[1..])
  }

  /** The eligible messages that a list stands for. */
  function Meant(means: Means, messages: seq<Message>): seq<Message> {
    Eligible(AllOrigins(means, messages))
  }

  /** A message that holds sponsor data stands for nothing else. */
  predicate Honest(means: Means, message: Message) {
    message.sponsored ==> Eligible(means(message)) == []
  }

  predicate AllHonest(means: Means, messages: seq<Message>) {
    forall k | 0 <= k < |messages| :: Honest(means, messages[k])
  }

  function ItemOrigins(means: Means, item: Item): seq<Message> {
    match item
    case SummaryItem(summary) => AllOrigins(means, summary.covers)
    case Kept(message) => means(message)
  }

  function Sent(means: Means, items: seq<Item>): seq<Message> {
    if items == [] then [] else ItemOrigins(means, items[0]) + Sent(means, items[1..])
  }

  lemma {:induction false} OriginsOfFirst(means: Means, messages: seq<Message>)
    requires messages != []
    ensures AllOrigins(means, messages) == means(messages[0]) + AllOrigins(means, messages[1..])
  {
  }

  lemma {:induction false} OriginsConcat(means: Means, left: seq<Message>, right: seq<Message>)
    ensures AllOrigins(means, left + right) == AllOrigins(means, left) + AllOrigins(means, right)
  {
    if left == [] {
      assert left + right == right;
    } else {
      var all := left + right;
      OriginsConcat(means, left[1..], right);
      assert all[0] == left[0] && all[1..] == left[1..] + right;
      OriginsOfFirst(means, all);
      OriginsOfFirst(means, left);
      Associates(means(left[0]), AllOrigins(means, left[1..]), AllOrigins(means, right));
    }
  }

  lemma {:induction false} Associates(a: seq<Message>, b: seq<Message>, c: seq<Message>)
    ensures a + (b + c) == a + b + c
  {
  }

  lemma {:induction false} MeantConcat(means: Means, left: seq<Message>, right: seq<Message>)
    ensures Meant(means, left + right) == Meant(means, left) + Meant(means, right)
  {
    OriginsConcat(means, left, right);
    EligibleConcat(AllOrigins(means, left), AllOrigins(means, right));
  }

  lemma {:induction false} MeantSplit(means: Means, messages: seq<Message>, i: nat, j: nat)
    requires i <= j <= |messages|
    ensures Meant(means, messages[..j]) == Meant(means, messages[..i]) + Meant(means, messages[i..j])
  {
    MeantConcat(means, messages[..i], messages[i..j]);
    assert messages[..i] + messages[i..j] == messages[..j];
  }

  lemma {:induction false} MeantOne(means: Means, message: Message)
    ensures Meant(means, [message]) == Eligible(means(message))
  {
    var one := [message];
    assert AllOrigins(means, one) == means(one[0]) + AllOrigins(means, one[1..]);
    assert AllOrigins(means, one[1..]) == [] && one[0] == message;
    assert AllOrigins(means, one) == means(message);
  }

  /** Leaving out the messages with sponsor data leaves out nothing that is meant. */
  lemma {:induction false} EligibleMeansAll(means: Means, messages: seq<Message>)
    requires AllHonest(means, messages)
    ensures Meant(means, Eligible(messages)) == Meant(means, messages)
  {
    if messages != [] {
      var front, last := messages[..|messages| - 1], messages[|messages| - 1];
      EligibleMeansAll(means, front);
      assert messages == front + [last];
      MeantConcat(means, front, [last]);
      MeantConcat(means, Eligible(front), [last]);
      MeantOne(means, last);
      assert Eligible(messages) == Eligible(front) + if last.sponsored then [] else [last];
      assert last.sponsored ==> Eligible(messages) == Eligible(front);
    }
  }

  // ----- one compaction

  /** The summary stands for the first `count` messages of the list. */
  predicate StandsFor(means: Means, s: State, list: seq<Message>) {
    s.count <= |list| && Meant(means, CoversOf(s.summary)) == Meant(means, list[..s.count])
  }

  lemma {:induction false} FoldStandsExactly(means: Means, s: State, list: seq<Message>, boundary: nat,
                                             provider: Provider)
    requires boundary <= |list| && AllHonest(means, list)
    ensures StandsFor(means, Folded(s, list, boundary, provider), list)
       <==> MustReset(s, list, boundary) || Meant(means, CoversOf(s.summary)) == Meant(means, list[..s.count])
  {
    var basis := Basis(s, list, boundary);
    var stretch := list[basis.count..boundary];
    EligibleMeansAll(means, stretch);
    MeantConcat(means, CoversOf(basis.summary), Added(stretch, basis.summary, provider));
    MeantSplit(means, list, basis.count, boundary);
    SameFront(Meant(means, CoversOf(basis.summary)), Meant(means, list[..basis.count]), Meant(means, stretch));
    assert basis == FRESH ==> list[..0] == [];
  }

  lemma {:induction false} SentPlain(means: Means, messages: seq<Message>)
    ensures Sent(means, Plain(messages)) == AllOrigins(means, messages)
  {
    if messages != [] {
      SentPlain(means, messages[1..]);
      assert Plain(messages)[1..] == Plain(messages[1..]);
    }
  }

  lemma {:induction false} SentOutgoing(means: Means, s: State, list: seq<Message>, last: nat)
    requires last <= |list| && s.summary.Some?
    ensures Eligible(Sent(means, Outgoing(s, list, last)))
         == Meant(means, s.summary.value.covers) + Meant(means, list[last..])
  {
    var items, rest := Outgoing(s, list, last), list[last..];
    SentPlain(means, rest);
    assert items[1..] == Plain(rest);
    assert Sent(means, items) == AllOrigins(means, s.summary.value.covers) + AllOrigins(means, rest);
    EligibleConcat(AllOrigins(means, s.summary.value.covers), AllOrigins(means, rest));
  }

  function FirstOf(list: seq<Message>, n: nat): seq<Message> {
    if n <= |list| then list[..n] else list
  }

  /** A compaction that goes on from the summary of something else: the check of count and signature
      passes, and the summary does not stand for the start of the list. */
  predicate Mistaken(means: Means, s: State, list: seq<Message>, o: Options) {
    && Compacts(list, o) && !MustReset(s, list, Boundary(list, InitialKeep(o.estimates)))
    && Meant(means, CoversOf(s.summary)) != Meant(means, FirstOf(list, s.count))
  }

  lemma {:induction false} FirstFoldExactly(means: Means, s: State, list: seq<Message>, o: Options)
    requires AllHonest(means, list) && Compacts(list, o)
    ensures var first := Boundary(list, InitialKeep(o.estimates));
            && first <= |list|
            && (StandsFor(means, Folded(s, list, first, o.provider), list) <==> !Mistaken(means, s, list, o))
  {
    BoundaryInside(list, InitialKeep(o.estimates));
    FoldStandsExactly(means, s, list, Boundary(list, InitialKeep(o.estimates)), o.provider);
  }

  predicate MadeAt(s: State, list: seq<Message>, n: nat) {
    s.count == n <= |list| && s.summary.Some? && s.signature == SignatureOf(list, n - 1)
  }

  lemma {:induction false} FoldedAt(s: State, list: seq<Message>, boundary: nat, provider: Provider)
    requires boundary <= |list|
    ensures MadeAt(Folded(s, list, boundary, provider), list, boundary)
  {
  }

  lemma {:induction false} SecondFoldAt(s: State, list: seq<Message>, first: nat, last: nat, provider: Provider)
    requires MadeAt(s, list, first) && first <= last <= |list|
    ensures MadeAt(SecondFold(s, list, first, last, provider), list, last)
  {
    if last > first {
      FoldedAt(s, list, last, provider);
    }
  }

  lemma {:induction false} NoResetAt(s: State, list: seq<Message>, first: nat, last: nat)
    requires MadeAt(s, list, first) && first <= last
    ensures !MustReset(s, list, last)
  {
  }

  lemma {:induction false} FoldKeeps(means: Means, s: State, list: seq<Message>, boundary: nat, provider: Provider)
    requires boundary <= |list| && AllHonest(means, list) && !MustReset(s, list, boundary)
    ensures StandsFor(means, Folded(s, list, boundary, provider), list) <==> StandsFor(means, s, list)
  {
    FoldStandsExactly(means, s, list, boundary, provider);
  }

  lemma {:induction false} SecondFoldFor(means: Means, s: State, list: seq<Message>, first: nat, last: nat,
                                         provider: Provider)
    requires AllHonest(means, list) && MadeAt(s, list, first) && first <= last <= |list|
    ensures StandsFor(means, SecondFold(s, list, first, last, provider), list) <==> StandsFor(means, s, list)
  {
    if last > first {
      NoResetAt(s, list, first, last);
      FoldKeeps(means, s, list, last, provider);
    }
  }

  lemma {:induction false} CompactedTo(s: State, list: seq<Message>, o: Options)
    requires Compacts(list, o)
    ensures var (s', items) := Compacted(s, list, o); var last := FinalBoundary(list, o.estimates);
            MadeAt(s', list, last) && items == Outgoing(s', list, last)
  {
    var first, last := Boundary(list, InitialKeep(o.estimates)), FinalBoundary(list, o.estimates);
    BoundaryInside(list, InitialKeep(o.estimates));
    BoundaryInside(list, TighterKeep(o.estimates));
    FoldedAt(s, list, first, o.provider);
    SecondFoldAt(Folded(s, list, first, o.provider), list, first, last, o.again);
  }

  lemma {:induction false} CompactedFor(means: Means, s: State, list: seq<Message>, o: Options)
    requires AllHonest(means, list) && Compacts(list, o)
    ensures StandsFor(means, Compacted(s, list, o).0, list) <==> !Mistaken(means, s, list, o)
  {
    var first, last := Boundary(list, InitialKeep(o.estimates)), FinalBoundary(list, o.estimates);
    BoundaryInside(list, InitialKeep(o.estimates));
    BoundaryInside(list, TighterKeep(o.estimates));
    FirstFoldExactly(means, s, list, o);
    FoldedAt(s, list, first, o.provider);
    SecondFoldFor(means, Folded(s, list, first, o.provider), list, first, last, o.again);
  }

  /** What is sent from a state stands for the whole list exactly when the state stands for its start. */
  lemma {:induction false} OutgoingStandsExactly(means: Means, s: State, list: seq<Message>, last: nat)
    requires MadeAt(s, list, last)
    ensures Eligible(Sent(means, Outgoing(s, list, last))) == Meant(means, list) <==> StandsFor(means, s, list)
  {
    SentOutgoing(means, s, list, last);
    MeantSplit(means, list, last, |list|);
    assert list[..|list|] == list;
    SameFront(Meant(means, s.summary.value.covers), Meant(means, list[..last]), Meant(means, list[last..]));
  }

  /** What one compaction sends stands for the whole list exactly when it does not go on from a summary
      of something else. */
  lemma {:induction false} CompactedStandsExactly(means: Means, s: State, list: seq<Message>, o: Options)
    requires AllHonest(means, list)
    ensures Eligible(Sent(means, Compacted(s, list, o).1)) == Meant(means, list) <==> !Mistaken(means, s, list, o)
  {
    if !Compacts(list, o) {
      SentPlain(means, list);
    } else {
      CompactedTo(s, list, o);
      CompactedFor(means, s, list, o);
      OutgoingStandsExactly(means, Compacted(s, list, o).0, list, FinalBoundary(list, o.estimates));
    }
  }

  // ----- what one compaction adds

  lemma {:induction false} FoldMeans(means: Means, s: State, list: seq<Message>, boundary: nat, provider: Provider)
    requires boundary <= |list| && AllHonest(means, list)
    ensures var basis := Basis(s, list, boundary);
            Meant(means, CoversOf(Folded(s, list, boundary, provider).summary))
            == Meant(means, CoversOf(basis.summary)) + Meant(means, list[basis.count..boundary])
  {
    var basis := Basis(s, list, boundary);
    var stretch := list[basis.count..boundary];
    EligibleMeansAll(means, stretch);
    MeantConcat(means, CoversOf(basis.summary), Added(stretch, basis.summary, provider));
  }

  lemma {:induction false} SecondFoldMeans(means: Means, s: State, list: seq<Message>, first: nat, last: nat,
                                           provider: Provider)
    requires AllHonest(means, list) && MadeAt(s, list, first) && first <= last <= |list|
    ensures Meant(means, CoversOf(SecondFold(s, list, first, last, provider).summary))
         == Meant(means, CoversOf(s.summary)) + Meant(means, list[first..last])
  {
    if last > first {
      assert !MustReset(s, list, last);
      FoldMeans(means, s, list, last, provider);
    } else {
      NothingMeant(means);
      var covers := Meant(means, CoversOf(s.summary));
      assert list[first..last] == [] && covers + [] == covers;
    }
  }

  lemma {:induction false} MeantAcross(means: Means, list: seq<Message>, i: nat, j: nat, k: nat)
    requires i <= j <= k <= |list|
    ensures Meant(means, list[i..k]) == Meant(means, list[i..j]) + Meant(means, list[j..k])
  {
    MeantConcat(means, list[i..j], list[j..k]);
    assert list[i..j] + list[j..k] == list[i..k];
  }

  /** What a compaction leaves in the summary: what the state had that it went on from, and the list
      from the count of that state on. */
  lemma {:induction false} CompactedMeans(means: Means, s: State, list: seq<Message>, o: Options)
    requires AllHonest(means, list) && Compacts(list, o)
    ensures var s' := Compacted(s, list, o).0; var basis := Basis(s, list, Boundary(list, InitialKeep(o.estimates)));
            && basis.count <= Boundary(list, InitialKeep(o.estimates)) <= s'.count <= |list|
            && Meant(means, CoversOf(s'.summary))
               == Meant(means, CoversOf(basis.summary)) + Meant(means, list[basis.count..s'.count])
  {
    var first, last := Boundary(list, InitialKeep(o.estimates)), FinalBoundary(list, o.estimates);
    var basis := Basis(s, list, first);
    BoundaryInside(list, InitialKeep(o.estimates));
    BoundaryInside(list, TighterKeep(o.estimates));
    var s1 := Folded(s, list, first, o.provider);
    FoldedAt(s, list, first, o.provider);
    FoldMeans(means, s, list, first, o.provider);
    SecondFoldAt(s1, list, first, last, o.again);
    SecondFoldMeans(means, s1, list, first, last, o.again);
    MeantAcross(means, list, basis.count, first, last);
    Associates(Meant(means, CoversOf(basis.summary)), Meant(means, list[basis.count..first]),
               Meant(means, list[first..last]));
  }

  // ----- a session: one budget, requests and their retries

  /** What does not change in a session: the threshold comes from the model, the fixed tokens from the
      system prompt and the tools. */
  datatype Budget = Budget(threshold: int, fixedTokens: nat)

  /** The numbers of one compaction that are not given by its messages: the library's own estimates
      before and after, the tokens of the summary, and the models. */
  datatype Numbers = Numbers(estimate: nat, afterEstimate: nat, summaryTokens: nat, provider: Provider,
                             again: Provider)

  function Keep(budget: Budget): int {
    var room := budget.threshold - budget.fixedTokens - CONTEXT_RESERVE_TOKENS / 2;
    Clamp(if room < KEEP_RECENT_TOKENS then room else KEEP_RECENT_TOKENS)
  }

  function Larger(a: int, b: int): int {
    if a >= b then a else b
  }

  /** The options of a compaction of the list. */
  function OptionsFor(budget: Budget, list: seq<Message>, n: Numbers, force: bool): Options {
    BoundaryInside(list, Keep(budget));
    var before := Larger(n.estimate, Tokens(list) + budget.fixedTokens);
    var after := Larger(n.afterEstimate,
                        n.summaryTokens + Tokens(list[Boundary(list, Keep(budget))..]) + budget.fixedTokens);
    Options(force, Estimates(before > budget.threshold, budget.threshold, budget.fixedTokens, after,
                             budget.threshold, budget.fixedTokens, n.summaryTokens), n.provider, n.again)
  }

  lemma {:induction false} KeepIsConstant(budget: Budget, list: seq<Message>, n: Numbers, force: bool)
    ensures InitialKeep(OptionsFor(budget, list, n, force).estimates) == Keep(budget)
  {
  }

  /** A request: the conversation grows and is compacted for it. Its retry, when it is over the input
      limit: its context, as the library rendered it, is compacted once more. */
  datatype Step = Grow(more: seq<Message>, numbers: Numbers) | Forced(context: seq<Message>, numbers: Numbers)

  /** The compaction state, for how many messages of the conversation its summary was made, the
      conversation, what was last sent, and whether that was a request that can still be retried. */
  datatype Session = Session(state: State, stands: nat, messages: seq<Message>, items: seq<Item>,
                             retriable: bool)

  /** The library renders a summary, and one that an earlier session left at the start of the history,
      as a message of the user, and passes every other message on as it is. */
  predicate RendersOne(means: Means, message: Message, item: Item) {
    if item.Kept? && item.message.role != OtherRole then message == item.message
    else message.role == User && Honest(means, message)
         && Eligible(means(message)) == Eligible(ItemOrigins(means, item))
  }

  predicate Renders(means: Means, context: seq<Message>, items: seq<Item>) {
    |context| == |items| && forall k | 0 <= k < |items| :: RendersOne(means, context[k], items[k])
  }

  /** A conversation: its messages stand for themselves, and only the first can be a summary. */
  predicate Conversation(means: Means, messages: seq<Message>) {
    forall k | 0 <= k < |messages| ::
      means(messages[k]) == [messages[k]] && (messages[k].role == OtherRole ==> k == 0)
  }

  predicate Possible(means: Means, session: Session, step: Step) {
    match step
    case Grow(more, _) => Conversation(means, session.messages + more)
    case Forced(context, _) => session.retriable && Renders(means, context, session.items)
  }

  function ListOf(session: Session, step: Step): seq<Message> {
    match step
    case Grow(more, _) => session.messages + more
    case Forced(context, _) => context
  }

  function OptionsOf(budget: Budget, session: Session, step: Step): Options {
    OptionsFor(budget, ListOf(session, step), step.numbers, step.Forced?)
  }

  /** What was last sent starts with a summary. */
  predicate Headed(session: Session) {
    session.items != [] && session.items[0].SummaryItem?
  }

  /** The list that a step compacts stands for the conversation from its start; otherwise its first
      message is the summary of the last compaction. */
  predicate OnWhole(session: Session, step: Step) {
    step.Grow? || !Headed(session)
  }

  function Next(means: Means, budget: Budget, session: Session, step: Step): Session {
    if !Possible(means, session, step) then session
    else
      var list, o := ListOf(session, step), OptionsOf(budget, session, step);
      var messages := session.messages + (if step.Grow? then step.more else []);
      var (s, items) := Compacted(session.state, list, o);
      var stands := if !Compacts(list, o) then session.stands
                    else if OnWhole(session, step) then s.count
                    else if s.count > 0 then session.stands + s.count - 1
                    else session.stands;
      Session(s, stands, messages, items, step.Grow?)
  }

  function Run(means: Means, budget: Budget, steps: seq<Step>): Session {
    if steps == [] then Session(FRESH, 0, [], [], false)
    else Next(means, budget, Run(means, budget, steps[..|steps| - 1]), steps[|steps| - 1])
  }

  // ----- boundaries of what was sent

  /** No clean cut but the start leaves as many tokens. */
  predicate NoLaterCut(list: seq<Message>, keepTokens: int) {
    forall q | 0 < q < |list| && CleanCut(list, q) :: Tokens(list[q..]) < keepTokens
  }

  lemma {:induction false} CleanBehind(list: seq<Message>, p: nat, q: nat)
    requires 0 < q && p + q < |list| && CleanCut(list, p)
    ensures CleanCut(list[p..], q) <==> CleanCut(list, p + q)
  {
    var rest, end := list[p..], p + q;
    if CleanCut(rest, q) {
      forall a | 0 <= a < end
        ensures !Follows(list, a, end)
      {
        if a < p {
          assert !Follows(list, a, p);
        } else {
          assert !Follows(rest, a - p, q);
          var k :| a - p < k <= q && !Answers(rest[k], rest[a - p]);
          assert rest[k] == list[p + k];
        }
      }
    }
    if CleanCut(list, p + q) {
      forall a | 0 <= a < q
        ensures !Follows(rest, a, q)
      {
        assert !Follows(list, p + a, p + q);
        var k :| p + a < k <= p + q && !Answers(list[k], list[p + a]);
        assert list[k] == rest[k - p];
      }
    }
  }

  lemma {:induction false} NoCutAfter(list: seq<Message>, last: nat, keepTokens: int)
    requires last < |list| && CleanCut(list, last)
    requires forall q | last < q < |list| && CleanCut(list, q) :: Tokens(list[q..]) < keepTokens
    ensures NoLaterCut(list[last..], keepTokens)
  {
    forall q | 0 < q < |list[last..]| && CleanCut(list[last..], q)
      ensures Tokens(list[last..][q..]) < keepTokens
    {
      CleanBehind(list, last, q);
      assert list[last..][q..] == list[last + q..];
    }
  }

  /** What a compaction leaves behind its boundary has no later cut of the tokens it asked for. */
  lemma {:induction false} NoCutBehind(list: seq<Message>, o: Options)
    requires Compacts(list, o)
    ensures var last := FinalBoundary(list, o.estimates);
            0 < last < |list| && NoLaterCut(list[last..], InitialKeep(o.estimates))
  {
    LatestCutIs(list, InitialKeep(o.estimates), |list|);
    LatestCutIs(list, TighterKeep(o.estimates), |list|);
    NoCutAfter(list, FinalBoundary(list, o.estimates), InitialKeep(o.estimates));
  }

  /** Behind a message of the user the cuts are those of the rest. */
  lemma {:induction false} HeadIsClean(head: Message, rest: seq<Message>)
    requires head.role != Assistant && rest != []
    ensures CleanCut([head] + rest, 1)
  {
    assert ([head] + rest)[0] == head;
    assert !Answers(([head] + rest)[1], head);
  }

  /** The first boundary of a retry is never behind the summary: the tokens asked for are the same as
      before, and the summary takes the place of what they left out. */
  lemma {:induction false} RetryBoundary(head: Message, rest: seq<Message>, keepTokens: int)
    requires head.role != Assistant && NoLaterCut(rest, keepTokens)
    ensures Boundary([head] + rest, keepTokens) <= 1
  {
    var list := [head] + rest;
    LatestCutIs(list, keepTokens, |list|);
    forall q | 1 < q < |list| && CleanCut(list, q)
      ensures Tokens(list[q..]) < keepTokens
    {
      HeadIsClean(head, rest);
      CleanBehind(list, 1, q - 1);
      assert list[1..] == rest && list[q..] == rest[q - 1..];
    }
  }

  // ----- containment in order

  /** The messages of the one list are among those of the other, in order. */
  predicate Within(small: seq<Message>, big: seq<Message>)
    decreases |big|
  {
    if small == [] then true
    else if big == [] then false
    else if small[|small| - 1] == big[|big| - 1] then Within(small[..|small| - 1], big[..|big| - 1])
    else Within(small, big[..|big| - 1])
  }

  lemma {:induction false} WithinFront(small: seq<Message>, big: seq<Message>)
    requires small != [] && Within(small, big)
    ensures Within(small[..|small| - 1], big)
    decreases |big|
  {
    var front, less := small[..|small| - 1], big[..|big| - 1];
    if small[|small| - 1] != big[|big| - 1] {
      WithinFront(small, less);
    }
    assert Within(front, less);
    if front != [] && front[|front| - 1] == big[|big| - 1] {
      WithinFront(front, less);
    }
  }

  lemma {:induction false} WithinPrefix(small: seq<Message>, more: seq<Message>, big: seq<Message>)
    requires Within(small + more, big)
    ensures Within(small, big)
    decreases |more|
  {
    if more == [] {
      assert small + more == small;
    } else {
      WithinFront(small + more, big);
      assert (small + more)[..|small + more| - 1] == small + more[..|more| - 1];
      WithinPrefix(small, more[..|more| - 1], big);
    }
  }

  lemma {:induction false} WithinConcat(small: seq<Message>, big: seq<Message>, more: seq<Message>)
    requires Within(small, big)
    ensures Within(small + more, big + more)
    decreases |more|
  {
    if more == [] {
      assert small + more == small && big + more == big;
    } else {
      var less := more[..|more| - 1];
      WithinConcat(small, big, less);
      assert (small + more)[..|small + more| - 1] == small + less;
      assert (big + more)[..|big + more| - 1] == big + less;
    }
  }

  lemma {:induction false} WithinItself(messages: seq<Message>)
    ensures Within(messages, messages)
  {
    WithinConcat([], [], messages);
    assert [] + messages == messages;
  }

  // ----- a step on a list that stands for the conversation from its start

  /** The list is the conversation, but for a first message that means the same. */
  predicate Alike(means: Means, list: seq<Message>, messages: seq<Message>) {
    && |list| == |messages| && AllHonest(means, list)
    && (messages != [] ==> list[1..] == messages[1..] && Meant(means, list[..1]) == Meant(means, messages[..1]))
  }

  lemma {:induction false} AlikeMeans(means: Means, list: seq<Message>, messages: seq<Message>, k: nat)
    requires Alike(means, list, messages) && k <= |messages|
    ensures Meant(means, list[..k]) == Meant(means, messages[..k]) && (k > 0 ==> list[k..] == messages[k..])
  {
    if k > 0 {
      MeantSplit(means, list, 1, k);
      MeantSplit(means, messages, 1, k);
      assert list[1..k] == list[1..][..k - 1] == messages[1..][..k - 1] == messages[1..k];
      assert list[k..] == list[1..][k - 1..] == messages[1..][k - 1..] == messages[k..];
    } else {
      assert list[..k] == [] == messages[..k];
    }
  }

  lemma {:induction false} AlikeBetween(means: Means, list: seq<Message>, messages: seq<Message>, i: nat, k: nat)
    requires Alike(means, list, messages) && i <= k <= |messages|
    ensures Meant(means, list[i..k]) == Meant(means, messages[i..k])
  {
    AlikeMeans(means, list, messages, k);
    AlikeMeans(means, list, messages, i);
    if i > 0 {
      assert list[i..k] == list[i..][..k - i] == messages[i..][..k - i] == messages[i..k];
    } else {
      assert list[0..k] == list[..k] && messages[0..k] == messages[..k];
    }
  }

  /** The check lets the compaction go on from the state. */
  predicate GoesOn(s: State, list: seq<Message>, o: Options) {
    !MustReset(s, list, Boundary(list, InitialKeep(o.estimates)))
  }

  lemma {:induction false} WholeMeans(means: Means, s: State, list: seq<Message>, messages: seq<Message>, o: Options)
    requires Alike(means, list, messages) && Compacts(list, o)
    ensures var s' := Compacted(s, list, o).0;
            && 0 < s'.count <= |messages| && (GoesOn(s, list, o) ==> s.count <= s'.count)
            && Meant(means, CoversOf(s'.summary))
               == if GoesOn(s, list, o)
                  then Meant(means, CoversOf(s.summary)) + Meant(means, messages[s.count..s'.count])
                  else Meant(means, messages[..s'.count])
  {
    var s' := Compacted(s, list, o).0;
    CompactedMeans(means, s, list, o);
    if GoesOn(s, list, o) {
      AlikeBetween(means, list, messages, s.count, s'.count);
    } else {
      AlikeBetween(means, list, messages, 0, s'.count);
      assert messages[0..s'.count] == messages[..s'.count];
    }
  }

  // ----- a retry of a context that starts with a summary

  /** The first message of the context stands for what the summary of the state was made from. */
  predicate HeadOf(means: Means, s: State, head: Message) {
    s.summary.Some? && 0 < s.count && head.role == User && Honest(means, head)
    && Eligible(means(head)) == Meant(means, CoversOf(s.summary))
  }

  /** What the first fold of a retry goes on from: the summary, as the state or as the first message. */
  lemma {:induction false} HeadTakes(means: Means, s: State, head: Message, list: seq<Message>, n: nat)
    requires HeadOf(means, s, head) && list != [] && list[0] == head && 1 <= n <= |list|
    ensures var basis := Basis(s, list, 1);
            && basis.count <= 1
            && Meant(means, CoversOf(basis.summary)) + Meant(means, list[basis.count..n])
               == Meant(means, CoversOf(s.summary)) + Meant(means, list[1..n])
  {
    if MustReset(s, list, 1) {
      MeantAcross(means, list, 0, 1, n);
      assert list[0..1] == [head];
      MeantOne(means, head);
      NothingMeant(means);
      assert [] + Meant(means, list[0..n]) == Meant(means, list[0..n]);
    }
  }

  /** A retry never goes on from a summary of something else: what it sends stands for the same, and
      the summary it leaves for the same and the messages its second fold took in. */
  lemma {:induction false} RetryMeans(means: Means, s: State, head: Message, rest: seq<Message>, o: Options)
    requires HeadOf(means, s, head) && AllHonest(means, rest) && NoLaterCut(rest, InitialKeep(o.estimates))
    requires Compacts([head] + rest, o)
    ensures var list := [head] + rest; var s' := Compacted(s, list, o).0;
            && Boundary(list, InitialKeep(o.estimates)) == 1 <= s'.count <= |list|
            && Meant(means, CoversOf(s'.summary))
               == Meant(means, CoversOf(s.summary)) + Meant(means, rest[..s'.count - 1])
            && list[s'.count..] == rest[s'.count - 1..]
  {
    var list := [head] + rest;
    var s' := Compacted(s, list, o).0;
    RetryBoundary(head, rest, InitialKeep(o.estimates));
    HeadHonest(means, head, rest);
    CompactedMeans(means, s, list, o);
    HeadTakes(means, s, head, list, s'.count);
    assert list[1..s'.count] == rest[..s'.count - 1];
  }

  lemma {:induction false} HeadHonest(means: Means, head: Message, rest: seq<Message>)
    requires Honest(means, head) && AllHonest(means, rest)
    ensures AllHonest(means, [head] + rest)
  {
    var list := [head] + rest;
    assert forall k | 0 < k < |list| :: list[k] == rest[k - 1];
  }

  lemma {:induction false} NothingMeant(means: Means)
    ensures Meant(means, []) == []
  {
  }

  // ----- runs

  /** What a request left to be retried: the conversation itself, or the summary of the state and the
      conversation behind it, without a later cut. */
  predicate Ready(budget: Budget, session: Session)
    requires session.stands <= |session.messages|
  {
    var rest := session.messages[session.stands..];
    || session.items == Plain(session.messages)
    || (&& session.state.summary.Some? && 0 < session.state.count <= session.stands
        && session.items == [SummaryItem(session.state.summary.value)] + Plain(rest)
        && NoLaterCut(rest, Keep(budget)))
  }

  /** The summary holds at least what it stands for, and nothing is missing from what was sent. */
  ghost predicate Inv(means: Means, budget: Budget, session: Session) {
    && Conversation(means, session.messages)
    && session.state.count <= session.stands <= |session.messages|
    && Within(Meant(means, session.messages[..session.stands]), Meant(means, CoversOf(session.state.summary)))
    && Within(Meant(means, session.messages), Eligible(Sent(means, session.items)))
    && (session.retriable ==> Ready(budget, session))
  }

  lemma {:induction false} ConversationHonest(means: Means, messages: seq<Message>)
    requires Conversation(means, messages)
    ensures AllHonest(means, messages) && Alike(means, messages, messages)
  {
    forall k | 0 <= k < |messages|
      ensures Honest(means, messages[k])
    {
      assert [messages[k]][..0] == [];
    }
  }

  /** A retry of a context that was sent whole has the conversation before it. */
  lemma {:induction false} RenderedAlike(means: Means, context: seq<Message>, messages: seq<Message>)
    requires Conversation(means, messages) && Renders(means, context, Plain(messages))
    ensures Alike(means, context, messages)
  {
    ConversationHonest(means, messages);
    forall k | 0 <= k < |messages|
      ensures Honest(means, context[k]) && (k > 0 ==> context[k] == messages[k])
    {
      assert RendersOne(means, context[k], Plain(messages)[k]);
    }
    if messages != [] {
      assert context[1..] == messages[1..];
      assert context[..1] == [context[0]] && messages[..1] == [messages[0]];
      MeantOne(means, context[0]);
      MeantOne(means, messages[0]);
      assert RendersOne(means, context[0], Plain(messages)[0]);
    }
  }

  /** What a compaction of the whole conversation leaves and sends. */
  lemma {:induction false} WholeStep(means: Means, s: State, stands: nat, list: seq<Message>, messages: seq<Message>,
                                     o: Options)
    requires Alike(means, list, messages) && s.count <= stands <= |messages|
    requires Within(Meant(means, messages[..stands]), Meant(means, CoversOf(s.summary)))
    requires Compacts(list, o)
    ensures var (s', items) := Compacted(s, list, o);
            && 0 < s'.count < |messages| && s'.summary.Some?
            && Within(Meant(means, messages[..s'.count]), Meant(means, CoversOf(s'.summary)))
            && items == [SummaryItem(s'.summary.value)] + Plain(messages[s'.count..])
            && NoLaterCut(messages[s'.count..], InitialKeep(o.estimates))
  {
    var s' := Compacted(s, list, o).0;
    CompactedTo(s, list, o);
    NoCutBehind(list, o);
    WholeMeans(means, s, list, messages, o);
    AlikeMeans(means, list, messages, s'.count);
    if GoesOn(s, list, o) {
      MeantSplit(means, messages, s.count, stands);
      WithinPrefix(Meant(means, messages[..s.count]), Meant(means, messages[s.count..stands]),
                   Meant(means, CoversOf(s.summary)));
      MeantSplit(means, messages, s.count, s'.count);
      WithinConcat(Meant(means, messages[..s.count]), Meant(means, CoversOf(s.summary)),
                   Meant(means, messages[s.count..s'.count]));
    } else {
      WithinItself(Meant(means, messages[..s'.count]));
    }
  }

  /** What is sent behind a summary lacks nothing that the summary holds. */
  lemma {:induction false} SentHolds(means: Means, s: State, messages: seq<Message>, n: nat)
    requires n <= |messages| && s.summary.Some?
    requires Within(Meant(means, messages[..n]), Meant(means, CoversOf(s.summary)))
    ensures Within(Meant(means, messages), Eligible(Sent(means, Outgoing(s, messages, n))))
  {
    SentOutgoing(means, s, messages, n);
    MeantSplit(means, messages, n, |messages|);
    assert messages[..|messages|] == messages;
    WithinConcat(Meant(means, messages[..n]), Meant(means, CoversOf(s.summary)), Meant(means, messages[n..]));
  }

  lemma {:induction false} PlainSends(means: Means, messages: seq<Message>)
    ensures Eligible(Sent(means, Plain(messages))) == Meant(means, messages)
  {
    SentPlain(means, messages);
  }

  /** A step on a list that stands for the whole conversation, which may have grown. */
  ghost predicate Whole(means: Means, budget: Budget, session: Session, next: Session, list: seq<Message>, o: Options) {
    && session.messages <= next.messages && Conversation(means, next.messages) && Alike(means, list, next.messages)
    && (next.state, next.items) == Compacted(session.state, list, o) && InitialKeep(o.estimates) == Keep(budget)
    && next.stands == (if Compacts(list, o) then next.state.count else session.stands)
    && (next.retriable ==> list == next.messages)
  }

  lemma {:induction false} GrowIsWhole(means: Means, budget: Budget, session: Session, step: Step)
    requires Possible(means, session, step) && step.Grow?
    ensures Whole(means, budget, session, Next(means, budget, session, step), ListOf(session, step),
                  OptionsOf(budget, session, step))
  {
    KeepIsConstant(budget, ListOf(session, step), step.numbers, false);
    ConversationHonest(means, ListOf(session, step));
  }

  lemma {:induction false} RetryIsWhole(means: Means, budget: Budget, session: Session, step: Step)
    requires Conversation(means, session.messages) && session.items == Plain(session.messages)
    requires Possible(means, session, step) && step.Forced?
    ensures Whole(means, budget, session, Next(means, budget, session, step), step.context,
                  OptionsOf(budget, session, step))
  {
    KeepIsConstant(budget, step.context, step.numbers, true);
    RenderedAlike(means, step.context, session.messages);
    assert session.messages + [] == session.messages;
  }

  lemma {:induction false} OnWholeIsWhole(means: Means, budget: Budget, session: Session, step: Step)
    requires Inv(means, budget, session) && Possible(means, session, step) && OnWhole(session, step)
    ensures Whole(means, budget, session, Next(means, budget, session, step), ListOf(session, step),
                  OptionsOf(budget, session, step))
  {
    if step.Grow? {
      GrowIsWhole(means, budget, session, step);
    } else {
      assert Ready(budget, session);
      RetryIsWhole(means, budget, session, step);
    }
  }

  lemma {:induction false} AlikeSends(means: Means, list: seq<Message>, messages: seq<Message>)
    requires Alike(means, list, messages)
    ensures Eligible(Sent(means, Plain(list))) == Meant(means, messages)
  {
    PlainSends(means, list);
    AlikeMeans(means, list, messages, |list|);
    assert list[..|list|] == list && messages[..|list|] == messages;
  }

  lemma {:induction false} WholePlainKeepsInv(means: Means, budget: Budget, session: Session, next: Session,
                                              list: seq<Message>, o: Options)
    requires Inv(means, budget, session) && Whole(means, budget, session, next, list, o) && !Compacts(list, o)
    ensures Inv(means, budget, next)
  {
    AlikeSends(means, list, next.messages);
    WithinItself(Meant(means, next.messages));
    assert next.messages[..next.stands] == session.messages[..session.stands];
  }

  lemma {:induction false} WholeCompactedKeepsInv(means: Means, budget: Budget, session: Session, next: Session,
                                                  list: seq<Message>, o: Options)
    requires Inv(means, budget, session) && Whole(means, budget, session, next, list, o) && Compacts(list, o)
    ensures Inv(means, budget, next)
  {
    assert next.messages[..session.stands] == session.messages[..session.stands];
    WholeStep(means, session.state, session.stands, list, next.messages, o);
    SentHolds(means, next.state, next.messages, next.state.count);
  }

  lemma {:induction false} HeadedReady(budget: Budget, session: Session)
    requires session.stands <= |session.messages| && Ready(budget, session) && Headed(session)
    ensures session.state.summary.Some? && 0 < session.state.count <= session.stands
    ensures session.items == Outgoing(session.state, session.messages, session.stands)
    ensures NoLaterCut(session.messages[session.stands..], Keep(budget))
  {
    assert session.items != Plain(session.messages);
  }

  lemma {:induction false} RenderedRest(means: Means, context: seq<Message>, item: Item, rest: seq<Message>)
    requires Renders(means, context, [item] + Plain(rest))
    requires forall k | 0 <= k < |rest| :: rest[k].role != OtherRole
    ensures context == [context[0]] + rest && RendersOne(means, context[0], item)
  {
    var items := [item] + Plain(rest);
    forall k | 0 <= k < |rest|
      ensures context[k + 1] == rest[k]
    {
      assert RendersOne(means, context[k + 1], items[k + 1]) && items[k + 1] == Kept(rest[k]);
    }
    assert RendersOne(means, context[0], items[0]);
  }

  /** The context of a retry that starts with a summary: the rest is the conversation as it is. */
  lemma {:induction false} RenderedHeaded(means: Means, budget: Budget, session: Session, context: seq<Message>)
    requires Inv(means, budget, session) && session.retriable && Headed(session)
    requires Renders(means, context, session.items)
    ensures context == [context[0]] + session.messages[session.stands..]
    ensures HeadOf(means, session.state, context[0]) && session.state.count <= session.stands
    ensures session.items == Outgoing(session.state, session.messages, session.stands)
    ensures NoLaterCut(session.messages[session.stands..], Keep(budget))
    ensures AllHonest(means, session.messages[session.stands..])
  {
    HeadedReady(budget, session);
    ConversationHonest(means, session.messages);
    RenderedRest(means, context, SummaryItem(session.state.summary.value), session.messages[session.stands..]);
  }

  /** What such a context stands for: the summary, and the rest. */
  lemma {:induction false} HeadedMeans(means: Means, s: State, head: Message, messages: seq<Message>, n: nat)
    requires HeadOf(means, s, head) && n <= |messages|
    ensures Meant(means, [head] + messages[n..]) == Eligible(Sent(means, Outgoing(s, messages, n)))
  {
    SentOutgoing(means, s, messages, n);
    MeantConcat(means, [head], messages[n..]);
    MeantOne(means, head);
  }

  lemma {:induction false} AddsUpTo(means: Means, covers: seq<Message>, rest: seq<Message>, k: nat)
    requires k <= |rest|
    ensures covers + Meant(means, rest[..k]) + Meant(means, rest[k..]) == covers + Meant(means, rest)
  {
    MeantSplit(means, rest, k, |rest|);
    assert rest[..|rest|] == rest && rest[k..|rest|] == rest[k..];
    Associates(covers, Meant(means, rest[..k]), Meant(means, rest[k..]));
  }

  lemma {:induction false} OutgoingSame(means: Means, s: State, s': State, list: seq<Message>, messages: seq<Message>,
                                        n: nat)
    requires s.summary.Some? && s'.summary.Some? && n <= |messages| && 1 <= s'.count <= |list|
    requires |list| == 1 + |messages| - n && list[s'.count..] == messages[n..][s'.count - 1..]
    requires Meant(means, CoversOf(s'.summary))
          == Meant(means, CoversOf(s.summary)) + Meant(means, messages[n..][..s'.count - 1])
    ensures Eligible(Sent(means, Outgoing(s', list, s'.count))) == Eligible(Sent(means, Outgoing(s, messages, n)))
  {
    SentOutgoing(means, s, messages, n);
    SentOutgoing(means, s', list, s'.count);
    AddsUpTo(means, Meant(means, CoversOf(s.summary)), messages[n..], s'.count - 1);
  }

  lemma {:induction false} SameStretch(means: Means, messages: seq<Message>, n: nat, m: nat)
    requires n <= m <= |messages|
    ensures Meant(means, messages[n..][..m - n]) == Meant(means, messages[n..m])
  {
    assert messages[n..][..m - n] == messages[n..m];
  }

  lemma {:induction false} StepSent(means: Means, s: State, head: Message, messages: seq<Message>, n: nat, o: Options,
                                    list: seq<Message>, s': State)
    requires HeadOf(means, s, head) && n <= |messages| && AllHonest(means, messages[n..])
    requires NoLaterCut(messages[n..], InitialKeep(o.estimates))
    requires list == [head] + messages[n..] && Compacts(list, o) && s' == Compacted(s, list, o).0
    ensures s'.summary.Some? && 0 < s'.count <= |list|
    ensures Compacted(s, list, o).1 == Outgoing(s', list, s'.count)
    ensures Eligible(Sent(means, Outgoing(s', list, s'.count))) == Eligible(Sent(means, Outgoing(s, messages, n)))
  {
    CompactedTo(s, list, o);
    RetryMeans(means, s, head, messages[n..], o);
    OutgoingSame(means, s, s', list, messages, n);
  }

  lemma {:induction false} StepAdded(means: Means, s: State, head: Message, messages: seq<Message>, n: nat, o: Options,
                                     list: seq<Message>, s': State, m: int)
    requires HeadOf(means, s, head) && n <= |messages| && AllHonest(means, messages[n..])
    requires NoLaterCut(messages[n..], InitialKeep(o.estimates))
    requires list == [head] + messages[n..] && Compacts(list, o) && s' == Compacted(s, list, o).0
    requires m == n + s'.count - 1
    ensures n <= m <= |messages|
    ensures Meant(means, CoversOf(s'.summary))
         == Meant(means, CoversOf(s.summary)) + Meant(means, messages[n..m])
  {
    RetryMeans(means, s, head, messages[n..], o);
    SameStretch(means, messages, n, m);
  }

  /** What a session is after a retry of a context that starts with a summary. */
  lemma {:induction false} RetryNext(means: Means, budget: Budget, session: Session, step: Step)
    requires Possible(means, session, step) && step.Forced? && Headed(session)
    ensures var next := Next(means, budget, session, step); var o := OptionsOf(budget, session, step);
            var (s', items) := Compacted(session.state, step.context, o);
            var further := if Compacts(step.context, o) then Larger(s'.count - 1, 0) else 0;
            next == Session(s', session.stands + further, session.messages, items, false)
  {
    assert session.messages + [] == session.messages;
  }

  /** After a retry of a context that starts with a summary: what is sent stands for exactly what was
      sent before, and the summary has grown by the messages it now stands for. */
  ghost predicate Same(means: Means, session: Session, next: Session) {
    && Eligible(Sent(means, next.items)) == Eligible(Sent(means, session.items))
    && session.stands <= next.stands <= |session.messages| && next.state.count <= next.stands
    && next.messages == session.messages && !next.retriable
    && Meant(means, CoversOf(next.state.summary))
       == Meant(means, CoversOf(session.state.summary))
          + Meant(means, session.messages[session.stands..next.stands])
  }

  lemma {:induction false} NothingAdded(means: Means, covers: seq<Message>, messages: seq<Message>, n: nat)
    requires n <= |messages|
    ensures covers == covers + Meant(means, messages[n..n])
  {
    NothingMeant(means);
    assert messages[n..n] == [] && covers + [] == covers;
  }

  lemma {:induction false} PlainSame(means: Means, session: Session, next: Session, head: Message)
    requires session.state.count <= session.stands <= |session.messages| && HeadOf(means, session.state, head)
    requires session.items == Outgoing(session.state, session.messages, session.stands)
    requires next == Session(session.state, session.stands, session.messages,
                             Plain([head] + session.messages[session.stands..]), false)
    ensures Same(means, session, next)
  {
    var n, messages := session.stands, session.messages;
    PlainSends(means, [head] + messages[n..]);
    HeadedMeans(means, session.state, head, messages, n);
    NothingAdded(means, Meant(means, CoversOf(session.state.summary)), messages, n);
  }

  /** The context is the summary of the session and the conversation behind it, and it was compacted. */
  ghost predicate Stepped(means: Means, session: Session, next: Session, o: Options, list: seq<Message>) {
    && session.state.count <= session.stands <= |session.messages| && list != []
    && HeadOf(means, session.state, list[0])
    && session.items == Outgoing(session.state, session.messages, session.stands)
    && AllHonest(means, session.messages[session.stands..])
    && NoLaterCut(session.messages[session.stands..], InitialKeep(o.estimates))
    && list == [list[0]] + session.messages[session.stands..] && Compacts(list, o)
    && (next.state, next.items) == Compacted(session.state, list, o)
    && next.stands == session.stands + next.state.count - 1
    && next.messages == session.messages && !next.retriable
  }

  lemma {:induction false} StepSends(means: Means, session: Session, next: Session, o: Options, list: seq<Message>)
    requires Stepped(means, session, next, o, list)
    ensures 0 < next.state.count && next.stands == session.stands + next.state.count - 1 <= |session.messages|
    ensures Eligible(Sent(means, next.items)) == Eligible(Sent(means, session.items))
  {
    StepSent(means, session.state, list[0], session.messages, session.stands, o, list, next.state);
    assert next.items == Outgoing(next.state, list, next.state.count);
  }

  lemma {:induction false} StepAdds(means: Means, session: Session, next: Session, o: Options, list: seq<Message>)
    requires Stepped(means, session, next, o, list)
    ensures session.stands <= next.stands <= |session.messages|
    ensures Meant(means, CoversOf(next.state.summary))
         == Meant(means, CoversOf(session.state.summary))
            + Meant(means, session.messages[session.stands..next.stands])
  {
    StepAdded(means, session.state, list[0], session.messages, session.stands, o, list, next.state, next.stands);
  }

  lemma {:induction false} RetryStepped(means: Means, budget: Budget, session: Session, step: Step)
    requires Inv(means, budget, session) && Possible(means, session, step) && step.Forced? && Headed(session)
    requires Compacts(step.context, OptionsOf(budget, session, step))
    ensures Stepped(means, session, Next(means, budget, session, step), OptionsOf(budget, session, step),
                    step.context)
  {
    RenderedHeaded(means, budget, session, step.context);
    KeepIsConstant(budget, step.context, step.numbers, true);
    RetryNext(means, budget, session, step);
    CompactedTo(session.state, step.context, OptionsOf(budget, session, step));
    NoCutBehind(step.context, OptionsOf(budget, session, step));
  }

  lemma {:induction false} RetryPlain(means: Means, budget: Budget, session: Session, step: Step)
    requires Inv(means, budget, session) && Possible(means, session, step) && step.Forced? && Headed(session)
    requires !Compacts(step.context, OptionsOf(budget, session, step))
    ensures Same(means, session, Next(means, budget, session, step))
  {
    RenderedHeaded(means, budget, session, step.context);
    RetryNext(means, budget, session, step);
    PlainSame(means, session, Next(means, budget, session, step), step.context[0]);
  }

  lemma {:induction false} RetrySame(means: Means, budget: Budget, session: Session, step: Step)
    requires Inv(means, budget, session) && Possible(means, session, step) && step.Forced? && Headed(session)
    ensures Same(means, session, Next(means, budget, session, step))
  {
    var o, next := OptionsOf(budget, session, step), Next(means, budget, session, step);
    if Compacts(step.context, o) {
      RetryStepped(means, budget, session, step);
      StepSends(means, session, next, o, step.context);
      StepAdds(means, session, next, o, step.context);
    } else {
      RetryPlain(means, budget, session, step);
    }
  }

  lemma {:induction false} RetryKeepsInv(means: Means, budget: Budget, session: Session, step: Step)
    requires Inv(means, budget, session) && Possible(means, session, step) && step.Forced? && Headed(session)
    ensures Inv(means, budget, Next(means, budget, session, step))
  {
    var next := Next(means, budget, session, step);
    var n, messages := session.stands, session.messages;
    RetrySame(means, budget, session, step);
    WithinConcat(Meant(means, messages[..n]), Meant(means, CoversOf(session.state.summary)),
                 Meant(means, messages[n..next.stands]));
    MeantSplit(means, messages, n, next.stands);
    assert next.messages == messages;
  }

  lemma {:induction false} NextKeepsInv(means: Means, budget: Budget, session: Session, step: Step)
    requires Inv(means, budget, session)
    ensures Inv(means, budget, Next(means, budget, session, step))
  {
    if Possible(means, session, step) {
      var next, list, o := Next(means, budget, session, step), ListOf(session, step), OptionsOf(budget, session, step);
      if !OnWhole(session, step) {
        RetryKeepsInv(means, budget, session, step);
      } else {
        OnWholeIsWhole(means, budget, session, step);
        if Compacts(list, o) {
          WholeCompactedKeepsInv(means, budget, session, next, list, o);
        } else {
          WholePlainKeepsInv(means, budget, session, next, list, o);
        }
      }
    }
  }

  /** A conversation stands for itself. */
  lemma {:induction false} ItselfIsMeant(means: Means, messages: seq<Message>)
    requires forall k | 0 <= k < |messages| :: means(messages[k]) == [messages[k]]
    ensures Meant(means, messages) == Eligible(messages)
  {
    OwnOrigins(means, messages);
  }

  lemma {:induction false} OwnOrigins(means: Means, messages: seq<Message>)
    requires forall k | 0 <= k < |messages| :: means(messages[k]) == [messages[k]]
    ensures AllOrigins(means, messages) == messages
  {
    if messages != [] {
      OwnOrigins(means, messages[1..]);
      assert messages == [messages[0]] + messages[1..];
    }
  }

  lemma {:induction false} RunKeepsInv(means: Means, budget: Budget, steps: seq<Step>)
    ensures Inv(means, budget, Run(means, budget, steps))
    decreases |steps|
  {
    if steps != [] {
      var front := steps[..|steps| - 1];
      RunKeepsInv(means, budget, front);
      NextKeepsInv(means, budget, Run(means, budget, front), steps[|steps| - 1]);
    }
  }

  /** Over every series of requests and retries of a session, nothing sent ever lacks a message: every
      eligible message of the conversation is in it, in order, whatever signatures agree and whatever
      requests to the model fail. */
  lemma {:induction false} NothingIsMissing(means: Means, budget: Budget, steps: seq<Step>)
    ensures var session := Run(means, budget, steps);
            Within(Eligible(session.messages), Eligible(Sent(means, session.items)))
  {
    RunKeepsInv(means, budget, steps);
    ItselfIsMeant(means, Run(means, budget, steps).messages);
  }

  /** A retry of a context that starts with a summary, in any series: its first fold takes in nothing
      but that summary, what it sends stands for exactly what was sent before, and the summary it leaves
      has grown by the messages its second fold took in. */
  lemma {:induction false} RetrySendsSame(means: Means, budget: Budget, steps: seq<Step>, step: Step)
    requires var session := Run(means, budget, steps);
             Possible(means, session, step) && step.Forced? && Headed(session)
    ensures var session := Run(means, budget, steps); var next := Next(means, budget, session, step);
            Boundary(step.context, Keep(budget)) <= 1 && Same(means, session, next)
  {
    var session := Run(means, budget, steps);
    RunKeepsInv(means, budget, steps);
    RenderedHeaded(means, budget, session, step.context);
    RetryBoundary(step.context[0], session.messages[session.stands..], Keep(budget));
    RetrySame(means, budget, session, step);
  }

  // ----- exactly when messages are sent twice

  /** The summary holds what it stands for and nothing else. */
  predicate Sound(means: Means, session: Session) {
    && session.stands <= |session.messages|
    && Meant(means, CoversOf(session.state.summary)) == Meant(means, session.messages[..session.stands])
  }

  /** What was last sent stands for the whole conversation: each eligible message once, in order. */
  predicate SendsAll(means: Means, session: Session) {
    Eligible(Sent(means, session.items)) == Eligible(session.messages)
  }

  /** A compaction of the whole conversation that goes on from a summary which, behind its count, has
      taken in eligible messages. */
  predicate Repeats(means: Means, budget: Budget, session: Session, step: Step) {
    var list, o := ListOf(session, step), OptionsOf(budget, session, step);
    && Possible(means, session, step) && OnWhole(session, step) && Compacts(list, o)
    && GoesOn(session.state, list, o)
    && session.state.count <= session.stands <= |session.messages|
    && Eligible(session.messages[session.state.count..session.stands]) != []
  }

  lemma {:induction false} PlainExactly(means: Means, budget: Budget, session: Session, next: Session,
                                        list: seq<Message>, o: Options)
    requires Whole(means, budget, session, next, list, o) && Sound(means, session) && !Compacts(list, o)
    ensures SendsAll(means, next) && Sound(means, next)
  {
    AlikeSends(means, list, next.messages);
    ItselfIsMeant(means, next.messages);
    assert next.messages[..next.stands] == session.messages[..session.stands];
  }

  /** A compaction that goes on takes in the messages from its count on once more. */
  lemma {:induction false} TakesFrom(means: Means, session: Session, messages: seq<Message>, n: nat)
    requires session.state.count <= session.stands <= |messages| && session.state.count <= n <= |messages|
    ensures var count := session.state.count; var before := Meant(means, messages[..session.stands]);
            && before + Meant(means, messages[count..n]) + Meant(means, messages[n..])
               == before + Meant(means, messages[count..])
            && (before + Meant(means, messages[count..]) == Meant(means, messages)
                <==> Meant(means, messages[count..session.stands]) == [])
            && (before + Meant(means, messages[count..n]) == Meant(means, messages[..n])
                <==> Meant(means, messages[count..session.stands]) == [])
  {
    var count, stands := session.state.count, session.stands;
    var before := Meant(means, messages[..stands]);
    MeantAcross(means, messages, count, n, |messages|);
    assert messages[n..|messages|] == messages[n..] && messages[count..|messages|] == messages[count..];
    Associates(before, Meant(means, messages[count..n]), Meant(means, messages[n..]));
    MeantSplit(means, messages, count, stands);
    MeantSplit(means, messages, count, n);
    MeantSplit(means, messages, count, |messages|);
    assert messages[..|messages|] == messages;
    SameFront(before, Meant(means, messages[..count]), Meant(means, messages[count..]));
    SameFront(before, Meant(means, messages[..count]), Meant(means, messages[count..n]));
    NoLonger(Meant(means, messages[..count]), Meant(means, messages[count..stands]));
  }

  lemma {:induction false} NoLonger(a: seq<Message>, b: seq<Message>)
    ensures a + b == a <==> b == []
  {
    if b != [] {
      assert |a + b| != |a|;
    }
  }

  /** What a compaction of the whole conversation leaves: a summary of what it went on from and of the
      messages behind, and what follows it is sent. */
  predicate Taken(means: Means, session: Session, next: Session, goesOn: bool) {
    && session.state.count <= session.stands <= |session.messages| && session.messages <= next.messages
    && next.stands == next.state.count <= |next.messages| && (goesOn ==> session.state.count <= next.stands)
    && next.state.summary.Some? && next.items == Outgoing(next.state, next.messages, next.stands)
    && Meant(means, CoversOf(next.state.summary))
       == if goesOn
          then Meant(means, CoversOf(session.state.summary))
               + Meant(means, next.messages[session.state.count..next.stands])
          else Meant(means, next.messages[..next.stands])
  }

  lemma {:induction false} WholeTakes(means: Means, budget: Budget, session: Session, next: Session,
                                      list: seq<Message>, o: Options)
    requires Inv(means, budget, session) && Whole(means, budget, session, next, list, o) && Compacts(list, o)
    ensures Taken(means, session, next, GoesOn(session.state, list, o))
  {
    assert next.messages[..session.stands] == session.messages[..session.stands];
    WholeStep(means, session.state, session.stands, list, next.messages, o);
    WholeMeans(means, session.state, list, next.messages, o);
  }

  lemma {:induction false} ResetExactly(means: Means, session: Session, next: Session)
    requires Taken(means, session, next, false) && Conversation(means, next.messages)
    ensures SendsAll(means, next) && Sound(means, next)
  {
    var messages := next.messages;
    SentOutgoing(means, next.state, messages, next.stands);
    MeantSplit(means, messages, next.stands, |messages|);
    assert messages[..|messages|] == messages && messages[next.stands..|messages|] == messages[next.stands..];
    ItselfIsMeant(means, messages);
  }

  lemma {:induction false} GoesOnSends(means: Means, session: Session, next: Session)
    requires Taken(means, session, next, true) && Sound(means, session)
    ensures var none := Meant(means, session.messages[session.state.count..session.stands]) == [];
            && Eligible(Sent(means, next.items))
               == Meant(means, session.messages[..session.stands]) + Meant(means, next.messages[session.state.count..])
            && (Eligible(Sent(means, next.items)) == Meant(means, next.messages) <==> none)
            && (Sound(means, next) <==> none)
  {
    var count, stands := session.state.count, session.stands;
    assert next.messages[..stands] == session.messages[..stands];
    assert next.messages[count..stands] == session.messages[count..stands];
    SentOutgoing(means, next.state, next.messages, next.stands);
    TakesFrom(means, session, next.messages, next.stands);
  }

  lemma {:induction false} GoesOnExactly(means: Means, session: Session, next: Session)
    requires Taken(means, session, next, true) && Sound(means, session)
    requires Conversation(means, session.messages) && Conversation(means, next.messages)
    ensures Eligible(Sent(means, next.items))
         == Eligible(session.messages[..session.stands]) + Eligible(next.messages[session.state.count..])
    ensures var none := Eligible(session.messages[session.state.count..session.stands]) == [];
            (SendsAll(means, next) <==> none) && (Sound(means, next) <==> none)
  {
    GoesOnSends(means, session, next);
    ItselfIsMeant(means, session.messages[session.state.count..session.stands]);
    ItselfIsMeant(means, session.messages[..session.stands]);
    ItselfIsMeant(means, next.messages[session.state.count..]);
    ItselfIsMeant(means, next.messages);
  }

  lemma {:induction false} CompactedExactly(means: Means, budget: Budget, session: Session, next: Session,
                                            list: seq<Message>, o: Options)
    requires Inv(means, budget, session) && Whole(means, budget, session, next, list, o) && Compacts(list, o)
    requires Sound(means, session)
    ensures !GoesOn(session.state, list, o) ==> SendsAll(means, next) && Sound(means, next)
    ensures GoesOn(session.state, list, o)
        ==> Eligible(Sent(means, next.items))
            == Eligible(session.messages[..session.stands]) + Eligible(next.messages[session.state.count..])
    ensures var none := Eligible(session.messages[session.state.count..session.stands]) == [];
            GoesOn(session.state, list, o) ==> (SendsAll(means, next) <==> none) && (Sound(means, next) <==> none)
  {
    WholeTakes(means, budget, session, next, list, o);
    if GoesOn(session.state, list, o) {
      GoesOnExactly(means, session, next);
    } else {
      ResetExactly(means, session, next);
    }
  }

  lemma {:induction false} OnWholeExactly(means: Means, budget: Budget, session: Session, step: Step)
    requires Inv(means, budget, session) && Sound(means, session)
    requires Possible(means, session, step) && OnWhole(session, step)
    ensures var next := Next(means, budget, session, step); var count := session.state.count;
            if Repeats(means, budget, session, step)
            then Eligible(Sent(means, next.items))
                 == Eligible(session.messages[..session.stands]) + Eligible(next.messages[count..])
                 && !SendsAll(means, next)
            else SendsAll(means, next) && Sound(means, next)
  {
    var next, list, o := Next(means, budget, session, step), ListOf(session, step), OptionsOf(budget, session, step);
    OnWholeIsWhole(means, budget, session, step);
    if Compacts(list, o) {
      CompactedExactly(means, budget, session, next, list, o);
    } else {
      PlainExactly(means, budget, session, next, list, o);
    }
  }

  lemma {:induction false} RetryExactly(means: Means, budget: Budget, session: Session, step: Step)
    requires Inv(means, budget, session) && Sound(means, session) && SendsAll(means, session)
    requires Possible(means, session, step) && !OnWhole(session, step)
    ensures var next := Next(means, budget, session, step);
            SendsAll(means, next) && Sound(means, next) && !Repeats(means, budget, session, step)
  {
    var next := Next(means, budget, session, step);
    RetrySame(means, budget, session, step);
    MeantSplit(means, session.messages, session.stands, next.stands);
  }

  /** One step: from a session that sends everything once, the next one does so exactly when the step
      does not repeat; otherwise the messages between the count and what the summary stands for are
      sent twice, and everything else once. */
  lemma {:induction false} StepExactly(means: Means, budget: Budget, session: Session, step: Step)
    requires Inv(means, budget, session) && Sound(means, session) && SendsAll(means, session)
    ensures var next := Next(means, budget, session, step);
            && (SendsAll(means, next) <==> !Repeats(means, budget, session, step))
            && (SendsAll(means, next) ==> Sound(means, next))
            && (Repeats(means, budget, session, step)
                ==> Eligible(Sent(means, next.items))
                    == Eligible(session.messages[..session.stands])
                       + Eligible(next.messages[session.state.count..]))
  {
    if Possible(means, session, step) {
      if OnWhole(session, step) {
        OnWholeExactly(means, budget, session, step);
      } else {
        RetryExactly(means, budget, session, step);
      }
    }
  }

  /** After every step of the series, what was sent stands for the whole conversation. */
  predicate AlwaysSendsAll(means: Means, budget: Budget, steps: seq<Step>) {
    steps == [] || (AlwaysSendsAll(means, budget, steps[..|steps| - 1]) && SendsAll(means, Run(means, budget, steps)))
  }

  /** No step of the series repeats. */
  predicate NeverRepeats(means: Means, budget: Budget, steps: seq<Step>) {
    steps == []
    || (NeverRepeats(means, budget, steps[..|steps| - 1])
        && !Repeats(means, budget, Run(means, budget, steps[..|steps| - 1]), steps[|steps| - 1]))
  }

  /** In every series everything sent stands for the whole conversation, each eligible message once and
      in order, if and only if no step compacts the whole conversation behind a retry that folded
      twice, with signatures that agree. */
  lemma {:induction false} AlwaysSendsAllExactly(means: Means, budget: Budget, steps: seq<Step>)
    ensures AlwaysSendsAll(means, budget, steps) <==> NeverRepeats(means, budget, steps)
    ensures NeverRepeats(means, budget, steps)
        ==> SendsAll(means, Run(means, budget, steps)) && Sound(means, Run(means, budget, steps))
    decreases |steps|
  {
    if steps == [] {
      NothingMeant(means);
    } else {
      var front := steps[..|steps| - 1];
      AlwaysSendsAllExactly(means, budget, front);
      RunKeepsInv(means, budget, front);
      if NeverRepeats(means, budget, front) {
        StepExactly(means, budget, Run(means, budget, front), steps[|steps| - 1]);
      }
    }
  }

  /** What the step behind a series that never repeats sends: every eligible message of the conversation
      once, in order; if it repeats, those its summary stood for, and then all from its count on. */
  lemma {:induction false} RepeatedExactly(means: Means, budget: Budget, steps: seq<Step>, step: Step)
    requires NeverRepeats(means, budget, steps)
    ensures var session := Run(means, budget, steps); var next := Next(means, budget, session, step);
            && session.state.count <= session.stands <= |session.messages| <= |next.messages|
            && Eligible(Sent(means, next.items))
               == if Repeats(means, budget, session, step)
                  then Eligible(session.messages[..session.stands])
                       + Eligible(next.messages[session.state.count..])
                  else Eligible(next.messages)
  {
    AlwaysSendsAllExactly(means, budget, steps);
    RunKeepsInv(means, budget, steps);
    StepExactly(means, budget, Run(means, budget, steps), step);
  }

  // ----- such a series

  const SMALL: Budget := Budget(12_288, 0)

  function SummaryOf(tokens: nat, provider: Provider): Numbers {
    Numbers(0, 0, tokens, provider, provider)
  }

  lemma {:induction false} TokensOfTwo(a: Message, b: Message)
    ensures Tokens([a, b]) == a.tokens + b.tokens && Tokens([b]) == b.tokens
  {
    assert [a, b][1..] == [b] && [b][1..] == [];
    assert Tokens([b]) == b.tokens + Tokens([]);
  }

  /** Without tool results a list can be cut anywhere. */
  lemma {:induction false} CutsAnywhere(messages: seq<Message>, p: nat)
    requires p < |messages| && forall k | 0 <= k < |messages| :: messages[k].role != ToolResult
    ensures CleanCut(messages, p)
  {
    forall a | 0 <= a < p
      ensures !Follows(messages, a, p)
    {
      assert !Answers(messages[p], messages[a]);
    }
  }

  /** The boundary lies before the last two messages when they have the tokens asked for and the last
      one has not. */
  lemma {:induction false} BeforeLastTwo(front: seq<Message>, a: Message, b: Message, keepTokens: int)
    requires front != [] && forall m | m in front + [a, b] :: m.role != ToolResult
    requires b.tokens < keepTokens <= a.tokens + b.tokens
    ensures Boundary(front + [a, b], keepTokens) == |front|
  {
    var list, n := front + [a, b], |front|;
    TokensOfTwo(a, b);
    assert list[n..] == [a, b] && list[n + 1..] == [b];
    CutsAnywhere(list, n);
    assert LatestCut(list, keepTokens, n) == n;
    assert LatestCut(list, keepTokens, n + 1) == n;
  }

  lemma {:induction false} BeforeLast(front: seq<Message>, b: Message, keepTokens: int)
    requires front != [] && forall m | m in front + [b] :: m.role != ToolResult
    requires keepTokens <= b.tokens
    ensures Boundary(front + [b], keepTokens) == |front|
  {
    var list, n := front + [b], |front|;
    assert list[n..] == [b] && [b][1..] == [];
    assert Tokens([b]) == b.tokens + Tokens([]);
    CutsAnywhere(list, n);
    assert LatestCut(list, keepTokens, n) == n;
  }

  lemma {:induction false} RunSnoc(means: Means, budget: Budget, steps: seq<Step>, step: Step)
    ensures Run(means, budget, steps + [step]) == Next(means, budget, Run(means, budget, steps), step)
  {
    assert (steps + [step])[..|steps|] == steps;
  }

  /** Messages of the user that stand for themselves. */
  predicate Users(means: Means, messages: seq<Message>) {
    forall k | 0 <= k < |messages| ::
      messages[k].role == User && !messages[k].sponsored && means(messages[k]) == [messages[k]]
  }

  lemma {:induction false} FoldsOnce(list: seq<Message>, tokens: nat, provider: Provider, n: nat)
    requires 0 < n <= |list| && Boundary(list, 4_096) == n && Tokens(list) > 12_288
    requires tokens + Tokens(list[n..]) <= 12_288
    ensures var o := OptionsFor(SMALL, list, SummaryOf(tokens, provider), false);
            Compacts(list, o) && Boundary(list, InitialKeep(o.estimates)) == n == FinalBoundary(list, o.estimates)
  {
  }

  lemma {:induction false} FoldsTwice(list: seq<Message>, n: nat, m: nat)
    requires 0 < n < m <= |list| && Boundary(list, 4_096) == n && Boundary(list, 2_964) == m
    requires 8_300 + Tokens(list[n..]) > 12_288
    ensures var o := OptionsFor(SMALL, list, SummaryOf(8_300, NoModel), true);
            Compacts(list, o) && FinalBoundary(list, o.estimates) == m
  {
  }

  lemma {:induction false} AllTokens(x: Message, rest: seq<Message>)
    requires x.tokens > 12_288
    ensures Tokens([x] + rest) > 12_288
  {
    assert ([x] + rest)[0] == x;
  }

  /** A compaction that leaves the last two messages. */
  lemma {:induction false} LeavesTwo(list: seq<Message>, front: seq<Message>, a: Message, b: Message, tokens: nat,
                                     provider: Provider)
    requires list == front + [a, b] && front != [] && forall m | m in list :: m.role != ToolResult
    requires b.tokens < 4_096 <= a.tokens + b.tokens <= 12_288 - tokens && list[0].tokens > 12_288
    ensures var o := OptionsFor(SMALL, list, SummaryOf(tokens, provider), false);
            && Compacts(list, o)
            && Boundary(list, InitialKeep(o.estimates)) == |front| == FinalBoundary(list, o.estimates)
  {
    BeforeLastTwo(front, a, b, 4_096);
    TokensOfTwo(a, b);
    AllTokens(list[0], list[1..]);
    assert [list[0]] + list[1..] == list && list[|front|..] == [a, b];
    FoldsOnce(list, tokens, provider, |front|);
  }

  /** A forced compaction that first leaves two messages, and then one. */
  lemma {:induction false} LeavesOne(list: seq<Message>, sum: Message, z: Message, w: Message)
    requires list == [sum, z, w] && forall m | m in list :: m.role != ToolResult
    requires z.tokens == 1_500 && w.tokens == 3_000
    ensures var o := OptionsFor(SMALL, list, SummaryOf(8_300, NoModel), true);
            Compacts(list, o) && FinalBoundary(list, o.estimates) == 2
  {
    assert list == [sum] + [z, w] && list == [sum, z] + [w] && list[1..] == [z, w];
    BeforeLastTwo([sum], z, w, 4_096);
    BeforeLast([sum, z], w, 2_964);
    TokensOfTwo(z, w);
    FoldsTwice(list, 1, 2);
  }

  lemma {:induction false} GrowNext(means: Means, session: Session, more: seq<Message>, numbers: Numbers,
                                    list: seq<Message>)
    requires list == session.messages + more && Conversation(means, list)
    requires Compacts(list, OptionsFor(SMALL, list, numbers, false))
    ensures var next := Next(means, SMALL, session, Grow(more, numbers));
            var last := FinalBoundary(list, OptionsFor(SMALL, list, numbers, false).estimates);
            && next.messages == list && next.stands == last && next.retriable
            && MadeAt(next.state, list, last) && next.items == Outgoing(next.state, list, last)
  {
    CompactedTo(session.state, list, OptionsFor(SMALL, list, numbers, false));
  }

  lemma {:induction false} ForcedNext(means: Means, session: Session, context: seq<Message>, numbers: Numbers)
    requires Possible(means, session, Forced(context, numbers)) && Headed(session)
    requires Compacts(context, OptionsFor(SMALL, context, numbers, true))
    requires FinalBoundary(context, OptionsFor(SMALL, context, numbers, true).estimates) > 0
    ensures var next := Next(means, SMALL, session, Forced(context, numbers));
            var last := FinalBoundary(context, OptionsFor(SMALL, context, numbers, true).estimates);
            && next.messages == session.messages && next.stands == session.stands + last - 1
            && MadeAt(next.state, context, last)
  {
    CompactedTo(session.state, context, OptionsFor(SMALL, context, numbers, true));
    assert session.messages + [] == session.messages;
  }

  lemma {:induction false} UsersConverse(means: Means, messages: seq<Message>)
    requires Users(means, messages)
    ensures Conversation(means, messages) && forall m | m in messages :: m.role != ToolResult
  {
  }

  lemma {:induction false} FirstAlike(means: Means, session: Session, x: Message, y: Message, z: Message, w: Message,
                                      list: seq<Message>, provider: Provider)
    requires session.messages == [] && list == [x, y, z, w] && Users(means, list)
    requires x.tokens > 12_288 && z.tokens == 1_500 && w.tokens == 3_000
    ensures var next := Next(means, SMALL, session, Grow(list, SummaryOf(7_700, provider)));
            && next.messages == list && next.stands == 2 == next.state.count && next.retriable
            && next.state.summary.Some? && next.items == Outgoing(next.state, list, 2)
  {
    assert [] + list == list && list == [x, y] + [z, w];
    UsersConverse(means, list);
    LeavesTwo(list, [x, y], z, w, 7_700, provider);
    GrowNext(means, session, list, SummaryOf(7_700, provider), list);
  }

  /** Its retry folds twice, and takes in `z`. */
  lemma {:induction false} SecondAlike(means: Means, session: Session, x: Message, y: Message, z: Message, w: Message,
                                       sum: Message)
    requires Users(means, [x, y, z, w]) && z.tokens == 1_500 && w.tokens == 3_000
    requires session.messages == [x, y, z, w] && session.stands == 2 && session.retriable
    requires session.state.summary.Some? && session.items == Outgoing(session.state, [x, y, z, w], 2)
    requires sum.role == User && !sum.sponsored
    requires Eligible(means(sum)) == Meant(means, session.state.summary.value.covers)
    ensures var step := Forced([sum, z, w], SummaryOf(8_300, NoModel)); var next := Next(means, SMALL, session, step);
            && Possible(means, session, step) && Headed(session)
            && next.messages == [x, y, z, w] && next.stands == 3
            && next.state.count == 2 && next.state.signature == Some(z.signature)
  {
    var numbers := SummaryOf(8_300, NoModel);
    assert [x, y, z, w][2..] == [z, w];
    assert session.items == [SummaryItem(session.state.summary.value), Kept(z), Kept(w)];
    assert Possible(means, session, Forced([sum, z, w], numbers));
    LeavesOne([sum, z, w], sum, z, w);
    ForcedNext(means, session, [sum, z, w], numbers);
  }

  lemma {:induction false} RepeatsThen(means: Means, session: Session, more: seq<Message>, numbers: Numbers,
                                       list: seq<Message>)
    requires list == session.messages + more && Conversation(means, list) && session.stands == 3 <= |session.messages|
    requires Compacts(list, OptionsFor(SMALL, list, numbers, false)) && session.state.count == 2
    requires Boundary(list, Keep(SMALL)) == 3
    ensures Possible(means, session, Grow(more, numbers))
    ensures Repeats(means, SMALL, session, Grow(more, numbers))
       <==> SignatureOf(list, 1) == session.state.signature && Eligible(session.messages[2..3]) != []
  {
    KeepIsConstant(SMALL, list, numbers, false);
  }

  lemma {:induction false} EligibleUsers(means: Means, messages: seq<Message>)
    requires Users(means, messages)
    ensures Eligible(messages) == messages
  {
    EligibleExactly(messages);
    assert forall k | 0 <= k < |messages| :: !messages[k].sponsored;
    assert !HasMarked(messages);
  }

  /** The request behind such a retry goes on exactly when the signatures agree. */
  lemma {:induction false} ThirdAlike(means: Means, session: Session, list: seq<Message>, provider: Provider)
    requires |list| == 5 && Users(means, list) && session.messages == list[..4] && session.stands == 3
    requires list[0].tokens > 12_288 && list[3].tokens == 3_000 && list[4].tokens == 2_000
    requires session.state.count == 2
    ensures var step := Grow([list[4]], SummaryOf(7_000, provider));
            && Possible(means, session, step)
            && (Repeats(means, SMALL, session, step) <==> Some(list[1].signature) == session.state.signature)
  {
    assert list[..4] + [list[4]] == list && list == list[..3] + [list[3], list[4]];
    UsersConverse(means, list);
    LeavesTwo(list, list[..3], list[3], list[4], 7_000, provider);
    RepeatsThen(means, session, [list[4]], SummaryOf(7_000, provider), list);
    EligibleUsers(means, session.messages[2..3]);
  }

  lemma {:induction false} NothingToRepeat(means: Means, budget: Budget, session: Session, step: Step)
    requires session.state.count == session.stands
    ensures !Repeats(means, budget, session, step)
  {
    if session.stands <= |session.messages| {
      var none := session.messages[session.stands..session.stands];
      assert none == [];
    }
  }

  lemma {:induction false} FirstNeverRepeats(means: Means, budget: Budget, step: Step)
    ensures NeverRepeats(means, budget, [step])
  {
    assert [step][..0] == [];
    NothingToRepeat(means, budget, Run(means, budget, []), step);
  }

  /** What the summary of the first request stands for. */
  lemma {:induction false} FirstMeans(means: Means, first: Step, list: seq<Message>, x: Message, y: Message,
                                      sum: Message)
    requires Users(means, list) && |list| > 2 && list[..2] == [x, y] && means(sum) == [x, y]
    requires var session := Run(means, SMALL, [first]);
             session.messages == list && session.stands == 2 && session.state.summary.Some?
    ensures Eligible(means(sum)) == Meant(means, Run(means, SMALL, [first]).state.summary.value.covers)
    ensures SendsAll(means, Run(means, SMALL, [first]))
  {
    FirstNeverRepeats(means, SMALL, first);
    AlwaysSendsAllExactly(means, SMALL, [first]);
    ItselfIsMeant(means, list[..2]);
  }

  lemma {:induction false} RetryNeverRepeats(means: Means, budget: Budget, first: Step, second: Step)
    requires second.Forced? && Headed(Run(means, budget, [first]))
    ensures NeverRepeats(means, budget, [first, second])
  {
    FirstNeverRepeats(means, budget, first);
    assert [first, second][..1] == [first];
  }

  lemma {:induction false} TwiceAlike(means: Means, x: Message, y: Message, z: Message, w: Message, v: Message,
                                      front: seq<Message>, list: seq<Message>)
    requires front == [x, y, z, w] && list == [x, y, z, w, v] && Users(means, list)
    ensures Eligible(front[..3]) + Eligible(list[2..]) == [x, y, z, z, w, v] && Eligible(list) == list
  {
    EligibleUsers(means, list[..3]);
    EligibleUsers(means, list[2..]);
    EligibleUsers(means, list);
    assert front[..3] == list[..3] && list[..3] + list[2..] == [x, y, z, z, w, v];
  }

  /** What the third request sends, once it is known whether it repeats. */
  lemma {:induction false} ThirdSends(means: Means, steps: seq<Step>, third: Step, x: Message, y: Message, z: Message,
                                      w: Message, v: Message, list: seq<Message>)
    requires list == [x, y, z, w, v] && Users(means, list)
    requires NeverRepeats(means, SMALL, steps) && third.Grow? && third.more == [v]
    requires var session := Run(means, SMALL, steps);
             && session.messages == [x, y, z, w] && session.stands == 3 && session.state.count == 2
             && Possible(means, session, third)
             && (Repeats(means, SMALL, session, third) <==> y.signature == z.signature)
    ensures var next := Next(means, SMALL, Run(means, SMALL, steps), third);
            && next.messages == list
            && Eligible(Sent(means, next.items)) == if y.signature == z.signature then [x, y, z, z, w, v] else list
  {
    var session := Run(means, SMALL, steps);
    assert Next(means, SMALL, session, third).messages == session.messages + [v] == list;
    RepeatedExactly(means, SMALL, steps, third);
    TwiceAlike(means, x, y, z, w, v, session.messages, list);
  }

  /** The first two steps of the series. */
  lemma {:induction false} TwoAlike(means: Means, first: Step, second: Step, list: seq<Message>, x: Message, y: Message,
                                    z: Message, w: Message, sum: Message, provider: Provider)
    requires list == [x, y, z, w] && Users(means, list) && sum.role == User && !sum.sponsored && means(sum) == [x, y]
    requires x.tokens > 12_288 && z.tokens == 1_500 && w.tokens == 3_000
    requires first == Grow(list, SummaryOf(7_700, provider)) && second == Forced([sum, z, w], SummaryOf(8_300, NoModel))
    ensures var session := Run(means, SMALL, [first, second]);
            && session.messages == list && session.stands == 3
            && session.state.count == 2 && session.state.signature == Some(z.signature)
    ensures Possible(means, Run(means, SMALL, [first]), second) && NeverRepeats(means, SMALL, [first, second])
  {
    RunSnoc(means, SMALL, [], first);
    assert [] + [first] == [first] && [first] + [second] == [first, second];
    FirstAlike(means, Run(means, SMALL, []), x, y, z, w, list, provider);
    FirstMeans(means, first, list, x, y, sum);
    SecondAlike(means, Run(means, SMALL, [first]), x, y, z, w, sum);
    RunSnoc(means, SMALL, [first], second);
    RetryNeverRepeats(means, SMALL, first, second);
  }

  /** A request, its retry, and the next request, in one budget. The retry's first fold takes in the
      summary, its second one `z`. Then the third compaction goes on from that summary exactly when `z`
      has the role, the time and the text of `y`, the message at its count; it sends `z` twice then. */
  lemma {:induction false} RepeatsAlike(means: Means, x: Message, y: Message, z: Message, w: Message, v: Message,
                                        sum: Message, provider: Provider)
    requires Users(means, [x, y, z, w, v]) && sum.role == User && !sum.sponsored && means(sum) == [x, y]
    requires x.tokens > 12_288 && z.tokens == 1_500 && w.tokens == 3_000 && v.tokens == 2_000
    ensures var first, second := Grow([x, y, z, w], SummaryOf(7_700, provider)),
                                 Forced([sum, z, w], SummaryOf(8_300, NoModel));
            var third := Grow([v], SummaryOf(7_000, provider));
            var session := Run(means, SMALL, [first, second] + [third]);
            && Possible(means, Run(means, SMALL, [first]), second)
            && Possible(means, Run(means, SMALL, [first, second]), third)
            && session.messages == [x, y, z, w, v]
            && Eligible(Sent(means, session.items))
               == if y.signature == z.signature then [x, y, z, z, w, v] else [x, y, z, w, v]
  {
    var first, second := Grow([x, y, z, w], SummaryOf(7_700, provider)), Forced([sum, z, w], SummaryOf(8_300, NoModel));
    var third := Grow([v], SummaryOf(7_000, provider));
    var list := [x, y, z, w, v];
    assert [x, y, z, w] == list[..4];
    TwoAlike(means, first, second, [x, y, z, w], x, y, z, w, sum, provider);
    ThirdAlike(means, Run(means, SMALL, [first, second]), list, provider);
    ThirdSends(means, [first, second], third, x, y, z, w, v, list);
    RunSnoc(means, SMALL, [first, second], third);
  }
}
