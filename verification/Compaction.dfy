/** Context compaction: message units, the recent boundary, summary chunks, and the summary that
    stands for an ever longer prefix of the conversation (src/runtime/agent-session.ts). */
module Compaction {
  import opened Wrappers

  datatype Role = User | Assistant | ToolResult | OtherRole

  /** A message, with what the rest of the program finds in it: the ids of an assistant's tool
      calls, the call a tool result answers, the token estimates of the message itself, of its
      sanitized form and of its bounded surrogate, whether it holds sponsor data, its signature. Messages
      that are equal in all this are told apart by their id. */
  datatype Message = Message(role: Role, calls: set<string>, callId: string, tokens: nat,
                             sanitizedTokens: nat, surrogateTokens: nat, sponsored: bool, signature: string,
                             id: nat)

  datatype Unit = Unit(start: nat, end: nat, tokens: nat)

  function Tokens(messages: seq<Message>): nat {
    if messages == [] then 0 else messages[0].tokens + Tokens(messages[1..])
  }

  // ----- units

  predicate Answers(result: Message, call: Message) {
    call.role == Assistant && result.role == ToolResult && result.callId in call.calls
  }

  /** Where the unit that starts at `start` ends, when it is known to reach `end`. */
  function UnitEnd(messages: seq<Message>, start: nat, end: nat): (r: nat)
    requires start < end <= |messages|
    ensures end <= r <= |messages|
    ensures forall k | end <= k < r :: Answers(messages[k], messages[start])
    ensures r < |messages| ==> !Answers(messages[r], messages[start])
    decreases |messages| - end
  {
    if end < |messages| && Answers(messages[end], messages[start]) then UnitEnd(messages, start, end + 1) else end
  }

  function UnitAt(messages: seq<Message>, start: nat): Unit
    requires start < |messages|
  {
    var end := UnitEnd(messages, start, start + 1);
    Unit(start, end, Tokens(messages[start..end]))
  }

  function Units(messages: seq<Message>, start: nat): seq<Unit>
    requires start <= |messages|
    decreases |messages| - start
  {
    if start == |messages| then [] else [UnitAt(messages, start)] + Units(messages, UnitAt(messages, start).end)
  }

  lemma {:induction false} UnitMoves(messages: seq<Message>, units: seq<Unit>, index: nat)
    requires index < |messages|
    ensures var unit := UnitAt(messages, index);
            units + Units(messages, index) == units + [unit] + Units(messages, unit.end)
  {
    assert Units(messages, index) == [UnitAt(messages, index)] + Units(messages, UnitAt(messages, index).end);
  }

  method MessageUnits(messages: seq<Message>) returns (units: seq<Unit>)
    ensures units == Units(messages, 0)
  {
    units := [];
    var index := 0;
    while index < |messages|
      invariant 0 <= index <= |messages|
      invariant units + Units(messages, index) == Units(messages, 0)
    {
      var message := messages[index];
      var end := index + 1;
      if message.role == Assistant {
        while end < |messages|
          invariant index < end <= |messages|
          invariant UnitEnd(messages, index, end) == UnitEnd(messages, index, index + 1)
        {
          if messages[end].role != ToolResult || messages[end].callId !in message.calls {
            break;
          }
          end := end + 1;
        }
      }
      UnitMoves(messages, units, index);
      units := units + [Unit(index, end, Tokens(messages[index..end]))];
      index := end;
    }
  }

  /** `p` lies among the results that directly follow the assistant message `a` and answer it. */
  predicate Follows(messages: seq<Message>, a: nat, p: nat)
    requires a < p < |messages|
  {
    forall k | a < k <= p :: Answers(messages[k], messages[a])
  }

  /** Cutting before `p` splits no assistant message from the results directly following it. */
  predicate CleanCut(messages: seq<Message>, p: nat)
    requires p < |messages|
  {
    forall a | 0 <= a < p :: !Follows(messages, a, p)
  }

  lemma {:induction false} NextIsClean(messages: seq<Message>, start: nat)
    requires start < |messages| && CleanCut(messages, start)
    ensures var end := UnitAt(messages, start).end;
            && (end < |messages| ==> CleanCut(messages, end))
            && forall p | start < p < end :: !CleanCut(messages, p)
  {
    var end := UnitAt(messages, start).end;
    if end < |messages| {
      forall a | 0 <= a < end
        ensures !Follows(messages, a, end)
      {
        if a < start {
          assert !Follows(messages, a, start);
          var k :| a < k <= start && !Answers(messages[k], messages[a]);
        } else if a > start {
          assert messages[a].role == ToolResult && !Answers(messages[end], messages[a]);
        } else {
          assert !Answers(messages[end], messages[start]);
        }
      }
    }
    forall p | start < p < end
      ensures !CleanCut(messages, p)
    {
      assert Follows(messages, start, p);
    }
  }

  predicate IsStart(units: seq<Unit>, p: nat) {
    exists i | 0 <= i < |units| :: units[i].start == p
  }

  /** The units start exactly at the clean cuts. */
  lemma {:induction false} StartsAreCleanCuts(messages: seq<Message>, start: nat, p: nat)
    requires start <= p < |messages| && CleanCut(messages, start)
    ensures IsStart(Units(messages, start), p) <==> CleanCut(messages, p)
    decreases |messages| - start
  {
    var unit := UnitAt(messages, start);
    var rest := Units(messages, unit.end);
    var units := Units(messages, start);
    NextIsClean(messages, start);
    if p == start {
      assert units[0].start == p;
    } else if p < unit.end {
      StartsFrom(messages, unit.end);
      assert forall i | 1 <= i < |units| :: units[i] == rest[i - 1];
    } else {
      StartsAreCleanCuts(messages, unit.end, p);
      assert forall i | 0 <= i < |rest| :: units[i + 1] == rest[i];
      assert forall i | 1 <= i < |units| :: units[i] == rest[i - 1];
    }
  }

  lemma {:induction false} StartsFrom(messages: seq<Message>, start: nat)
    requires start <= |messages|
    ensures forall i | 0 <= i < |Units(messages, start)| :: start <= Units(messages, start)[i].start < |messages|
    decreases |messages| - start
  {
    if start < |messages| {
      StartsFrom(messages, UnitAt(messages, start).end);
    }
  }

  // ----- the recent boundary

  /** The latest clean cut, from `p` down, whose suffix holds the tokens asked for; 0 if none does. */
  function LatestCut(messages: seq<Message>, keepTokens: int, p: nat): nat
    requires p <= |messages|
  {
    if p == 0 then 0
    else if p < |messages| && CleanCut(messages, p) && Tokens(messages[p..]) >= keepTokens then p
    else LatestCut(messages, keepTokens, p - 1)
  }

  function Boundary(messages: seq<Message>, keepTokens: int): nat {
    LatestCut(messages, keepTokens, |messages|)
  }

  lemma {:induction false} LatestCutIs(messages: seq<Message>, keepTokens: int, p: nat)
    requires p <= |messages|
    ensures var b := LatestCut(messages, keepTokens, p);
            && b <= p
            && (b > 0 ==> b < |messages| && CleanCut(messages, b) && Tokens(messages[b..]) >= keepTokens)
            && forall q | b < q <= p && q < |messages| && CleanCut(messages, q) :: Tokens(messages[q..]) < keepTokens
  {
    if p > 0 && !(p < |messages| && CleanCut(messages, p) && Tokens(messages[p..]) >= keepTokens) {
      LatestCutIs(messages, keepTokens, p - 1);
    }
  }

  /** Asking for more tokens never moves the boundary forward. */
  lemma {:induction false} LatestCutAntitone(messages: seq<Message>, less: int, more: int, p: nat)
    requires p <= |messages| && less <= more
    ensures LatestCut(messages, more, p) <= LatestCut(messages, less, p)
  {
    LatestCutIs(messages, less, p);
    LatestCutIs(messages, more, p);
  }

  lemma {:induction false} TokensConcat(left: seq<Message>, right: seq<Message>)
    ensures Tokens(left + right) == Tokens(left) + Tokens(right)
  {
    if left == [] {
      assert left + right == right;
    } else {
      TokensConcat(left[1..], right);
      assert (left + right)[1..] == left[1..] + right;
    }
  }

  /** How the units lie: end to end up to the last message, each with the tokens of its stretch. */
  lemma {:induction false} UnitsChain(messages: seq<Message>, start: nat, i: nat)
    requires start <= |messages| && i < |Units(messages, start)|
    ensures var units := Units(messages, start);
            && units[i].start < units[i].end <= |messages|
            && units[i].tokens == Tokens(messages[units[i].start..units[i].end])
            && (if i + 1 < |units| then units[i + 1].start == units[i].end else units[i].end == |messages|)
    decreases |messages| - start
  {
    var end := UnitAt(messages, start).end;
    if i > 0 {
      UnitsChain(messages, end, i - 1);
    }
  }

  lemma {:induction false} NoStartBetween(messages: seq<Message>, i: nat, p: nat)
    requires i < |Units(messages, 0)| && Units(messages, 0)[i].start < p < Units(messages, 0)[i].end
    ensures p < |messages| && !CleanCut(messages, p)
  {
    var units := Units(messages, 0);
    UnitsChain(messages, 0, i);
    StartIsClean(messages, i);
    NextIsClean(messages, units[i].start);
    UnitsAt(messages, 0, i);
  }

  lemma {:induction false} UnitsAt(messages: seq<Message>, start: nat, i: nat)
    requires start <= |messages| && i < |Units(messages, start)|
    ensures Units(messages, start)[i].start < |messages|
    ensures Units(messages, start)[i] == UnitAt(messages, Units(messages, start)[i].start)
    decreases |messages| - start
  {
    if i > 0 {
      UnitsAt(messages, UnitAt(messages, start).end, i - 1);
    }
  }

  lemma {:induction false} StartIsClean(messages: seq<Message>, i: nat)
    requires i < |Units(messages, 0)|
    ensures Units(messages, 0)[i].start < |messages| && CleanCut(messages, Units(messages, 0)[i].start)
  {
    UnitsAt(messages, 0, i);
    assert messages != [];
    StartsAreCleanCuts(messages, 0, Units(messages, 0)[i].start);
  }

  /** Skipping back over one unit. */
  lemma {:induction false} SkipInside(messages: seq<Message>, keepTokens: int, i: nat, p: nat)
    requires i < |Units(messages, 0)|
    requires Units(messages, 0)[i].start <= p < Units(messages, 0)[i].end <= |messages|
    ensures LatestCut(messages, keepTokens, p) == LatestCut(messages, keepTokens, Units(messages, 0)[i].start)
    decreases p
  {
    if p > Units(messages, 0)[i].start {
      NoStartBetween(messages, i, p);
      SkipInside(messages, keepTokens, i, p - 1);
    }
  }

  method RecentBoundary(messages: seq<Message>, keepTokens: int) returns (boundary: nat)
    ensures boundary == Boundary(messages, keepTokens)
  {
    var units := MessageUnits(messages);
    if |units| <= 1 {
      FewUnits(messages, keepTokens);
      return 0;
    }
    var tokens := 0;
    var firstKeptUnit := |units| - 1;
    var index := |units|;
    ghost var bound := |messages|;
    UnitsChain(messages, 0, |units| - 1);
    assert messages[bound..] == [];
    while index > 0
      invariant 0 <= index <= |units|
      invariant index == |units| ==> bound == |messages|
      invariant index < |units| ==> bound == units[index].start && firstKeptUnit == index && tokens < keepTokens
      invariant bound <= |messages| && tokens == Tokens(messages[bound..])
      invariant Boundary(messages, keepTokens) == LatestCut(messages, keepTokens, bound)
    {
      index := index - 1;
      UnitsChain(messages, 0, index);
      BackOneUnit(messages, keepTokens, index, bound);
      tokens := tokens + units[index].tokens;
      firstKeptUnit := index;
      bound := units[index].start;
      if tokens >= keepTokens {
        break;
      }
    }
    FirstUnit(messages);
    boundary := units[firstKeptUnit].start;
  }

  lemma {:induction false} FirstUnit(messages: seq<Message>)
    requires messages != []
    ensures |Units(messages, 0)| > 0 && Units(messages, 0)[0].start == 0
  {
  }

  lemma {:induction false} FewUnits(messages: seq<Message>, keepTokens: int)
    requires |Units(messages, 0)| <= 1
    ensures Boundary(messages, keepTokens) == 0
  {
    if messages != [] {
      UnitsChain(messages, 0, 0);
      SkipInside(messages, keepTokens, 0, |messages| - 1);
    }
  }

  lemma {:induction false} BackOneUnit(messages: seq<Message>, keepTokens: int, i: nat, bound: nat)
    requires i < |Units(messages, 0)| && bound == Units(messages, 0)[i].end <= |messages|
    requires bound < |messages| ==> Tokens(messages[bound..]) < keepTokens
    ensures var start := Units(messages, 0)[i].start;
            && start < bound
            && Tokens(messages[start..]) == Units(messages, 0)[i].tokens + Tokens(messages[bound..])
            && LatestCut(messages, keepTokens, bound) == LatestCut(messages, keepTokens, start)
            && CleanCut(messages, start)
  {
    var start := Units(messages, 0)[i].start;
    UnitsChain(messages, 0, i);
    StartIsClean(messages, i);
    TokensBetween(messages, start, bound);
    StepBack(messages, keepTokens, bound);
    SkipInside(messages, keepTokens, i, bound - 1);
  }

  lemma {:induction false} StepBack(messages: seq<Message>, keepTokens: int, bound: nat)
    requires 0 < bound <= |messages| && (bound < |messages| ==> Tokens(messages[bound..]) < keepTokens)
    ensures LatestCut(messages, keepTokens, bound) == LatestCut(messages, keepTokens, bound - 1)
  {
  }

  lemma {:induction false} TokensBetween(messages: seq<Message>, from: nat, until: nat)
    requires from <= until <= |messages|
    ensures Tokens(messages[from..]) == Tokens(messages[from..until]) + Tokens(messages[until..])
  {
    TokensConcat(messages[from..until], messages[until..]);
    assert messages[from..until] + messages[until..] == messages[from..];
  }

  // ----- bounded texts

  function Decimal(n: nat): string {
    if n < 10 then [('0' as int + n) as char] else Decimal(n / 10) + [('0' as int + n % 10) as char]
  }

  /** JavaScript's `slice(-count)`: all of the text when the count is zero. */
  function LastOf(value: string, count: nat): string {
    if count == 0 || count > |value| then value else value[|value| - count..]
  }

  function BoundedText(value: string, maximum: nat): string {
    if |value| <= maximum then value
    else
      var prefix := maximum * 6 / 10;
      var suffix := if maximum - prefix < 100 then 0 else maximum - prefix - 100;
      value[..prefix] + "\n\n[bounded context omitted " + Decimal(|value| - prefix - suffix)
        + " characters]\n\n" + LastOf(value, suffix)
  }

  lemma {:induction false} FewDigits(n: nat, digits: nat)
    requires digits <= 9 && n < [10, 100, 1000, 1_0000, 10_0000, 100_0000, 1000_0000, 1_0000_0000, 10_0000_0000,
                                 100_0000_0000][digits]
    ensures |Decimal(n)| <= digits + 1
    decreases digits
  {
    if n >= 10 {
      FewDigits(n / 10, digits - 1);
    }
  }

  /** The bound holds exactly when the text already fits or the limit is over 250 characters: up
      to there no suffix is meant to be kept, and then the whole text is appended. */
  lemma {:induction false} BoundedTextExactly(value: string, maximum: nat)
    requires |value| < 0x2000_0000
    ensures |BoundedText(value, maximum)| <= maximum <==> |value| <= maximum || maximum > 250
    ensures |value| > maximum > 250 ==>
              && value[..maximum * 6 / 10] <= BoundedText(value, maximum)
              && LastOf(BoundedText(value, maximum), maximum - maximum * 6 / 10 - 100)
                 == LastOf(value, maximum - maximum * 6 / 10 - 100)
  {
    if |value| > maximum {
      var prefix := maximum * 6 / 10;
      var suffix := if maximum - prefix < 100 then 0 else maximum - prefix - 100;
      FewDigits(|value| - prefix - suffix, 9);
    }
  }

  // ----- summary chunks

  /** A message as it goes into a summary request: sanitized, or replaced by a bounded surrogate. */
  datatype Piece = Piece(message: Message, surrogate: bool, tokens: nat)

  function Prepared(message: Message, tokenLimit: int): Piece {
    if message.sanitizedTokens > tokenLimit then Piece(message, true, message.surrogateTokens)
    else Piece(message, false, message.sanitizedTokens)
  }

  /** The messages that may enter a summary. */
  function Eligible(messages: seq<Message>): seq<Message> {
    if messages == [] then []
    else Eligible(messages[..|messages| - 1])
         + if messages[|messages| - 1].sponsored then [] else [messages[|messages| - 1]]
  }

  function PreparedAll(messages: seq<Message>, tokenLimit: int): seq<Piece> {
    seq(|messages|, k requires 0 <= k < |messages| => Prepared(messages[k], tokenLimit))
  }

  function PieceTokens(pieces: seq<Piece>): nat {
    if pieces == [] then 0 else PieceTokens(pieces[..|pieces| - 1]) + pieces[|pieces| - 1].tokens
  }

  function Flat(chunks: seq<seq<Piece>>): seq<Piece> {
    if chunks == [] then [] else Flat(chunks[..|chunks| - 1]) + chunks[|chunks| - 1]
  }

  /** Chunks cut as late as the limit allows: none is empty, one of several pieces is within the
      limit, and the first piece of the next chunk would not have fitted. */
  ghost predicate Greedy(chunks: seq<seq<Piece>>, tokenLimit: int) {
    && (forall k | 0 <= k < |chunks| :: chunks[k] != [] && (|chunks[k]| > 1 ==> PieceTokens(chunks[k]) <= tokenLimit))
    && (forall k | 0 <= k < |chunks| - 1 :: PieceTokens(chunks[k]) + chunks[k + 1][0].tokens > tokenLimit)
  }

  lemma {:induction false} FlatSnoc(chunks: seq<seq<Piece>>, chunk: seq<Piece>)
    ensures Flat(chunks + [chunk]) == Flat(chunks) + chunk
  {
    assert (chunks + [chunk])[..|chunks|] == chunks;
  }

  lemma {:induction false} EligibleSnoc(messages: seq<Message>, n: nat)
    requires n < |messages|
    ensures Eligible(messages[..n + 1])
         == Eligible(messages[..n]) + if messages[n].sponsored then [] else [messages[n]]
  {
    assert messages[..n + 1][..n] == messages[..n];
  }

  /** The state of the chunking loop: closed chunks, and a last one that may still grow. */
  ghost predicate Filling(chunks: seq<seq<Piece>>, current: seq<Piece>, tokenLimit: int) {
    && Greedy(chunks, tokenLimit)
    && (|current| > 1 ==> PieceTokens(current) <= tokenLimit)
    && (chunks != [] ==> current != [] && PieceTokens(chunks[|chunks| - 1]) + current[0].tokens > tokenLimit)
  }

  lemma {:induction false} GreedySnoc(chunks: seq<seq<Piece>>, current: seq<Piece>, tokenLimit: int)
    requires Filling(chunks, current, tokenLimit) && current != []
    ensures Greedy(chunks + [current], tokenLimit)
  {
  }

  lemma {:induction false} FillingSnoc(chunks: seq<seq<Piece>>, current: seq<Piece>, piece: Piece, tokenLimit: int)
    requires Filling(chunks, current, tokenLimit)
    requires current == [] || PieceTokens(current) + piece.tokens <= tokenLimit
    ensures Filling(chunks, current + [piece], tokenLimit)
  {
    PieceSnoc(current, piece);
  }

  lemma {:induction false} PreparedSnoc(messages: seq<Message>, n: nat, tokenLimit: int)
    requires n < |messages|
    ensures PreparedAll(Eligible(messages[..n + 1]), tokenLimit)
         == PreparedAll(Eligible(messages[..n]), tokenLimit)
            + if messages[n].sponsored then [] else [Prepared(messages[n], tokenLimit)]
  {
    EligibleSnoc(messages, n);
  }

  /** The chunks of a list of pieces: each piece joins the last chunk if it fits. */
  function Chunks(pieces: seq<Piece>, tokenLimit: int): seq<seq<Piece>> {
    if pieces == [] then []
    else
      var front, piece := Chunks(pieces[..|pieces| - 1], tokenLimit), pieces[|pieces| - 1];
      var last := |front| - 1;
      if front != [] && PieceTokens(front[last]) + piece.tokens <= tokenLimit
      then front[..last] + [front[last] + [piece]]
      else front + [[piece]]
  }

  lemma {:induction false} ChunksSnoc(pieces: seq<Piece>, piece: Piece, closed: seq<seq<Piece>>, current: seq<Piece>,
                                      tokenLimit: int)
    requires Closed(closed, current) == Chunks(pieces, tokenLimit)
    requires current == [] ==> closed == []
    ensures Chunks(pieces + [piece], tokenLimit)
         == if current != [] && PieceTokens(current) + piece.tokens > tokenLimit then closed + [current] + [[piece]]
            else closed + [current + [piece]]
  {
    assert (pieces + [piece])[..|pieces|] == pieces;
    if current != [] {
      assert (closed + [current])[..|closed|] == closed;
    }
  }

  function Closed(chunks: seq<seq<Piece>>, current: seq<Piece>): seq<seq<Piece>> {
    if current == [] then chunks else chunks + [current]
  }

  /** The loop of the chunking: the first n messages are in the chunks and the last, open one. */
  ghost predicate Gathered(messages: seq<Message>, n: nat, chunks: seq<seq<Piece>>, current: seq<Piece>,
                           tokenLimit: int)
    requires n <= |messages|
  {
    && Flat(chunks) + current == PreparedAll(Eligible(messages[..n]), tokenLimit)
    && Filling(chunks, current, tokenLimit)
    && Closed(chunks, current) == Chunks(PreparedAll(Eligible(messages[..n]), tokenLimit), tokenLimit)
  }

  lemma {:induction false} PieceCloses(messages: seq<Message>, n: nat, chunks: seq<seq<Piece>>, current: seq<Piece>,
                                       tokenLimit: int)
    requires n < |messages| && !messages[n].sponsored && Gathered(messages, n, chunks, current, tokenLimit)
    requires current != [] && PieceTokens(current) + Prepared(messages[n], tokenLimit).tokens > tokenLimit
    ensures Gathered(messages, n + 1, chunks + [current], [Prepared(messages[n], tokenLimit)], tokenLimit)
  {
    PreparedSnoc(messages, n, tokenLimit);
    FlatSnoc(chunks, current);
    GreedySnoc(chunks, current, tokenLimit);
    ChunksSnoc(PreparedAll(Eligible(messages[..n]), tokenLimit), Prepared(messages[n], tokenLimit), chunks, current,
               tokenLimit);
  }

  lemma {:induction false} PieceJoins(messages: seq<Message>, n: nat, chunks: seq<seq<Piece>>, current: seq<Piece>,
                                      tokenLimit: int)
    requires n < |messages| && !messages[n].sponsored && Gathered(messages, n, chunks, current, tokenLimit)
    requires current == [] || PieceTokens(current) + Prepared(messages[n], tokenLimit).tokens <= tokenLimit
    ensures Gathered(messages, n + 1, chunks, current + [Prepared(messages[n], tokenLimit)], tokenLimit)
  {
    var piece := Prepared(messages[n], tokenLimit);
    PreparedSnoc(messages, n, tokenLimit);
    FillingSnoc(chunks, current, piece, tokenLimit);
    ChunksSnoc(PreparedAll(Eligible(messages[..n]), tokenLimit), piece, chunks, current, tokenLimit);
    assert Flat(chunks) + (current + [piece]) == Flat(chunks) + current + [piece];
  }

  lemma {:induction false} NoneGathered(messages: seq<Message>, tokenLimit: int)
    ensures Gathered(messages, 0, [], [], tokenLimit)
  {
    assert Eligible(messages[..0]) == [];
  }

  lemma {:induction false} PieceSkipped(messages: seq<Message>, n: nat, chunks: seq<seq<Piece>>, current: seq<Piece>,
                                        tokenLimit: int)
    requires n < |messages| && messages[n].sponsored && Gathered(messages, n, chunks, current, tokenLimit)
    ensures Gathered(messages, n + 1, chunks, current, tokenLimit)
  {
    EligibleSnoc(messages, n);
    assert Eligible(messages[..n]) + [] == Eligible(messages[..n]);
  }

  lemma {:induction false} AllGathered(messages: seq<Message>, chunks: seq<seq<Piece>>, current: seq<Piece>,
                                       tokenLimit: int)
    requires Gathered(messages, |messages|, chunks, current, tokenLimit)
    ensures var pieces, all := PreparedAll(Eligible(messages), tokenLimit), Closed(chunks, current);
            Flat(all) == pieces && Greedy(all, tokenLimit) && all == Chunks(pieces, tokenLimit)
  {
    assert messages[..|messages|] == messages;
    if current != [] {
      FlatSnoc(chunks, current);
      GreedySnoc(chunks, current, tokenLimit);
    }
  }

  method SummaryChunks(messages: seq<Message>, tokenLimit: int) returns (chunks: seq<seq<Piece>>)
    ensures Flat(chunks) == PreparedAll(Eligible(messages), tokenLimit)
    ensures Greedy(chunks, tokenLimit)
    ensures chunks == Chunks(PreparedAll(Eligible(messages), tokenLimit), tokenLimit)
  {
    chunks := [];
    var current: seq<Piece> := [];
    var currentTokens := 0;
    NoneGathered(messages, tokenLimit);
    for k := 0 to |messages|
      invariant Gathered(messages, k, chunks, current, tokenLimit)
      invariant currentTokens == PieceTokens(current)
    {
      if messages[k].sponsored {
        PieceSkipped(messages, k, chunks, current, tokenLimit);
        continue;
      }
      var piece := Prepared(messages[k], tokenLimit);
      if |current| > 0 && currentTokens + piece.tokens > tokenLimit {
        PieceCloses(messages, k, chunks, current, tokenLimit);
        chunks := chunks + [current];
        current := [];
        currentTokens := 0;
        assert current + [piece] == [piece];
      } else {
        PieceJoins(messages, k, chunks, current, tokenLimit);
      }
      PieceSnoc(current, piece);
      current := current + [piece];
      currentTokens := currentTokens + piece.tokens;
    }
    AllGathered(messages, chunks, current, tokenLimit);
    if |current| > 0 {
      chunks := chunks + [current];
    }
  }

  lemma {:induction false} PieceSnoc(pieces: seq<Piece>, piece: Piece)
    ensures PieceTokens(pieces + [piece]) == PieceTokens(pieces) + piece.tokens
  {
    assert (pieces + [piece])[..|pieces|] == pieces;
  }

  // ----- the summary

  /** A summary, told by the messages it was made from, in order: those that went into requests to
      the model, and those that a fallback looked through for texts to keep. */
  datatype Summary = Summary(covers: seq<Message>)

  function CoversOf(summary: Option<Summary>): seq<Message> {
    if summary.Some? then summary.value.covers else []
  }

  function MessagesOf(pieces: seq<Piece>): seq<Message> {
    seq(|pieces|, k requires 0 <= k < |pieces| => pieces[k].message)
  }

  lemma {:induction false} FlatUpTo(chunks: seq<seq<Piece>>, n: nat)
    requires n < |chunks|
    ensures Flat(chunks[..n + 1]) == Flat(chunks[..n]) + chunks[n]
  {
    assert chunks[..n + 1][..n] == chunks[..n];
  }

  lemma {:induction false} FoldOne(previous: Option<Summary>, folded: Option<Summary>, chunks: seq<seq<Piece>>, k: nat)
    requires k < |chunks| && CoversOf(folded) == CoversOf(previous) + MessagesOf(Flat(chunks[..k]))
    ensures CoversOf(folded) + MessagesOf(chunks[k]) == CoversOf(previous) + MessagesOf(Flat(chunks[..k + 1]))
  {
    FlatUpTo(chunks, k);
  }

  lemma {:induction false} PreparedMessages(messages: seq<Message>, tokenLimit: int)
    ensures MessagesOf(PreparedAll(messages, tokenLimit)) == messages
  {
  }

  /** The model that is asked for summaries, with the limit of a request and the numbers of the
      requests it fails to answer; or none. */
  datatype Provider = NoModel | Model(chunkLimit: int, refusals: set<nat>)

  /** How many requests to the model a stretch of messages takes. */
  function Requests(messages: seq<Message>, chunkLimit: int): nat {
    |Chunks(PreparedAll(Eligible(messages), chunkLimit), chunkLimit)|
  }

  predicate SomeRefused(requests: nat, refusals: set<nat>) {
    exists k | 0 <= k < requests :: k in refusals
  }

  /** Whether the deterministic fallback makes the summary: without a model, after the first request
      that fails, and when there is neither a previous summary nor anything to ask about. */
  predicate FallsBack(messages: seq<Message>, previous: Option<Summary>, provider: Provider) {
    if messages == [] && previous.Some? then false
    else if provider.NoModel? then true
    else
      var requests := Requests(messages, provider.chunkLimit);
      (requests == 0 && previous.None?) || SomeRefused(requests, provider.refusals)
  }

  /** What a stretch of messages adds to a summary: all of it when the fallback makes the summary,
      which does not look for sponsor data; else what may enter a request. */
  function Added(messages: seq<Message>, previous: Option<Summary>, provider: Provider): seq<Message> {
    if FallsBack(messages, previous, provider) then messages else Eligible(messages)
  }

  /** Sends one chunk after the other to the model, with what is folded so far, up to the first
      request that fails. */
  method FoldChunks(chunks: seq<seq<Piece>>, previous: Option<Summary>, refusals: set<nat>)
    returns (folded: Option<Summary>, refused: bool)
    ensures refused <==> exists k | 0 <= k < |chunks| :: k in refusals
    ensures !refused ==> CoversOf(folded) == CoversOf(previous) + MessagesOf(Flat(chunks))
    ensures !refused ==> (folded.None? <==> chunks == [] && previous.None?)
  {
    folded := previous;
    for k := 0 to |chunks|
      invariant CoversOf(folded) == CoversOf(previous) + MessagesOf(Flat(chunks[..k]))
      invariant folded.None? <==> k == 0 && previous.None?
      invariant forall i | 0 <= i < k :: i !in refusals
    {
      if k in refusals {
        return folded, true;
      }
      FoldOne(previous, folded, chunks, k);
      folded := Some(Summary(CoversOf(folded) + MessagesOf(chunks[k])));
    }
    assert chunks[..|chunks|] == chunks;
    return folded, false;
  }

  /** Folds the messages into the previous summary; the first failure falls back to the previous
      summary and all messages at once. */
  method UpdateSummary(messages: seq<Message>, previous: Option<Summary>, provider: Provider)
    returns (summary: Summary, modelAssisted: bool)
    ensures summary.covers == CoversOf(previous) + Added(messages, previous, provider)
    ensures !modelAssisted ==> FallsBack(messages, previous, provider)
  {
    if messages == [] && previous.Some? {
      return previous.value, true;
    }
    if provider.NoModel? {
      return Summary(CoversOf(previous) + messages), false;
    }
    var chunks := SummaryChunks(messages, provider.chunkLimit);
    var folded, refused := FoldChunks(chunks, previous, provider.refusals);
    if refused {
      return Summary(CoversOf(previous) + messages), false;
    }
    PreparedMessages(Eligible(messages), provider.chunkLimit);
    if folded.None? {
      return Summary(CoversOf(previous) + messages), true;
    }
    return folded.value, true;
  }

  // ----- compaction

  const CONTEXT_RESERVE_TOKENS: int := 16_384
  const KEEP_RECENT_TOKENS: int := 32_768

  datatype State = State(summary: Option<Summary>, count: nat, signature: Option<string>)

  const FRESH: State := State(None, 0, None)

  datatype Item = SummaryItem(summary: Summary) | Kept(message: Message)

  /** What the token estimates say: whether compaction is due, the room in the context, and after a
      first pass the room that is left and what the summary itself takes. */
  datatype Estimates = Estimates(needed: bool, threshold: int, fixedTokens: int,
                                 afterTokens: int, afterThreshold: int, afterFixedTokens: int, summaryTokens: int)

  function Clamp(tokens: int): int {
    if tokens < 1_024 then 1_024 else tokens
  }

  function InitialKeep(e: Estimates): int {
    var room := e.threshold - e.fixedTokens - CONTEXT_RESERVE_TOKENS / 2;
    Clamp(if room < KEEP_RECENT_TOKENS then room else KEEP_RECENT_TOKENS)
  }

  function TighterKeep(e: Estimates): int {
    Clamp(e.afterThreshold - e.afterFixedTokens - e.summaryTokens - 1_024)
  }

  function SignatureOf(messages: seq<Message>, index: int): Option<string> {
    if 0 <= index < |messages| then Some(messages[index].signature) else None
  }

  /** The list no longer starts with what was summarized, or the boundary fell behind it. */
  predicate MustReset(s: State, messages: seq<Message>, boundary: nat) {
    s.count > boundary || (s.count > 0 && SignatureOf(messages, s.count - 1) != s.signature)
  }

  function Plain(messages: seq<Message>): seq<Item> {
    seq(|messages|, k requires 0 <= k < |messages| => Kept(messages[k]))
  }

  function FinalBoundary(messages: seq<Message>, e: Estimates): nat {
    var boundary := Boundary(messages, InitialKeep(e));
    var tighter := Boundary(messages, TighterKeep(e));
    if e.afterTokens > e.afterThreshold && tighter > boundary then tighter else boundary
  }

  /** What a fold goes on from: the state, or a fresh one. */
  function Basis(s: State, messages: seq<Message>, boundary: nat): State {
    if MustReset(s, messages, boundary) then FRESH else s
  }

  function Folded(s: State, messages: seq<Message>, boundary: nat, provider: Provider): State
    requires boundary <= |messages|
  {
    var basis := Basis(s, messages, boundary);
    var added := Added(messages[basis.count..boundary], basis.summary, provider);
    State(Some(Summary(CoversOf(basis.summary) + added)), boundary, SignatureOf(messages, boundary - 1))
  }

  /** A request for a compaction: whether it is forced, what the estimates say, and the model for
      the first fold and for the second one. */
  datatype Options = Options(force: bool, estimates: Estimates, provider: Provider, again: Provider)

  predicate Compacts(messages: seq<Message>, o: Options) {
    (o.estimates.needed || o.force) && Boundary(messages, InitialKeep(o.estimates)) > 0
  }

  /** The second fold of a compaction, if its last boundary lies behind the first. */
  function SecondFold(s: State, messages: seq<Message>, first: nat, last: nat, provider: Provider): State
    requires last <= |messages|
  {
    if last > first then Folded(s, messages, last, provider) else s
  }

  /** What is sent: the summary, and what follows behind the last boundary. */
  function Outgoing(s: State, messages: seq<Message>, last: nat): seq<Item>
    requires last <= |messages| && s.summary.Some?
  {
    [SummaryItem(s.summary.value)] + Plain(messages[last..])
  }

  /** One compaction: the state it leaves and the messages it returns. */
  function Compacted(s: State, messages: seq<Message>, o: Options): (State, seq<Item>) {
    if !Compacts(messages, o) then (s, Plain(messages))
    else
      var first, last := Boundary(messages, InitialKeep(o.estimates)), FinalBoundary(messages, o.estimates);
      BoundaryInside(messages, InitialKeep(o.estimates));
      BoundaryInside(messages, TighterKeep(o.estimates));
      var s' := SecondFold(Folded(s, messages, first, o.provider), messages, first, last, o.again);
      (s', Outgoing(s', messages, last))
  }

  lemma {:induction false} BasisTwice(s: State, messages: seq<Message>, boundary: nat, provider: Provider)
    requires boundary <= |messages|
    ensures var basis := Basis(s, messages, boundary);
            && !MustReset(basis, messages, boundary)
            && Folded(basis, messages, boundary, provider) == Folded(s, messages, boundary, provider)
  {
  }

  class ContextCompaction {
    var summary: Option<Summary>
    var count: nat
    var signature: Option<string>

    function View(): State
      reads this
    {
      State(summary, count, signature)
    }

    constructor ()
      ensures View() == FRESH
    {
      summary, count, signature := None, 0, None;
    }

    /** Folds the messages up to `boundary` into the summary. */
    method Extend(messages: seq<Message>, boundary: nat, provider: Provider)
      requires count <= boundary <= |messages| && !MustReset(View(), messages, boundary)
      modifies this
      ensures View() == Folded(old(View()), messages, boundary, provider)
    {
      var result, _ := UpdateSummary(messages[count..boundary], summary, provider);
      summary, count, signature := Some(result), boundary, SignatureOf(messages, boundary - 1);
    }

    method CompactMessages(messages: seq<Message>, o: Options) returns (compacted: seq<Item>)
      modifies this
      ensures (View(), compacted) == Compacted(old(View()), messages, o)
    {
      if !o.estimates.needed && !o.force {
        return Plain(messages);
      }
      var boundary := RecentBoundary(messages, InitialKeep(o.estimates));
      if boundary == 0 {
        return Plain(messages);
      }
      BoundaryInside(messages, InitialKeep(o.estimates));
      BasisTwice(View(), messages, boundary, o.provider);
      ghost var first := boundary;
      if count > boundary || (count > 0 && SignatureOf(messages, count - 1) != signature) {
        summary, count, signature := None, 0, None;
      }
      Extend(messages, boundary, o.provider);
      assert View() == Folded(old(View()), messages, first, o.provider);
      if o.estimates.afterTokens > o.estimates.afterThreshold {
        var tighter := RecentBoundary(messages, TighterKeep(o.estimates));
        if tighter > boundary {
          BoundaryInside(messages, TighterKeep(o.estimates));
          Extend(messages, tighter, o.again);
          boundary := tighter;
        }
      }
      compacted := [SummaryItem(summary.value)] + Plain(messages[boundary..]);
    }
  }

  lemma {:induction false} BoundaryInside(messages: seq<Message>, keepTokens: int)
    ensures Boundary(messages, keepTokens) <= |messages|
  {
    LatestCutIs(messages, keepTokens, |messages|);
  }

  // ----- what the summary covers

  /** The summary stands for the first `count` messages: each eligible one once, in order. */
  predicate Faithful(s: State, messages: seq<Message>) {
    && s.count <= |messages|
    && Eligible(CoversOf(s.summary)) == Eligible(messages[..s.count])
    && s.signature == SignatureOf(messages, s.count - 1)
  }

  lemma {:induction false} EligibleConcat(left: seq<Message>, right: seq<Message>)
    ensures Eligible(left + right) == Eligible(left) + Eligible(right)
  {
    if right == [] {
      assert left + right == left;
    } else {
      var front, last := right[..|right| - 1], right[|right| - 1];
      EligibleConcat(left, front);
      assert (left + right)[..|left + right| - 1] == left + front;
    }
  }

  lemma {:induction false} EligibleSplit(messages: seq<Message>, i: nat, j: nat)
    requires i <= j <= |messages|
    ensures Eligible(messages[..j]) == Eligible(messages[..i]) + Eligible(messages[i..j])
  {
    EligibleConcat(messages[..i], messages[i..j]);
    assert messages[..i] + messages[i..j] == messages[..j];
  }

  predicate HasMarked(messages: seq<Message>) {
    exists k | 0 <= k < |messages| :: messages[k].sponsored
  }

  /** Picking the eligible messages keeps those that hold no sponsor data, and is the identity
      exactly when there are no others. */
  lemma {:induction false} EligibleExactly(messages: seq<Message>)
    ensures !HasMarked(Eligible(messages))
    ensures |Eligible(messages)| <= |messages|
    ensures Eligible(messages) == messages <==> !HasMarked(messages)
  {
    if messages != [] {
      var front, last := messages[..|messages| - 1], messages[|messages| - 1];
      EligibleExactly(front);
      assert messages == front + [last];
      assert HasMarked(messages) <==> HasMarked(front) || last.sponsored by {
        if HasMarked(front) {
          var k :| 0 <= k < |front| && front[k].sponsored;
          assert messages[k].sponsored;
        }
        assert messages[|front|] == last;
      }
      if Eligible(messages) == messages && !last.sponsored {
        assert Eligible(front) == messages[..|front|];
      }
    }
  }

  lemma {:induction false} EligibleTwice(messages: seq<Message>)
    ensures Eligible(Eligible(messages)) == Eligible(messages)
  {
    EligibleExactly(messages);
    EligibleExactly(Eligible(messages));
  }

  lemma {:induction false} SameFront(a: seq<Message>, b: seq<Message>, tail: seq<Message>)
    ensures a + tail == b + tail <==> a == b
  {
    if a + tail == b + tail {
      assert |a + tail| == |a| + |tail| && |b + tail| == |b| + |tail|;
      assert a == (a + tail)[..|a|] && b == (b + tail)[..|a|];
    }
  }

  /** A fold leaves a faithful summary exactly when it reset the state or the summary it extended
      stood for the messages before it, whether the model or the fallback makes it. */
  lemma {:induction false} FoldedFaithfulExactly(s: State, messages: seq<Message>, boundary: nat, provider: Provider)
    requires boundary <= |messages|
    ensures Faithful(Folded(s, messages, boundary, provider), messages)
       <==> MustReset(s, messages, boundary) || Eligible(CoversOf(s.summary)) == Eligible(messages[..s.count])
  {
    var basis := Basis(s, messages, boundary);
    var stretch := messages[basis.count..boundary];
    var before := Eligible(messages[..basis.count]);
    EligibleTwice(stretch);
    EligibleConcat(CoversOf(basis.summary), Added(stretch, basis.summary, provider));
    EligibleSplit(messages, basis.count, boundary);
    SameFront(Eligible(CoversOf(basis.summary)), before, Eligible(stretch));
  }

  lemma {:induction false} FaithfulGrows(s: State, messages: seq<Message>, more: seq<Message>)
    requires Faithful(s, messages)
    ensures Faithful(s, messages + more)
  {
    assert (messages + more)[..s.count] == messages[..s.count];
  }

  /** One compaction of a list: the result is the list itself, or the summary followed by
      everything from a clean cut on, the cut being where the summary ends. */
  ghost predicate GoodResult(s: State, items: seq<Item>, messages: seq<Message>) {
    items == Plain(messages)
    || (0 < s.count < |messages| && CleanCut(messages, s.count) && s.summary.Some?
        && items == [SummaryItem(s.summary.value)] + Plain(messages[s.count..]))
  }

  lemma {:induction false} CompactedFaithful(s: State, messages: seq<Message>, o: Options)
    requires Faithful(s, messages)
    ensures var (s', items) := Compacted(s, messages, o);
            Faithful(s', messages) && GoodResult(s', items, messages)
  {
    var first, last := Boundary(messages, InitialKeep(o.estimates)), FinalBoundary(messages, o.estimates);
    LatestCutIs(messages, InitialKeep(o.estimates), |messages|);
    LatestCutIs(messages, TighterKeep(o.estimates), |messages|);
    if Compacts(messages, o) {
      FoldedFaithfulExactly(s, messages, first, o.provider);
      if last > first {
        FoldedFaithfulExactly(Folded(s, messages, first, o.provider), messages, last, o.again);
      }
    }
  }

  // ----- runs over a growing list

  /** A turn of the conversation: messages added, then a compaction. */
  datatype Turn = Turn(more: seq<Message>, options: Options)

  function Run(turns: seq<Turn>): (State, seq<Message>, seq<Item>) {
    if turns == [] then (FRESH, [], [])
    else
      var (s, messages, _) := Run(turns[..|turns| - 1]);
      var turn := turns[|turns| - 1];
      var longer := messages + turn.more;
      var (s', items) := Compacted(s, longer, turn.options);
      (s', longer, items)
  }

  /** Over any series of compactions of a list that only grows, every result is the list itself or
      the summary followed by a suffix at a clean cut, and the summary has been made from every
      eligible message before the cut exactly once and in order, whatever resets and failures of the
      model happened on the way. */
  lemma {:induction false} RunFaithful(turns: seq<Turn>)
    ensures var (s, messages, items) := Run(turns);
            Faithful(s, messages) && GoodResult(s, items, messages)
    decreases |turns|
  {
    if turns != [] {
      var (s, messages, _) := Run(turns[..|turns| - 1]);
      var turn := turns[|turns| - 1];
      RunFaithful(turns[..|turns| - 1]);
      FaithfulGrows(s, messages, turn.more);
      CompactedFaithful(s, messages + turn.more, turn.options);
    }
  }

  // ----- which sponsor-marked messages reach the summary

  /** A fold since the last reset: the stretch of messages it took, and whether it fell back. */
  datatype Fold = Fold(from: nat, until: nat, fellBack: bool)

  function Then(folds: seq<Fold>, s: State, messages: seq<Message>, boundary: nat, provider: Provider): seq<Fold>
    requires boundary <= |messages|
  {
    var basis := Basis(s, messages, boundary);
    var kept := if MustReset(s, messages, boundary) then [] else folds;
    kept + [Fold(basis.count, boundary, FallsBack(messages[basis.count..boundary], basis.summary, provider))]
  }

  function CompactedFolds(folds: seq<Fold>, s: State, messages: seq<Message>, o: Options): seq<Fold> {
    if !Compacts(messages, o) then folds
    else
      var first, last := Boundary(messages, InitialKeep(o.estimates)), FinalBoundary(messages, o.estimates);
      BoundaryInside(messages, InitialKeep(o.estimates));
      BoundaryInside(messages, TighterKeep(o.estimates));
      var longer := Then(folds, s, messages, first, o.provider);
      if last > first then Then(longer, Folded(s, messages, first, o.provider), messages, last, o.again) else longer
  }

  /** The folds of a run since its last reset. */
  function Folds(turns: seq<Turn>): seq<Fold> {
    if turns == [] then []
    else
      var (s, messages, _) := Run(turns[..|turns| - 1]);
      var turn := turns[|turns| - 1];
      CompactedFolds(Folds(turns[..|turns| - 1]), s, messages + turn.more, turn.options)
  }

  /** The folds take stretch after stretch, from the start up to the n-th message. */
  ghost predicate Chained(folds: seq<Fold>, n: nat) {
    if folds == [] then n == 0
    else
      var last := folds[|folds| - 1];
      last.until == n && last.from <= n && Chained(folds[..|folds| - 1], last.from)
  }

  /** A fold by the fallback that took a sponsor-marked message. */
  predicate TakesMarked(fold: Fold, messages: seq<Message>)
    requires fold.from <= fold.until <= |messages|
  {
    fold.fellBack && HasMarked(messages[fold.from..fold.until])
  }

  predicate SomeTakesMarked(folds: seq<Fold>, messages: seq<Message>) {
    exists k | 0 <= k < |folds| ::
      folds[k].from <= folds[k].until <= |messages| && TakesMarked(folds[k], messages)
  }

  /** The folds tell of the summary: they chain up to its count, and it holds a sponsor-marked
      message exactly when one of them took one by the fallback. */
  ghost predicate Tells(folds: seq<Fold>, s: State, messages: seq<Message>) {
    && s.count <= |messages|
    && Chained(folds, s.count)
    && (s.summary.None? ==> folds == [])
    && (HasMarked(CoversOf(s.summary)) <==> SomeTakesMarked(folds, messages))
  }

  lemma {:induction false} MarkedConcat(left: seq<Message>, right: seq<Message>)
    ensures HasMarked(left + right) <==> HasMarked(left) || HasMarked(right)
  {
    var both := left + right;
    assert forall k | 0 <= k < |left| :: both[k] == left[k];
    assert forall k | 0 <= k < |right| :: both[|left| + k] == right[k];
  }

  lemma {:induction false} TakesMarkedSnoc(folds: seq<Fold>, fold: Fold, messages: seq<Message>)
    requires fold.from <= fold.until <= |messages|
    ensures SomeTakesMarked(folds + [fold], messages)
        <==> SomeTakesMarked(folds, messages) || TakesMarked(fold, messages)
  {
    var longer := folds + [fold];
    assert longer[|folds|] == fold;
    assert forall k | 0 <= k < |folds| :: longer[k] == folds[k];
  }

  lemma {:induction false} ThenTells(folds: seq<Fold>, s: State, messages: seq<Message>, boundary: nat,
                                     provider: Provider)
    requires boundary <= |messages| && Tells(folds, s, messages)
    ensures Tells(Then(folds, s, messages, boundary, provider), Folded(s, messages, boundary, provider), messages)
  {
    var basis := Basis(s, messages, boundary);
    var kept := if MustReset(s, messages, boundary) then [] else folds;
    var stretch := messages[basis.count..boundary];
    var fold := Fold(basis.count, boundary, FallsBack(stretch, basis.summary, provider));
    EligibleExactly(stretch);
    MarkedConcat(CoversOf(basis.summary), Added(stretch, basis.summary, provider));
    TakesMarkedSnoc(kept, fold, messages);
    assert (kept + [fold])[..|kept|] == kept;
  }

  lemma {:induction false} TellsLonger(folds: seq<Fold>, s: State, messages: seq<Message>, more: seq<Message>)
    requires Tells(folds, s, messages)
    ensures Tells(folds, s, messages + more)
  {
    ChainedInside(folds, s.count);
    forall k | 0 <= k < |folds|
      ensures TakesMarked(folds[k], messages + more) == TakesMarked(folds[k], messages)
    {
      assert (messages + more)[folds[k].from..folds[k].until] == messages[folds[k].from..folds[k].until];
    }
  }

  lemma {:induction false} ChainedInside(folds: seq<Fold>, n: nat)
    requires Chained(folds, n)
    ensures forall k | 0 <= k < |folds| :: folds[k].from <= folds[k].until <= n
  {
    if folds != [] {
      ChainedInside(folds[..|folds| - 1], folds[|folds| - 1].from);
    }
  }

  lemma {:induction false} RunTells(turns: seq<Turn>)
    ensures Tells(Folds(turns), Run(turns).0, Run(turns).1)
    decreases |turns|
  {
    if turns != [] {
      var front, turn := turns[..|turns| - 1], turns[|turns| - 1];
      var (s, messages, _) := Run(front);
      var longer, o := messages + turn.more, turn.options;
      RunTells(front);
      TellsLonger(Folds(front), s, messages, turn.more);
      if Compacts(longer, o) {
        var first, last := Boundary(longer, InitialKeep(o.estimates)), FinalBoundary(longer, o.estimates);
        BoundaryInside(longer, InitialKeep(o.estimates));
        BoundaryInside(longer, TighterKeep(o.estimates));
        ThenTells(Folds(front), s, longer, first, o.provider);
        if last > first {
          ThenTells(Then(Folds(front), s, longer, first, o.provider), Folded(s, longer, first, o.provider), longer,
                    last,
                    o.again);
        }
      }
    }
  }

  /** In every run a sponsor-marked message is handed to the summary if and only if, since the last
      reset, the fallback took a stretch with one; the stretches chain from the start of the list to
      where the summary ends. Otherwise, and only then, the summary is made from exactly the
      eligible messages. */
  lemma {:induction false} MarkedHandedExactly(turns: seq<Turn>)
    ensures var (s, messages, _) := Run(turns); var folds := Folds(turns); var covers := CoversOf(s.summary);
            && s.count <= |messages| && Chained(folds, s.count)
            && (HasMarked(covers) <==> SomeTakesMarked(folds, messages))
            && (covers == Eligible(messages[..s.count]) <==> !SomeTakesMarked(folds, messages))
  {
    var (s, messages, _) := Run(turns);
    RunTells(turns);
    RunFaithful(turns);
    EligibleExactly(CoversOf(s.summary));
    EligibleExactly(messages[..s.count]);
  }

  /** Two such runs: one without a model, and one with a model that fails nothing, whose first
      stretch holds nothing to ask about. */
  lemma {:induction false} MarkedHandedOnce(provider: Provider)
    requires provider == NoModel || provider == Model(1_024, {})
    ensures var marked := Message(Assistant, {}, "", 1, 1, 1, true, "marked", 0);
            var user := Message(User, {}, "", 2_048, 1, 1, false, "user", 1);
            var estimates := Estimates(true, 0, 0, 0, 0, 0, 0);
            CoversOf(Run([Turn([marked, user], Options(false, estimates, provider, provider))]).0.summary) == [marked]
  {
    var marked := Message(Assistant, {}, "", 1, 1, 1, true, "marked", 0);
    var user := Message(User, {}, "", 2_048, 1, 1, false, "user", 1);
    var e := Estimates(true, 0, 0, 0, 0, 0, 0);
    var messages, o := [marked, user], Options(false, e, provider, provider);
    assert CleanCut(messages, 1) by {
      assert !Answers(messages[1], messages[0]);
    }
    assert messages[1..] == [user];
    assert Tokens([user]) == 2_048 by { assert [user][1..] == []; }
    assert LatestCut(messages, 1_024, 1) == 1;
    assert Boundary(messages, 1_024) == 1;
    assert messages[0..1] == [marked];
    assert Eligible([marked]) == [] by { assert [marked][..0] == []; }
    var turns := [Turn(messages, o)];
    assert turns[..0] == [];
    assert [] + messages == messages;
    assert Run(turns).0 == Compacted(FRESH, messages, o).0;
  }
}
