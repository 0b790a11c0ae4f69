/** What a journal event contributes to the session transcript (`sessionProjection` in
    src/main/database.ts), and the event that copies an entry into a fork (`appendEntry` in
    src/main/session-service.ts). */
module SessionProjection {
  import opened Wrappers
  import opened Json

  datatype EventType =
    | MessageUser | MessageComplete | ToolResult | Compaction
    | ApprovalResolved | FileChange | DiffChange | OperationCompleted | RuntimeCrash
    | SessionCheckpoint
    | OtherEvent(name: string)

  datatype Kind = UserMessage | AssistantMessage | ToolResultEntry | CompactionEntry | ContextAnchor

  type Record = seq<Field>

  datatype Projected = Projected(kind: Kind, payload: Record)
  datatype Draft = Draft(eventType: EventType, payload: Record)

  function AnchorName(eventType: EventType): Option<string> {
    match eventType
    case ApprovalResolved => Some("approval.resolved")
    case FileChange => Some("file.change")
    case DiffChange => Some("diff.change")
    case OperationCompleted => Some("operation.completed")
    case RuntimeCrash => Some("runtime.crash")
    case _ => None
  }

  function AnchorNamed(name: string): Option<EventType> {
    if name == "approval.resolved" then Some(ApprovalResolved)
    else if name == "file.change" then Some(FileChange)
    else if name == "diff.change" then Some(DiffChange)
    else if name == "operation.completed" then Some(OperationCompleted)
    else if name == "runtime.crash" then Some(RuntimeCrash)
    else None
  }

  /** A field that is there with a string in it. */
  predicate HasText(record: Record, key: string) {
    Get(record, key).Some? && Get(record, key).value.Str?
  }

  function Fields(value: Option<Json>): Record {
    if value.Some? && value.value.Obj? then value.value.fields else []
  }

  function TokenCount(value: Option<Json>): Json {
    if value.Some? && value.value.Num? && !("-" <= value.value.numeral) then value.value else Num("0")
  }

  /** `value ?? []`, without its sponsor data */
  function Items(value: Option<Json>): Json {
    if value.None? || value.value.Null? then Arr([]) else RemoveSponsorData(value.value)
  }

  function Truthy(value: Option<Json>): bool {
    if value.None? then false
    else
      match value.value
      case Null => false
      case Bool(truth) => truth
      case Num(numeral) => numeral != "0"
      case Str(text) => text != ""
      case Arr(_) => true
      case Obj(_) => true
  }

  /** A property whose value may be undefined: it is stored only when it is there. */
  function Optional(key: string, value: Option<Json>): Record {
    if value.Some? then [Field(key, value.value)] else []
  }

  function UsageOf(usage: Record): Record {
    [Field("input", TokenCount(Get(usage, "input"))),
     Field("output", TokenCount(Get(usage, "output"))),
     Field("cacheRead", TokenCount(Get(usage, "cacheRead"))),
     Field("cacheWrite", TokenCount(Get(usage, "cacheWrite"))),
     Field("totalTokens", TokenCount(Get(usage, "totalTokens")))]
  }

  function UserPayload(p: Record): Record
    requires HasText(p, "text")
  {
    [Field("role", Str("user")), Field("text", Get(p, "text").value)]
    + if HasText(p, "mode") then [Field("mode", Get(p, "mode").value)] else []
  }

  function AssistantPayload(p: Record): Record
    requires HasText(p, "text")
  {
    [Field("role", Str("assistant")),
     Field("text", Get(p, "text").value),
     Field("content", Items(Get(p, "content"))),
     Field("model", if HasText(p, "model") then Get(p, "model").value else Str("unknown")),
     Field("usage", Obj(UsageOf(Fields(Get(p, "usage")))))]
  }

  predicate IsToolResult(p: Record) {
    HasText(p, "name") && HasText(p, "toolCallId") && HasText(p, "output")
  }

  function ToolPayload(p: Record): Record
    requires IsToolResult(p)
  {
    [Field("name", Get(p, "name").value),
     Field("toolCallId", Get(p, "toolCallId").value),
     Field("output", Get(p, "output").value),
     Field("isError", Bool(Truthy(Get(p, "isError"))))]
  }

  function CompactionPayload(p: Record): Record
    requires HasText(p, "summary")
  {
    [Field("summary", Get(p, "summary").value)]
    + Optional("outcome", Get(p, "outcome"))
    + Optional("droppedMessages", Get(p, "droppedMessages"))
    + Optional("tokensBefore", Get(p, "tokensBefore"))
    + Optional("tokensAfter", Get(p, "tokensAfter"))
    + Optional("modelAssisted", Get(p, "modelAssisted"))
    + [Field("retainedMessages", Items(Get(p, "retainedMessages")))]
  }

  function AnchorPayload(name: string, p: Record): Record {
    [Field("eventType", Str(name)), Field("value", RemoveSponsorData(Obj(p)))]
  }

  function Projection(eventType: EventType, p: Record): Option<Projected> {
    if ContainsSponsorKey(Obj(p)) then None
    else if eventType == MessageUser then
      if HasText(p, "text") then Some(Projected(UserMessage, UserPayload(p))) else None
    else if eventType == MessageComplete then
      if HasText(p, "text") then Some(Projected(AssistantMessage, AssistantPayload(p))) else None
    else if eventType == ToolResult then
      if IsToolResult(p) then Some(Projected(ToolResultEntry, ToolPayload(p))) else None
    else if eventType == Compaction then
      if HasText(p, "summary") then Some(Projected(CompactionEntry, CompactionPayload(p))) else None
    else if AnchorName(eventType).Some? then
      Some(Projected(ContextAnchor, AnchorPayload(AnchorName(eventType).value, p)))
    else None
  }

  /** `appendEntry` for a fork: the event that stands for an entry, or nothing when it throws. */
  function CopyEvent(entry: Projected): Option<Draft> {
    var p := entry.payload;
    match entry.kind
    case UserMessage => if HasText(p, "text") then Some(Draft(MessageUser, p)) else None
    case AssistantMessage => if HasText(p, "text") then Some(Draft(MessageComplete, p)) else None
    case ToolResultEntry => if IsToolResult(p) then Some(Draft(ToolResult, p)) else None
    case CompactionEntry => if HasText(p, "summary") then Some(Draft(Compaction, p)) else None
    case ContextAnchor =>
      if HasText(p, "eventType") && AnchorNamed(Get(p, "eventType").value.text).Some? then
        Some(Draft(AnchorNamed(Get(p, "eventType").value.text).value, Fields(Get(p, "value"))))
      else None
  }

  // ----- copying an entry and projecting the copy is the identity

  lemma {:induction false} SafeKey(key: string)
    requires |key| > 0
    requires key[0] != 'a' && key[0] != 'A' && key[0] != 's' && key[0] != 'S' && key[0] != 'e' && key[0] != 'E'
    ensures !IsSponsorKey(key)
  {
    forall k | 0 <= k < |SPONSOR_KEYS|
      ensures !EqualsLowered(key, SPONSOR_KEYS[k])
    {
      assert SPONSOR_KEYS[k][0] == 'a' || SPONSOR_KEYS[k][0] == 's' || SPONSOR_KEYS[k][0] == 'e';
      assert Lower(key[0]) != SPONSOR_KEYS[k][0];
    }
  }

  lemma {:induction false} OwnKeysAreSafe()
    ensures !IsSponsorKey("role") && !IsSponsorKey("text") && !IsSponsorKey("mode") && !IsSponsorKey("content")
    ensures !IsSponsorKey("model") && !IsSponsorKey("usage") && !IsSponsorKey("input") && !IsSponsorKey("output")
    ensures !IsSponsorKey("cacheRead") && !IsSponsorKey("cacheWrite") && !IsSponsorKey("totalTokens")
    ensures !IsSponsorKey("name") && !IsSponsorKey("toolCallId") && !IsSponsorKey("isError")
    ensures !IsSponsorKey("outcome") && !IsSponsorKey("droppedMessages") && !IsSponsorKey("tokensBefore")
    ensures !IsSponsorKey("tokensAfter") && !IsSponsorKey("modelAssisted") && !IsSponsorKey("retainedMessages")
    ensures !IsSponsorKey("value") && !IsSponsorKey("eventType") && !IsSponsorKey("summary")
  {
    SafeKey("role"); SafeKey("text"); SafeKey("mode"); SafeKey("content");
    SafeKey("model"); SafeKey("usage"); SafeKey("input"); SafeKey("output");
    SafeKey("cacheRead"); SafeKey("cacheWrite"); SafeKey("totalTokens");
    SafeKey("name"); SafeKey("toolCallId"); SafeKey("isError");
    SafeKey("outcome"); SafeKey("droppedMessages"); SafeKey("tokensBefore");
    SafeKey("tokensAfter"); SafeKey("modelAssisted"); SafeKey("retainedMessages");
    SafeKey("value");
    forall k | 0 <= k < |SPONSOR_KEYS|
      ensures !EqualsLowered("eventType", SPONSOR_KEYS[k]) && !EqualsLowered("summary", SPONSOR_KEYS[k])
    {
      assert Lower("eventType"[1]) == 'v' && Lower("summary"[1]) == 'u' && Lower("summary"[2]) == 'm';
    }
  }

  lemma {:induction false} GetSafe(p: Record, key: string)
    requires !AnyFieldContains(p) && Get(p, key).Some?
    ensures !ContainsSponsorKey(Get(p, key).value)
  {
    if p[0].key != key {
      GetSafe(p[1..], key);
    }
  }

  lemma {:induction false} ConcatSafe(left: Record, right: Record)
    ensures AnyFieldContains(left + right) <==> AnyFieldContains(left) || AnyFieldContains(right)
  {
    if left == [] {
      assert left + right == right;
    } else {
      ConcatSafe(left[1..], right);
      assert (left + right)[1..] == left[1..] + right;
    }
  }

  lemma {:induction false} GetConcat(left: Record, right: Record, key: string)
    ensures Get(left + right, key) == if Get(left, key).Some? then Get(left, key) else Get(right, key)
  {
    if left == [] {
      assert left + right == right;
    } else {
      GetConcat(left[1..], right, key);
      assert (left + right)[1..] == left[1..] + right;
    }
  }

  lemma {:induction false} GetNowhere(p: Record, key: string)
    requires forall j | 0 <= j < |p| :: p[j].key != key
    ensures Get(p, key) == None
  {
    if p != [] {
      GetNowhere(p[1..], key);
    }
  }

  lemma {:induction false} FieldsSafe(p: Record)
    requires forall j | 0 <= j < |p| :: !IsSponsorKey(p[j].key) && !ContainsSponsorKey(p[j].value)
    ensures !AnyFieldContains(p)
  {
    if p != [] {
      FieldsSafe(p[1..]);
    }
  }

  /** The entry's payload, taken for an event payload, is projected to itself. */
  ghost predicate Stable(eventType: EventType, entry: Projected) {
    CopyEvent(entry) == Some(Draft(eventType, entry.payload)) && Projection(eventType, entry.payload) == Some(entry)
  }

  lemma {:induction false} UserStable(p: Record)
    requires !AnyFieldContains(p) && HasText(p, "text")
    ensures Stable(MessageUser, Projected(UserMessage, UserPayload(p)))
  {
    var q := UserPayload(p);
    OwnKeysAreSafe();
    GetSafe(p, "text");
    GetAt(q, "text", 1);
    if HasText(p, "mode") {
      GetAt(q, "mode", 2);
    } else {
      GetNowhere(q, "mode");
    }
    FieldsSafe(q);
  }

  lemma {:induction false} ToolStable(p: Record)
    requires !AnyFieldContains(p) && IsToolResult(p)
    ensures Stable(ToolResult, Projected(ToolResultEntry, ToolPayload(p)))
  {
    var q := ToolPayload(p);
    OwnKeysAreSafe();
    GetAt(q, "name", 0);
    GetAt(q, "toolCallId", 1);
    GetAt(q, "output", 2);
    GetAt(q, "isError", 3);
    FieldsSafe(q);
  }

  lemma {:induction false} ItemsStable(value: Option<Json>)
    ensures Items(Some(Items(value))) == Items(value) && !ContainsSponsorKey(Items(value))
  {
    if value.Some? {
      RemovalExactly(value.value);
      RemovalExactly(RemoveSponsorData(value.value));
    }
  }

  lemma {:induction false} UsageStable(usage: Record)
    ensures UsageOf(UsageOf(usage)) == UsageOf(usage) && !AnyFieldContains(UsageOf(usage))
  {
    var q := UsageOf(usage);
    OwnKeysAreSafe();
    GetAt(q, "input", 0);
    GetAt(q, "output", 1);
    GetAt(q, "cacheRead", 2);
    GetAt(q, "cacheWrite", 3);
    GetAt(q, "totalTokens", 4);
    FieldsSafe(q);
  }

  lemma {:induction false} AssistantStable(p: Record)
    requires !AnyFieldContains(p) && HasText(p, "text")
    ensures Stable(MessageComplete, Projected(AssistantMessage, AssistantPayload(p)))
  {
    AssistantSafe(p);
    AssistantGets(p);
    ItemsStable(Get(p, "content"));
    UsageStable(Fields(Get(p, "usage")));
  }

  lemma {:induction false} AssistantSafe(p: Record)
    requires !AnyFieldContains(p) && HasText(p, "text")
    ensures !AnyFieldContains(AssistantPayload(p))
  {
    OwnKeysAreSafe();
    ItemsStable(Get(p, "content"));
    UsageStable(Fields(Get(p, "usage")));
    FieldsSafe(AssistantPayload(p));
  }

  lemma {:induction false} AssistantGets(p: Record)
    requires HasText(p, "text")
    ensures var q := AssistantPayload(p);
            && Get(q, "text") == Get(p, "text")
            && Get(q, "content") == Some(Items(Get(p, "content")))
            && Get(q, "model") == Some(if HasText(p, "model") then Get(p, "model").value else Str("unknown"))
            && Get(q, "usage") == Some(Obj(UsageOf(Fields(Get(p, "usage")))))
  {
    var q := AssistantPayload(p);
    GetAt(q, "text", 1);
    GetAt(q, "content", 2);
    GetAt(q, "model", 3);
    GetAt(q, "usage", 4);
  }

  predicate IsOptionalKey(key: string) {
    key == "outcome" || key == "droppedMessages" || key == "tokensBefore" || key == "tokensAfter"
        || key == "modelAssisted"
  }

  lemma {:induction false} SingleGet(key: string, value: Json, other: string)
    ensures Get([Field(key, value)], other) == if other == key then Some(value) else None
  {
  }

  lemma {:induction false} OptionalGet(key: string, value: Option<Json>, other: string)
    ensures Get(Optional(key, value), other) == if other == key then value else None
  {
  }

  lemma {:induction false} CompactionGet(p: Record, key: string)
    requires HasText(p, "summary") && (key == "summary" || key == "retainedMessages" || IsOptionalKey(key))
    ensures Get(CompactionPayload(p), key)
         == if key == "retainedMessages" then Some(Items(Get(p, key))) else Get(p, key)
  {
    var q0 := [Field("summary", Get(p, "summary").value)];
    var o1, o2 := Optional("outcome", Get(p, "outcome")), Optional("droppedMessages", Get(p, "droppedMessages"));
    var o3, o4 := Optional("tokensBefore", Get(p, "tokensBefore")), Optional("tokensAfter", Get(p, "tokensAfter"));
    var o5 := Optional("modelAssisted", Get(p, "modelAssisted"));
    var r := [Field("retainedMessages", Items(Get(p, "retainedMessages")))];
    GetConcat(q0, o1, key);
    GetConcat(q0 + o1, o2, key);
    GetConcat(q0 + o1 + o2, o3, key);
    GetConcat(q0 + o1 + o2 + o3, o4, key);
    GetConcat(q0 + o1 + o2 + o3 + o4, o5, key);
    GetConcat(q0 + o1 + o2 + o3 + o4 + o5, r, key);
    SingleGet("summary", Get(p, "summary").value, key);
    OptionalGet("outcome", Get(p, "outcome"), key);
    OptionalGet("droppedMessages", Get(p, "droppedMessages"), key);
    OptionalGet("tokensBefore", Get(p, "tokensBefore"), key);
    OptionalGet("tokensAfter", Get(p, "tokensAfter"), key);
    OptionalGet("modelAssisted", Get(p, "modelAssisted"), key);
    SingleGet("retainedMessages", Items(Get(p, "retainedMessages")), key);
  }

  lemma {:induction false} OptionalSafe(p: Record, key: string)
    requires !AnyFieldContains(p) && !IsSponsorKey(key)
    ensures !AnyFieldContains(Optional(key, Get(p, key)))
  {
    if Get(p, key).Some? {
      GetSafe(p, key);
    }
  }

  lemma {:induction false} CompactionSafe(p: Record)
    requires !AnyFieldContains(p) && HasText(p, "summary")
    ensures !AnyFieldContains(CompactionPayload(p))
  {
    OwnKeysAreSafe();
    var q0 := [Field("summary", Get(p, "summary").value)];
    var o1, o2 := Optional("outcome", Get(p, "outcome")), Optional("droppedMessages", Get(p, "droppedMessages"));
    var o3, o4 := Optional("tokensBefore", Get(p, "tokensBefore")), Optional("tokensAfter", Get(p, "tokensAfter"));
    var o5 := Optional("modelAssisted", Get(p, "modelAssisted"));
    var r := [Field("retainedMessages", Items(Get(p, "retainedMessages")))];
    OptionalSafe(p, "outcome");
    OptionalSafe(p, "droppedMessages");
    OptionalSafe(p, "tokensBefore");
    OptionalSafe(p, "tokensAfter");
    OptionalSafe(p, "modelAssisted");
    ItemsStable(Get(p, "retainedMessages"));
    FieldsSafe(q0);
    FieldsSafe(r);
    ConcatSafe(q0, o1);
    ConcatSafe(q0 + o1, o2);
    ConcatSafe(q0 + o1 + o2, o3);
    ConcatSafe(q0 + o1 + o2 + o3, o4);
    ConcatSafe(q0 + o1 + o2 + o3 + o4, o5);
    ConcatSafe(q0 + o1 + o2 + o3 + o4 + o5, r);
  }

  lemma {:induction false} CompactionStable(p: Record)
    requires !AnyFieldContains(p) && HasText(p, "summary")
    ensures Stable(Compaction, Projected(CompactionEntry, CompactionPayload(p)))
  {
    var q := CompactionPayload(p);
    CompactionSafe(p);
    ItemsStable(Get(p, "retainedMessages"));
    CompactionGet(p, "summary");
    CompactionGet(p, "outcome");
    CompactionGet(p, "droppedMessages");
    CompactionGet(p, "tokensBefore");
    CompactionGet(p, "tokensAfter");
    CompactionGet(p, "modelAssisted");
    CompactionGet(p, "retainedMessages");
    assert CompactionPayload(q) == q;
  }

  /** Projecting an event and copying the entry gives an event of the same type whose projection is
      the same entry, in kind and payload, for all five kinds of entry. So the copy of an entry
      never fails, and neither does the copy of a copy. */
  lemma {:induction false} CopyIsFaithful(eventType: EventType, p: Record)
    requires Projection(eventType, p).Some?
    ensures var entry := Projection(eventType, p).value;
            && CopyEvent(entry).Some?
            && CopyEvent(entry).value.eventType == eventType
            && Projection(eventType, CopyEvent(entry).value.payload) == Some(entry)
  {
    if eventType == MessageUser {
      UserStable(p);
    } else if eventType == MessageComplete {
      AssistantStable(p);
    } else if eventType == ToolResult {
      ToolStable(p);
    } else if eventType == Compaction {
      CompactionStable(p);
    } else {
      AnchorCopied(eventType, p);
    }
  }

  lemma {:induction false} AnchorCopied(eventType: EventType, p: Record)
    requires !AnyFieldContains(p) && AnchorName(eventType).Some?
    ensures CopyEvent(Projected(ContextAnchor, AnchorPayload(AnchorName(eventType).value, p)))
        == Some(Draft(eventType, p))
  {
    var name := AnchorName(eventType).value;
    var q := AnchorPayload(name, p);
    RemovalExactly(Obj(p));
    GetAt(q, "eventType", 0);
    GetAt(q, "value", 1);
    assert q[1].value == Obj(p);
  }
}
