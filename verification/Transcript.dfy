/** The grammar of a conversation, and the check of it that runs before every request
    (CheckTranscript, v2/internal/ops/session.go:83-161; the comment on History,
    v2/chat/session.go:79-91). Text and arguments are values here. */
module Transcript {
  import opened Common
  import opened Text

  /** Other is a role that is none of the three. */
  datatype Role = User | Assistant | Tool | Other

  datatype Call = Call(id: string, name: string, args: string)

  datatype Message = Message(role: Role, content: string, calls: seq<Call>, callId: string)

  /** json.Valid, which is not part of this model. */
  type Json = string -> bool

  /** jsonObject: the arguments of a call are one object. */
  predicate JsonObject(json: Json, args: string) {
    var trimmed := Trim(args);
    trimmed != "" && trimmed[0] == '{' && json(trimmed)
  }

  // ---------------------------------------------------------------- the grammar

  function Ids(calls: seq<Call>): set<string> {
    if calls == [] then {} else Ids(calls[..|calls| - 1]) + {calls[|calls| - 1].id}
  }

  lemma {:induction false} InIds(calls: seq<Call>, id: string)
    ensures id in Ids(calls) <==> exists k :: 0 <= k < |calls| && calls[k].id == id
  {
    if calls != [] { InIds(calls[..|calls| - 1], id); }
  }

  /** A tool message between two positions answers the call. */
  predicate AnsweredIn(h: seq<Message>, a: nat, i: nat, id: string)
    requires i <= |h|
  {
    exists t | a < t < i :: h[t].role.Tool? && h[t].callId == id
  }

  predicate AllAnswered(h: seq<Message>, a: nat, i: nat)
    requires a < i <= |h|
  {
    forall id | id in Ids(h[a].calls) :: AnsweredIn(h, a, i, id)
  }

  /** No call of a message before this position is left unanswered. */
  predicate NoneWaiting(h: seq<Message>, i: nat)
    requires i <= |h|
  {
    forall a | 0 <= a < i && h[a].role.Assistant? :: AllAnswered(h, a, i)
  }

  predicate UsedBefore(h: seq<Message>, i: nat, id: string)
    requires i <= |h|
  {
    exists a | 0 <= a < i :: h[a].role.Assistant? && id in Ids(h[a].calls)
  }

  /** The assistant message the tool messages just before this position follow. */
  predicate Opens(h: seq<Message>, a: nat, i: nat)
    requires i <= |h|
  {
    a < i && h[a].role.Assistant? && forall t | a < t < i :: h[t].role.Tool?
  }

  predicate UserSits(h: seq<Message>, i: nat)
    requires i < |h|
  {
    && h[i].calls == [] && h[i].callId == "" && !Blank(h[i].content)
    && (i > 0 ==> !h[i - 1].role.User?)
    && NoneWaiting(h, i)
  }

  predicate CallSits(json: Json, h: seq<Message>, i: nat, j: nat)
    requires i < |h| && j < |h[i].calls|
  {
    var c := h[i].calls[j];
    && c.id != "" && c.name != "" && JsonObject(json, c.args)
    && !UsedBefore(h, i, c.id)
    && c.id !in Ids(h[i].calls[..j])
  }

  predicate CallsSit(json: Json, h: seq<Message>, i: nat)
    requires i < |h|
  {
    forall j | 0 <= j < |h[i].calls| :: CallSits(json, h, i, j)
  }

  predicate AssistantSits(json: Json, h: seq<Message>, i: nat)
    requires i < |h|
  {
    && h[i].callId == "" && i > 0 && !h[i - 1].role.Assistant?
    && NoneWaiting(h, i)
    && (!Blank(h[i].content) || h[i].calls != [])
    && CallsSit(json, h, i)
  }

  predicate ToolSits(h: seq<Message>, i: nat)
    requires i < |h|
  {
    && h[i].calls == [] && h[i].callId != ""
    && exists a | 0 <= a < i :: Opens(h, a, i) && h[i].callId in Ids(h[a].calls) && !AnsweredIn(h, a, i, h[i].callId)
  }

  /** A message may stand where it stands. */
  predicate Sits(json: Json, h: seq<Message>, i: nat)
    requires i < |h|
  {
    match h[i].role
    case User => UserSits(h, i)
    case Assistant => AssistantSits(json, h, i)
    case Tool => ToolSits(h, i)
    case Other => false
  }

  predicate Grammar(json: Json, h: seq<Message>) {
    forall i | 0 <= i < |h| :: Sits(json, h, i)
  }

  // ---------------------------------------------------------------- the check

  /** What the check knows before a message: the role of the one before, the ids used, and the calls of
      the last assistant message with whether each is answered. */
  datatype State = State(previous: Option<Role>, used: set<string>, open: map<string, bool>, unanswered: int)

  const START := State(None, {}, map[], 0)

  function Waiting(open: map<string, bool>): set<string> {
    set id | id in open && !open[id]
  }

  predicate AllOpen(open: map<string, bool>) {
    forall id | id in open :: !open[id]
  }

  /** The open calls are those of the last assistant message, when nothing but tool messages follows it. */
  predicate KnowsOpen(h: seq<Message>, i: nat, open: map<string, bool>)
    requires i <= |h|
  {
    && (forall a | 0 <= a < i && Opens(h, a, i) ::
          && open.Keys == Ids(h[a].calls)
          && forall id | id in open :: open[id] == AnsweredIn(h, a, i, id))
    && ((forall a | 0 <= a < i :: !Opens(h, a, i)) ==> open == map[])
  }

  ghost predicate KnowsUsed(h: seq<Message>, i: nat, used: set<string>)
    requires i <= |h|
  {
    forall id :: id in used <==> UsedBefore(h, i, id)
  }

  /** The calls of every other assistant message are answered. */
  predicate Settled(h: seq<Message>, i: nat)
    requires i <= |h|
  {
    forall a | 0 <= a < i && h[a].role.Assistant? && !Opens(h, a, i) :: AllAnswered(h, a, i)
  }

  ghost predicate Knows(h: seq<Message>, i: nat, s: State)
    requires i <= |h|
  {
    && s.previous == (if i == 0 then None else Some(h[i - 1].role))
    && KnowsUsed(h, i, s.used)
    && KnowsOpen(h, i, s.open)
    && s.unanswered == |Waiting(s.open)|
    && Settled(h, i)
  }

  lemma KnowsNothing(h: seq<Message>)
    ensures Knows(h, 0, START)
  {
    assert Waiting(map[]) == {};
  }

  lemma WaitingIff(h: seq<Message>, i: nat, s: State)
    requires i <= |h| && Knows(h, i, s)
    ensures s.unanswered > 0 <==> !NoneWaiting(h, i)
  {
    if a :| 0 <= a < i && Opens(h, a, i) {
      if s.unanswered > 0 {
        var id :| id in Waiting(s.open);
        assert !AnsweredIn(h, a, i, id);
        assert !AllAnswered(h, a, i);
      } else {
        assert Waiting(s.open) == {};
        forall b | 0 <= b < i && h[b].role.Assistant? ensures AllAnswered(h, b, i) {
          if Opens(h, b, i) {
            forall id | id in Ids(h[b].calls) ensures AnsweredIn(h, b, i, id) {
              assert id in s.open && id !in Waiting(s.open);
            }
          }
        }
      }
    } else {
      assert Waiting(s.open) == {};
    }
  }

  // One message more.

  lemma OpensStep(h: seq<Message>, a: nat, i: nat)
    requires a <= i < |h|
    ensures Opens(h, a, i + 1) <==> (a == i && h[i].role.Assistant?) || (h[i].role.Tool? && Opens(h, a, i))
  {
    if a < i && Opens(h, a, i + 1) {
      assert h[i].role.Tool?;
    }
  }

  lemma UsedStep(h: seq<Message>, i: nat, id: string)
    requires i < |h|
    ensures UsedBefore(h, i + 1, id) <==> UsedBefore(h, i, id) || (h[i].role.Assistant? && id in Ids(h[i].calls))
  {
  }

  lemma AnsweredStep(h: seq<Message>, a: nat, i: nat, id: string)
    requires a < i < |h|
    ensures AnsweredIn(h, a, i + 1, id) <==> AnsweredIn(h, a, i, id) || (h[i].role.Tool? && h[i].callId == id)
  {
  }

  /** What is answered stays answered. */
  lemma AnsweredStays(h: seq<Message>, a: nat, i: nat)
    requires a < i < |h| && AllAnswered(h, a, i)
    ensures AllAnswered(h, a, i + 1)
  {
    forall id | id in Ids(h[a].calls) ensures AnsweredIn(h, a, i + 1, id) {
      AnsweredStep(h, a, i, id);
    }
  }

  lemma UserStep(h: seq<Message>, i: nat, s: State)
    requires i < |h| && Knows(h, i, s) && h[i].role.User? && NoneWaiting(h, i)
    ensures Knows(h, i + 1, State(Some(User), s.used, map[], s.unanswered))
  {
    WaitingIff(h, i, s);
    forall a: nat | a <= i
      ensures Opens(h, a, i + 1) <==> (a == i && h[i].role.Assistant?) || (h[i].role.Tool? && Opens(h, a, i))
    {
      OpensStep(h, a, i);
    }
    forall id ensures UsedBefore(h, i + 1, id) <==> UsedBefore(h, i, id) { UsedStep(h, i, id); }
    forall a | 0 <= a < i + 1 && h[a].role.Assistant? ensures AllAnswered(h, a, i + 1) { AnsweredStays(h, a, i); }
    assert Waiting(map[]) == {};
  }

  lemma AssistantOpen(h: seq<Message>, i: nat, open: map<string, bool>)
    requires i < |h| && h[i].role.Assistant? && open.Keys == Ids(h[i].calls)
    requires AllOpen(open)
    ensures KnowsOpen(h, i + 1, open)
  {
    forall a: nat | a <= i
      ensures Opens(h, a, i + 1) <==> (a == i && h[i].role.Assistant?) || (h[i].role.Tool? && Opens(h, a, i))
    {
      OpensStep(h, a, i);
    }
    assert Opens(h, i, i + 1);
  }

  lemma AssistantUsed(h: seq<Message>, i: nat, used: set<string>)
    requires i < |h| && h[i].role.Assistant? && KnowsUsed(h, i, used)
    ensures KnowsUsed(h, i + 1, used + Ids(h[i].calls))
  {
    forall id
      ensures UsedBefore(h, i + 1, id) <==> UsedBefore(h, i, id) || id in Ids(h[i].calls)
    {
      UsedStep(h, i, id);
    }
  }

  lemma AssistantSettled(h: seq<Message>, i: nat)
    requires i < |h| && h[i].role.Assistant? && NoneWaiting(h, i)
    ensures Settled(h, i + 1)
  {
    forall a | 0 <= a < i && h[a].role.Assistant? ensures AllAnswered(h, a, i + 1) { AnsweredStays(h, a, i); }
    assert Opens(h, i, i + 1);
  }

  lemma NoneAnswered(open: map<string, bool>)
    requires AllOpen(open)
    ensures |Waiting(open)| == |open|
  {
    assert Waiting(open) == open.Keys;
  }

  lemma AssistantStep(h: seq<Message>, i: nat, s: State, used: set<string>, open: map<string, bool>)
    requires i < |h| && Knows(h, i, s) && h[i].role.Assistant? && NoneWaiting(h, i)
    requires used == s.used + Ids(h[i].calls) && open.Keys == Ids(h[i].calls) && |open| == |h[i].calls|
    requires AllOpen(open)
    ensures Knows(h, i + 1, State(Some(Assistant), used, open, |h[i].calls|))
  {
    AssistantOpen(h, i, open);
    AssistantUsed(h, i, s.used);
    AssistantSettled(h, i);
    NoneAnswered(open);
  }

  lemma ToolSettled(h: seq<Message>, i: nat, s: State)
    requires i < |h| && Settled(h, i) && h[i].role.Tool?
    ensures Settled(h, i + 1)
  {
    forall a: nat | a <= i
      ensures Opens(h, a, i + 1) <==> (a == i && h[i].role.Assistant?) || (h[i].role.Tool? && Opens(h, a, i))
    {
      OpensStep(h, a, i);
    }
    forall a | 0 <= a < i + 1 && h[a].role.Assistant? && !Opens(h, a, i + 1) ensures AllAnswered(h, a, i + 1) {
      AnsweredStays(h, a, i);
    }
  }

  lemma ToolAnswers(h: seq<Message>, a: nat, i: nat, open: map<string, bool>)
    requires i < |h| && Opens(h, a, i) && h[i].role.Tool? && h[i].callId in open
    requires open.Keys == Ids(h[a].calls) && forall id | id in open :: open[id] == AnsweredIn(h, a, i, id)
    ensures var next := open[h[i].callId := true];
      next.Keys == Ids(h[a].calls) && forall id | id in next :: next[id] == AnsweredIn(h, a, i + 1, id)
  {
    var next := open[h[i].callId := true];
    forall id | id in next ensures next[id] == AnsweredIn(h, a, i + 1, id) { AnsweredStep(h, a, i, id); }
  }

  lemma ToolOpen(h: seq<Message>, i: nat, open: map<string, bool>)
    requires i < |h| && KnowsOpen(h, i, open) && h[i].role.Tool? && h[i].callId in open
    ensures KnowsOpen(h, i + 1, open[h[i].callId := true])
  {
    var b: nat :| b < i && Opens(h, b, i);
    OpensStep(h, b, i);
    var n := i + 1;
    forall a: nat | a < n && Opens(h, a, n) ensures a == b {
      OpensStep(h, a, i);
      OpensOnce(h, a, b, i);
    }
    ToolAnswers(h, b, i, open);
  }

  lemma OpensOnce(h: seq<Message>, a: nat, b: nat, i: nat)
    requires i <= |h| && Opens(h, a, i) && Opens(h, b, i)
    ensures a == b
  {
    assert !h[a].role.Tool? && !h[b].role.Tool?;
  }

  lemma ToolStep(h: seq<Message>, i: nat, s: State)
    requires i < |h| && Knows(h, i, s) && h[i].role.Tool? && h[i].callId in s.open && !s.open[h[i].callId]
    ensures Knows(h, i + 1, State(Some(Tool), s.used, s.open[h[i].callId := true], s.unanswered - 1))
  {
    ToolSettled(h, i, s);
    ToolOpen(h, i, s.open);
    forall id ensures UsedBefore(h, i + 1, id) <==> UsedBefore(h, i, id) { UsedStep(h, i, id); }
    var id := h[i].callId;
    assert Waiting(s.open) == Waiting(s.open[id := true]) + {id};
  }

  /** The open call a tool message may answer. */
  lemma ToolSitsIff(h: seq<Message>, i: nat, s: State)
    requires i < |h| && Knows(h, i, s)
    ensures (exists a | 0 <= a < i ::
               Opens(h, a, i) && h[i].callId in Ids(h[a].calls) && !AnsweredIn(h, a, i, h[i].callId))
      <==> h[i].callId in s.open && !s.open[h[i].callId]
  {
  }

  // The loops.

  /** One call is asked for as it should be, beside the ids used so far. */
  predicate CallFits(json: Json, call: Call, used: set<string>) {
    call.id != "" && call.name != "" && JsonObject(json, call.args) && call.id !in used
  }

  /** The calls, none of them answered. */
  function Unanswered(calls: seq<Call>): map<string, bool> {
    if calls == [] then map[] else Unanswered(calls[..|calls| - 1])[calls[|calls| - 1].id := false]
  }

  lemma OneMoreOpen(open: map<string, bool>, id: string)
    requires AllOpen(open) && id !in open
    ensures open[id := false].Keys == open.Keys + {id} && |open[id := false]| == |open| + 1
    ensures AllOpen(open[id := false])
  {
    assert open[id := false].Keys == open.Keys + {id};
  }

  lemma {:induction false} UnansweredAre(calls: seq<Call>, j: nat)
    requires j <= |calls|
    requires forall k | 0 <= k < j :: calls[k].id !in Ids(calls[..k])
    ensures var open := Unanswered(calls[..j]);
      open.Keys == Ids(calls[..j]) && AllOpen(open) && |open| == j
  {
    if j > 0 {
      UnansweredAre(calls, j - 1);
      OneMoreCall(calls, j - 1, {});
      OneMoreOpen(Unanswered(calls[..j - 1]), calls[j - 1].id);
    }
  }

  lemma OneMoreCall(calls: seq<Call>, j: nat, used: set<string>)
    requires j < |calls|
    ensures used + Ids(calls[..j + 1]) == (used + Ids(calls[..j])) + {calls[j].id}
    ensures Ids(calls[..j + 1]) == Ids(calls[..j]) + {calls[j].id}
    ensures Unanswered(calls[..j + 1]) == Unanswered(calls[..j])[calls[j].id := false]
  {
    assert calls[..j + 1][..j] == calls[..j];
  }

  lemma NewCallsAreOpen(json: Json, h: seq<Message>, i: nat)
    requires i < |h| && CallsSit(json, h, i)
    ensures var open := Unanswered(h[i].calls);
      open.Keys == Ids(h[i].calls) && AllOpen(open) && |open| == |h[i].calls|
  {
    var calls := h[i].calls;
    forall k | 0 <= k < |calls| ensures calls[k].id !in Ids(calls[..k]) {
      assert CallSits(json, h, i, k);
    }
    UnansweredAre(calls, |calls|);
    assert calls[..|calls|] == calls;
  }

  lemma CallSitsIff(json: Json, h: seq<Message>, i: nat, j: nat, used: set<string>)
    requires i < |h| && j < |h[i].calls| && KnowsUsed(h, i, used)
    ensures CallSits(json, h, i, j) <==> CallFits(json, h[i].calls[j], used + Ids(h[i].calls[..j]))
  {
  }

  /** The calls of one message: each has an id no earlier call used, a name, and an object. */
  method CheckCalls(json: Json, h: seq<Message>, i: nat, used: set<string>)
      returns (ok: bool, next: set<string>, open: map<string, bool>)
    requires i < |h| && KnowsUsed(h, i, used)
    ensures ok == CallsSit(json, h, i)
    ensures ok ==> next == used + Ids(h[i].calls) && open == Unanswered(h[i].calls)
  {
    var calls := h[i].calls;
    ok, next, open := true, used, map[];
    for j := 0 to |calls|
      invariant forall k | 0 <= k < j :: CallSits(json, h, i, k)
      invariant next == used + Ids(calls[..j]) && open == Unanswered(calls[..j])
    {
      CallSitsIff(json, h, i, j, used);
      if !CallFits(json, calls[j], next) {
        return false, next, open;
      }
      OneMoreCall(calls, j, used);
      next := next + {calls[j].id};
      open := open[calls[j].id := false];
    }
    assert calls[..|calls|] == calls;
  }

  method CheckUser(h: seq<Message>, i: nat, s: State) returns (ok: bool, next: State)
    requires i < |h| && Knows(h, i, s) && h[i].role.User?
    ensures ok == UserSits(h, i)
    ensures ok ==> Knows(h, i + 1, next)
  {
    WaitingIff(h, i, s);
    var m := h[i];
    if |m.calls| > 0 || m.callId != "" || Blank(m.content) || s.previous == Some(User) || s.unanswered > 0 {
      return false, s;
    }
    UserStep(h, i, s);
    return true, State(Some(User), s.used, map[], s.unanswered);
  }

  method CheckAssistant(json: Json, h: seq<Message>, i: nat, s: State) returns (ok: bool, next: State)
    requires i < |h| && Knows(h, i, s) && h[i].role.Assistant?
    ensures ok == AssistantSits(json, h, i)
    ensures ok ==> Knows(h, i + 1, next)
  {
    WaitingIff(h, i, s);
    var m := h[i];
    if || m.callId != "" || s.previous.None? || s.previous == Some(Assistant) || s.unanswered > 0
       || (Blank(m.content) && |m.calls| == 0) {
      return false, s;
    }
    var used, open;
    ok, used, open := CheckCalls(json, h, i, s.used);
    if !ok {
      return false, s;
    }
    NewCallsAreOpen(json, h, i);
    AssistantStep(h, i, s, used, open);
    return true, State(Some(Assistant), used, open, |m.calls|);
  }

  method CheckTool(h: seq<Message>, i: nat, s: State) returns (ok: bool, next: State)
    requires i < |h| && Knows(h, i, s) && h[i].role.Tool?
    ensures ok == ToolSits(h, i)
    ensures ok ==> Knows(h, i + 1, next)
  {
    ToolSitsIff(h, i, s);
    var m := h[i];
    if |m.calls| > 0 || m.callId == "" || |s.open| == 0 {
      return false, s;
    }
    if m.callId !in s.open || s.open[m.callId] {
      return false, s;
    }
    ToolStep(h, i, s);
    return true, State(Some(Tool), s.used, s.open[m.callId := true], s.unanswered - 1);
  }

  method CheckMessage(json: Json, h: seq<Message>, i: nat, s: State) returns (ok: bool, next: State)
    requires i < |h| && Knows(h, i, s)
    ensures ok == Sits(json, h, i)
    ensures ok ==> Knows(h, i + 1, next)
  {
    match h[i].role
    case User => ok, next := CheckUser(h, i, s);
    case Assistant => ok, next := CheckAssistant(json, h, i, s);
    case Tool => ok, next := CheckTool(h, i, s);
    case Other => ok, next := false, s;
  }

  /** CheckTranscript: the position, from 1, of the first message that may not stand where it stands. */
  method CheckTranscript(json: Json, h: seq<Message>) returns (problem: Option<nat>)
    ensures problem.None? <==> Grammar(json, h)
    ensures problem.Some? ==> 1 <= problem.value <= |h| && !Sits(json, h, problem.value - 1)
    ensures problem.Some? ==> forall k | 0 <= k < problem.value - 1 :: Sits(json, h, k)
  {
    var s := START;
    KnowsNothing(h);
    for i := 0 to |h|
      invariant forall k | 0 <= k < i :: Sits(json, h, k)
      invariant Knows(h, i, s)
    {
      var ok;
      ok, s := CheckMessage(json, h, i, s);
      if !ok {
        return Some(i + 1);
      }
    }
    return None;
  }
}
