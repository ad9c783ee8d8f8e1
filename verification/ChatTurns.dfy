/** One turn of a conversation on values: what it adds, what it sends, the reply it takes, and the
    history it leaves (turn, Send and SendResults, v2/chat/session.go:109-218; runTurn and
    checkTurnReply, v2/internal/ops/session.go:204-374). */
module ChatTurns {
  import opened Common
  import opened Text
  import opened Transcript

  // ---------------------------------------------------------------- what is settled before a turn

  datatype Tier = TierUnset | Smart | Fast | Quick | OtherTier

  datatype Mode = ModeUnset | Strict | TransformMode | Creative | OtherMode

  datatype Settings = Settings(tier: Tier, mode: Mode, maxOutputTokens: int, tools: seq<string>)

  predicate ToolsFit(tools: seq<string>) {
    && (forall i | 0 <= i < |tools| :: !Blank(tools[i]))
    && (forall i, j | 0 <= i < j < |tools| :: tools[i] != tools[j])
  }

  predicate Fit(set_: Settings) {
    set_.tier != OtherTier && set_.mode != OtherMode && set_.maxOutputTokens >= 0 && ToolsFit(set_.tools)
  }

  /** SessionSettings.options, as it is written. */
  method CheckSettings(set_: Settings) returns (ok: bool)
    ensures ok == Fit(set_)
  {
    if set_.tier == OtherTier || set_.mode == OtherMode || set_.maxOutputTokens < 0 {
      return false;
    }
    var tools := set_.tools;
    var names: set<string> := {};
    for i := 0 to |tools|
      invariant forall name :: name in names <==> name in tools[..i]
      invariant ToolsFit(tools[..i])
    {
      assert tools[..i + 1] == tools[..i] + [tools[i]];
      TrimIsEmptyIff(tools[i]);
      if Trim(tools[i]) == "" || tools[i] in names {
        assert tools[i] in names ==> exists k :: 0 <= k < i && tools[k] == tools[i];
        return false;
      }
      names := names + {tools[i]};
    }
    assert tools[..|tools|] == tools;
    return true;
  }

  // ---------------------------------------------------------------- the reply

  datatype Response = Response(content: string, calls: seq<Call>)

  function Reply(resp: Response): Message { Message(Assistant, resp.content, resp.calls, "") }

  predicate UsedAnywhere(conversation: seq<Message>, id: string) {
    exists a | 0 <= a < |conversation| :: id in Ids(conversation[a].calls)
  }

  /** One call of a reply can be used. */
  predicate Usable(json: Json, tools: seq<string>, conversation: seq<Message>, calls: seq<Call>, j: nat)
    requires j < |calls|
  {
    && calls[j].name in tools
    && calls[j].id != "" && !UsedAnywhere(conversation, calls[j].id) && calls[j].id !in Ids(calls[..j])
    && JsonObject(json, calls[j].args)
  }

  predicate Acceptable(json: Json, tools: seq<string>, conversation: seq<Message>, resp: Response) {
    if resp.calls == [] then !Blank(resp.content)
    else forall j | 0 <= j < |resp.calls| :: Usable(json, tools, conversation, resp.calls, j)
  }

  /** The ids the conversation used. */
  method Earlier(conversation: seq<Message>) returns (ids: set<string>)
    ensures forall id :: id in ids <==> UsedAnywhere(conversation, id)
  {
    ids := {};
    for i := 0 to |conversation|
      invariant forall id :: id in ids <==> UsedAnywhere(conversation[..i], id)
    {
      ids := ids + Ids(conversation[i].calls);
      forall id
        ensures UsedAnywhere(conversation[..i + 1], id) <==>
                UsedAnywhere(conversation[..i], id) || id in Ids(conversation[i].calls)
      {
        UsedOneMore(conversation, i, id);
      }
    }
    assert conversation[..|conversation|] == conversation;
  }

  lemma UsedOneMore(h: seq<Message>, i: nat, id: string)
    requires i < |h|
    ensures UsedAnywhere(h[..i + 1], id) <==> UsedAnywhere(h[..i], id) || id in Ids(h[i].calls)
  {
    assert h[..i + 1][i] == h[i];
    assert forall a | 0 <= a < i :: h[..i + 1][a] == h[..i][a];
  }

  /** checkTurnReply, as it is written: the calls that cannot be used are counted, and any of them
      refuses the reply. */
  method CheckReply(json: Json, tools: seq<string>, conversation: seq<Message>, resp: Response)
      returns (reply: Option<Message>)
    ensures reply.Some? <==> Acceptable(json, tools, conversation, resp)
    ensures reply.Some? ==> reply.value == Reply(resp)
  {
    var calls := resp.calls;
    if |calls| == 0 {
      if Blank(resp.content) {
        return None;
      }
      return Some(Message(Assistant, resp.content, [], ""));
    }
    var earlier := Earlier(conversation);
    var undeclared, noId, repeated, notObject := 0, 0, 0, 0;
    var ids: set<string> := {};
    for j := 0 to |calls|
      invariant ids == Ids(calls[..j])
      invariant undeclared >= 0 && noId >= 0 && repeated >= 0 && notObject >= 0
      invariant undeclared + noId + repeated + notObject == 0 <==>
        forall k | 0 <= k < j :: Usable(json, tools, conversation, calls, k)
    {
      var call := calls[j];
      OneMoreCall(calls, j, {});
      assert Usable(json, tools, conversation, calls, j) <==>
        call.name in tools && call.id != "" && call.id !in earlier && call.id !in ids && JsonObject(json, call.args);
      ghost var before := undeclared + noId + repeated + notObject;
      if call.name !in tools {
        undeclared := undeclared + 1;
      }
      if call.id == "" {
        noId := noId + 1;
      } else if call.id in ids || call.id in earlier {
        repeated := repeated + 1;
      }
      ids := ids + {call.id};
      if !JsonObject(json, call.args) {
        notObject := notObject + 1;
      }
      assert undeclared + noId + repeated + notObject == before <==> Usable(json, tools, conversation, calls, j);
    }
    if undeclared + noId + repeated + notObject > 0 {
      return None;
    }
    return Some(Message(Assistant, resp.content, calls, ""));
  }

  // ---------------------------------------------------------------- what a turn adds

  /** Why a turn failed. Mismatch counts the calls that have no result and the results that answer no
      call; BadHistory says the position. */
  datatype Problem =
    | NoText
    | NothingWaiting
    | Mismatch(missing: nat, unknown: nat)
    | BadSettings
    | BadHistory(position: nat)
    | CallFailed
    | BadReply

  datatype Added = Added(messages: seq<Message>) | Refused(problem: Problem)

  /** Some calls are waiting for their results. */
  predicate Asks(h: seq<Message>) {
    h != [] && h[|h| - 1].role.Assistant? && h[|h| - 1].calls != []
  }

  /** The tool messages for some calls, in their order. */
  function Answers(calls: seq<Call>, results: map<string, string>): seq<Message>
    requires Ids(calls) <= results.Keys
  {
    if calls == [] then []
    else
      var last := calls[|calls| - 1];
      Answers(calls[..|calls| - 1], results) + [Message(Tool, results[last.id], [], last.id)]
  }

  /** How many of the calls have no result. */
  function Missing(calls: seq<Call>, results: map<string, string>): (n: nat)
    ensures n == 0 <==> Ids(calls) <= results.Keys
  {
    if calls == [] then 0
    else Missing(calls[..|calls| - 1], results) + if calls[|calls| - 1].id in results then 0 else 1
  }

  function AddText(text: string): Added {
    if Blank(text) then Refused(NoText) else Added([Message(User, text, [], "")])
  }

  function AddResults(h: seq<Message>, results: map<string, string>): Added {
    if !Asks(h) then Refused(NothingWaiting)
    else
      var calls := h[|h| - 1].calls;
      if Ids(calls) == results.Keys then Added(Answers(calls, results))
      else Refused(Mismatch(Missing(calls, results), |results.Keys - Ids(calls)|))
  }

  lemma OneMoreResult(calls: seq<Call>, j: nat, results: map<string, string>)
    requires j < |calls|
    ensures Missing(calls[..j + 1], results) == Missing(calls[..j], results) + if calls[j].id in results then 0 else 1
    ensures Missing(calls[..j + 1], results) == 0 ==>
      Answers(calls[..j + 1], results)
        == Answers(calls[..j], results) + [Message(Tool, results[calls[j].id], [], calls[j].id)]
  {
    assert calls[..j + 1][..j] == calls[..j];
  }

  /** The loops of SendResults. */
  method MakeAnswers(h: seq<Message>, results: map<string, string>) returns (added: Added)
    ensures added == AddResults(h, results)
  {
    if |h| == 0 || h[|h| - 1].role != Assistant || |h[|h| - 1].calls| == 0 {
      return Refused(NothingWaiting);
    }
    var calls := h[|h| - 1].calls;
    var asked: set<string> := {};
    var answers: seq<Message> := [];
    var missing := 0;
    for j := 0 to |calls|
      invariant asked == Ids(calls[..j]) && missing == Missing(calls[..j], results)
      invariant missing == 0 ==> answers == Answers(calls[..j], results)
    {
      OneMoreCall(calls, j, {});
      OneMoreResult(calls, j, results);
      asked := asked + {calls[j].id};
      if calls[j].id in results {
        answers := answers + [Message(Tool, results[calls[j].id], [], calls[j].id)];
      } else {
        missing := missing + 1;
      }
    }
    assert calls[..|calls|] == calls;
    var unknown := CountUnknown(results, asked);
    if missing > 0 || unknown > 0 {
      return Refused(Mismatch(missing, unknown));
    }
    return Added(answers);
  }

  /** The ids of the results, in whatever order a map gives them. */
  method CountUnknown(results: map<string, string>, asked: set<string>) returns (unknown: nat)
    ensures unknown == |results.Keys - asked|
    ensures unknown == 0 <==> results.Keys <= asked
  {
    unknown := 0;
    var left := results.Keys;
    ghost var seen: set<string> := {};
    while left != {}
      invariant seen <= results.Keys && left == results.Keys - seen && unknown == |seen - asked|
      decreases |left|
    {
      var id :| id in left;
      assert (seen + {id}) - asked == if id in asked then seen - asked else (seen - asked) + {id};
      if id !in asked {
        unknown := unknown + 1;
      }
      left, seen := left - {id}, seen + {id};
    }
    assert seen == results.Keys;
    assert unknown == 0 ==> seen - asked == {};
    assert results.Keys <= asked ==> seen - asked == {};
  }
}
