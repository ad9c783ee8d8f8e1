/** How a turn ends, and what the grammar says of a conversation, message by message (v2/chat/session.go:93-160;
    v2/internal/ops/session.go:66-245, 294-374). */
module ChatOutcomes {
  import opened Common
  import opened Text
  import opened Transcript
  import opened ChatTurns
  import opened ChatLaws

  // ---------------------------------------------------------------- the answer

  /** JSON that begins with a brace, with or without space around it. */
  predicate IsObject(json: Json, args: string) {
    |Trim(args)| > 0 && Trim(args)[0] == '{' && json(Trim(args))
  }

  /** A turn whose request was answered replies exactly when the answer says something, or asks only for tools the
      settings declare, each call with arguments that are an object and an id that is not empty, that no other
      call of the answer has, and that nothing in the conversation used. */
  lemma RepliesIff(json: Json, set_: Settings, h: seq<Message>, text: string, answer: Response)
    requires Sent(Turn(json, set_, h, Send(text), Some(answer)).0)
    ensures Turn(json, set_, h, Send(text), Some(answer)).0.Replied? <==>
      if answer.calls == [] then !Blank(answer.content)
      else forall j | 0 <= j < |answer.calls| ::
        var call := answer.calls[j];
        && call.name in set_.tools && IsObject(json, call.args) && call.id != ""
        && (forall i | 0 <= i < j :: answer.calls[i].id != call.id)
        && (forall a, k | 0 <= a < |h| && 0 <= k < |h[a].calls| :: h[a].calls[k].id != call.id)
  {
    var conversation := h + [Message(User, text, [], "")];
    forall j | 0 <= j < |answer.calls|
      ensures Usable(json, set_.tools, conversation, answer.calls, j) <==>
        var call := answer.calls[j];
        && call.name in set_.tools && IsObject(json, call.args) && call.id != ""
        && (forall i | 0 <= i < j :: answer.calls[i].id != call.id)
        && (forall a, k | 0 <= a < |h| && 0 <= k < |h[a].calls| :: h[a].calls[k].id != call.id)
    {
      EarlierIds(answer.calls, j);
      UsedIff(h, text, answer.calls[j].id);
    }
  }

  lemma EarlierIds(calls: seq<Call>, j: nat)
    requires j < |calls|
    ensures calls[j].id !in Ids(calls[..j]) <==> forall i | 0 <= i < j :: calls[i].id != calls[j].id
  {
    InIds(calls[..j], calls[j].id);
    assert forall i | 0 <= i < j :: calls[..j][i] == calls[i];
  }

  lemma UsedIff(h: seq<Message>, text: string, id: string)
    ensures var conversation := h + [Message(User, text, [], "")];
      UsedAnywhere(conversation, id) <==> exists a, k :: 0 <= a < |h| && 0 <= k < |h[a].calls| && h[a].calls[k].id == id
  {
    var conversation := h + [Message(User, text, [], "")];
    forall a | 0 <= a < |h| ensures id in Ids(conversation[a].calls) <==>
      exists k :: 0 <= k < |h[a].calls| && h[a].calls[k].id == id
    {
      InIds(h[a].calls, id);
    }
    assert conversation[|h|].calls == [];
  }

  // ---------------------------------------------------------------- the results

  /** The calls that have no result. */
  function NoResult(calls: seq<Call>, results: map<string, string>): set<int> {
    set k | 0 <= k < |calls| && calls[k].id !in results
  }

  /** The results that answer no call. */
  function NoCall(calls: seq<Call>, results: map<string, string>): set<string> {
    set id | id in results && forall k | 0 <= k < |calls| :: calls[k].id != id
  }

  /** How a SendResults whose results do not match the calls is refused, and when: with the number of the calls that
      have no result, and that of the results that answer no call. */
  lemma MismatchIff(json: Json, set_: Settings, h: seq<Message>, results: map<string, string>,
      answer: Option<Response>)
    requires Asks(h)
    ensures var calls, o := h[|h| - 1].calls, Turn(json, set_, h, SendResults(results), answer).0;
      && (o.Failed? && o.problem.Mismatch? <==> NoResult(calls, results) != {} || NoCall(calls, results) != {})
      && (o.Failed? && o.problem.Mismatch? ==>
            o.problem == Mismatch(|NoResult(calls, results)|, |NoCall(calls, results)|))
  {
    MatchIs(h, results);
    assert AddedBy(h, SendResults(results)) == AddResults(h, results);
  }

  lemma MatchIs(h: seq<Message>, results: map<string, string>)
    requires Asks(h)
    ensures var calls, added := h[|h| - 1].calls, AddResults(h, results);
      if NoResult(calls, results) == {} && NoCall(calls, results) == {} then added.Added?
      else added == Refused(Mismatch(|NoResult(calls, results)|, |NoCall(calls, results)|))
  {
    var calls := h[|h| - 1].calls;
    assert calls[..|calls|] == calls;
    MissingIs(calls, results, |calls|);
    NoCallIs(calls, results);
  }

  lemma NoCallIs(calls: seq<Call>, results: map<string, string>)
    ensures NoCall(calls, results) == results.Keys - Ids(calls)
    ensures NoCall(calls, results) == {} <==> results.Keys <= Ids(calls)
  {
    forall id ensures id in NoCall(calls, results) <==> id in results.Keys - Ids(calls) { InIds(calls, id); }
  }

  lemma {:induction false} MissingIs(calls: seq<Call>, results: map<string, string>, j: nat)
    requires j <= |calls|
    ensures Missing(calls[..j], results) == |NoResult(calls[..j], results)|
  {
    if j > 0 {
      MissingIs(calls, results, j - 1);
      OneMoreResult(calls, j - 1, results);
      OneMoreWithout(calls, j - 1, results);
    }
  }

  lemma OneMoreWithout(calls: seq<Call>, j: nat, results: map<string, string>)
    requires j < |calls|
    ensures NoResult(calls[..j + 1], results)
      == NoResult(calls[..j], results) + if calls[j].id in results then {} else {j}
    ensures j !in NoResult(calls[..j], results)
  {
  }

  // ---------------------------------------------------------------- which of several faults is told

  /** Settings a turn can be called with: a tier and a mode there are, a ceiling that is not negative, and tools whose
      names say something and differ. */
  predicate CanBeSent(set_: Settings) {
    && set_.tier in {TierUnset, Smart, Fast, Quick} && set_.mode in {ModeUnset, Strict, TransformMode, Creative}
    && set_.maxOutputTokens >= 0
    && (forall i | 0 <= i < |set_.tools| :: Trim(set_.tools[i]) != "")
    && (forall i, j | 0 <= i < j < |set_.tools| :: set_.tools[i] != set_.tools[j])
  }

  lemma CanBeSentIff(set_: Settings)
    ensures CanBeSent(set_) <==> Fit(set_)
  {
    forall i | 0 <= i < |set_.tools| ensures Trim(set_.tools[i]) != "" <==> !Blank(set_.tools[i]) {
      TrimIsEmptyIff(set_.tools[i]);
    }
  }

  /** How a Send ends, and which of several things that are wrong with it is told: text that says nothing, then the
      settings, then the first message of the conversation that may not stand where it does, then a request that
      failed, and then an answer that cannot be used. */
  lemma SendEnds(json: Json, set_: Settings, h: seq<Message>, text: string, answer: Option<Response>)
    ensures var o, k := Turn(json, set_, h, Send(text), answer).0, h + [Message(User, text, [], "")];
      if Trim(text) == "" then o == Failed(NoText)
      else if !CanBeSent(set_) then o == Failed(BadSettings)
      else if !Grammar(json, k) then
        && o.Failed? && o.problem.BadHistory? && 1 <= o.problem.position <= |k|
        && !Sits(json, k, o.problem.position - 1) && forall i | 0 <= i < o.problem.position - 1 :: Sits(json, k, i)
      else if answer.None? then o == Failed(CallFailed)
      else o.Replied? || o == Failed(BadReply)
  {
    TrimIsEmptyIff(text);
    CanBeSentIff(set_);
    FirstBadIs(json, h + [Message(User, text, [], "")], 0);
  }

  /** And a SendResults: where no calls wait it is told so, and else whether the results match the calls, before the
      settings and the rest. */
  lemma ResultsEnd(json: Json, set_: Settings, h: seq<Message>, results: map<string, string>, answer: Option<Response>)
    ensures var o := Turn(json, set_, h, SendResults(results), answer).0;
      if h == [] || h[|h| - 1].role != Assistant || h[|h| - 1].calls == [] then o == Failed(NothingWaiting)
      else if NoResult(h[|h| - 1].calls, results) != {} || NoCall(h[|h| - 1].calls, results) != {}
        then o.Failed? && o.problem.Mismatch?
      else if !CanBeSent(set_) then o == Failed(BadSettings)
      else o.Replied? || o.problem.BadHistory? || o.problem.BadReply? || (answer.None? && o.problem.CallFailed?)
  {
    CanBeSentIff(set_);
    if Asks(h) { MismatchIff(json, set_, h, results, answer); }
  }

  // ---------------------------------------------------------------- what the grammar says

  /** What is so of every message of a conversation within the grammar. The first is a user's. A user's says something,
      carries nothing of tools, and follows none of a user's; an assistant's answers no call, says something or asks
      for tools, and follows a user's or a result; a result asks for nothing, and answers a call that the message
      that began the stretch of results it is in made. Each call has a name, an object, and an id no other has. */
  lemma GrammarSays(json: Json, h: seq<Message>, i: nat)
    requires Grammar(json, h) && i < |h|
    ensures h[0].role == User
    ensures match h[i].role
      case User =>
        && h[i].calls == [] && h[i].callId == "" && Trim(h[i].content) != "" && (i > 0 ==> h[i - 1].role != User)
      case Assistant =>
        && h[i].callId == "" && (Trim(h[i].content) != "" || h[i].calls != [])
        && i > 0 && (h[i - 1].role == User || h[i - 1].role == Tool)
        && (forall j | 0 <= j < |h[i].calls| ::
              h[i].calls[j].id != "" && h[i].calls[j].name != "" && IsObject(json, h[i].calls[j].args))
        && (forall j, k | 0 <= j < k < |h[i].calls| :: h[i].calls[j].id != h[i].calls[k].id)
      case Tool =>
        && h[i].calls == [] && h[i].callId != ""
        && exists a :: 0 <= a < i && h[a].role == Assistant && (forall t | a < t < i :: h[t].role == Tool)
             && CallIsOf(h[a], h[i].callId) && forall t | a < t < i :: h[t].callId != h[i].callId
      case Other => false
  {
    assert Sits(json, h, 0) && Sits(json, h, i);
    TrimIsEmptyIff(h[i].content);
    match h[i].role
    case User =>
    case Assistant =>
      assert Sits(json, h, i - 1);
      forall j, k | 0 <= j < k < |h[i].calls| ensures h[i].calls[j].id != h[i].calls[k].id {
        assert CallSits(json, h, i, k);
        EarlierIds(h[i].calls, k);
      }
      forall j | 0 <= j < |h[i].calls|
        ensures h[i].calls[j].id != "" && h[i].calls[j].name != "" && IsObject(json, h[i].calls[j].args)
      {
        assert CallSits(json, h, i, j);
      }
    case Tool =>
      var a :| 0 <= a < i && Opens(h, a, i) && h[i].callId in Ids(h[a].calls) && !AnsweredIn(h, a, i, h[i].callId);
      InIds(h[a].calls, h[i].callId);
      assert h[a].role == Assistant && CallIsOf(h[a], h[i].callId);
    case Other =>
  }

  predicate CallIsOf(m: Message, id: string) { exists k :: 0 <= k < |m.calls| && m.calls[k].id == id }
}
