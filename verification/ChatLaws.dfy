/** What every turn of a conversation keeps, what gets through, and what whole runs of Send,
    SendResults and edits of the history come to. */
module ChatLaws {
  import opened Common
  import opened Text
  import opened Transcript
  import opened ChatTurns

  // ---------------------------------------------------------------- one turn

  datatype Ask = Send(text: string) | SendResults(results: map<string, string>)

  datatype Outcome = Replied(message: Message) | Failed(problem: Problem)

  function AddedBy(h: seq<Message>, ask: Ask): Added {
    match ask
    case Send(text) => AddText(text)
    case SendResults(results) => AddResults(h, results)
  }

  /** The position, from 1, of the first message that may not stand where it stands. */
  function FirstBad(json: Json, h: seq<Message>, i: nat): Option<nat>
    requires i <= |h|
    decreases |h| - i
  {
    if i == |h| then None else if Sits(json, h, i) then FirstBad(json, h, i + 1) else Some(i + 1)
  }

  lemma {:induction false} FirstBadIs(json: Json, h: seq<Message>, i: nat)
    requires i <= |h|
    ensures var p := FirstBad(json, h, i);
      && (p.None? <==> forall k | i <= k < |h| :: Sits(json, h, k))
      && (p.Some? ==>
            i < p.value <= |h| && !Sits(json, h, p.value - 1) && forall k | i <= k < p.value - 1 :: Sits(json, h, k))
    decreases |h| - i
  {
    if i < |h| && Sits(json, h, i) { FirstBadIs(json, h, i + 1); }
  }

  /** A turn: what it returns, and the history it leaves. The answer is what the model said, when the
      request did not fail. */
  function Turn(json: Json, set_: Settings, h: seq<Message>, ask: Ask, answer: Option<Response>): (Outcome,
      seq<Message>) {
    match AddedBy(h, ask)
    case Refused(problem) => (Failed(problem), h)
    case Added(add) =>
      if !Fit(set_) then (Failed(BadSettings), h)
      else
        var conversation := h + add;
        var bad := FirstBad(json, conversation, 0);
        if bad.Some? then (Failed(BadHistory(bad.value)), h)
        else if answer.None? then (Failed(CallFailed), h)
        else if !Acceptable(json, set_.tools, conversation, answer.value) then (Failed(BadReply), h)
        else (Replied(Reply(answer.value)), conversation + [Reply(answer.value)])
  }

  /** The turn sent its request. */
  predicate Sent(o: Outcome) {
    o.Replied? || o.problem.CallFailed? || o.problem.BadReply?
  }

  method Additions(h: seq<Message>, ask: Ask) returns (added: Added)
    ensures added == AddedBy(h, ask)
  {
    match ask
    case Send(text) => added := AddText(text);
    case SendResults(results) => added := MakeAnswers(h, results);
  }

  /** turn and runTurn, as they are written, on a history that only this turn changes: what the turn adds
      to it, and the reply. */
  method RunTurn(json: Json, set_: Settings, h: seq<Message>, ask: Ask, answer: Option<Response>)
    returns (o: Outcome, add: seq<Message>)
    ensures Turn(json, set_, h, ask, answer) == (o, if o.Replied? then h + add + [o.message] else h)
  {
    var added := Additions(h, ask);
    if added.Refused? {
      return Failed(added.problem), [];
    }
    add := added.messages;
    var fit := CheckSettings(set_);
    if !fit {
      return Failed(BadSettings), add;
    }
    var problem := CheckTranscript(json, h + add);
    FirstBadIs(json, h + add, 0);
    if problem.Some? {
      return Failed(BadHistory(problem.value)), add;
    }
    if answer.None? {
      return Failed(CallFailed), add;
    }
    var reply := CheckReply(json, set_.tools, h + add, answer.value);
    if reply.None? {
      return Failed(BadReply), add;
    }
    return Replied(reply.value), add;
  }

  // ---------------------------------------------------------------- histories that share a beginning

  lemma PrefixAnswers(h: seq<Message>, k: seq<Message>, a: nat, i: nat, id: string)
    requires h <= k && i <= |h|
    ensures AnsweredIn(k, a, i, id) == AnsweredIn(h, a, i, id)
  {
    assert forall t | 0 <= t < |h| :: k[t] == h[t];
  }

  lemma PrefixWaiting(h: seq<Message>, k: seq<Message>, i: nat)
    requires h <= k && i <= |h|
    ensures NoneWaiting(k, i) == NoneWaiting(h, i)
  {
    forall a: nat | a < i ensures AllAnswered(k, a, i) == AllAnswered(h, a, i) {
      forall id ensures AnsweredIn(k, a, i, id) == AnsweredIn(h, a, i, id) { PrefixAnswers(h, k, a, i, id); }
    }
  }

  lemma PrefixUsed(h: seq<Message>, k: seq<Message>, i: nat, id: string)
    requires h <= k && i <= |h|
    ensures UsedBefore(k, i, id) == UsedBefore(h, i, id)
  {
    assert forall t | 0 <= t < |h| :: k[t] == h[t];
  }

  lemma PrefixOpens(h: seq<Message>, k: seq<Message>, a: nat, i: nat)
    requires h <= k && i <= |h|
    ensures Opens(k, a, i) == Opens(h, a, i)
  {
    assert forall t | 0 <= t < |h| :: k[t] == h[t];
  }

  /** Whether a message may stand where it stands is decided by what is before it. */
  lemma PrefixSits(json: Json, h: seq<Message>, k: seq<Message>, i: nat)
    requires h <= k && i < |h|
    ensures Sits(json, k, i) == Sits(json, h, i)
  {
    assert k[i] == h[i] && (i > 0 ==> k[i - 1] == h[i - 1]);
    PrefixWaiting(h, k, i);
    forall id ensures UsedBefore(k, i, id) == UsedBefore(h, i, id) { PrefixUsed(h, k, i, id); }
    assert CallsSit(json, k, i) == CallsSit(json, h, i) by {
      assert forall j | 0 <= j < |h[i].calls| :: CallSits(json, k, i, j) == CallSits(json, h, i, j);
    }
    assert ToolSits(k, i) == ToolSits(h, i) by { PrefixToolSits(h, k, i); }
  }

  lemma PrefixToolSits(h: seq<Message>, k: seq<Message>, i: nat)
    requires h <= k && i < |h|
    ensures ToolSits(k, i) == ToolSits(h, i)
  {
    forall a: nat | a < i
      ensures k[a] == h[a] && Opens(k, a, i) == Opens(h, a, i)
        && AnsweredIn(k, a, i, h[i].callId) == AnsweredIn(h, a, i, h[i].callId)
    {
      PrefixOpens(h, k, a, i);
      PrefixAnswers(h, k, a, i, h[i].callId);
    }
  }

  lemma PrefixGrammar(json: Json, h: seq<Message>, k: seq<Message>)
    requires h <= k
    ensures Grammar(json, k) <==> Grammar(json, h) && forall i | |h| <= i < |k| :: Sits(json, k, i)
  {
    forall i | 0 <= i < |h| ensures Sits(json, k, i) == Sits(json, h, i) { PrefixSits(json, h, k, i); }
  }

  lemma OneMoreMessage(json: Json, h: seq<Message>, m: Message)
    ensures Grammar(json, h + [m]) <==> Grammar(json, h) && Sits(json, h + [m], |h|)
  {
    PrefixGrammar(json, h, h + [m]);
  }

  // ---------------------------------------------------------------- what may follow

  predicate MayFollow(h: seq<Message>) {
    h == [] || (!h[|h| - 1].role.User? && NoneWaiting(h, |h|))
  }

  lemma TextSitsIff(json: Json, h: seq<Message>, text: string)
    requires !Blank(text)
    ensures Grammar(json, h + [Message(User, text, [], "")]) <==> Grammar(json, h) && MayFollow(h)
  {
    var k := h + [Message(User, text, [], "")];
    OneMoreMessage(json, h, k[|h|]);
    PrefixWaiting(h, k, |h|);
    assert |h| > 0 ==> k[|h| - 1] == h[|h| - 1];
  }

  /** A message that asks for nothing leaves nothing more waiting. */
  lemma StillNoneWaiting(h: seq<Message>, m: Message)
    requires NoneWaiting(h, |h|) && !m.role.Assistant?
    ensures NoneWaiting(h + [m], |h| + 1)
  {
    var k := h + [m];
    PrefixWaiting(h, k, |h|);
    forall a | 0 <= a < |h| && k[a].role.Assistant? ensures AllAnswered(k, a, |h| + 1) {
      AnsweredStays(k, a, |h|);
    }
  }

  lemma {:induction false} AnswersAre(calls: seq<Call>, results: map<string, string>, j: nat)
    requires j <= |calls| && Ids(calls) <= results.Keys
    ensures Ids(calls[..j]) <= results.Keys
    ensures var answers := Answers(calls[..j], results);
      |answers| == j && forall t | 0 <= t < j ::
        calls[t].id in results && answers[t] == Message(Tool, results[calls[t].id], [], calls[t].id)
  {
    IdsOfPrefix(calls, j);
    if j > 0 {
      AnswersAre(calls, results, j - 1);
      assert calls[..j][..j - 1] == calls[..j - 1];
    }
  }

  lemma {:induction false} IdsOfPrefix(calls: seq<Call>, j: nat)
    requires j <= |calls|
    ensures Ids(calls[..j]) <= Ids(calls)
    decreases |calls| - j
  {
    if j == |calls| {
      assert calls[..j] == calls;
    } else {
      IdsOfPrefix(calls, j + 1);
      OneMoreCall(calls, j, {});
    }
  }

  /** A message's calls are being answered: these ids are, and no others. */
  ghost predicate Answering(json: Json, k: seq<Message>, a: nat, ids: set<string>) {
    && Grammar(json, k) && Opens(k, a, |k|)
    && forall id :: AnsweredIn(k, a, |k|, id) <==> id in ids
  }

  lemma {:induction false} AnswersSit(json: Json, h: seq<Message>, calls: seq<Call>, results: map<string, string>,
      j: nat)
    requires Grammar(json, h) && Asks(h) && calls == h[|h| - 1].calls && j <= |calls| && Ids(calls) <= results.Keys
    ensures Ids(calls[..j]) <= results.Keys
    ensures Answering(json, h + Answers(calls[..j], results), |h| - 1, Ids(calls[..j]))
  {
    var a := |h| - 1;
    IdsOfPrefix(calls, j);
    if j == 0 {
      NoneAnswered(json, h);
      assert calls[..0] == [] && h + Answers(calls[..0], results) == h;
    } else {
      AnswersSit(json, h, calls, results, j - 1);
      IdsOfPrefix(calls, j - 1);
      OneMoreAnswerSits(json, h, calls, results, j - 1);
    }
  }

  lemma OneMoreAnswerSits(json: Json, h: seq<Message>, calls: seq<Call>, results: map<string, string>, j: nat)
    requires Asks(h) && calls == h[|h| - 1].calls && j < |calls|
    requires Ids(calls) <= results.Keys && Ids(calls[..j]) <= results.Keys && Ids(calls[..j + 1]) <= results.Keys
    requires Answering(json, h + Answers(calls[..j], results), |h| - 1, Ids(calls[..j]))
    ensures Answering(json, h + Answers(calls[..j + 1], results), |h| - 1, Ids(calls[..j + 1]))
  {
    var a, answers := |h| - 1, Answers(calls[..j], results);
    OneMoreCall(calls, j, {});
    OneMoreResult(calls, j, results);
    var m := Message(Tool, results[calls[j].id], [], calls[j].id);
    assert h + (answers + [m]) == (h + answers) + [m];
    assert (h + answers)[a] == h[a];
    AnswerSits(json, h + answers, a, m, j);
  }

  lemma NoneAnswered(json: Json, h: seq<Message>)
    requires Grammar(json, h) && Asks(h)
    ensures Answering(json, h, |h| - 1, {})
  {
  }

  lemma AnswerSits(json: Json, k: seq<Message>, a: nat, m: Message, j: nat)
    requires a < |k| && j < |k[a].calls| && Answering(json, k, a, Ids(k[a].calls[..j]))
    requires m.role.Tool? && m.calls == [] && m.callId == k[a].calls[j].id
    ensures Answering(json, k + [m], a, Ids(k[a].calls[..j]) + {m.callId})
  {
    var next := k + [m];
    assert Sits(json, k, a) && CallSits(json, k, a, j);
    InIds(k[a].calls, m.callId);
    PrefixOpens(k, next, a, |k|);
    OpensStep(next, a, |k|);
    forall id ensures AnsweredIn(next, a, |k| + 1, id) <==> AnsweredIn(k, a, |k|, id) || m.callId == id {
      PrefixAnswers(k, next, a, |k|, id);
      AnsweredStep(next, a, |k|, id);
    }
    PrefixAnswers(k, next, a, |k|, m.callId);
    assert next[a] == k[a];
    assert ToolSits(next, |k|);
    OneMoreMessage(json, k, m);
  }

  lemma AllAnswersSettle(json: Json, h: seq<Message>, results: map<string, string>)
    requires Grammar(json, h) && Asks(h) && Ids(h[|h| - 1].calls) == results.Keys
    ensures var k := h + Answers(h[|h| - 1].calls, results);
      Grammar(json, k) && k[|k| - 1].role.Tool? && NoneWaiting(k, |k|)
  {
    var a := |h| - 1;
    var calls := h[a].calls;
    assert calls[..|calls|] == calls;
    AnswersSit(json, h, calls, results, |calls|);
    AnswersAre(calls, results, |calls|);
    var k := h + Answers(calls, results);
    assert k[a] == h[a] && Sits(json, h, a);
    PrefixWaiting(h, k, a);
    forall b | 0 <= b < |k| && k[b].role.Assistant? ensures AllAnswered(k, b, |k|) {
      if b < a {
        AnsweredLater(k, b, a, |k|);
      } else {
        assert b == a;
      }
    }
  }

  lemma {:induction false} AnsweredLater(h: seq<Message>, a: nat, i: nat, n: nat)
    requires a < i <= n <= |h| && AllAnswered(h, a, i)
    ensures AllAnswered(h, a, n)
    decreases n - i
  {
    if i < n {
      AnsweredStays(h, a, i);
      AnsweredLater(h, a, i + 1, n);
    }
  }

  lemma ReplySits(json: Json, tools: seq<string>, conversation: seq<Message>, resp: Response)
    requires Grammar(json, conversation) && conversation != [] && NoneWaiting(conversation, |conversation|)
    requires !conversation[|conversation| - 1].role.Assistant? && ToolsFit(tools)
    requires Acceptable(json, tools, conversation, resp)
    ensures Grammar(json, conversation + [Reply(resp)])
  {
    var n := |conversation|;
    var k := conversation + [Reply(resp)];
    OneMoreMessage(json, conversation, Reply(resp));
    PrefixWaiting(conversation, k, n);
    assert k[n - 1] == conversation[n - 1] && k[n].calls == resp.calls;
    forall j | 0 <= j < |resp.calls| ensures CallSits(json, k, n, j) {
      assert Usable(json, tools, conversation, resp.calls, j);
      PrefixUsed(conversation, k, n, resp.calls[j].id);
      var t :| 0 <= t < |tools| && tools[t] == resp.calls[j].name;
    }
  }

  // ---------------------------------------------------------------- what a turn keeps

  /** The history a turn that gets through sends. */
  lemma SentIsGrammar(json: Json, set_: Settings, h: seq<Message>, ask: Ask, answer: Option<Response>)
    requires Sent(Turn(json, set_, h, ask, answer).0)
    ensures AddedBy(h, ask).Added? && Fit(set_)
    ensures var k := h + AddedBy(h, ask).messages;
      Grammar(json, k) && k != [] && !k[|k| - 1].role.Assistant? && NoneWaiting(k, |k|)
  {
    var k := h + AddedBy(h, ask).messages;
    FirstBadIs(json, k, 0);
    PrefixGrammar(json, h, k);
    match ask {
      case Send(text) =>
        TextSitsIff(json, h, text);
        StillNoneWaiting(h, k[|h|]);
      case SendResults(results) =>
        AllAnswersSettle(json, h, results);
    }
  }

  /** A turn that succeeds leaves a history that satisfies the whole grammar and ends in the reply, and
      has added to it and changed nothing in it; a turn that fails changes nothing. */
  lemma TurnKeepsGrammar(json: Json, set_: Settings, h: seq<Message>, ask: Ask, answer: Option<Response>)
    ensures var (o, next) := Turn(json, set_, h, ask, answer);
      match o
      case Failed(_) => next == h
      case Replied(m) =>
        && Grammar(json, next) && h < next
        && next[|next| - 1] == m && m.role.Assistant?
  {
    if Turn(json, set_, h, ask, answer).0.Replied? {
      SentIsGrammar(json, set_, h, ask, answer);
      ReplySits(json, set_.tools, h + AddedBy(h, ask).messages, answer.value);
    }
  }

  /** Send gets its request through exactly when the text says something, the history satisfies the
      grammar, and a user message may follow it: it is not the model's turn and nothing is waiting. */
  lemma SendGetsThroughIff(json: Json, set_: Settings, h: seq<Message>, text: string, answer: Option<Response>)
    ensures Sent(Turn(json, set_, h, Send(text), answer).0) <==>
      !Blank(text) && Fit(set_) && Grammar(json, h) && MayFollow(h)
  {
    if !Blank(text) {
      TextSitsIff(json, h, text);
      FirstBadIs(json, h + [Message(User, text, [], "")], 0);
    }
  }

  /** SendResults gets its request through exactly when the history satisfies the grammar, its last
      message asked for tools, and the ids of the results are exactly the ids that wait. */
  lemma ResultsGetThroughIff(json: Json, set_: Settings, h: seq<Message>, results: map<string, string>,
      answer: Option<Response>)
    ensures Sent(Turn(json, set_, h, SendResults(results), answer).0) <==>
      Fit(set_) && Grammar(json, h) && Asks(h) && results.Keys == Ids(h[|h| - 1].calls)
  {
    if Asks(h) && results.Keys == Ids(h[|h| - 1].calls) {
      ResultsSitIff(json, h, results);
      FirstBadIs(json, h + Answers(h[|h| - 1].calls, results), 0);
    }
  }

  lemma ResultsSitIff(json: Json, h: seq<Message>, results: map<string, string>)
    requires Asks(h) && Ids(h[|h| - 1].calls) == results.Keys
    ensures Grammar(json, h + Answers(h[|h| - 1].calls, results)) <==> Grammar(json, h)
  {
    PrefixGrammar(json, h, h + Answers(h[|h| - 1].calls, results));
    if Grammar(json, h) { AllAnswersSettle(json, h, results); }
  }

  // ---------------------------------------------------------------- what is said

  /** The message a reply is kept as: what the model answered, as an assistant's. */
  predicate Answered(m: Message, answer: Option<Response>) {
    && answer.Some? && m.role == Assistant && m.callId == ""
    && m.content == answer.value.content && m.calls == answer.value.calls
  }

  /** A history after a turn: what there was, then what the caller said, and then what the model answered. Said is the
      text of a Send, word for word, as a user's; or the result given for every call of the last message, under the
      id of that call and in the order of the calls. */
  predicate Leaves(h: seq<Message>, ask: Ask, answer: Option<Response>, next: seq<Message>) {
    && h < next && Answered(next[|next| - 1], answer)
    && match ask
       case Send(text) => |next| == |h| + 2 && next[|h|] == Message(User, text, [], "")
       case SendResults(results) =>
         && Asks(h)
         && var calls := h[|h| - 1].calls;
            && |next| == |h| + |calls| + 1
            && forall t | 0 <= t < |calls| ::
                 calls[t].id in results && next[|h| + t] == Message(Tool, results[calls[t].id], [], calls[t].id)
  }

  /** A turn that replies leaves what was said and what was answered, and nothing else; and the reply is the answer. */
  lemma TurnLeaves(json: Json, set_: Settings, h: seq<Message>, ask: Ask, answer: Option<Response>)
    requires Turn(json, set_, h, ask, answer).0.Replied?
    ensures Leaves(h, ask, answer, Turn(json, set_, h, ask, answer).1)
    ensures Answered(Turn(json, set_, h, ask, answer).0.message, answer)
  {
    if ask.SendResults? {
      var calls := h[|h| - 1].calls;
      assert calls[..|calls|] == calls;
      AnswersAre(calls, ask.results, |calls|);
    }
  }

  /** While calls wait, no text gets through. */
  lemma WaitingRefusesText(json: Json, set_: Settings, h: seq<Message>, text: string, answer: Option<Response>)
    requires Asks(h)
    ensures !Sent(Turn(json, set_, h, Send(text), answer).0)
  {
    SendGetsThroughIff(json, set_, h, text, answer);
    AskingWaits(h);
  }

  lemma AskingWaits(h: seq<Message>)
    requires Asks(h)
    ensures !NoneWaiting(h, |h|)
  {
    var a := |h| - 1;
    InIds(h[a].calls, h[a].calls[0].id);
    assert !AnsweredIn(h, a, |h|, h[a].calls[0].id);
    assert !AllAnswered(h, a, |h|);
  }

  // ---------------------------------------------------------------- answered once

  predicate AnswersCall(m: Message, id: string) { m.role.Tool? && m.callId == id }

  /** One call id, one assistant message that made the call. */
  lemma OneAsker(json: Json, h: seq<Message>, a: nat, b: nat, id: string)
    requires Grammar(json, h) && a <= b < |h| && h[a].role.Assistant? && h[b].role.Assistant?
    requires id in Ids(h[a].calls) && id in Ids(h[b].calls)
    ensures a == b
  {
    assert Sits(json, h, b);
    InIds(h[b].calls, id);
    var j :| 0 <= j < |h[b].calls| && h[b].calls[j].id == id;
    assert CallSits(json, h, b, j);
  }

  lemma OneAnswer(json: Json, h: seq<Message>, t: nat, u: nat, id: string)
    requires Grammar(json, h) && t <= u < |h| && AnswersCall(h[t], id) && AnswersCall(h[u], id)
    ensures t == u
  {
    assert Sits(json, h, t) && Sits(json, h, u);
    var a: nat :| a < t && Opens(h, a, t) && id in Ids(h[a].calls);
    var b: nat :| b < u && Opens(h, b, u) && id in Ids(h[b].calls) && !AnsweredIn(h, b, u, id);
    if a <= b { OneAsker(json, h, a, b, id); } else { OneAsker(json, h, b, a, id); }
  }

  /** In a history that satisfies the grammar and ends in a reply, every call before the reply is
      answered, after it was made, and by one message only. */
  lemma AnsweredExactlyOnce(json: Json, h: seq<Message>, a: nat, id: string)
    requires Grammar(json, h) && h != [] && h[|h| - 1].role.Assistant?
    requires a < |h| - 1 && h[a].role.Assistant? && id in Ids(h[a].calls)
    ensures exists t ::
      a < t < |h| && AnswersCall(h[t], id) && forall u | 0 <= u < |h| :: AnswersCall(h[u], id) ==> u == t
  {
    assert Sits(json, h, |h| - 1);
    assert AllAnswered(h, a, |h| - 1) && AnsweredIn(h, a, |h| - 1, id);
    var t :| a < t < |h| - 1 && AnswersCall(h[t], id);
    forall u | 0 <= u < |h| && AnswersCall(h[u], id) ensures u == t {
      if t <= u { OneAnswer(json, h, t, u, id); } else { OneAnswer(json, h, u, t, id); }
    }
  }

  // ---------------------------------------------------------------- runs

  /** What is done to a session: a turn, or an edit of its history by the caller. */
  datatype Event = Took(set_: Settings, ask: Ask, answer: Option<Response>) | Edited(history: seq<Message>)

  function After(json: Json, h: seq<Message>, events: seq<Event>): seq<Message>
    decreases |events|
  {
    if events == [] then h
    else
      var before := After(json, h, events[..|events| - 1]);
      match events[|events| - 1]
      case Took(set_, ask, answer) => Turn(json, set_, before, ask, answer).1
      case Edited(history) => history
  }

  /** The answers to a message's calls come right after it, in the order of the calls. */
  predicate InOrder(h: seq<Message>) {
    forall a | 0 <= a < |h| - 1 && h[a].role.Assistant? :: AnsweredInOrder(h, a)
  }

  predicate AnsweredInOrder(h: seq<Message>, a: nat)
    requires a < |h|
  {
    && a + |h[a].calls| < |h|
    && forall j | 0 <= j < |h[a].calls| :: AnswersCall(h[a + 1 + j], h[a].calls[j].id)
  }

  /** What a session that nobody edits keeps. */
  predicate Kept(json: Json, h: seq<Message>) {
    Grammar(json, h) && InOrder(h) && (h != [] ==> h[|h| - 1].role.Assistant?)
  }

  lemma OrderOfLonger(h: seq<Message>, k: seq<Message>, a: nat)
    requires h <= k && a < |h| && AnsweredInOrder(h, a)
    ensures AnsweredInOrder(k, a)
  {
    assert k[a] == h[a];
    forall j | 0 <= j < |h[a].calls| ensures AnswersCall(k[a + 1 + j], h[a].calls[j].id) {
      assert k[a + 1 + j] == h[a + 1 + j];
    }
  }

  lemma OrderOfAnswers(h: seq<Message>, results: map<string, string>, k: seq<Message>)
    requires Asks(h) && Ids(h[|h| - 1].calls) <= results.Keys
    requires h + Answers(h[|h| - 1].calls, results) < k
    ensures AnsweredInOrder(k, |h| - 1)
  {
    var a, calls := |h| - 1, h[|h| - 1].calls;
    assert calls[..|calls|] == calls;
    AnswersAre(calls, results, |calls|);
    var sent := h + Answers(calls, results);
    assert sent[a] == h[a];
    forall j | 0 <= j < |calls| ensures AnswersCall(sent[a + 1 + j], calls[j].id) {
      assert sent[a + 1 + j] == Answers(calls, results)[j];
    }
    OrderOfLonger(sent, k, a);
  }

  lemma OrderKept(json: Json, set_: Settings, h: seq<Message>, ask: Ask, answer: Option<Response>)
    requires Kept(json, h)
    ensures InOrder(Turn(json, set_, h, ask, answer).1)
  {
    var (o, next) := Turn(json, set_, h, ask, answer);
    if o.Replied? {
      SentIsGrammar(json, set_, h, ask, answer);
      forall a | 0 <= a < |h| && next[a].role.Assistant? ensures AnsweredInOrder(next, a) {
        if a < |h| - 1 {
          OrderOfLonger(h, next, a);
        } else if ask.SendResults? {
          OrderOfAnswers(h, ask.results, next);
        } else {
          SendGetsThroughIff(json, set_, h, ask.text, answer);
          if Asks(h) { AskingWaits(h); }
        }
      }
      AddedAreNoReplies(h, ask);
    }
  }

  lemma AddedAreNoReplies(h: seq<Message>, ask: Ask)
    requires AddedBy(h, ask).Added?
    ensures forall i | 0 <= i < |AddedBy(h, ask).messages| :: !AddedBy(h, ask).messages[i].role.Assistant?
  {
    if ask.SendResults? {
      var calls := h[|h| - 1].calls;
      assert calls[..|calls|] == calls;
      AnswersAre(calls, ask.results, |calls|);
    }
  }

  /** Over every run of Send and SendResults that starts from nothing, the history satisfies the
      grammar, ends in a reply, and holds the answers to every call right after it and in order. */
  lemma {:induction false} EveryRunKeeps(json: Json, events: seq<Event>)
    requires forall i | 0 <= i < |events| :: events[i].Took?
    ensures Kept(json, After(json, [], events))
  {
    if events != [] {
      var front := events[..|events| - 1];
      var last := events[|events| - 1];
      EveryRunKeeps(json, front);
      var h := After(json, [], front);
      OrderKept(json, last.set_, h, last.ask, last.answer);
      TurnKeepsGrammar(json, last.set_, h, last.ask, last.answer);
    }
  }

  /** A history within the grammar that ends in a reply. */
  predicate Complete(json: Json, h: seq<Message>) {
    Grammar(json, h) && h != [] && h[|h| - 1].role.Assistant?
  }

  lemma TurnCompletes(json: Json, before: seq<Message>, e: Event)
    requires e.Took?
    requires Complete(json, before) || Turn(json, e.set_, before, e.ask, e.answer).0.Replied?
    ensures Complete(json, Turn(json, e.set_, before, e.ask, e.answer).1)
  {
    TurnKeepsGrammar(json, e.set_, before, e.ask, e.answer);
  }

  /** And over every run with edits in it, whatever they left: the last turn that succeeded, if nobody
      has edited the history since, left the whole of it within the grammar. */
  lemma {:induction false} EditsAreChecked(json: Json, h: seq<Message>, events: seq<Event>, i: nat)
    requires i < |events| && events[i].Took?
    requires Turn(json, events[i].set_, After(json, h, events[..i]), events[i].ask, events[i].answer).0.Replied?
    requires forall k | i < k < |events| :: events[k].Took?
    ensures Complete(json, After(json, h, events))
  {
    var n := |events| - 1;
    var front := events[..n];
    if i < n {
      assert front[..i] == events[..i];
      EditsAreChecked(json, h, front, i);
    }
    TurnCompletes(json, After(json, h, front), events[n]);
  }
}
