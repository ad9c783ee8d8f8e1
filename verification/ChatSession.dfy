/** A session on the heap: which arrays a turn reads, which it writes, and what it hands out
    (Session, turn and copyOf, v2/chat/session.go:35-247). */
module ChatSession {
  import opened Common
  import opened Transcript
  import opened ChatTurns
  import opened ChatLaws

  /** The bytes of the arguments of a call, which a copy of a list of calls shares. */
  class Bytes {
    var text: string

    constructor (text: string)
      ensures this.text == text
    {
      this.text := text;
    }
  }

  datatype HeapCall = HeapCall(id: string, name: string, args: Bytes)

  /** The list of calls of a message, which a copy of the message shares. */
  class CallList {
    var calls: seq<HeapCall>

    constructor (calls: seq<HeapCall>)
      ensures this.calls == calls
    {
      this.calls := calls;
    }
  }

  datatype HeapMessage = HeapMessage(role: Role, content: string, list: CallList, callId: string)

  /** What a message says, wherever its calls and their bytes are. */
  ghost predicate Says(m: HeapMessage, said: Message)
    reads *
  {
    && m.role == said.role && m.content == said.content && m.callId == said.callId
    && SaysCalls(m.list.calls, said.calls)
  }

  ghost predicate SaysCalls(calls: seq<HeapCall>, said: seq<Call>)
    reads *
  {
    |calls| == |said| && forall k | 0 <= k < |calls| :: Call(calls[k].id, calls[k].name, calls[k].args.text) == said[k]
  }

  /** The messages say this, one after another. */
  ghost predicate Say(ms: seq<HeapMessage>, h: seq<Message>)
    reads *
  {
    |ms| == |h| && forall k | 0 <= k < |h| :: Says(ms[k], h[k])
  }

  /** Two messages share neither their list of calls nor the bytes of any call. */
  ghost predicate Apart(m: HeapMessage, m': HeapMessage)
    reads *
  {
    && m.list != m'.list
    && forall k, j | 0 <= k < |m.list.calls| && 0 <= j < |m'.list.calls| ::
         m.list.calls[k].args != m'.list.calls[j].args
  }

  /** A list of calls of its own, each with bytes of its own. */
  method NewList(calls: seq<Call>) returns (list: CallList)
    ensures fresh(list) && SaysCalls(list.calls, calls)
    ensures forall k | 0 <= k < |list.calls| :: fresh(list.calls[k].args)
  {
    var made: seq<HeapCall> := [];
    for k := 0 to |calls|
      invariant SaysCalls(made, calls[..k])
      invariant forall j | 0 <= j < |made| :: fresh(made[j].args)
    {
      var bytes := new Bytes(calls[k].args);
      made := made + [HeapCall(calls[k].id, calls[k].name, bytes)];
    }
    list := new CallList(made);
    assert calls[..|calls|] == calls;
  }

  method NewMessage(m: Message) returns (made: HeapMessage)
    ensures Says(made, m) && fresh(made.list)
    ensures forall k | 0 <= k < |made.list.calls| :: fresh(made.list.calls[k].args)
  {
    var list := NewList(m.calls);
    made := HeapMessage(m.role, m.content, list, m.callId);
  }

  /** The calls of a list, read. */
  method ReadCalls(calls: seq<HeapCall>) returns (said: seq<Call>)
    ensures SaysCalls(calls, said)
  {
    said := [];
    for k := 0 to |calls|
      invariant |said| == k && forall j | 0 <= j < k :: Call(calls[j].id, calls[j].name, calls[j].args.text) == said[j]
    {
      said := said + [Call(calls[k].id, calls[k].name, calls[k].args.text)];
    }
  }

  /** copyOf: a message that says the same and shares neither its list of calls nor the bytes of any. */
  method CopyOf(m: HeapMessage, ghost said: Message) returns (copy: HeapMessage)
    requires Says(m, said)
    ensures Says(copy, said) && Says(m, said) && fresh(copy.list)
    ensures forall k | 0 <= k < |copy.list.calls| :: fresh(copy.list.calls[k].args)
  {
    var calls := ReadCalls(m.list.calls);
    assert calls == said.calls;
    copy := NewMessage(Message(m.role, m.content, calls, m.callId));
  }

  method NewMessages(ms: seq<Message>) returns (made: seq<HeapMessage>)
    ensures Say(made, ms)
  {
    made := [];
    for k := 0 to |ms|
      invariant Say(made, ms[..k])
    {
      var m := NewMessage(ms[k]);
      made := made + [m];
    }
    assert ms[..|ms|] == ms;
  }

  method Read(ms: seq<HeapMessage>) returns (h: seq<Message>)
    ensures Say(ms, h)
  {
    h := [];
    for k := 0 to |ms|
      invariant |h| == k && forall j | 0 <= j < k :: Says(ms[j], h[j])
    {
      var calls := ReadCalls(ms[k].list.calls);
      h := h + [Message(ms[k].role, ms[k].content, calls, ms[k].callId)];
    }
  }

  /** The messages of a turn that succeeded: those there were, those it added and the reply. */
  method Extended(was: seq<HeapMessage>, ghost said: seq<Message>, add: seq<Message>, m: Message)
    returns (all: seq<HeapMessage>, reply: HeapMessage)
    requires Say(was, said)
    ensures |was| < |all| && all[..|was|] == was
    ensures Say(all, said + add + [m]) && Says(reply, m)
  {
    var added := NewMessages(add);
    reply := NewMessage(m);
    all := was + added + [reply];
    SayMore(was, said, added, add, reply, m);
  }

  lemma SayMore(was: seq<HeapMessage>, said: seq<Message>, added: seq<HeapMessage>, add: seq<Message>,
      reply: HeapMessage, m: Message)
    requires Say(was, said) && Say(added, add) && Says(reply, m)
    ensures Say(was + added + [reply], said + add + [m])
  {
  }

  /** The new array of a turn that succeeded, and a copy of the reply at the end of it. */
  method Keep(was: seq<HeapMessage>, ghost said: seq<Message>, add: seq<Message>, m: Message)
    returns (next: array<HeapMessage>, copy: HeapMessage)
    requires Say(was, said)
    ensures fresh(next) && |was| < next.Length && next[..|was|] == was
    ensures Say(next[..], said + add + [m]) && Says(copy, m)
    ensures fresh(copy.list) && forall k | 0 <= k < |copy.list.calls| :: fresh(copy.list.calls[k].args)
    ensures forall i | 0 <= i < next.Length :: Apart(copy, next[i])
  {
    var all, reply := Extended(was, said, add, m);
    copy := CopyOf(reply, m);
    assert forall i | 0 <= i < |all| :: Apart(copy, all[i]);
    next := new HeapMessage[|all|](i requires 0 <= i < |all| => all[i]);
    assert next[..] == all;
  }

  /** What the messages of a session say after a turn that replied: at the end the answer; before it, for a Send, the
      caller's text, and for a SendResults each result in its place; and before that what they said. */
  lemma HistorySays(json: Json, set_: Settings, was: seq<Message>, ask: Ask, answer: Option<Response>,
      ms: seq<HeapMessage>)
    requires ChatLaws.Turn(json, set_, was, ask, answer).0.Replied?
    requires Say(ms, ChatLaws.Turn(json, set_, was, ask, answer).1)
    ensures answer.Some? && |was| < |ms| && forall k | 0 <= k < |was| :: Says(ms[k], was[k])
    ensures Says(ms[|ms| - 1], Message(Assistant, answer.value.content, answer.value.calls, ""))
    ensures ask.Send? ==> |ms| == |was| + 2 && Says(ms[|was|], Message(User, ask.text, [], ""))
    ensures ask.SendResults? ==> Asks(was) && |ms| == |was| + |was[|was| - 1].calls| + 1
    ensures ask.SendResults? ==>
      var calls := was[|was| - 1].calls;
      forall t | 0 <= t < |calls| ::
        calls[t].id in ask.results && Says(ms[|was| + t], Message(Tool, ask.results[calls[t].id], [], calls[t].id))
  {
    TurnLeaves(json, set_, was, ask, answer);
  }

  // ---------------------------------------------------------------- the session

  /** What a turn returns: the reply, or why there is none; Busy when another turn is running. */
  datatype Result = Reply(message: HeapMessage) | Problem(problem: ChatTurns.Problem) | Busy

  class Session {
    var settings: Settings
    /** The conversation so far. The caller may assign it and write into it between turns. */
    var history: array<HeapMessage>
    var busy: bool

    constructor (settings: Settings)
      ensures this.settings == settings && history.Length == 0 && !busy && fresh(history)
    {
      var list := new CallList([]);
      this.settings, busy := settings, false;
      history := new HeapMessage[0](_ => HeapMessage(Other, "", list, ""));
    }

    /** turn. Nothing is written but the fields of the session: every array there was before the turn,
        the caller's history among them, is as it was. What the session then holds is in a new array,
        and the message it hands out shares no calls with it. */
    method Turn(json: Json, ask: Ask, answer: Option<Response>)
      returns (r: Result, ghost was: seq<Message>, ghost o: Outcome, ghost next: seq<Message>)
      modifies this
      ensures busy == old(busy) && settings == old(settings)
      ensures r.Busy? <==> old(busy)
      ensures !r.Busy? ==> old(Say(history[..], was)) && (o, next) == ChatLaws.Turn(json, settings, was, ask, answer)
      ensures !r.Reply? ==> history == old(history)
      ensures r.Problem? ==> o == Failed(r.problem)
      ensures r.Reply? ==>
        && fresh(history) && |was| < history.Length && history[..|was|] == old(history[..])
        && o.Replied? && Says(r.message, o.message)
        && Say(history[..], next)
        && fresh(r.message.list) && (forall k | 0 <= k < |r.message.list.calls| :: fresh(r.message.list.calls[k].args))
        && (forall i | 0 <= i < history.Length :: Apart(r.message, history[i]))
    {
      if busy {
        return Busy, [], Failed(CallFailed), [];
      }
      busy := true;
      var made;
      r, made, was, o, next := Converse(json, settings, history, ask, answer);
      if r.Reply? {
        history := made;
      }
      busy := false;
    }
  }

  /** The steps of a turn between taking the flag and storing the history, which write nothing. */
  method Converse(json: Json, set_: Settings, history: array<HeapMessage>, ask: Ask, answer: Option<Response>)
    returns (r: Result, made: array<HeapMessage>, ghost was: seq<Message>, ghost o: Outcome, ghost next: seq<Message>)
    ensures !r.Busy? && Say(history[..], was) && (o, next) == ChatLaws.Turn(json, set_, was, ask, answer)
    ensures r.Problem? ==> o == Failed(r.problem)
    ensures r.Reply? ==>
      && fresh(made) && |was| < made.Length && made[..|was|] == history[..]
      && o.Replied? && Says(r.message, o.message)
      && Say(made[..], next)
      && fresh(r.message.list) && (forall k | 0 <= k < |r.message.list.calls| :: fresh(r.message.list.calls[k].args))
      && (forall i | 0 <= i < made.Length :: Apart(r.message, made[i]))
  {
    var said := Read(history[..]);
    was, made := said, history;
    var outcome, add := RunTurn(json, set_, said, ask, answer);
    o := outcome;
    next := ChatLaws.Turn(json, set_, was, ask, answer).1;
    match outcome {
      case Failed(problem) =>
        r := Problem(problem);
      case Replied(m) =>
        var copy;
        made, copy := Keep(history[..], said, add, m);
        r := Reply(copy);
    }
  }

  // ---------------------------------------------------------------- turns at once

  /** What a turn that is inside has read of the history: for the messages it adds, and for those it sends. */
  datatype Progress = Entered | Planned(first: seq<Message>) | Sent(first: seq<Message>, second: seq<Message>)

  /** A session that several goroutines call: the flag, what each turn inside has read, and the turns that
      were let in and are over, in the order they left. */
  datatype Shared = Shared(busy: bool, inside: map<nat, Progress>, history: seq<Message>, over: seq<Event>)

  /** What one goroutine does next: it swaps the flag or is refused, it reads the history for the messages it
      adds, it reads it again for those it sends, or it reads it a third time to put the new one together,
      stores that and clears the flag. */
  datatype Step = Enter(turn: nat) | Plan(turn: nat) | Send(turn: nat) | Leave(turn: nat, event: Event)

  /** The history a turn leaves that read it three times. */
  function Left(json: Json, set_: Settings, first: seq<Message>, second: seq<Message>, third: seq<Message>, ask: Ask,
                answer: Option<Response>): seq<Message> {
    match AddedBy(first, ask)
    case Refused(_) => third
    case Added(add) =>
      if Fit(set_) && FirstBad(json, second + add, 0).None? && answer.Some?
         && Acceptable(json, set_.tools, second + add, answer.value)
      then third + add + [ChatTurns.Reply(answer.value)]
      else third
  }

  predicate Enabled(s: Shared, step: Step) {
    match step
    case Enter(turn) => turn !in s.inside
    case Plan(turn) => turn in s.inside && s.inside[turn].Entered?
    case Send(turn) => turn in s.inside && s.inside[turn].Planned?
    case Leave(turn, event) => turn in s.inside && s.inside[turn].Sent? && event.Took?
  }

  function Next(json: Json, s: Shared, step: Step): Shared
    requires Enabled(s, step)
  {
    match step
    case Enter(turn) =>
      if s.busy then s else Shared(true, s.inside[turn := Entered], s.history, s.over)
    case Plan(turn) =>
      Shared(s.busy, s.inside[turn := Planned(s.history)], s.history, s.over)
    case Send(turn) =>
      Shared(s.busy, s.inside[turn := Sent(s.inside[turn].first, s.history)], s.history, s.over)
    case Leave(turn, event) =>
      var left := Left(json, event.set_, s.inside[turn].first, s.inside[turn].second, s.history, event.ask,
        event.answer);
      Shared(false, s.inside - {turn}, left, s.over + [event])
  }

  /** Where an interleaving of turns leads, from an idle session; nowhere when a step could not be. */
  function Reached(json: Json, h: seq<Message>, trace: seq<Step>): Option<Shared>
    decreases |trace|
  {
    if trace == [] then Some(Shared(false, map[], h, []))
    else
      var before := Reached(json, h, trace[..|trace| - 1]);
      var step := trace[|trace| - 1];
      if before.Some? && Enabled(before.value, step) then Some(Next(json, before.value, step)) else None
  }

  /** What a turn has read is this history. */
  predicate HasRead(p: Progress, h: seq<Message>) {
    match p
    case Entered => true
    case Planned(first) => first == h
    case Sent(first, second) => first == h && second == h
  }

  /** Of a history that is the same at the three reads, what a turn leaves is what the turn of the laws does. */
  lemma LeftIsTurn(json: Json, set_: Settings, h: seq<Message>, ask: Ask, answer: Option<Response>)
    ensures Left(json, set_, h, h, h, ask, answer) == ChatLaws.Turn(json, set_, h, ask, answer).1
  {
  }

  /** Whatever the interleaving, at most one turn is inside, what it read is what the history still is,
      and the history is what the turns that were let in make of it one after another. */
  lemma {:induction false} OneTurnAtATime(json: Json, h: seq<Message>, trace: seq<Step>)
    requires Reached(json, h, trace).Some?
    ensures var s := Reached(json, h, trace).value;
      && (s.busy <==> s.inside != map[])
      && (forall t, u | t in s.inside && u in s.inside :: t == u)
      && (forall t | t in s.inside :: HasRead(s.inside[t], s.history))
      && s.history == After(json, h, s.over)
    decreases |trace|
  {
    if trace != [] {
      var front, step := trace[..|trace| - 1], trace[|trace| - 1];
      OneTurnAtATime(json, h, front);
      var before, s := Reached(json, h, front).value, Reached(json, h, trace).value;
      if step.Leave? {
        LeftIsTurn(json, step.event.set_, before.history, step.event.ask, step.event.answer);
        assert s.over[..|s.over| - 1] == before.over;
      }
    }
  }

  /** A turn that finds another inside is refused and has no effect. */
  lemma RefusedHasNoEffect(json: Json, h: seq<Message>, trace: seq<Step>, turn: nat)
    requires Reached(json, h, trace).Some?
    requires var s := Reached(json, h, trace).value; turn !in s.inside && s.inside != map[]
    ensures Reached(json, h, trace + [Enter(turn)]) == Reached(json, h, trace)
  {
    OneTurnAtATime(json, h, trace);
    assert (trace + [Enter(turn)])[..|trace|] == trace;
  }
}
