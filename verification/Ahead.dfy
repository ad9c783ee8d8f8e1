/** Steps started beside the decision that picks between them (BranchAhead, BranchBoth and RouteAhead,
    v2/flow/ahead.go; their combinators, v2/internal/ops/flow.go:403-709), over every interleaving of
    the goroutines. A step is its place in the list; what it returns is a value or an error. */
module Ahead {
  import opened Common

  /** Own is an error of the caller's own; Defect is what a panic, or a goroutine ended by runtime.Goexit,
      becomes; Over is the context's error; NoRoute is a decided label that is none of the routes'. */
  datatype Failure = Own(id: nat) | Defect | Over | NoRoute

  datatype Result = Value(value: int) | Failed(failure: Failure)

  /** What a step does: it returns, it panics, or it ends its goroutine. */
  datatype Behaviour = Returns(result: Result) | Panics | Exits

  /** What the decision does. A choice that is not the place of a step is a label that is no route's. */
  datatype Decision = Chooses(choice: nat) | Fails(failure: Failure) | DecisionPanics | DecisionExits

  /** The call: what the decision and the steps do while nobody cancels them, and which steps are started
      beside the decision, in the order they are started. */
  datatype Call = Call(decision: Decision, steps: seq<Behaviour>, early: seq<nat>)

  /** The shapes of the three functions: yes is step 0 and no is step 1, and the likely route is one of
      the routes. */
  predicate Shaped(c: Call) {
    && (forall i | 0 <= i < |c.early| :: c.early[i] < |c.steps|)
    && (forall i, j | 0 <= i < j < |c.early| :: c.early[i] != c.early[j])
  }

  function BranchAhead(decision: Decision, yes: Behaviour, no: Behaviour): Call { Call(decision, [yes, no], [0]) }

  function BranchBoth(decision: Decision, yes: Behaviour, no: Behaviour): Call { Call(decision, [yes, no], [0, 1]) }

  function RouteAhead(decision: Decision, routes: seq<Behaviour>, likely: nat): Call {
    Call(decision, routes, [likely])
  }

  // ---------------------------------------------------------------- the specification

  function Guarded(b: Behaviour): Result {
    match b
    case Returns(result) => result
    case Panics => Failed(Defect)
    case Exits => Failed(Defect)
  }

  /** To decide first, and then to run the step that was picked: Branch, or Select, after a decision. */
  function Sequential(c: Call): Result {
    match c.decision
    case Fails(failure) => Failed(failure)
    case DecisionPanics => Failed(Defect)
    case DecisionExits => Failed(Defect)
    case Chooses(k) => if k < |c.steps| then Guarded(c.steps[k]) else Failed(NoRoute)
  }

  // ---------------------------------------------------------------- the protocol

  /** A step's goroutine, or the step on the caller's goroutine. */
  datatype Run = Idle | Running | Done(result: Result)

  /** Where the caller's goroutine is: in the decision, waiting for a step it keeps, in a step of its own,
      in the deferred stops, or over. `left` are the runs still to be stopped, the next one last. */
  datatype Place =
    | Deciding
    | Awaiting(kept: nat)
    | Here(step: nat)
    | Stopping(out: Option<Result>, left: nat)
    | Returned(result: Result)
    | Gone

  datatype State = State(place: Place, decided: Option<nat>, runs: seq<Run>, cancelled: set<nat>, over: bool)

  /** One step of the interleaving. The context is over; the run of a step returns; the decision returns;
      the caller takes the run it waited for; the step on its goroutine returns; the caller cancels the
      run it stops next, and then finds it has returned; and it returns itself. What a step or the
      decision does is theirs to say only when it was cancelled or the context is over. */
  datatype Event =
    | ContextEnds
    | RunEnds(k: nat, did: Behaviour)
    | DecisionEnds(decision: Decision)
    | Take
    | HereEnds(did: Behaviour)
    | Cancel
    | Joined
    | Return

  function Start(c: Call): State
    requires Shaped(c)
  {
    State(Deciding, None, seq(|c.steps|, k => if k in c.early then Running else Idle), {}, false)
  }

  /** The run that is stopped next: the deferred stops run last first. */
  function NextStopped(c: Call, left: nat): nat
    requires 0 < left <= |c.early|
  {
    c.early[left - 1]
  }

  predicate WellFormed(c: Call, s: State) {
    && Shaped(c) && |s.runs| == |c.steps|
    && (s.decided.Some? ==> s.decided.value < |c.steps|)
    && match s.place
       case Awaiting(k) => s.decided == Some(k) && k in c.early
       case Here(k) => s.decided == Some(k) && k !in c.early
       case Stopping(_, left) => left <= |c.early|
       case _ => true
  }

  predicate Enabled(c: Call, s: State, e: Event)
    requires WellFormed(c, s)
  {
    match e
    case ContextEnds => !s.over
    case RunEnds(k, did) =>
      && k in c.early && s.runs[k].Running?
      && (k !in s.cancelled && !s.over ==> did == c.steps[k])
    case DecisionEnds(did) => s.place.Deciding? && (!s.over ==> did == c.decision)
    case Take => s.place.Awaiting? && s.runs[s.place.kept].Done?
    case HereEnds(did) => s.place.Here? && (!s.over ==> did == c.steps[s.place.step])
    case Cancel => s.place.Stopping? && s.place.left > 0 && NextStopped(c, s.place.left) !in s.cancelled
    case Joined => s.place.Stopping? && s.place.left > 0 && NextStopped(c, s.place.left) in s.cancelled
      && s.runs[NextStopped(c, s.place.left)].Done?
    case Return => s.place.Stopping? && s.place.left == 0
  }

  /** The caller's result, which is the context's error for a failure once the context is over. */
  function Reported(s: State, r: Result): Result {
    if r.Failed? && s.over then Failed(Over) else r
  }

  function EarlySet(c: Call): set<nat> { set k | k in c.early }

  function Stop(c: Call, s: State, out: Option<Result>): State {
    s.(place := Stopping(out, |c.early|))
  }

  /** What follows the decision. */
  function AfterDecision(c: Call, s: State, did: Decision): State
    requires |s.runs| == |c.steps|
  {
    if did.DecisionExits? then Stop(c, s, None)
    else if s.over then Stop(c, s.(cancelled := EarlySet(c)), Some(Failed(Over)))
    else match did
    case Fails(failure) => Stop(c, s.(cancelled := EarlySet(c)), Some(Failed(failure)))
    case DecisionPanics => Stop(c, s.(cancelled := EarlySet(c)), Some(Failed(Defect)))
    case Chooses(k) =>
      if k >= |c.steps| then Stop(c, s.(cancelled := EarlySet(c)), Some(Failed(NoRoute)))
      else if k in c.early then State(Awaiting(k), Some(k), s.runs, s.cancelled + (EarlySet(c) - {k}), s.over)
      else State(Here(k), Some(k), s.runs[k := Running], EarlySet(c), s.over)
  }

  function Next(c: Call, s: State, e: Event): State
    requires WellFormed(c, s) && Enabled(c, s, e)
  {
    match e
    case ContextEnds => s.(over := true)
    case RunEnds(k, did) => s.(runs := s.runs[k := Run.Done(Guarded(did))])
    case DecisionEnds(did) => AfterDecision(c, s, did)
    case Take =>
      var k := s.place.kept;
      Stop(c, s.(cancelled := s.cancelled + {k}), Some(Reported(s, s.runs[k].result)))
    case HereEnds(did) =>
      var k := s.place.step;
      var ended := s.(runs := s.runs[k := Run.Done(Guarded(did))]);
      Stop(c, ended, if did.Exits? then None else Some(Reported(s, Guarded(did))))
    case Cancel => s.(cancelled := s.cancelled + {NextStopped(c, s.place.left)})
    case Joined => s.(place := Stopping(s.place.out, s.place.left - 1))
    case Return => s.(place := if s.place.out.Some? then Returned(s.place.out.value) else Gone)
  }

  /** Where a trace leads; nowhere when an event could not be. */
  function Reached(c: Call, s: State, trace: seq<Event>): Option<State>
    decreases |trace|
  {
    if trace == [] then Some(s)
    else if WellFormed(c, s) && Enabled(c, s, trace[0]) then Reached(c, Next(c, s, trace[0]), trace[1..])
    else None
  }

  // ---------------------------------------------------------------- what every event keeps

  /** A run is the business of the caller: it was started early, or picked. */
  predicate RunsKept(c: Call, s: State)
    requires WellFormed(c, s)
  {
    && (forall k | 0 <= k < |s.runs| && k in c.early :: !s.runs[k].Idle?)
    && (forall k | 0 <= k < |s.runs| && k !in c.early && s.decided != Some(k) :: s.runs[k].Idle?)
    && (forall k | 0 <= k < |s.runs| && k !in c.early && s.decided == Some(k) ::
          if s.place == Here(k) then s.runs[k].Running? else s.runs[k].Done?)
  }

  predicate CancelsKept(c: Call, s: State)
    requires WellFormed(c, s)
  {
    && (s.place.Deciding? ==> s.cancelled == {} && s.decided.None?)
    && (s.place.Awaiting? ==> s.place.kept !in s.cancelled)
  }

  /** While the context is live, a run nobody cancelled before it returned did what its step does. */
  predicate ResultsKept(c: Call, s: State)
    requires WellFormed(c, s)
  {
    !s.over ==>
      && (forall k | 0 <= k < |s.runs| && s.runs[k].Done? && k !in s.cancelled ::
            s.runs[k].result == Guarded(c.steps[k]))
      && (s.decided.Some? && s.runs[s.decided.value].Done? ==>
            s.runs[s.decided.value].result == Guarded(c.steps[s.decided.value]))
      && (s.decided.Some? ==> c.decision == Chooses(s.decided.value))
  }

  /** The runs that have been stopped have returned. */
  predicate StopsKept(c: Call, s: State)
    requires WellFormed(c, s)
  {
    match s.place
    case Stopping(_, left) => forall i | left <= i < |c.early| :: s.runs[c.early[i]].Done?
    case Returned(_) => forall i | 0 <= i < |c.early| :: s.runs[c.early[i]].Done?
    case Gone => forall i | 0 <= i < |c.early| :: s.runs[c.early[i]].Done?
    case _ => true
  }

  /** A result the caller may be given. */
  predicate Rightful(c: Call, s: State, out: Result)
    requires WellFormed(c, s)
  {
    && (!s.over ==> out == Sequential(c))
    && if s.decided.Some? then
         var run := s.runs[s.decided.value];
         run.Done? && (out == run.result || (s.over && out == Failed(Over) && run.result.Failed?))
       else out.Failed? && (out == Sequential(c) || (s.over && out == Failed(Over)))
  }

  predicate OutKept(c: Call, s: State)
    requires WellFormed(c, s)
  {
    match s.place
    case Stopping(Some(out), _) => Rightful(c, s, out)
    case Returned(out) => Rightful(c, s, out)
    case Stopping(None, _) => !s.over ==> Leaves(c)
    case Gone => !s.over ==> Leaves(c)
    case _ => true
  }

  /** The decision, or the step it picks, ends the caller's goroutine. */
  predicate Leaves(c: Call) {
    c.decision.DecisionExits?
    || (c.decision.Chooses? && c.decision.choice < |c.steps| && c.decision.choice !in c.early
      && c.steps[c.decision.choice].Exits?)
  }

  ghost predicate Kept(c: Call, s: State) {
    WellFormed(c, s) && RunsKept(c, s) && CancelsKept(c, s) && ResultsKept(c, s) && StopsKept(c, s) && OutKept(c, s)
  }

  lemma StartKeeps(c: Call)
    requires Shaped(c)
    ensures Kept(c, Start(c))
  {
  }

  lemma RunEndsKeeps(c: Call, s: State, k: nat, did: Behaviour)
    requires Kept(c, s) && Enabled(c, s, RunEnds(k, did))
    ensures Kept(c, Next(c, s, RunEnds(k, did)))
  {
  }

  lemma DecisionKeeps(c: Call, s: State, did: Decision)
    requires Kept(c, s) && Enabled(c, s, DecisionEnds(did))
    ensures Kept(c, Next(c, s, DecisionEnds(did)))
  {
  }

  lemma TakeKeeps(c: Call, s: State)
    requires Kept(c, s) && Enabled(c, s, Take)
    ensures Kept(c, Next(c, s, Take))
  {
  }

  lemma HereKeeps(c: Call, s: State, did: Behaviour)
    requires Kept(c, s) && Enabled(c, s, HereEnds(did))
    ensures Kept(c, Next(c, s, HereEnds(did)))
  {
  }

  lemma StopKeeps(c: Call, s: State, e: Event)
    requires Kept(c, s) && Enabled(c, s, e) && (e.Cancel? || e.Joined? || e.Return? || e.ContextEnds?)
    ensures Kept(c, Next(c, s, e))
  {
  }

  lemma EventKeeps(c: Call, s: State, e: Event)
    requires Kept(c, s) && Enabled(c, s, e)
    ensures Kept(c, Next(c, s, e))
  {
    match e
    case RunEnds(k, did) => RunEndsKeeps(c, s, k, did);
    case DecisionEnds(did) => DecisionKeeps(c, s, did);
    case Take => TakeKeeps(c, s);
    case HereEnds(did) => HereKeeps(c, s, did);
    case _ => StopKeeps(c, s, e);
  }

  lemma {:induction false} TraceKeeps(c: Call, s: State, trace: seq<Event>)
    requires Kept(c, s) && Reached(c, s, trace).Some?
    ensures Kept(c, Reached(c, s, trace).value)
    decreases |trace|
  {
    if trace != [] {
      EventKeeps(c, s, trace[0]);
      TraceKeeps(c, Next(c, s, trace[0]), trace[1..]);
    }
  }

  // ---------------------------------------------------------------- the promises

  /** Speculation cannot be seen: while the caller's context is live, whatever the interleaving, what is
      returned is what deciding first and then running the step that was picked would have returned. */
  lemma SpeculationIsTransparent(c: Call, trace: seq<Event>)
    requires Shaped(c) && Reached(c, Start(c), trace).Some?
    ensures var end := Reached(c, Start(c), trace).value;
      end.place.Returned? && !end.over ==> end.place.result == Sequential(c)
  {
    StartKeeps(c);
    TraceKeeps(c, Start(c), trace);
  }

  /** Whatever becomes of the context, nothing of a step that was not picked is returned: the result is
      what the picked step returned, or the context's error in place of its failure, and when nothing
      was picked it is a failure that no step made. */
  lemma NothingOfTheLoser(c: Call, trace: seq<Event>)
    requires Shaped(c) && Reached(c, Start(c), trace).Some?
    ensures var end := Reached(c, Start(c), trace).value;
      end.place.Returned? ==>
        var out := end.place.result;
        if end.decided.Some? then
          var k := end.decided.value;
          k < |end.runs| && end.runs[k].Done?
          && (out == end.runs[k].result || (end.over && out == Failed(Over) && end.runs[k].result.Failed?))
        else
          out.Failed? && (out == Sequential(c) || (end.over && out == Failed(Over)))
  {
    StartKeeps(c);
    TraceKeeps(c, Start(c), trace);
  }

  /** No goroutine outlives the call: when it is over, by a result or by the end of the caller's
      goroutine, every run that was started has returned. And a step that was not started early runs
      only when it is picked. */
  lemma NoRunOutlivesTheCall(c: Call, trace: seq<Event>, k: nat)
    requires Shaped(c) && Reached(c, Start(c), trace).Some? && k < |c.steps|
    ensures var end := Reached(c, Start(c), trace).value;
      && k < |end.runs|
      && (end.place.Returned? || end.place.Gone? ==> !end.runs[k].Running?)
      && (k !in c.early && end.decided != Some(k) ==> end.runs[k].Idle?)
  {
    StartKeeps(c);
    TraceKeeps(c, Start(c), trace);
  }

  /** The caller's goroutine ends without a result only when the decision or the step that ran on it
      ended it. */
  lemma OnlyExitsLeave(c: Call, trace: seq<Event>)
    requires Shaped(c) && Reached(c, Start(c), trace).Some?
    ensures var end := Reached(c, Start(c), trace).value; end.place.Gone? && !end.over ==> Leaves(c)
  {
    StartKeeps(c);
    TraceKeeps(c, Start(c), trace);
  }

  /** Once the deferred stops run, what is returned is settled. */
  lemma {:induction false} OutIsSettled(c: Call, s: State, trace: seq<Event>)
    requires WellFormed(c, s) && s.place.Stopping? && Reached(c, s, trace).Some?
    ensures var end := Reached(c, s, trace).value;
      match end.place
      case Stopping(out, _) => out == s.place.out
      case Returned(result) => s.place.out == Some(result)
      case Gone => s.place.out.None?
      case _ => false
    decreases |trace|
  {
    if trace != [] {
      var t := Next(c, s, trace[0]);
      if trace[0].Return? { NothingFollows(c, t, trace[1..]); } else { OutIsSettled(c, t, trace[1..]); }
    }
  }

  lemma {:induction false} NothingFollows(c: Call, s: State, trace: seq<Event>)
    requires (s.place.Returned? || s.place.Gone?) && Reached(c, s, trace).Some?
    ensures Reached(c, s, trace).value.place == s.place
    decreases |trace|
  {
    if trace != [] { NothingFollows(c, Next(c, s, trace[0]), trace[1..]); }
  }

  /** A context that is over before the decision has returned is the error of the call, whichever way
      the decision went. */
  lemma OverBeforeTheDecision(c: Call, s: State, did: Decision, trace: seq<Event>)
    requires WellFormed(c, s) && s.over && Enabled(c, s, DecisionEnds(did))
    requires Reached(c, Next(c, s, DecisionEnds(did)), trace).Some?
    ensures var end := Reached(c, Next(c, s, DecisionEnds(did)), trace).value;
      end.place.Returned? ==> end.place.result == Failed(Over)
  {
    OutIsSettled(c, Next(c, s, DecisionEnds(did)), trace);
  }

  // ---------------------------------------------------------------- it ends

  /** A call that is not over is never stuck: some event other than the end of the context can be. */
  lemma AlwaysGoesOn(c: Call, s: State) returns (e: Event)
    requires Kept(c, s) && !s.place.Returned? && !s.place.Gone?
    ensures !e.ContextEnds? && Enabled(c, s, e)
  {
    match s.place {
      case Deciding => e := DecisionEnds(c.decision);
      case Here(k) => e := HereEnds(c.steps[k]);
      case Awaiting(k) => e := if s.runs[k].Done? then Take else RunEnds(k, c.steps[k]);
      case Stopping(_, left) =>
        if left == 0 {
          e := Return;
        } else {
          var k := NextStopped(c, left);
          e := if k !in s.cancelled then Cancel else if s.runs[k].Done? then Joined else RunEnds(k, c.steps[k]);
        }
    }
  }

  function StillRunning(c: Call, s: State, n: nat): nat
    requires WellFormed(c, s) && n <= |c.early|
  {
    if n == 0 then 0 else StillRunning(c, s, n - 1) + if s.runs[c.early[n - 1]].Running? then 1 else 0
  }

  function Ahead(c: Call, s: State): nat
    requires WellFormed(c, s)
  {
    match s.place
    case Deciding => 2 * |c.early| + 4
    case Awaiting(_) => 2 * |c.early| + 3
    case Here(_) => 2 * |c.early| + 3
    case Stopping(_, left) =>
      if left > 0 && NextStopped(c, left) !in s.cancelled then 2 * left + 2 else 2 * left + 1
    case Returned(_) => 0
    case Gone => 0
  }

  /** How many events there can still be. */
  function Bound(c: Call, s: State): nat
    requires WellFormed(c, s)
  {
    StillRunning(c, s, |c.early|) + Ahead(c, s) + if s.over then 0 else 1
  }

  lemma {:induction false} SameRunning(c: Call, s: State, t: State, n: nat)
    requires WellFormed(c, s) && WellFormed(c, t) && n <= |c.early|
    requires forall i | 0 <= i < n :: s.runs[c.early[i]] == t.runs[c.early[i]]
    ensures StillRunning(c, s, n) == StillRunning(c, t, n)
  {
    if n > 0 { SameRunning(c, s, t, n - 1); }
  }

  lemma {:induction false} OneLessRunning(c: Call, s: State, t: State, j: nat, n: nat)
    requires WellFormed(c, s) && WellFormed(c, t) && j < n <= |c.early|
    requires s.runs[c.early[j]].Running? && !t.runs[c.early[j]].Running?
    requires forall i | 0 <= i < n && i != j :: s.runs[c.early[i]] == t.runs[c.early[i]]
    ensures StillRunning(c, t, n) + 1 == StillRunning(c, s, n)
  {
    if j == n - 1 { SameRunning(c, s, t, n - 1); } else { OneLessRunning(c, s, t, j, n - 1); }
  }

  lemma RunEndsCounts(c: Call, s: State, k: nat, did: Behaviour)
    requires WellFormed(c, s) && Enabled(c, s, RunEnds(k, did))
    ensures WellFormed(c, Next(c, s, RunEnds(k, did)))
    ensures Bound(c, Next(c, s, RunEnds(k, did))) < Bound(c, s)
  {
    var j :| 0 <= j < |c.early| && c.early[j] == k;
    OneLessRunning(c, s, Next(c, s, RunEnds(k, did)), j, |c.early|);
  }

  lemma EveryEventCounts(c: Call, s: State, e: Event)
    requires Kept(c, s) && Enabled(c, s, e)
    ensures WellFormed(c, Next(c, s, e)) && Bound(c, Next(c, s, e)) < Bound(c, s)
  {
    if e.RunEnds? {
      RunEndsCounts(c, s, e.k, e.did);
    } else {
      EventKeeps(c, s, e);
      SameRunning(c, s, Next(c, s, e), |c.early|);
    }
  }

  lemma {:induction false} TraceIsBounded(c: Call, s: State, trace: seq<Event>)
    requires Kept(c, s) && Reached(c, s, trace).Some?
    ensures |trace| <= Bound(c, s)
    decreases |trace|
  {
    if trace != [] {
      EventKeeps(c, s, trace[0]);
      EveryEventCounts(c, s, trace[0]);
      TraceIsBounded(c, Next(c, s, trace[0]), trace[1..]);
    }
  }

  /** And it goes on for a bounded number of events, once every step has been asked to return and
      does. */
  lemma EveryCallEnds(c: Call, trace: seq<Event>)
    requires Shaped(c) && Reached(c, Start(c), trace).Some?
    ensures |trace| <= 3 * |c.early| + 5
  {
    StartKeeps(c);
    TraceIsBounded(c, Start(c), trace);
    AtMostAll(c, Start(c), |c.early|);
  }

  lemma {:induction false} AtMostAll(c: Call, s: State, n: nat)
    requires WellFormed(c, s) && n <= |c.early|
    ensures StillRunning(c, s, n) <= n
  {
    if n > 0 { AtMostAll(c, s, n - 1); }
  }

  // ---------------------------------------------------------------- the three functions

  /** What the laws ask of a call, the calls of the three functions are. */
  lemma TheThreeAreShaped(decision: Decision, yes: Behaviour, no: Behaviour, routes: seq<Behaviour>, likely: nat)
    ensures Shaped(BranchAhead(decision, yes, no)) && Shaped(BranchBoth(decision, yes, no))
    ensures likely < |routes| ==> Shaped(RouteAhead(decision, routes, likely))
  {
  }

  /** What is started beside the decision: yes by BranchAhead, both branches by BranchBoth, and the likely route, and
      no other, by RouteAhead. */
  lemma StartedBeside(decision: Decision, yes: Behaviour, no: Behaviour, routes: seq<Behaviour>, likely: nat)
    requires likely < |routes|
    ensures Shaped(BranchAhead(decision, yes, no)) && Start(BranchAhead(decision, yes, no)).runs == [Running, Idle]
    ensures Shaped(BranchBoth(decision, yes, no)) && Start(BranchBoth(decision, yes, no)).runs == [Running, Running]
    ensures Shaped(RouteAhead(decision, routes, likely))
    ensures Start(RouteAhead(decision, routes, likely)).runs
      == seq(|routes|, k requires 0 <= k < |routes| => if k == likely then Running else Idle)
  {
  }

  /** What the step that was picked came to: what it returned, and a defect when it did not return. */
  predicate CameTo(step: Behaviour, result: Result) {
    if step.Returns? then result == step.result else result == Failed(Defect)
  }

  /** Which branch a decision returns, in any interleaving under a live context: yes when it says so, and no when it
      does not; the decision's own failure when it fails, and a defect when it panics. */
  lemma TheDecidedBranchReturns(both: bool, decision: Decision, says: bool, yes: Behaviour, no: Behaviour,
      trace: seq<Event>)
    requires decision.Chooses? ==> decision.choice == if says then 0 else 1
    requires var c := if both then BranchBoth(decision, yes, no) else BranchAhead(decision, yes, no);
      && Reached(c, Start(c), trace).Some? && Reached(c, Start(c), trace).value.place.Returned?
      && !Reached(c, Start(c), trace).value.over
    ensures var c := if both then BranchBoth(decision, yes, no) else BranchAhead(decision, yes, no);
      var result := Reached(c, Start(c), trace).value.place.result;
      match decision
      case Chooses(_) => CameTo(if says then yes else no, result)
      case Fails(failure) => result == Failed(failure)
      case _ => result == Failed(Defect)
  {
    TheThreeAreShaped(decision, yes, no, [], 0);
    SpeculationIsTransparent(if both then BranchBoth(decision, yes, no) else BranchAhead(decision, yes, no), trace);
  }

  /** And which route: the one the decided label is of, wherever it is in the list and whichever was thought likely,
      and a refusal when it is none of them. */
  lemma TheDecidedRouteReturns(choice: nat, routes: seq<Behaviour>, likely: nat, trace: seq<Event>)
    requires likely < |routes|
    requires var c := RouteAhead(Chooses(choice), routes, likely);
      && Reached(c, Start(c), trace).Some? && Reached(c, Start(c), trace).value.place.Returned?
      && !Reached(c, Start(c), trace).value.over
    ensures var c := RouteAhead(Chooses(choice), routes, likely);
      var result := Reached(c, Start(c), trace).value.place.result;
      if choice < |routes| then CameTo(routes[choice], result) else result == Failed(NoRoute)
  {
    SpeculationIsTransparent(RouteAhead(Chooses(choice), routes, likely), trace);
  }

  /** BranchAhead and BranchBoth, decided the same way, return the same under a live context, although
      they start different steps: what either returned, in any interleaving. */
  lemma AheadAndBothAgree(decision: Decision, yes: Behaviour, no: Behaviour, t: seq<Event>, u: seq<Event>)
    requires var a := BranchAhead(decision, yes, no);
      Reached(a, Start(a), t).Some? && Reached(a, Start(a), t).value.place.Returned?
        && !Reached(a, Start(a), t).value.over
    requires var b := BranchBoth(decision, yes, no);
      Reached(b, Start(b), u).Some? && Reached(b, Start(b), u).value.place.Returned?
        && !Reached(b, Start(b), u).value.over
    ensures var a, b := BranchAhead(decision, yes, no), BranchBoth(decision, yes, no);
      Reached(a, Start(a), t).value.place == Reached(b, Start(b), u).value.place
  {
    TheThreeAreShaped(decision, yes, no, [], 0);
    SpeculationIsTransparent(BranchAhead(decision, yes, no), t);
    SpeculationIsTransparent(BranchBoth(decision, yes, no), u);
  }
}
