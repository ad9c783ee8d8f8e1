/** How a program of each combinator ends, through its run as it is written: what its steps came to, what is read
    of a failure of theirs, and what comes out (v2/flow/escalate.go, v2/flow/approve.go, v2/flow.go:166-184;
    v2/internal/ops/combinators.go, v2/internal/ops/review.go, v2/internal/types/errorkind.go:324-335). */
module FlowOutcomes {
  import opened Common
  import opened Kinds
  import opened ChainWalk
  import opened ErrorGraph
  import opened Classifier
  import opened FlowErrors
  import opened FlowFailures
  import opened Flows
  import opened FlowLaws
  import opened KindLaws

  /** A new *Error of this kind, under this name, came out. */
  predicate Ends(h: Heap, ran: Ran, kind: Kind, op: string) {
    && ran.out.Fails? && ran.out.e.At? && |h| <= ran.out.e.id < |ran.h|
    && ran.h[ran.out.e.id].Lib? && ran.h[ran.out.e.id].failure.kind == Some(kind)
    && ran.h[ran.out.e.id].failure.op == op
  }

  /** What came out is what a step came to: its value, the identical error, or its panic; and for a failure of a
      combinator in it, an *Error of the kind that is told of it. */
  predicate ComesOut(h: Heap, ran: Ran, r: Result) {
    match r
    case Came(v) => ran.out == Value(v)
    case Callers(e) => ran.out == Fails(e)
    case Blew => ran.out.Panics?
    case Mine(Refused, op) => Ends(h, ran, ErrInvalidRequest, op)
    case Mine(Over(deadline), op) => Ends(h, ran, if deadline then ErrTimeout else ErrCanceled, op)
    case Mine(Exhausted, op) => Ends(h, ran, ErrInvalidAnswer, op)
    case Mine(ReviewAsked, op) => Ends(h, ran, ErrReviewRequired, op)
    case Mine(Panicked, op) => Ends(h, ran, ErrInternal, op)
  }

  lemma MatchComesOut(h: Heap, ran: Ran, r: Result)
    requires Matches(h, ran.h, ran.out, r)
    ensures ComesOut(h, ran, r)
  {
  }

  // ---------------------------------------------------------------- what is read of a failure

  /** What a combinator reads of a step's own error: of one whose first *Error is a defect, a misconfiguration; of
      any other the kind the call path has for it, else the kind its first *Error travels as, and else what the
      transport says. */
  lemma CallersIsRead(host: Host, h: Heap, e: Ref, fuel: nat)
    requires Speaks(host) && Sound(h) && Live(h, e) && e.At? && ReadThrough(host, h, e, fuel).Done?
    ensures FirstLib(h, e, fuel).Done?
    ensures var lib, kind := LibKind(h, FirstLib(h, e, fuel).value), ReadThrough(host, h, e, fuel).value;
      if lib == Some(ErrInternal) then kind == KindConfiguration
      else if KindOf(h, e, fuel) != Done(KindUnknown) then KindOf(h, e, fuel) == Done(kind)
      else if lib.Some? then exists narrow :: TravelsAs(lib.value, kind, narrow)
      else KindUnderneath(host, h, e, fuel + 1) == Done(kind)
  {
    KindIsReadThroughTheMark(host, h, e, fuel);
    var lib := LibKind(h, FirstLib(h, e, fuel).value);
    if lib.Some? { KindTravelsAs(lib.value); }
    if BesideOf(h, e, fuel) == Done(Alone) {
      SeekIsStable(KindGraphOf(h), Kinded(h), [e], fuel, fuel + 1);
    }
  }

  /** What a combinator reads of a failure of another's. */
  lemma OwnIsRead(w: World, h: Heap, stop: Stop, op: string, fuel: nat)
    ensures Reads(w, h, Mine(stop, op), fuel) == Done(
      match stop
      case Refused => KindInvalidRequest
      case Over(deadline) => if deadline then KindTimeout else KindCanceled
      case Exhausted => KindRepairExhausted
      case ReviewAsked => KindReviewRequired
      case Panicked => KindConfiguration)
  {
  }

  // ---------------------------------------------------------------- before anything runs

  /** A context that is over before a program starts, or a number of attempts that is not from 1 to 1000, ends it
      and no step runs. */
  lemma NothingRuns(w: World, h: Heap, f: Flow, clock: nat, fuel: nat)
    requires Fair(w, h) && fuel > 2 && !f.Step?
    requires w.over(clock).Some? || (f.Until? && !(1 <= f.attempts <= 1000))
    ensures RunFlow(w, h, f, clock, fuel).Done? && RunFlow(w, h, f, clock, fuel).value.clock == clock + 1
    ensures Ends(h, RunFlow(w, h, f, clock, fuel).value,
      if w.over(clock).None? then ErrInvalidRequest else if w.over(clock).value then ErrTimeout else ErrCanceled,
      if f.Until? then "flow.until" else if f.Escalate? then "flow.escalate"
      else if f.Approve? then "flow.approve" else "gather")
  {
    FlowIsMeant(w, h, h, f, clock, fuel);
  }

  // ---------------------------------------------------------------- Escalate

  /** The stronger step decides, unless the context is over when it is due. */
  ghost predicate StrongerDecides(w: World, h: Heap, stronger: Flow, c: nat, fuel: nat, ran: Ran) {
    if w.over(c).Some? then Ends(h, ran, if w.over(c).value then ErrTimeout else ErrCanceled, "flow.escalate")
    else Meant(w, h, stronger, c + 1, fuel).Done? && ComesOut(h, ran, Meant(w, h, stronger, c + 1, fuel).value.0)
  }

  /** After a first step that failed: one of the kinds that nothing the library does can help ends the program with
      the failure as it is, and any other brings the stronger step in. */
  ghost predicate FailureDecides(w: World, h: Heap, r: Result, stronger: Flow, c: nat, fuel: nat, ran: Ran) {
    && Reads(w, h, r, fuel).Done?
    && if Reads(w, h, r, fuel).value in
            {KindConfiguration, KindAuthentication, KindPermission, KindInvalidRequest, KindPolicyViolation,
             KindBudgetExceeded, KindUnsupportedCapability, KindCanceled, KindShutdown, KindRepairExhausted,
             KindReviewRequired}
       then ComesOut(h, ran, r) else StrongerDecides(w, h, stronger, c, fuel, ran)
  }

  /** Escalate: a value that is accepted comes out, and one that is not brings the stronger step in; a failure of a
      kind that nothing the library does can help comes out as it is, and any other brings it in. */
  lemma EscalateEnds(w: World, h: Heap, f: Flow, clock: nat, fuel: nat)
    requires Fair(w, h) && fuel > 2 && f.Escalate? && w.over(clock).None? && w.over(clock + 1).None?
    requires RunFlow(w, h, f, clock, fuel).Done?
    ensures Meant(w, h, f.first, clock + 2, fuel).Done?
    ensures var ran := RunFlow(w, h, f, clock, fuel).value;
      var (r, c) := Meant(w, h, f.first, clock + 2, fuel).value;
      match r
      case Blew => ran.out.Panics?
      case Came(v) =>
        if f.accept.None? || w.satisfies(f.accept.value, v, c) then ran.out == Value(v)
        else StrongerDecides(w, h, f.stronger, c + 1, fuel, ran)
      case _ => FailureDecides(w, h, r, f.stronger, c, fuel, ran)
  {
    FlowIsMeant(w, h, h, f, clock, fuel);
    assert Meant(w, h, f, clock, fuel) == MeantEscalate(w, h, f, clock + 1, fuel);
    assert clock + 1 + 1 == clock + 2;
    var (r, c) := Meant(w, h, f.first, clock + 2, fuel).value;
    assert Meant(w, h, f, clock, fuel) == MeantSecond(w, h, r, c, f, fuel);
    MatchComesOut(h, RunFlow(w, h, f, clock, fuel).value, Meant(w, h, f, clock, fuel).value.0);
    SecondEnds(w, h, r, c, f, fuel, RunFlow(w, h, f, clock, fuel).value);
  }

  lemma SecondEnds(w: World, h: Heap, r: Result, c: nat, f: Flow, fuel: nat, ran: Ran)
    requires f.Escalate? && MeantSecond(w, h, r, c, f, fuel).Done?
    requires ComesOut(h, ran, MeantSecond(w, h, r, c, f, fuel).value.0)
    ensures match r
      case Blew => ran.out.Panics?
      case Came(v) =>
        if f.accept.None? || w.satisfies(f.accept.value, v, c) then ran.out == Value(v)
        else StrongerDecides(w, h, f.stronger, c + 1, fuel, ran)
      case _ => FailureDecides(w, h, r, f.stronger, c, fuel, ran)
  {
  }

  // ---------------------------------------------------------------- Gather

  /** What a Gather comes to: the results in the order of its steps when all have one, and else what the step that
      was the first to fail came to, where it is known which, or a defect where that one panicked. */
  ghost predicate GatherDecides(w: World, h: Heap, results: seq<Result>, c: nat, ran: Ran) {
    if forall i | 0 <= i < |results| :: results[i].Came? then
      ran.out == Value(w.pack(seq(|results|, i requires 0 <= i < |results| => results[i].v)))
    else exists k, fails: seq<bool> ::
      && |fails| == |results| && (forall i | 0 <= i < |results| :: fails[i] == !results[i].Came?)
      && 0 <= k < |results| && !results[k].Came?
      && (w.first(c, fails) < |results| && fails[w.first(c, fails)] ==> k == w.first(c, fails))
      && if results[k].Blew? then Ends(h, ran, ErrInternal, "gather") else ComesOut(h, ran, results[k])
  }

  /** Gather: every step has run, and what they came to decides. */
  lemma GatherEnds(w: World, h: Heap, f: Flow, clock: nat, fuel: nat)
    requires Fair(w, h) && fuel > 2 && f.Gather? && w.over(clock).None?
    requires RunFlow(w, h, f, clock, fuel).Done?
    ensures MeantAll(w, h, f.steps, clock + 1, fuel).Done?
    ensures var (results, c) := MeantAll(w, h, f.steps, clock + 1, fuel).value;
      && |results| == |f.steps| && (forall i | 0 <= i < |results| :: CameTo(w, h, f.steps[i], results[i], fuel))
      && GatherDecides(w, h, results, c, RunFlow(w, h, f, clock, fuel).value)
  {
    FlowIsMeant(w, h, h, f, clock, fuel);
    var (results, c) := MeantAll(w, h, f.steps, clock + 1, fuel).value;
    MatchComesOut(h, RunFlow(w, h, f, clock, fuel).value, MeantGathered(w, results, c));
    GatheredDecides(w, h, results, c, RunFlow(w, h, f, clock, fuel).value);
    EachCameTo(w, h, f.steps, clock + 1, fuel);
  }

  lemma GatheredDecides(w: World, h: Heap, results: seq<Result>, c: nat, ran: Ran)
    requires ComesOut(h, ran, MeantGathered(w, results, c))
    ensures GatherDecides(w, h, results, c, ran)
  {
    if forall i | 0 <= i < |results| :: results[i].Came? {
      ValuesAre(results);
    } else {
      var fails := FailuresOf(results);
      assert exists i :: 0 <= i < |fails| && fails[i];
      assert !results[Picked(w, c, fails)].Came?;
    }
  }

  /** The step came to this, at some moment. */
  ghost predicate CameTo(w: World, h: Heap, step: Flow, r: Result, fuel: nat) {
    exists t: nat :: Meant(w, h, step, t, fuel).Done? && Meant(w, h, step, t, fuel).value.0 == r
  }

  lemma {:induction false} EachCameTo(w: World, h: Heap, steps: seq<Flow>, clock: nat, fuel: nat)
    requires MeantAll(w, h, steps, clock, fuel).Done?
    ensures var results := MeantAll(w, h, steps, clock, fuel).value.0;
      |results| == |steps| && forall i | 0 <= i < |steps| :: CameTo(w, h, steps[i], results[i], fuel)
  {
    if steps != [] {
      var (r, c) := Meant(w, h, steps[0], clock, fuel).value;
      EachCameTo(w, h, steps[1..], c, fuel);
      assert CameTo(w, h, steps[0], r, fuel);
      var results := MeantAll(w, h, steps, clock, fuel).value.0;
      forall i | 0 < i < |steps| ensures CameTo(w, h, steps[i], results[i], fuel) {
        assert steps[i] == steps[1..][i - 1] && results[i] == results[1..][i - 1];
      }
    }
  }

  lemma {:induction false} ValuesAre(results: seq<Result>)
    requires forall i | 0 <= i < |results| :: results[i].Came?
    ensures ValuesOf(results) == seq(|results|, i requires 0 <= i < |results| => results[i].v)
  {
    if results != [] { ValuesAre(results[1..]); }
  }

  // ---------------------------------------------------------------- Approve around Until

  /** Approve around an Until whose attempts ran out asks for a review, under its own name. */
  lemma ExhaustedIsReviewed(w: World, h: Heap, f: Flow, clock: nat, fuel: nat)
    requires Fair(w, h) && fuel > 2 && f.Approve? && f.step.Until? && w.over(clock).None? && w.over(clock + 1).None?
    requires RunFlow(w, h, f.step, clock + 2, fuel).Done?
    requires var ran := RunFlow(w, h, f.step, clock + 2, fuel).value; Ends(h, ran, ErrInvalidAnswer, "flow.until")
    ensures RunFlow(w, h, f, clock, fuel).Done? && AsksForReview(h, RunFlow(w, h, f, clock, fuel).value)
    ensures Ends(h, RunFlow(w, h, f, clock, fuel).value, ErrReviewRequired, "flow.approve")
  {
    FlowIsMeant(w, h, h, f.step, clock + 2, fuel);
    FlowIsMeant(w, h, h, f, clock, fuel);
    assert Meant(w, h, f, clock, fuel) == MeantApprove(w, h, f, clock + 1, fuel);
    assert clock + 1 + 1 == clock + 2;
    ApproveAsksIff(w, h, f, clock, fuel);
  }

  /** Every attempt's answer is turned down, under a context that is live throughout. */
  ghost predicate NeverAccepted(w: World, step: nat, pred: nat) {
    && (forall t: nat :: w.over(t).None? && w.step(step, t).Value?)
    && (forall v, t: nat :: !w.satisfies(pred, v, t))
  }

  lemma {:induction false} AttemptsRunOut(w: World, h: Heap, step: nat, pred: nat, left: nat, clock: nat, fuel: nat)
    requires NeverAccepted(w, step, pred) && left > 0
    ensures MeantUntil(w, h, Step(step), pred, left, clock, fuel).Done?
    ensures MeantUntil(w, h, Step(step), pred, left, clock, fuel).value.0 == Mine(Exhausted, "flow.until")
    decreases left
  {
    var next := Meant(w, h, Step(step), clock + 1, fuel).value;
    assert next.0.Came? && next.1 == clock + 2;
    if left > 1 { AttemptsRunOut(w, h, step, pred, left - 1, clock + 3, fuel); }
  }

  /** From the steps up: a step all of whose answers are turned down, tried any number of times from 1 to 1000, is
      an ErrInvalidAnswer by itself, and a review under Approve. */
  lemma TurnedDownIsReviewed(w: World, h: Heap, step: nat, pred: nat, attempts: int, gate: nat, clock: nat, fuel: nat)
    requires Fair(w, h) && fuel > 2 && NeverAccepted(w, step, pred) && 1 <= attempts <= 1000
    ensures var until := RunFlow(w, h, Until(Step(step), pred, attempts), clock, fuel);
      until.Done? && Ends(h, until.value, ErrInvalidAnswer, "flow.until")
    ensures var approved := RunFlow(w, h, Approve(Until(Step(step), pred, attempts), gate), clock, fuel);
      approved.Done? && AsksForReview(h, approved.value)
  {
    var f := Until(Step(step), pred, attempts);
    forall c: nat
      ensures RunFlow(w, h, f, c, fuel).Done?
      ensures Ends(h, RunFlow(w, h, f, c, fuel).value, ErrInvalidAnswer, "flow.until")
    {
      AttemptsRunOut(w, h, step, pred, attempts, c + 1, fuel);
      FlowIsMeant(w, h, h, f, c, fuel);
    }
    ExhaustedIsReviewed(w, h, Approve(f, gate), clock, fuel);
  }
}
