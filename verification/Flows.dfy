/** Programs of combinators, nested in any way: Until, Escalate and Approve of the flow package and Gather of the
    root, around steps of the caller's. They are given twice, as they are written, with the marks and the words
    they put around errors, and as they are meant, with no marks; and the two are shown to come to the same
    (v2/flow/escalate.go, v2/flow/approve.go, v2/flow.go:166-184; v2/internal/ops/combinators.go,
    v2/internal/ops/review.go, v2/internal/ops/flow.go:191-232). */
module Flows {
  import opened Common
  import opened Kinds
  import opened ChainWalk
  import opened ErrorGraph
  import opened Classifier
  import opened FlowErrors
  import opened FlowFailures

  /** What a step comes to. */
  datatype Outcome = Value(v: nat) | Fails(e: Ref) | Panics

  datatype Says = Approves | Declines | CannotSay(e: Ref)

  /** What is the caller's, at each moment: what a step returns, whether the context is over (and past its
      deadline), whether a value satisfies a condition, what a gate says of one, how the results of a Gather
      are put together, and which of its steps that failed was the first to. */
  datatype World = World(
    host: Host,
    step: (nat, nat) -> Outcome,
    over: nat -> Option<bool>,
    satisfies: (nat, nat, nat) -> bool,
    gate: (nat, nat, nat) -> Says,
    pack: seq<nat> -> nat,
    first: (nat, seq<bool>) -> nat)

  datatype Flow =
    | Step(id: nat)
    | Until(step: Flow, pred: nat, attempts: int)
    | Escalate(first: Flow, stronger: Flow, accept: Option<nat>)
    | Approve(step: Flow, gate: nat)
    | Gather(steps: seq<Flow>)

  const MAX_ATTEMPTS := 1000

  /** The name a combinator fails under. */
  function OpOf(f: Flow): string {
    match f
    case Step(_) => ""
    case Until(_, _, _) => "flow.until"
    case Escalate(_, _, _) => "flow.escalate"
    case Approve(_, _) => "flow.approve"
    case Gather(_) => "gather"
  }

  // ---------------------------------------------------------------- as it is written

  datatype Ran = Ran(h: Heap, out: Outcome, clock: nat)

  function Failed(r: Run<(Heap, Ref)>, clock: nat): Run<Ran> {
    match r
    case Hung => Hung
    case Done((h, e)) => Done(Ran(h, Fails(e), clock))
  }

  function RunFlow(w: World, h: Heap, f: Flow, clock: nat, fuel: nat): Run<Ran>
    decreases f, 2, 0
  {
    if f.Step? then Done(Ran(h, w.step(f.id, clock), clock + 1))
    else if w.over(clock).Some? then Failed(BegunOver(w.host, h, OpOf(f), w.over(clock).value, fuel), clock + 1)
    else
      match f
      case Until(step, pred, attempts) =>
        if attempts < 1 || attempts > MAX_ATTEMPTS then Failed(Done(Refusal(h, "flow.until")), clock + 1)
        else RunUntil(w, h, step, pred, attempts, clock + 1, fuel)
      case Escalate(first, stronger, accept) => RunEscalate(w, h, f, clock + 1, fuel)
      case Approve(step, gate) => RunApprove(w, h, f, clock + 1, fuel)
      case Gather(steps) =>
        (match RunAll(w, h, steps, clock + 1, fuel)
         case Hung => Hung
         case Done((h1, outs, c)) => Gathered(w, h1, outs, c, fuel))
  }

  /** A failure of a step under its mark, and the kind that is read through it. */
  function Judged(w: World, h: Heap, x: Ref, fuel: nat): Run<(Heap, Ref, InternalKind)> {
    match Own(h, x, fuel)
    case Hung => Hung
    case Done((h2, m)) =>
      match Classify(w.host, h2, m, fuel + 2)
      case Hung => Hung
      case Done(kind) => Done((h2, m, kind))
  }

  /** The loop of Until, with so many attempts left. */
  function RunUntil(w: World, h: Heap, step: Flow, pred: nat, left: nat, clock: nat, fuel: nat): Run<Ran>
    requires left > 0
    decreases step, 3, left, 1
  {
    if w.over(clock).Some? then Failed(EndedOver(w.host, h, "flow.until", w.over(clock).value, fuel), clock + 1)
    else match RunFlow(w, h, step, clock + 1, fuel)
      case Hung => Hung
      case Done(ran) => AfterAttempt(w, ran, step, pred, left, fuel)
  }

  /** What Until does after an attempt. */
  function AfterAttempt(w: World, ran: Ran, step: Flow, pred: nat, left: nat, fuel: nat): Run<Ran>
    requires left > 0
    decreases step, 3, left, 0
  {
    var h, c := ran.h, ran.clock;
    match ran.out
    case Panics => Done(ran)
    case Value(v) =>
      if w.satisfies(pred, v, c) then Done(Ran(h, Value(v), c + 1))
      else if left == 1 then Failed(RanOut(w.host, h, "flow.until", fuel), c + 1)
      else RunUntil(w, h, step, pred, left - 1, c + 1, fuel)
    case Fails(x) =>
      match Judged(w, h, x, fuel)
      case Hung => Hung
      case Done((h2, m, kind)) =>
        if Terminal(kind) then Failed(End(w.host, h2, false, "flow.until", m, fuel), c)
        else if left == 1 then Failed(End(w.host, h2 + [Foreign([m])], false, "flow.until", At(|h2|), fuel), c)
        else RunUntil(w, h2, step, pred, left - 1, c, fuel)
  }

  function RunEscalate(w: World, h: Heap, f: Flow, clock: nat, fuel: nat): Run<Ran>
    requires f.Escalate?
    decreases f, 1
  {
    if w.over(clock).Some? then Failed(EndedOver(w.host, h, "flow.escalate", w.over(clock).value, fuel), clock + 1)
    else match RunFlow(w, h, f.first, clock + 1, fuel)
      case Hung => Hung
      case Done(ran) => AfterFirst(w, ran, f, fuel)
  }

  /** What Escalate does after its first step. */
  function AfterFirst(w: World, ran: Ran, f: Flow, fuel: nat): Run<Ran>
    requires f.Escalate?
    decreases f, 0
  {
    var h, c := ran.h, ran.clock;
    match ran.out
    case Panics => Done(ran)
    case Value(v) =>
      if f.accept.None? || w.satisfies(f.accept.value, v, c) then Done(Ran(h, Value(v), c + 1))
      else RunStronger(w, h, f.stronger, Nil, c + 1, fuel)
    case Fails(x) =>
      match Judged(w, h, x, fuel)
      case Hung => Hung
      case Done((h2, m, kind)) =>
        if Terminal(kind) then Failed(End(w.host, h2, false, "flow.escalate", m, fuel), c)
        else RunStronger(w, h2, f.stronger, m, c, fuel)
  }

  /** runStronger, after a first step that failed under the mark `m`, or whose value was turned down. The
      error of a stronger step that fails is kept as it was given: the words around the two marks are not
      searched for it. */
  function RunStronger(w: World, h: Heap, stronger: Flow, m: Ref, clock: nat, fuel: nat): Run<Ran>
    decreases stronger, 3
  {
    if w.over(clock).Some? then Failed(EndedOver(w.host, h, "flow.escalate", w.over(clock).value, fuel), clock + 1)
    else match RunFlow(w, h, stronger, clock + 1, fuel)
      case Hung => Hung
      case Done(Ran(h1, Fails(y), c)) =>
        var (h2, m2) := Marked(h1, false, y, Alone);
        Done(Ran(if m.Nil? then h2 else h2 + [Foreign([m, m2])], Fails(y), c))
      case Done(ran) => Done(ran)
  }

  function RunApprove(w: World, h: Heap, f: Flow, clock: nat, fuel: nat): Run<Ran>
    requires f.Approve?
    decreases f, 0
  {
    if w.over(clock).Some? then Failed(EndedOver(w.host, h, "flow.approve", w.over(clock).value, fuel), clock + 1)
    else match RunFlow(w, h, f.step, clock + 1, fuel)
      case Hung => Hung
      case Done(ran) => AfterCandidate(w, ran, f.gate, fuel)
  }

  /** What Approve does after its step. */
  function AfterCandidate(w: World, ran: Ran, gate: nat, fuel: nat): Run<Ran> {
    var h, c := ran.h, ran.clock;
    match ran.out
    case Panics => Done(ran)
    case Value(v) =>
      (match w.gate(gate, v, c)
       case Approves => Done(Ran(h, Value(v), c + 1))
       case Declines => Failed(EndReview(w.host, h + [Review], "flow.approve", At(|h|), fuel), c + 1)
       case CannotSay(g) =>
         var (h2, m) := Marked(h, false, g, Alone);
         Failed(EndReview(w.host, h2 + [Foreign([m])], "flow.approve", At(|h2|), fuel), c + 1))
    case Fails(x) =>
      match Judged(w, h, x, fuel)
      case Hung => Hung
      case Done((h2, m, kind)) =>
        if Reviewable(kind) then Failed(EndReview(w.host, h2 + [Review], "flow.approve", At(|h2|), fuel), c)
        else Failed(EndReview(w.host, h2, "flow.approve", m, fuel), c)
  }

  /** Every step of a Gather runs, and returns before the Gather does. */
  function RunAll(w: World, h: Heap, steps: seq<Flow>, clock: nat, fuel: nat): Run<(Heap, seq<Outcome>, nat)>
    decreases steps, 0
  {
    if steps == [] then Done((h, [], clock))
    else match RunFlow(w, h, steps[0], clock, fuel)
      case Hung => Hung
      case Done(Ran(h1, out, c)) =>
        match RunAll(w, h1, steps[1..], c, fuel)
        case Hung => Hung
        case Done((h2, outs, c')) => Done((h2, [out] + outs, c'))
  }

  predicate Succeeded(outs: seq<Outcome>) { forall i | 0 <= i < |outs| :: outs[i].Value? }

  function Values(outs: seq<Outcome>): seq<nat> {
    if outs == [] then [] else [if outs[0].Value? then outs[0].v else 0] + Values(outs[1..])
  }

  function Failures(outs: seq<Outcome>): (fails: seq<bool>)
    ensures |fails| == |outs| && forall i | 0 <= i < |outs| :: fails[i] == !outs[i].Value?
  {
    seq(|outs|, i requires 0 <= i < |outs| => !outs[i].Value?)
  }

  /** The step that failed first. */
  function Picked(w: World, clock: nat, fails: seq<bool>): (k: nat)
    requires exists i :: 0 <= i < |fails| && fails[i]
    ensures k < |fails| && fails[k]
  {
    var k := w.first(clock, fails);
    if k < |fails| && fails[k] then k else Least(fails)
  }

  function Least(fails: seq<bool>): (k: nat)
    requires exists i :: 0 <= i < |fails| && fails[i]
    ensures k < |fails| && fails[k]
  {
    if fails[0] then 0
    else
      assert exists i :: 0 <= i < |fails[1..]| && fails[1..][i] by {
        var i :| 0 <= i < |fails| && fails[i];
        assert fails[1..][i - 1];
      }
      1 + Least(fails[1..])
  }

  function Gathered(w: World, h: Heap, outs: seq<Outcome>, clock: nat, fuel: nat): Run<Ran> {
    if Succeeded(outs) then Done(Ran(h, Value(w.pack(Values(outs))), clock))
    else
      var k := Picked(w, clock, Failures(outs));
      match outs[k]
      case Fails(x) =>
        var (h1, m) := Marked(h, true, x, Alone);
        Failed(End(w.host, h1, true, "gather", m, fuel), clock)
      case _ => Failed(PanickedStep(w.host, h, "gather", fuel), clock)
  }

  // ---------------------------------------------------------------- as it is meant

  /** What a program comes to: a value, the very error a step or a gate of the caller's returned, a failure of
      one of its combinators, or a panic. */
  datatype Result = Came(v: nat) | Callers(e: Ref) | Mine(stop: Stop, op: string) | Blew

  /** What a combinator makes of a failure of its step. */
  function Reads(w: World, h0: Heap, r: Result, fuel: nat): Run<InternalKind> {
    match r
    case Callers(e) => Reading(w.host, h0, e, fuel)
    case Mine(stop, _) => Done(ReadsOwn(stop))
    case _ => Done(KindUnknown)
  }

  function ResultOf(out: Outcome): Result {
    match out
    case Value(v) => Came(v)
    case Fails(e) => Callers(e)
    case Panics => Blew
  }

  function Meant(w: World, h0: Heap, f: Flow, clock: nat, fuel: nat): Run<(Result, nat)>
    decreases f, 2, 0
  {
    if f.Step? then Done((ResultOf(w.step(f.id, clock)), clock + 1))
    else if w.over(clock).Some? then Done((Mine(Over(w.over(clock).value), OpOf(f)), clock + 1))
    else
      match f
      case Until(step, pred, attempts) =>
        if attempts < 1 || attempts > MAX_ATTEMPTS then Done((Mine(Refused, "flow.until"), clock + 1))
        else MeantUntil(w, h0, step, pred, attempts, clock + 1, fuel)
      case Escalate(first, stronger, accept) => MeantEscalate(w, h0, f, clock + 1, fuel)
      case Approve(step, gate) => MeantApprove(w, h0, f, clock + 1, fuel)
      case Gather(steps) =>
        (match MeantAll(w, h0, steps, clock + 1, fuel)
         case Hung => Hung
         case Done((results, c)) => Done((MeantGathered(w, results, c), c)))
  }

  /** Attempts are made while the context is live, until one is accepted or fails in a way that is terminal. */
  function MeantUntil(w: World, h0: Heap, step: Flow, pred: nat, left: nat, clock: nat, fuel: nat): Run<(Result, nat)>
    requires left > 0
    decreases step, 3, left, 1
  {
    if w.over(clock).Some? then Done((Mine(Over(w.over(clock).value), "flow.until"), clock + 1))
    else match Meant(w, h0, step, clock + 1, fuel)
      case Hung => Hung
      case Done((r, c)) => MeantNext(w, h0, r, c, step, pred, left, fuel)
  }

  function MeantNext(w: World, h0: Heap, r: Result, c: nat, step: Flow, pred: nat, left: nat,
      fuel: nat): Run<(Result, nat)>
    requires left > 0
    decreases step, 3, left, 0
  {
    match r
    case Blew => Done((r, c))
    case Came(v) =>
      if w.satisfies(pred, v, c) then Done((r, c + 1))
      else if left == 1 then Done((Mine(Exhausted, "flow.until"), c + 1))
      else MeantUntil(w, h0, step, pred, left - 1, c + 1, fuel)
    case _ =>
      match Reads(w, h0, r, fuel)
      case Hung => Hung
      case Done(kind) => if Terminal(kind) || left == 1 then Done((r, c))
        else MeantUntil(w, h0, step, pred, left - 1, c, fuel)
  }

  /** The stronger step runs when the first was turned down or failed in a way that is not terminal, and what
      it comes to is then the result. */
  function MeantEscalate(w: World, h0: Heap, f: Flow, clock: nat, fuel: nat): Run<(Result, nat)>
    requires f.Escalate?
    decreases f, 1
  {
    if w.over(clock).Some? then Done((Mine(Over(w.over(clock).value), "flow.escalate"), clock + 1))
    else match Meant(w, h0, f.first, clock + 1, fuel)
      case Hung => Hung
      case Done((r, c)) => MeantSecond(w, h0, r, c, f, fuel)
  }

  function MeantSecond(w: World, h0: Heap, r: Result, c: nat, f: Flow, fuel: nat): Run<(Result, nat)>
    requires f.Escalate?
    decreases f, 0
  {
    match r
    case Blew => Done((r, c))
    case Came(v) =>
      if f.accept.None? || w.satisfies(f.accept.value, v, c) then Done((r, c + 1))
      else MeantStronger(w, h0, f.stronger, c + 1, fuel)
    case _ =>
      match Reads(w, h0, r, fuel)
      case Hung => Hung
      case Done(kind) => if Terminal(kind) then Done((r, c)) else MeantStronger(w, h0, f.stronger, c, fuel)
  }

  function MeantStronger(w: World, h0: Heap, stronger: Flow, clock: nat, fuel: nat): Run<(Result, nat)>
    decreases stronger, 3
  {
    if w.over(clock).Some? then Done((Mine(Over(w.over(clock).value), "flow.escalate"), clock + 1))
    else Meant(w, h0, stronger, clock + 1, fuel)
  }

  function MeantApprove(w: World, h0: Heap, f: Flow, clock: nat, fuel: nat): Run<(Result, nat)>
    requires f.Approve?
    decreases f, 0
  {
    if w.over(clock).Some? then Done((Mine(Over(w.over(clock).value), "flow.approve"), clock + 1))
    else match Meant(w, h0, f.step, clock + 1, fuel)
      case Hung => Hung
      case Done((r, c)) => MeantOf(w, h0, r, c, f.gate, fuel)
  }

  function MeantOf(w: World, h0: Heap, r: Result, c: nat, gate: nat, fuel: nat): Run<(Result, nat)> {
    match r
    case Blew => Done((r, c))
    case Came(v) =>
      (match w.gate(gate, v, c)
       case Approves => Done((r, c + 1))
       case Declines => Done((Mine(ReviewAsked, "flow.approve"), c + 1))
       case CannotSay(g) => Done((Callers(g), c + 1)))
    case _ =>
      match Reads(w, h0, r, fuel)
      case Hung => Hung
      case Done(kind) => Done((if Reviewable(kind) then Mine(ReviewAsked, "flow.approve") else r, c))
  }

  function MeantAll(w: World, h0: Heap, steps: seq<Flow>, clock: nat, fuel: nat): Run<(seq<Result>, nat)>
    decreases steps, 0
  {
    if steps == [] then Done(([], clock))
    else match Meant(w, h0, steps[0], clock, fuel)
      case Hung => Hung
      case Done((r, c)) =>
        match MeantAll(w, h0, steps[1..], c, fuel)
        case Hung => Hung
        case Done((rs, c')) => Done(([r] + rs, c'))
  }

  function ValuesOf(results: seq<Result>): seq<nat> {
    if results == [] then [] else [if results[0].Came? then results[0].v else 0] + ValuesOf(results[1..])
  }

  function FailuresOf(results: seq<Result>): (fails: seq<bool>)
    ensures |fails| == |results| && forall i | 0 <= i < |results| :: fails[i] == !results[i].Came?
  {
    seq(|results|, i requires 0 <= i < |results| => !results[i].Came?)
  }

  /** The failure of the step that failed first, and a panic there is a defect. */
  function MeantGathered(w: World, results: seq<Result>, clock: nat): Result {
    if forall i | 0 <= i < |results| :: results[i].Came? then Came(w.pack(ValuesOf(results)))
    else
      assert exists i :: 0 <= i < |FailuresOf(results)| && FailuresOf(results)[i] by {
        var i :| 0 <= i < |results| && !results[i].Came?;
        assert FailuresOf(results)[i];
      }
      var r := results[Picked(w, clock, FailuresOf(results))];
      if r.Blew? then Mine(Panicked, "gather") else r
  }
}
