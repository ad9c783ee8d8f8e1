/** The loop of Until as it is written, with its marks, and which attempts it makes (v2/flow/escalate.go:136-201;
    v2/internal/ops/combinators.go:135-192). */
module FlowUntil {
  import opened Common
  import opened Kinds
  import opened ChainWalk
  import opened ErrorGraph
  import opened Classifier
  import opened FlowErrors
  import opened FlowFailures
  import opened Flows

  /** What is still to come of Until, with so many attempts left. */
  function FromHere(w: World, h: Heap, step: Flow, pred: nat, left: nat, clock: nat, fuel: nat): Run<Ran> {
    if left == 0 then Failed(RanOut(w.host, h, "flow.until", fuel), clock)
    else RunUntil(w, h, step, pred, left, clock, fuel)
  }

  /** What comes after an attempt: the end, or another attempt from a heap and a moment. */
  datatype Onward = Stop(end: Run<Ran>) | Go(h: Heap, clock: nat)

  /** The part of the loop that follows the call of the step. */
  method After(w: World, ran: Ran, ghost step: Flow, pred: nat, left: nat, fuel: nat) returns (o: Onward)
    requires left > 0
    ensures AfterAttempt(w, ran, step, pred, left, fuel) ==
      match o
      case Stop(end) => end
      case Go(h, c) => FromHere(w, h, step, pred, left - 1, c, fuel)
  {
    match ran.out {
      case Panics => return Stop(Done(ran));
      case Fails(x) =>
        var judged := Judged(w, ran.h, x, fuel);
        if judged.Hung? {
          return Stop(Hung);
        }
        var (h2, m, kind) := judged.value;
        if Terminal(kind) {
          return Stop(Failed(End(w.host, h2, false, "flow.until", m, fuel), ran.clock));
        }
        if left == 1 {
          return Stop(Failed(End(w.host, h2 + [Foreign([m])], false, "flow.until", At(|h2|), fuel), ran.clock));
        }
        return Go(h2, ran.clock);
      case Value(v) =>
        if w.satisfies(pred, v, ran.clock) {
          return Stop(Done(Ran(ran.h, Value(v), ran.clock + 1)));
        }
        return Go(ran.h, ran.clock + 1);
    }
  }

  /** Until, from where its arguments have been checked: one attempt after another, on the caller's goroutine. */
  method Until(w: World, h: Heap, step: Flow, pred: nat, attempts: nat, clock: nat, fuel: nat) returns (end: Run<Ran>)
    requires attempts > 0
    ensures end == RunUntil(w, h, step, pred, attempts, clock, fuel)
  {
    var now := h;
    var at: nat := clock;
    ghost var whole := RunUntil(w, h, step, pred, attempts, clock, fuel);
    for attempt := 1 to attempts + 1
      invariant whole == FromHere(w, now, step, pred, attempts + 1 - attempt, at, fuel)
    {
      if w.over(at).Some? {
        return Failed(EndedOver(w.host, now, "flow.until", w.over(at).value, fuel), at + 1);
      }
      var run := RunFlow(w, now, step, at + 1, fuel);
      if run.Hung? {
        return Hung;
      }
      var onward := After(w, run.value, step, pred, attempts + 1 - attempt, fuel);
      if onward.Stop? {
        return onward.end;
      }
      now, at := onward.h, onward.clock;
    }
    return Failed(RanOut(w.host, now, "flow.until", fuel), at);
  }

  // ---------------------------------------------------------------- which attempts are made

  /** An attempt: what it came to, and when. */
  datatype Attempt = Attempt(result: Result, clock: nat)

  /** An attempt that is followed by another: an answer that is turned down, or a failure that is not terminal. */
  predicate Missed(w: World, h0: Heap, pred: nat, a: Attempt, fuel: nat) {
    match a.result
    case Came(v) => !w.satisfies(pred, v, a.clock)
    case Blew => false
    case r => Reads(w, h0, r, fuel).Done? && !Terminal(Reads(w, h0, r, fuel).value)
  }

  /** The moment after an attempt. */
  function Next(a: Attempt): nat { if a.result.Came? then a.clock + 1 else a.clock }

  /** The attempts that are made. */
  function Attempts(w: World, h0: Heap, step: Flow, pred: nat, left: nat, clock: nat, fuel: nat): (made: seq<Attempt>)
    ensures |made| <= left
    decreases left
  {
    if left == 0 || w.over(clock).Some? then []
    else match Meant(w, h0, step, clock + 1, fuel)
      case Hung => []
      case Done((r, c)) =>
        var a := Attempt(r, c);
        [a] + if Missed(w, h0, pred, a, fuel) then Attempts(w, h0, step, pred, left - 1, Next(a), fuel) else []
  }

  /** How Until ends, by the attempts it made: with the failure of the context when it is over before an attempt
      is due; with what the last attempt came to when that was accepted, was terminal or panicked, or failed and
      was the last there is; and else because the answers of all of them were turned down. */
  predicate EndsWith(w: World, h0: Heap, pred: nat, left: nat, made: seq<Attempt>, clock: nat, r: Result, fuel: nat) {
    if made == [] then w.over(clock).Some? && r == Mine(Over(w.over(clock).value), "flow.until")
    else
      var last := made[|made| - 1];
      if !Missed(w, h0, pred, last, fuel) then r == last.result
      else if |made| < left then w.over(Next(last)).Some? && r == Mine(Over(w.over(Next(last)).value), "flow.until")
      else r == if last.result.Came? then Mine(Exhausted, "flow.until") else last.result
  }

  /** What follows one attempt. */
  lemma NextIs(w: World, h0: Heap, r: Result, c: nat, step: Flow, pred: nat, left: nat, fuel: nat)
    requires left > 0 && MeantNext(w, h0, r, c, step, pred, left, fuel).Done?
    ensures var a, next := Attempt(r, c), MeantNext(w, h0, r, c, step, pred, left, fuel);
      if !Missed(w, h0, pred, a, fuel) then next.value.0 == r
      else if left == 1 then next.value.0 == if r.Came? then Mine(Exhausted, "flow.until") else r
      else next == MeantUntil(w, h0, step, pred, left - 1, Next(a), fuel)
  {
  }

  /** Attempts go on exactly while each is missed, the context is live and some are left, and how they end is
      how Until does. */
  lemma {:induction false} AttemptsDecide(w: World, h0: Heap, step: Flow, pred: nat, left: nat, clock: nat, fuel: nat)
    requires left > 0 && MeantUntil(w, h0, step, pred, left, clock, fuel).Done?
    ensures var made := Attempts(w, h0, step, pred, left, clock, fuel);
      && (forall k | 0 <= k < |made| - 1 :: Missed(w, h0, pred, made[k], fuel))
      && EndsWith(w, h0, pred, left, made, clock, MeantUntil(w, h0, step, pred, left, clock, fuel).value.0, fuel)
    decreases left
  {
    if w.over(clock).None? {
      var (r, c) := Meant(w, h0, step, clock + 1, fuel).value;
      var a := Attempt(r, c);
      NextIs(w, h0, r, c, step, pred, left, fuel);
      if Missed(w, h0, pred, a, fuel) {
        var rest := Attempts(w, h0, step, pred, left - 1, Next(a), fuel);
        assert Attempts(w, h0, step, pred, left, clock, fuel) == [a] + rest;
        if left > 1 {
          AttemptsDecide(w, h0, step, pred, left - 1, Next(a), fuel);
          EndsAsTheRest(w, h0, pred, left, a, rest, clock,
            MeantUntil(w, h0, step, pred, left - 1, Next(a), fuel).value.0, fuel);
        }
      }
    }
  }

  lemma EndsAsTheRest(w: World, h0: Heap, pred: nat, left: nat, a: Attempt, rest: seq<Attempt>, clock: nat,
      r: Result, fuel: nat)
    requires left > 1 && |rest| < left && Missed(w, h0, pred, a, fuel)
      && EndsWith(w, h0, pred, left - 1, rest, Next(a), r, fuel)
    requires forall k | 0 <= k < |rest| - 1 :: Missed(w, h0, pred, rest[k], fuel)
    ensures EndsWith(w, h0, pred, left, [a] + rest, clock, r, fuel)
    ensures forall k | 0 <= k < |[a] + rest| - 1 :: Missed(w, h0, pred, ([a] + rest)[k], fuel)
  {
    var made := [a] + rest;
    if rest != [] { assert made[|made| - 1] == rest[|rest| - 1]; }
    forall k | 0 < k < |made| - 1 ensures Missed(w, h0, pred, made[k], fuel) { assert made[k] == rest[k - 1]; }
  }
}
