/** What the combinators promise of any program: the marks and the words change nothing, the error that comes out
    is the very one the step that decided returned, and no mark is in it. */
module FlowLaws {
  import opened Common
  import opened Kinds
  import opened ChainWalk
  import opened ErrorGraph
  import opened Classifier
  import opened ErrorConvert
  import opened FlowErrors
  import opened FlowFailures
  import opened Flows

  /** The errors of the caller's steps and gates are in the heap at the start, and no mark is. */
  ghost predicate Fair(w: World, h0: Heap) {
    && Speaks(w.host) && Sound(h0) && (forall id | 0 <= id < |h0| :: !h0[id].Mark?)
    && (forall id, t: nat :: w.step(id, t).Fails? ==> Given(h0, w.step(id, t).e))
    && (forall g, v, t: nat :: w.gate(g, v, t).CannotSay? ==> Given(h0, w.gate(g, v, t).e))
  }

  predicate Given(h0: Heap, e: Ref) { e.At? && e.id < |h0| }

  /** A heap that has grown from the one at the start. */
  ghost predicate Since(h0: Heap, h: Heap) { h0 <= h && Sound(h) }

  /** What came out is what was meant: the identical error for one of the caller's, and for a failure of a
      combinator an *Error made since. */
  predicate Matches(h0: Heap, h: Heap, out: Outcome, r: Result) {
    match r
    case Came(v) => out == Value(v)
    case Blew => out.Panics?
    case Callers(e) => out == Fails(e) && Given(h0, e)
    case Mine(stop, op) => out.Fails? && IsOwn(h, out.e, stop) && h[out.e.id].failure.op == op && out.e.id >= |h0|
  }

  ghost predicate Same(h0: Heap, h: Heap, run: Run<Ran>, meant: Run<(Result, nat)>) {
    match meant
    case Hung => run.Hung?
    case Done((r, c)) =>
      run.Done? && run.value.clock == c && h <= run.value.h && Since(h0, run.value.h)
        && Matches(h0, run.value.h, run.value.out, r)
  }

  // ---------------------------------------------------------------- heaps stay sound

  lemma SoundTwo(h: Heap, n: Node, n': Node)
    requires Sound(h) && Held(GraphOf(h + [n]), Unwrap(n)) && Held(GraphOf(h + [n] + [n']), Unwrap(n'))
    ensures Sound(h + [n, n'])
  {
    SoundWith(h, n);
    SoundWith(h + [n], n');
    assert h + [n, n'] == h + [n] + [n'];
  }

  /** A heap that has grown by an *Error around one of it. */
  predicate OneLib(h: Heap, h': Heap, err: Ref) { |h'| == |h| + 1 && h <= h' && h'[|h|].Lib? && h'[|h|].err == err }

  lemma SoundLib(h: Heap, h': Heap, err: Ref)
    requires Sound(h) && Live(h, err) && OneLib(h, h', err)
    ensures Sound(h')
  {
    SoundWith(h, h'[|h|]);
    assert h' == h + [h'[|h|]];
  }

  /** A failure of a combinator's own, that is what was meant. */
  ghost predicate Comes(h0: Heap, h: Heap, r: Run<(Heap, Ref)>, stop: Stop, op: string) {
    Made(h, r, stop, op) && Since(h0, r.value.0)
  }

  lemma BegunOverComes(host: Host, h0: Heap, h: Heap, op: string, deadline: bool, fuel: nat)
    requires Since(h0, h) && fuel > 2
    ensures Comes(h0, h, BegunOver(host, h, op, deadline, fuel), Over(deadline), op)
  {
    BegunOverIs(host, h, op, deadline, fuel);
    SoundWith(h, ContextOver(deadline));
    SoundLib(h + [ContextOver(deadline)], BegunOver(host, h, op, deadline, fuel).value.0, At(|h|));
  }

  lemma EndedOverComes(host: Host, h0: Heap, h: Heap, op: string, deadline: bool, fuel: nat)
    requires Since(h0, h) && fuel > 2
    ensures Comes(h0, h, EndedOver(host, h, op, deadline, fuel), Over(deadline), op)
  {
    EndedOverIs(host, h, op, deadline, fuel);
    var n, n' := ContextOver(deadline), Classified(OverKind(deadline), NarrowNone, None, At(|h|));
    SoundTwo(h, n, n');
    EndedOverMakes(host, h, op, deadline, fuel);
    SoundLib(h + [n, n'], EndedOver(host, h, op, deadline, fuel).value.0, At(|h| + 1));
  }

  lemma EndedOverMakes(host: Host, h: Heap, op: string, deadline: bool, fuel: nat)
    requires EndedOver(host, h, op, deadline, fuel).Done? && fuel > 1
    ensures OneLib(h + [ContextOver(deadline), Classified(OverKind(deadline), NarrowNone, None, At(|h|))],
                   EndedOver(host, h, op, deadline, fuel).value.0, At(|h| + 1))
  {
    var h' := h + [ContextOver(deadline), Classified(OverKind(deadline), NarrowNone, None, At(|h|))];
    OverSeek(h', |h| + 1, MarksOf(h', false), fuel);
  }

  lemma RefusalComes(h0: Heap, h: Heap, op: string)
    requires Since(h0, h)
    ensures Comes(h0, h, Done(Refusal(h, op)), Refused, op)
  {
    SoundWith(h, LibOf(ErrInvalidRequest, op, Nil));
  }

  lemma PlainComes(host: Host, h0: Heap, h: Heap, n: Node, root: bool, op: string, kind: Kind, fuel: nat)
    requires Since(h0, h) && fuel > 2 && n.Operation? && n.err.Nil? && KindFromInternal(n.ikind, n.narrow) == Some(kind)
    ensures var r := End(host, h + [n], root, op, At(|h|), fuel);
      r.Done? && h <= r.value.0 && Since(h0, r.value.0)
  {
    PlainEnds(host, h + [n], root, op, |h|, kind, fuel);
    SoundWith(h, n);
    SoundLib(h + [n], End(host, h + [n], root, op, At(|h|), fuel).value.0, At(|h|));
  }

  lemma RanOutComes(host: Host, h0: Heap, h: Heap, op: string, fuel: nat)
    requires Since(h0, h) && fuel > 2
    ensures Comes(h0, h, RanOut(host, h, op, fuel), Exhausted, op)
  {
    RanOutIs(host, h, op, fuel);
    PlainComes(host, h0, h, Plain(KindRepairExhausted, NarrowNone, "until"), false, op, ErrInvalidAnswer, fuel);
  }

  lemma PanickedStepComes(host: Host, h0: Heap, h: Heap, op: string, fuel: nat)
    requires Since(h0, h) && fuel > 2
    ensures Comes(h0, h, PanickedStep(host, h, op, fuel), Panicked, op)
  {
    PanickedStepIs(host, h, op, fuel);
    PlainComes(host, h0, h, Plain(KindInvariantViolation, NarrowPanic, op), true, op, ErrInternal, fuel);
  }

  lemma ReviewComes(host: Host, h0: Heap, h: Heap, op: string, fuel: nat)
    requires Since(h0, h) && fuel > 2
    ensures Comes(h0, h, EndReview(host, h + [Review], op, At(|h|), fuel), ReviewAsked, op)
  {
    ReviewIs(host, h, op, fuel);
    var h' := h + [Review];
    BottomSeek(GraphOf(h'), MarksOf(h', false), |h|, fuel);
    BottomSeek(GraphOf(h'), Reviews(h'), |h|, fuel);
    SoundWith(h, Review);
    SoundTwo(h', Foreign([]), LibOf(ErrReviewRequired, op, At(|h'|)));
  }

  // ---------------------------------------------------------------- marks

  /** A mark of the caller's error, in a heap that has grown by it. */
  predicate IsMarked(h: Heap, root: bool, e: Ref, h': Heap, m: Ref) {
    h <= h' && m.At? && |h| <= m.id < |h'| && h'[m.id].Mark? && h'[m.id].root == root && h'[m.id].err == e
  }

  lemma MarkedIs(h: Heap, root: bool, e: Ref, beside: Beside)
    requires Sound(h) && Live(h, e)
    ensures var (h', m) := Marked(h, root, e, beside); IsMarked(h, root, e, h', m) && Sound(h')
  {
    match beside
    case Alone => SoundWith(h, Mark(root, e, [e]));
    case First(kind, narrow) => SoundTwo(h, Filed(kind, narrow), Mark(root, e, [At(|h|), e]));
    case After(kind, narrow) => SoundTwo(h, Filed(kind, narrow), Mark(root, e, [e, At(|h|)]));
  }

  /** end gives back what a mark is around, by itself and in words. */
  lemma EndOfMark(host: Host, h: Heap, root: bool, op: string, m: Ref, fuel: nat)
    requires m.At? && m.id < |h| && h[m.id].Mark? && h[m.id].root == root && fuel > 2
    ensures End(host, h, root, op, m, fuel) == Done((h, h[m.id].err))
    ensures !root ==> EndReview(host, h, op, m, fuel) == Done((h, h[m.id].err))
    ensures End(host, h + [Foreign([m])], root, op, At(|h|), fuel) == Done((h + [Foreign([m])], h[m.id].err))
    ensures !root ==> EndReview(host, h + [Foreign([m])], op, At(|h|), fuel) == Done((h + [Foreign([m])], h[m.id].err))
  {
    assert m.id in MarksOf(h, root);
    var h' := h + [Foreign([m])];
    assert m.id in MarksOf(h', root) && |h| !in MarksOf(h', root);
    WrapSeek(GraphOf(h'), MarksOf(h', root), |h|, m, fuel);
  }

  lemma WordsStaySound(h: Heap, m: Ref)
    requires Sound(h) && Live(h, m)
    ensures Sound(h + [Foreign([m])])
  {
    SoundWith(h, Foreign([m]));
  }

  /** In the words that hold two marks the first is found: had Escalate searched them for the error of the
      stronger step, it would have returned the first step's. */
  lemma TwoMarksGiveTheFirst(host: Host, h: Heap, op: string, m: Ref, m': Ref, fuel: nat)
    requires m.At? && m'.At? && m.id < |h| && m'.id < |h| && h[m.id].Mark? && h[m'.id].Mark? && !h[m.id].root
      && !h[m'.id].root
    requires fuel > 2
    ensures End(host, h + [Foreign([m, m'])], false, op, At(|h|), fuel) == Done((h + [Foreign([m, m'])], h[m.id].err))
  {
    var h' := h + [Foreign([m, m'])];
    assert m.id in MarksOf(h', false) && |h| !in MarksOf(h', false);
    SeekPast(GraphOf(h'), MarksOf(h', false), |h|, fuel - 1);
  }

  /** What is read of a failure of a step is what was meant to be. */
  lemma ReadsTheSame(w: World, h0: Heap, h: Heap, x: Ref, r: Result, fuel: nat)
    requires Fair(w, h0) && Since(h0, h) && Matches(h0, h, Fails(x), r) && fuel > 2
    ensures x.At? && Live(h, x) && ReadThrough(w.host, h, x, fuel) == Reads(w, h0, r, fuel)
  {
    match r
    case Callers(e) =>
      assert h == h0 + h[|h0|..];
      OldReading(w.host, h0, h[|h0|..], e, fuel);
      ReadThroughIs(w.host, h, x, fuel);
    case Mine(stop, _) => OwnReads(w.host, h, x, stop, fuel);
  }

  lemma MatchesStays(h0: Heap, h: Heap, h': Heap, out: Outcome, r: Result)
    requires Matches(h0, h, out, r) && h <= h'
    ensures Matches(h0, h', out, r)
  {
    assert h' == h + h'[|h|..];
    if r.Mine? { OwnIsKept(h, h'[|h|..], out.e, r.stop); }
  }

  // ---------------------------------------------------------------- every program

  /** A failure of a step, marked and read: the kind is the one that was meant, and end and endReview give
      the failure back, of the mark by itself and in the words of a last attempt. */
  lemma JudgedIs(w: World, h0: Heap, h: Heap, x: Ref, r: Result, op: string, fuel: nat)
    requires Fair(w, h0) && Since(h0, h) && Matches(h0, h, Fails(x), r) && fuel > 2
    ensures match Judged(w, h, x, fuel)
      case Hung => Reads(w, h0, r, fuel).Hung?
      case Done((h2, m, kind)) =>
        && Reads(w, h0, r, fuel) == Done(kind) && h <= h2 && Since(h0, h2) && Live(h2, m)
          && Matches(h0, h2, Fails(x), r)
        && End(w.host, h2, false, op, m, fuel) == Done((h2, x)) && EndReview(w.host, h2, op, m, fuel) == Done((h2, x))
        && Since(h0, h2 + [Foreign([m])]) && Matches(h0, h2 + [Foreign([m])], Fails(x), r)
        && End(w.host, h2 + [Foreign([m])], false, op, At(|h2|), fuel) == Done((h2 + [Foreign([m])], x))
  {
    ReadsTheSame(w, h0, h, x, r, fuel);
    if Own(h, x, fuel).Done? {
      MarkedIs(h, false, x, BesideOf(h, x, fuel).value);
      var (h2, m) := Own(h, x, fuel).value;
      MatchesStays(h0, h, h2, Fails(x), r);
      EndOfMark(w.host, h2, false, op, m, fuel);
      WordsStaySound(h2, m);
      MatchesStays(h0, h2, h2 + [Foreign([m])], Fails(x), r);
    }
  }

  lemma {:induction false} FlowIsMeant(w: World, h0: Heap, h: Heap, f: Flow, clock: nat, fuel: nat)
    requires Fair(w, h0) && Since(h0, h) && fuel > 2
    ensures Same(h0, h, RunFlow(w, h, f, clock, fuel), Meant(w, h0, f, clock, fuel))
    decreases f, 3
  {
    if f.Step? {
    } else if w.over(clock).Some? {
      BegunOverComes(w.host, h0, h, OpOf(f), w.over(clock).value, fuel);
    } else {
      match f
      case Until(step, pred, attempts) =>
        if attempts < 1 || attempts > MAX_ATTEMPTS {
          RefusalComes(h0, h, "flow.until");
        } else {
          UntilIsMeant(w, h0, h, step, pred, attempts, clock + 1, fuel);
        }
      case Escalate(_, _, _) => EscalateIsMeant(w, h0, h, f, clock + 1, fuel);
      case Approve(_, _) => ApproveIsMeant(w, h0, h, f, clock + 1, fuel);
      case Gather(steps) => GatherIsMeant(w, h0, h, steps, clock + 1, fuel);
    }
  }

  lemma {:induction false} UntilIsMeant(w: World, h0: Heap, h: Heap, step: Flow, pred: nat, left: nat, clock: nat,
      fuel: nat)
    requires Fair(w, h0) && Since(h0, h) && fuel > 2 && left > 0
    ensures Same(h0, h, RunUntil(w, h, step, pred, left, clock, fuel), MeantUntil(w, h0, step, pred, left, clock, fuel))
    decreases step, 4, left, 2
  {
    if w.over(clock).Some? {
      EndedOverComes(w.host, h0, h, "flow.until", w.over(clock).value, fuel);
    } else {
      FlowIsMeant(w, h0, h, step, clock + 1, fuel);
      if RunFlow(w, h, step, clock + 1, fuel).Done? {
        AttemptIsMeant(w, h0, RunFlow(w, h, step, clock + 1, fuel).value, Meant(w, h0, step, clock + 1, fuel).value.0,
                       step, pred, left, fuel);
      }
    }
  }

  lemma {:induction false} AttemptIsMeant(w: World, h0: Heap, ran: Ran, r: Result, step: Flow, pred: nat, left: nat,
      fuel: nat)
    requires Fair(w, h0) && Since(h0, ran.h) && Matches(h0, ran.h, ran.out, r) && fuel > 2 && left > 0
    ensures Same(h0, ran.h, AfterAttempt(w, ran, step, pred, left, fuel),
      MeantNext(w, h0, r, ran.clock, step, pred, left, fuel))
    decreases step, 4, left, 1
  {
    match ran.out
    case Panics =>
    case Value(v) => AnsweredAttemptIsMeant(w, h0, ran, v, step, pred, left, fuel);
    case Fails(x) => FailedAttemptIsMeant(w, h0, ran, r, step, pred, left, fuel);
  }

  lemma {:induction false} AnsweredAttemptIsMeant(w: World, h0: Heap, ran: Ran, v: nat, step: Flow, pred: nat,
      left: nat, fuel: nat)
    requires Fair(w, h0) && Since(h0, ran.h) && ran.out == Value(v) && fuel > 2 && left > 0
    ensures Same(h0, ran.h, AfterAttempt(w, ran, step, pred, left, fuel),
      MeantNext(w, h0, Came(v), ran.clock, step, pred, left, fuel))
    decreases step, 4, left, 0
  {
    if left == 1 {
      RanOutComes(w.host, h0, ran.h, "flow.until", fuel);
    } else {
      UntilIsMeant(w, h0, ran.h, step, pred, left - 1, ran.clock + 1, fuel);
    }
  }

  lemma {:induction false} FailedAttemptIsMeant(w: World, h0: Heap, ran: Ran, r: Result, step: Flow, pred: nat,
      left: nat, fuel: nat)
    requires Fair(w, h0) && Since(h0, ran.h) && Matches(h0, ran.h, ran.out, r) && ran.out.Fails? && fuel > 2 && left > 0
    ensures Same(h0, ran.h, AfterAttempt(w, ran, step, pred, left, fuel),
      MeantNext(w, h0, r, ran.clock, step, pred, left, fuel))
    decreases step, 4, left, 0
  {
    JudgedIs(w, h0, ran.h, ran.out.e, r, "flow.until", fuel);
    if Judged(w, ran.h, ran.out.e, fuel).Done? && left > 1 {
      UntilIsMeant(w, h0, Judged(w, ran.h, ran.out.e, fuel).value.0, step, pred, left - 1, ran.clock, fuel);
    }
  }

  lemma {:induction false} EscalateIsMeant(w: World, h0: Heap, h: Heap, f: Flow, clock: nat, fuel: nat)
    requires Fair(w, h0) && Since(h0, h) && fuel > 2 && f.Escalate?
    ensures Same(h0, h, RunEscalate(w, h, f, clock, fuel), MeantEscalate(w, h0, f, clock, fuel))
    decreases f, 2
  {
    if w.over(clock).Some? {
      EndedOverComes(w.host, h0, h, "flow.escalate", w.over(clock).value, fuel);
    } else {
      FlowIsMeant(w, h0, h, f.first, clock + 1, fuel);
      if RunFlow(w, h, f.first, clock + 1, fuel).Done? {
        FirstIsMeant(w, h0, RunFlow(w, h, f.first, clock + 1, fuel).value,
          Meant(w, h0, f.first, clock + 1, fuel).value.0, f, fuel);
      }
    }
  }

  lemma {:induction false} FirstIsMeant(w: World, h0: Heap, ran: Ran, r: Result, f: Flow, fuel: nat)
    requires Fair(w, h0) && Since(h0, ran.h) && Matches(h0, ran.h, ran.out, r) && fuel > 2 && f.Escalate?
    ensures Same(h0, ran.h, AfterFirst(w, ran, f, fuel), MeantSecond(w, h0, r, ran.clock, f, fuel))
    decreases f, 1
  {
    match ran.out
    case Panics =>
    case Value(v) => StrongerIsMeant(w, h0, ran.h, f.stronger, Nil, ran.clock + 1, fuel);
    case Fails(x) => FailedFirstIsMeant(w, h0, ran, r, f, fuel);
  }

  lemma {:induction false} FailedFirstIsMeant(w: World, h0: Heap, ran: Ran, r: Result, f: Flow, fuel: nat)
    requires Fair(w, h0) && Since(h0, ran.h) && Matches(h0, ran.h, ran.out, r) && ran.out.Fails? && fuel > 2
      && f.Escalate?
    ensures Same(h0, ran.h, AfterFirst(w, ran, f, fuel), MeantSecond(w, h0, r, ran.clock, f, fuel))
    decreases f, 0
  {
    JudgedIs(w, h0, ran.h, ran.out.e, r, "flow.escalate", fuel);
    if Judged(w, ran.h, ran.out.e, fuel).Done? {
      var (h2, m, kind) := Judged(w, ran.h, ran.out.e, fuel).value;
      StrongerIsMeant(w, h0, h2, f.stronger, m, ran.clock, fuel);
    }
  }

  lemma {:induction false} StrongerIsMeant(w: World, h0: Heap, h: Heap, stronger: Flow, m: Ref, clock: nat, fuel: nat)
    requires Fair(w, h0) && Since(h0, h) && Live(h, m) && fuel > 2
    ensures Same(h0, h, RunStronger(w, h, stronger, m, clock, fuel), MeantStronger(w, h0, stronger, clock, fuel))
    decreases stronger, 4
  {
    if w.over(clock).Some? {
      EndedOverComes(w.host, h0, h, "flow.escalate", w.over(clock).value, fuel);
    } else {
      FlowIsMeant(w, h0, h, stronger, clock + 1, fuel);
      match RunFlow(w, h, stronger, clock + 1, fuel)
      case Done(Ran(h1, Fails(y), c)) =>
        StrongerFails(h0, h1, y, m, Meant(w, h0, stronger, clock + 1, fuel).value.0);
      case _ =>
    }
  }

  /** The mark of the stronger step's error, and the words around both marks, are made and are in no way. */
  lemma StrongerFails(h0: Heap, h: Heap, y: Ref, m: Ref, r: Result)
    requires Since(h0, h) && Live(h, m) && Live(h, y) && Matches(h0, h, Fails(y), r)
    ensures var (h2, m2) := Marked(h, false, y, Alone);
      && h <= h2 && Since(h0, h2) && Matches(h0, h2, Fails(y), r)
      && Since(h0, h2 + [Foreign([m, m2])]) && Matches(h0, h2 + [Foreign([m, m2])], Fails(y), r)
  {
    MarkedIs(h, false, y, Alone);
    var (h2, m2) := Marked(h, false, y, Alone);
    SoundWith(h2, Foreign([m, m2]));
    MatchesStays(h0, h, h2, Fails(y), r);
    MatchesStays(h0, h2, h2 + [Foreign([m, m2])], Fails(y), r);
  }

  lemma {:induction false} ApproveIsMeant(w: World, h0: Heap, h: Heap, f: Flow, clock: nat, fuel: nat)
    requires Fair(w, h0) && Since(h0, h) && fuel > 2 && f.Approve?
    ensures Same(h0, h, RunApprove(w, h, f, clock, fuel), MeantApprove(w, h0, f, clock, fuel))
    decreases f, 0
  {
    if w.over(clock).Some? {
      EndedOverComes(w.host, h0, h, "flow.approve", w.over(clock).value, fuel);
    } else {
      FlowIsMeant(w, h0, h, f.step, clock + 1, fuel);
      if RunFlow(w, h, f.step, clock + 1, fuel).Done? {
        CandidateIsMeant(w, h0, RunFlow(w, h, f.step, clock + 1, fuel).value,
          Meant(w, h0, f.step, clock + 1, fuel).value.0, f.gate, fuel);
      }
    }
  }

  lemma CandidateIsMeant(w: World, h0: Heap, ran: Ran, r: Result, gate: nat, fuel: nat)
    requires Fair(w, h0) && Since(h0, ran.h) && Matches(h0, ran.h, ran.out, r) && fuel > 2
    ensures Same(h0, ran.h, AfterCandidate(w, ran, gate, fuel), MeantOf(w, h0, r, ran.clock, gate, fuel))
  {
    match ran.out
    case Panics =>
    case Value(v) => GateIsMeant(w, h0, ran.h, gate, v, ran.clock, fuel);
    case Fails(x) =>
      JudgedIs(w, h0, ran.h, x, r, "flow.approve", fuel);
      if Judged(w, ran.h, x, fuel).Done? {
        ReviewComes(w.host, h0, Judged(w, ran.h, x, fuel).value.0, "flow.approve", fuel);
      }
  }

  /** What follows a value, as it is written and as it is meant. */
  lemma GateIsMeant(w: World, h0: Heap, h1: Heap, gate: nat, v: nat, c: nat, fuel: nat)
    requires Fair(w, h0) && Since(h0, h1) && fuel > 2
    ensures match w.gate(gate, v, c)
      case Approves => true
      case Declines =>
        Comes(h0, h1, EndReview(w.host, h1 + [Review], "flow.approve", At(|h1|), fuel), ReviewAsked, "flow.approve")
      case CannotSay(g) =>
        var (h2, m) := Marked(h1, false, g, Alone);
        var r := EndReview(w.host, h2 + [Foreign([m])], "flow.approve", At(|h2|), fuel);
        r.Done? && h1 <= r.value.0 && Since(h0, r.value.0) && r.value.1 == g && Given(h0, g)
  {
    match w.gate(gate, v, c)
    case Approves =>
    case Declines => ReviewComes(w.host, h0, h1, "flow.approve", fuel);
    case CannotSay(g) =>
      MarkedIs(h1, false, g, Alone);
      var (h2, m) := Marked(h1, false, g, Alone);
      EndOfMark(w.host, h2, false, "flow.approve", m, fuel);
      WordsStaySound(h2, m);
  }

  // ---------------------------------------------------------------- Gather

  ghost predicate AllMatch(h0: Heap, h: Heap, outs: seq<Outcome>, results: seq<Result>) {
    |outs| == |results| && forall i | 0 <= i < |outs| :: Matches(h0, h, outs[i], results[i])
  }

  lemma {:induction false} AllAreMeant(w: World, h0: Heap, h: Heap, steps: seq<Flow>, clock: nat, fuel: nat)
    requires Fair(w, h0) && Since(h0, h) && fuel > 2
    ensures match MeantAll(w, h0, steps, clock, fuel)
      case Hung => RunAll(w, h, steps, clock, fuel).Hung?
      case Done((results, c)) =>
        var run := RunAll(w, h, steps, clock, fuel);
        run.Done? && run.value.2 == c && h <= run.value.0 && Since(h0, run.value.0)
          && AllMatch(h0, run.value.0, run.value.1, results)
    decreases steps, 0
  {
    if steps != [] {
      FlowIsMeant(w, h0, h, steps[0], clock, fuel);
      if RunFlow(w, h, steps[0], clock, fuel).Done? {
        var Ran(h1, out, c) := RunFlow(w, h, steps[0], clock, fuel).value;
        AllAreMeant(w, h0, h1, steps[1..], c, fuel);
        if RunAll(w, h1, steps[1..], c, fuel).Done? {
          MatchesStays(h0, h1, RunAll(w, h1, steps[1..], c, fuel).value.0, out,
            Meant(w, h0, steps[0], clock, fuel).value.0);
        }
      }
    }
  }

  lemma {:induction false} SameValues(h0: Heap, h: Heap, outs: seq<Outcome>, results: seq<Result>)
    requires AllMatch(h0, h, outs, results)
    ensures Values(outs) == ValuesOf(results)
  {
    if outs != [] { SameValues(h0, h, outs[1..], results[1..]); }
  }

  lemma GatheredIsMeant(w: World, h0: Heap, h: Heap, outs: seq<Outcome>, results: seq<Result>, clock: nat, fuel: nat)
    requires Fair(w, h0) && Since(h0, h) && fuel > 2 && AllMatch(h0, h, outs, results)
    ensures Same(h0, h, Gathered(w, h, outs, clock, fuel), Done((MeantGathered(w, results, clock), clock)))
  {
    assert Failures(outs) == FailuresOf(results);
    assert Succeeded(outs) <==> forall i | 0 <= i < |results| :: results[i].Came?;
    if Succeeded(outs) {
      SameValues(h0, h, outs, results);
    } else {
      var k := Picked(w, clock, Failures(outs));
      assert Matches(h0, h, outs[k], results[k]);
      match outs[k]
      case Fails(x) =>
        MarkedIs(h, true, x, Alone);
        var (h1, m) := Marked(h, true, x, Alone);
        EndOfMark(w.host, h1, true, "gather", m, fuel);
        MatchesStays(h0, h, h1, Fails(x), results[k]);
      case Panics => PanickedStepComes(w.host, h0, h, "gather", fuel);
      case Value(_) =>
    }
  }

  lemma {:induction false} GatherIsMeant(w: World, h0: Heap, h: Heap, steps: seq<Flow>, clock: nat, fuel: nat)
    requires Fair(w, h0) && Since(h0, h) && fuel > 2
    ensures RunAll(w, h, steps, clock, fuel).Hung? <==> MeantAll(w, h0, steps, clock, fuel).Hung?
    ensures RunAll(w, h, steps, clock, fuel).Done? ==>
      var (h1, outs, c) := RunAll(w, h, steps, clock, fuel).value;
      var (results, c') := MeantAll(w, h0, steps, clock, fuel).value;
      c == c' && h <= h1 && Same(h0, h1, Gathered(w, h1, outs, c, fuel), Done((MeantGathered(w, results, c), c)))
    decreases steps, 1
  {
    AllAreMeant(w, h0, h, steps, clock, fuel);
    if RunAll(w, h, steps, clock, fuel).Done? {
      var (h1, outs, c) := RunAll(w, h, steps, clock, fuel).value;
      GatheredIsMeant(w, h0, h1, outs, MeantAll(w, h0, steps, clock, fuel).value.0, c, fuel);
    }
  }

  // ---------------------------------------------------------------- what comes out

  /** Any program, nested in any way, whatever its errors are: it returns exactly when it is meant to, with the
      value that is meant; and where an error of the caller's is meant, the error that comes out is the
      identical one. A failure of a combinator is an *Error made for it. */
  lemma CallersErrorComesOut(w: World, h: Heap, f: Flow, clock: nat, fuel: nat)
    requires Fair(w, h) && fuel > 2
    ensures RunFlow(w, h, f, clock, fuel).Done? <==> Meant(w, h, f, clock, fuel).Done?
    ensures RunFlow(w, h, f, clock, fuel).Done? ==>
      var out, r := RunFlow(w, h, f, clock, fuel).value.out, Meant(w, h, f, clock, fuel).value.0;
      && (forall v :: r == Came(v) <==> out == Value(v))
      && (forall e: Ref :: r == Callers(e) <==> out == Fails(e) && Given(h, e))
      && (r.Blew? <==> out.Panics?)
      && (r.Mine? ==>
            out.Fails? && IsOwn(RunFlow(w, h, f, clock, fuel).value.h, out.e, r.stop)
            && RunFlow(w, h, f, clock, fuel).value.h[out.e.id].failure.op == r.op)
  {
    FlowIsMeant(w, h, h, f, clock, fuel);
  }

  /** And no mark is in its chain, of either package: none is found, however far a search goes. */
  lemma NoMarkEscapes(w: World, h: Heap, f: Flow, clock: nat, fuel: nat, root: bool, steps: nat)
    requires Fair(w, h) && fuel > 2 && RunFlow(w, h, f, clock, fuel).Done?
      && RunFlow(w, h, f, clock, fuel).value.out.Fails?
    ensures var ran := RunFlow(w, h, f, clock, fuel).value;
      !Seek(GraphOf(ran.h), MarksOf(ran.h, root), [ran.out.e], steps).Found?
  {
    FlowIsMeant(w, h, h, f, clock, fuel);
    var ran := RunFlow(w, h, f, clock, fuel).value;
    match Meant(w, h, f, clock, fuel).value.0
    case Callers(e) =>
      var more := ran.h[|h|..];
      assert ran.h == h + more;
      OldSearch(h, more, {}, MarksOf(ran.h, root), e, steps);
      FoundIsGoal(GraphOf(h), {}, [e], steps);
    case Mine(stop, _) => OwnHoldsNoMark(ran.h, ran.out.e, stop, root, steps);
  }

  // ---------------------------------------------------------------- when Approve asks for a review

  /** A review that a combinator asked for came out: a new *Error of its kind, around one that wraps nothing. */
  predicate AsksForReview(h: Heap, ran: Ran) {
    && ran.out.Fails? && ran.out.e.At? && |h| <= ran.out.e.id < |ran.h|
    && ran.h[ran.out.e.id].Lib? && ran.h[ran.out.e.id].failure.kind == Some(ErrReviewRequired)
    && ran.h[ran.out.e.id].err.At? && ran.h[ran.out.e.id].err.id < |ran.h|
    && ran.h[ran.h[ran.out.e.id].err.id] == Foreign([])
  }

  /** Exactly when Approve ends in a review and not in a value or in the error it was given: the gate declines
      the value, or what is read of the step's failure is an exhausted repair or a violation of an invariant, of
      the evidence or of the schema, or a review was asked for inside the step and is passed on. Any other error
      of the step's, and any of the gate's, comes out as it is. */
  lemma ApproveAsksIff(w: World, h: Heap, f: Flow, clock: nat, fuel: nat)
    requires Fair(w, h) && fuel > 2 && f.Approve? && w.over(clock).None? && w.over(clock + 1).None?
    requires RunFlow(w, h, f, clock, fuel).Done?
    ensures Meant(w, h, f.step, clock + 2, fuel).Done?
    ensures var ran := RunFlow(w, h, f, clock, fuel).value;
      var (r, c) := Meant(w, h, f.step, clock + 2, fuel).value;
      && (AsksForReview(h, ran) <==>
          match r
          case Blew => false
          case Came(v) => w.gate(f.gate, v, c).Declines?
          case Mine(ReviewAsked, _) => true
          case _ =>
            && Reads(w, h, r, fuel).Done?
            && Reads(w, h, r, fuel).value in
                 {KindRepairExhausted, KindInvariantViolation, KindEvidenceViolation, KindSchemaViolation})
      && (AsksForReview(h, ran) && !(r.Mine? && r.stop.ReviewAsked?) ==>
            ran.h[ran.out.e.id].failure.op == "flow.approve")
      && (r.Callers? && !AsksForReview(h, ran) ==> ran.out == Fails(r.e))
      && (r.Came? && w.gate(f.gate, r.v, c).CannotSay? ==> ran.out == Fails(w.gate(f.gate, r.v, c).e))
  {
    FlowIsMeant(w, h, h, f, clock, fuel);
    assert Meant(w, h, f, clock, fuel) == MeantApprove(w, h, f, clock + 1, fuel);
    assert clock + 1 + 1 == clock + 2;
    var r := Meant(w, h, f, clock, fuel).value.0;
    assert AsksForReview(h, RunFlow(w, h, f, clock, fuel).value) <==> r.Mine? && r.stop == ReviewAsked;
  }

  // ---------------------------------------------------------------- whose error it is

  /** A step or a gate of the caller's returned this error at some time. */
  ghost predicate SomeoneReturned(w: World, e: Ref) {
    || (exists id, t: nat :: w.step(id, t) == Fails(e))
    || (exists g, v, t: nat :: w.gate(g, v, t) == CannotSay(e))
  }

  lemma {:induction false} MeantIsReturned(w: World, h0: Heap, f: Flow, clock: nat, fuel: nat)
    ensures match Meant(w, h0, f, clock, fuel)
      case Done((Callers(e), _)) => SomeoneReturned(w, e)
      case _ => true
    decreases f, 2, 0
  {
    if f.Step? {
      assert w.step(f.id, clock) == w.step(f.id, clock);
    } else if w.over(clock).None? {
      match f
      case Until(step, pred, attempts) =>
        if 1 <= attempts <= MAX_ATTEMPTS { UntilIsReturned(w, h0, step, pred, attempts, clock + 1, fuel); }
      case Escalate(_, _, _) => EscalateIsReturned(w, h0, f, clock + 1, fuel);
      case Approve(step, gate) => MeantIsReturned(w, h0, step, clock + 2, fuel);
      case Gather(steps) => AllAreReturned(w, h0, steps, clock + 1, fuel);
    }
  }

  lemma {:induction false} EscalateIsReturned(w: World, h0: Heap, f: Flow, clock: nat, fuel: nat)
    requires f.Escalate?
    ensures match MeantEscalate(w, h0, f, clock, fuel)
      case Done((Callers(e), _)) => SomeoneReturned(w, e)
      case _ => true
    decreases f, 1
  {
    MeantIsReturned(w, h0, f.first, clock + 1, fuel);
    if w.over(clock).None? && Meant(w, h0, f.first, clock + 1, fuel).Done? {
      SecondIsReturned(w, h0, Meant(w, h0, f.first, clock + 1, fuel).value.0,
        Meant(w, h0, f.first, clock + 1, fuel).value.1, f, fuel);
    }
  }

  lemma {:induction false} SecondIsReturned(w: World, h0: Heap, r: Result, c: nat, f: Flow, fuel: nat)
    requires f.Escalate? && (r.Callers? ==> SomeoneReturned(w, r.e))
    ensures match MeantSecond(w, h0, r, c, f, fuel)
      case Done((Callers(e), _)) => SomeoneReturned(w, e)
      case _ => true
    decreases f, 0
  {
    StrongerIsReturned(w, h0, f.stronger, c, fuel);
    StrongerIsReturned(w, h0, f.stronger, c + 1, fuel);
  }

  lemma {:induction false} StrongerIsReturned(w: World, h0: Heap, stronger: Flow, clock: nat, fuel: nat)
    ensures match MeantStronger(w, h0, stronger, clock, fuel)
      case Done((Callers(e), _)) => SomeoneReturned(w, e)
      case _ => true
    decreases stronger, 3
  {
    MeantIsReturned(w, h0, stronger, clock + 1, fuel);
  }

  lemma {:induction false} UntilIsReturned(w: World, h0: Heap, step: Flow, pred: nat, left: nat, clock: nat, fuel: nat)
    requires left > 0
    ensures match MeantUntil(w, h0, step, pred, left, clock, fuel)
      case Done((Callers(e), _)) => SomeoneReturned(w, e)
      case _ => true
    decreases step, 3, left, 1
  {
    MeantIsReturned(w, h0, step, clock + 1, fuel);
    if w.over(clock).None? && Meant(w, h0, step, clock + 1, fuel).Done? {
      NextIsReturned(w, h0, Meant(w, h0, step, clock + 1, fuel).value.0, Meant(w, h0, step, clock + 1, fuel).value.1,
        step, pred, left, fuel);
    }
  }

  lemma {:induction false} NextIsReturned(w: World, h0: Heap, r: Result, c: nat, step: Flow, pred: nat, left: nat,
      fuel: nat)
    requires left > 0 && (r.Callers? ==> SomeoneReturned(w, r.e))
    ensures match MeantNext(w, h0, r, c, step, pred, left, fuel)
      case Done((Callers(e), _)) => SomeoneReturned(w, e)
      case _ => true
    decreases step, 3, left, 0
  {
    if left > 1 {
      UntilIsReturned(w, h0, step, pred, left - 1, c, fuel);
      UntilIsReturned(w, h0, step, pred, left - 1, c + 1, fuel);
    }
  }

  lemma {:induction false} AllAreReturned(w: World, h0: Heap, steps: seq<Flow>, clock: nat, fuel: nat)
    ensures MeantAll(w, h0, steps, clock, fuel).Done? ==>
      forall r | r in MeantAll(w, h0, steps, clock, fuel).value.0 :: r.Callers? ==> SomeoneReturned(w, r.e)
    decreases steps, 0
  {
    if steps != [] {
      MeantIsReturned(w, h0, steps[0], clock, fuel);
      if Meant(w, h0, steps[0], clock, fuel).Done? {
        AllAreReturned(w, h0, steps[1..], Meant(w, h0, steps[0], clock, fuel).value.1, fuel);
      }
    }
  }

  /** An error that comes out of a program and was there before it ran is one that a step or a gate of the
      program's returned. */
  lemma ComesFromAStep(w: World, h: Heap, f: Flow, clock: nat, fuel: nat)
    requires Fair(w, h) && fuel > 2 && RunFlow(w, h, f, clock, fuel).Done?
      && RunFlow(w, h, f, clock, fuel).value.out.Fails?
    ensures var e := RunFlow(w, h, f, clock, fuel).value.out.e;
      Given(h, e) ==> SomeoneReturned(w, e)
  {
    CallersErrorComesOut(w, h, f, clock, fuel);
    MeantIsReturned(w, h, f, clock, fuel);
  }
}
