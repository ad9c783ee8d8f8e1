/** A scheduler that is made when it is first used and may be closed before it is, over every interleaving of
    its lock-delimited sections (gate, Close and Stats, v2/scheduler.go:69-151). */
module Scheduler {
  import opened Common

  /** The scheduler inside, which does the work. A closed one refuses every request, and closing it is done at
      once, whatever it then waits for. */
  class Inner {
    var closed: bool

    constructor ()
      ensures !closed
    {
      closed := false;
    }

    method Close()
      modifies this
      ensures closed
    {
      closed := true;
    }
  }

  /** What the lock guards: the scheduler inside, if it was made, and whether it is closed; whether Close has
      been called; and how many were made. */
  datatype State = State(inner: Option<bool>, closed: bool, made: nat)

  const UNUSED := State(None, false, 0)

  /** gate: the scheduler inside, made the first time, and closed at once when Close came first. */
  function Gated(s: State): State {
    if s.inner.Some? then s else State(Some(s.closed), s.closed, s.made + 1)
  }

  /** The first section of Close. */
  function Shut(s: State): State { s.(closed := true) }

  /** The close of the scheduler inside. */
  function InnerClosed(s: State): State { s.(inner := if s.inner.Some? then Some(true) else None) }

  class Scheduler {
    /** The bounds, when no scheduler could hold one of them: check. */
    const unusable: bool
    var inner: Inner?
    var closed: bool
    ghost var made: nat

    constructor (unusable: bool)
      ensures Abs() == UNUSED && this.unusable == unusable
    {
      this.unusable := unusable;
      inner, closed, made := null, false, 0;
    }

    ghost function Abs(): State
      reads this, inner
    {
      State(if inner == null then None else Some(inner.closed), closed, made)
    }

    method Gate() returns (s: Inner)
      modifies this
      ensures Abs() == Gated(old(Abs())) && inner == s
      ensures old(inner) != null ==> s == old(inner)
      ensures old(inner) == null ==> fresh(s) && s.closed == old(closed)
    {
      if inner == null {
        var created := new Inner();
        if closed {
          created.Close();
        }
        inner := created;
        made := made + 1;
      }
      s := inner;
    }

    /** Close by a caller no other runs beside. Refused is for a nil context and for bounds that no scheduler
        can hold, which close nothing. */
    method Close(noContext: bool) returns (refused: bool)
      modifies this, inner
      ensures refused <==> noContext || unusable
      ensures refused ==> Abs() == old(Abs())
      ensures !refused ==> Abs() == InnerClosed(Shut(old(Abs())))
      ensures inner == old(inner)
    {
      if noContext || unusable {
        return true;
      }
      closed := true;
      if inner == null {
        return false;
      }
      var s := Gate();
      s.Close();
      return false;
    }
  }

  // ---------------------------------------------------------------- every interleaving

  /** Where a call of Close is: past its first section, which found the scheduler unused or not; with the
      scheduler inside in its hands; past the close of that; and over. */
  datatype Closer = Marked(unused: bool) | Holding | Stopped | Over

  datatype Shared = Shared(state: State, closers: map<nat, Closer>)

  /** One section of one caller. Stats reads and changes nothing. */
  datatype Step = Gate | Stats | Mark(id: nat) | Take(id: nat) | Stop(id: nat) | Leave(id: nat)

  predicate Enabled(s: Shared, step: Step) {
    match step
    case Gate => true
    case Stats => true
    case Mark(id) => id !in s.closers
    case Take(id) => id in s.closers && s.closers[id] == Marked(false)
    case Stop(id) => id in s.closers && s.closers[id] == Holding
    case Leave(id) => id in s.closers && (s.closers[id] == Marked(true) || s.closers[id] == Stopped)
  }

  function Next(s: Shared, step: Step): Shared
    requires Enabled(s, step)
  {
    match step
    case Gate => s.(state := Gated(s.state))
    case Stats => s
    case Mark(id) => Shared(Shut(s.state), s.closers[id := Marked(s.state.inner.None?)])
    case Take(id) => Shared(Gated(s.state), s.closers[id := Holding])
    case Stop(id) => Shared(InnerClosed(s.state), s.closers[id := Stopped])
    case Leave(id) => s.(closers := s.closers[id := Over])
  }

  function Run(s: Shared, trace: seq<Step>): Option<Shared>
    decreases |trace|
  {
    if trace == [] then Some(s) else if Enabled(s, trace[0]) then Run(Next(s, trace[0]), trace[1..]) else None
  }

  /** No scheduler inside is open. */
  predicate NoneOpen(s: State) { s.closed && (s.inner.Some? ==> s.inner.value) }

  predicate Kept(s: Shared) {
    && s.state.made == (if s.state.inner.Some? then 1 else 0)
    && forall id | id in s.closers ::
         && s.state.closed
         && match s.closers[id]
            case Marked(unused) => if unused then NoneOpen(s.state) else s.state.inner.Some?
            case Holding => s.state.inner.Some?
            case Stopped => NoneOpen(s.state)
            case Over => NoneOpen(s.state)
  }

  lemma StepKeeps(s: Shared, step: Step)
    requires Kept(s) && Enabled(s, step)
    ensures Kept(Next(s, step))
    ensures NoneOpen(s.state) ==> NoneOpen(Next(s, step).state)
  {
  }

  lemma {:induction false} RunKeeps(s: Shared, trace: seq<Step>)
    requires Kept(s) && Run(s, trace).Some?
    ensures Kept(Run(s, trace).value)
    ensures NoneOpen(s.state) ==> NoneOpen(Run(s, trace).value.state)
    decreases |trace|
  {
    if trace != [] {
      StepKeeps(s, trace[0]);
      RunKeeps(Next(s, trace[0]), trace[1..]);
    }
  }

  /** Whatever the interleaving, one scheduler at most is ever made: the gates all return the same one. */
  lemma OneIsMade(s: Shared, trace: seq<Step>)
    requires s.state == UNUSED && s.closers == map[] && Run(s, trace).Some?
    ensures Run(s, trace).value.state.made <= 1
  {
    RunKeeps(s, trace);
  }

  /** Once a Close has returned, every scheduler a later gate hands out is closed, however the gate and other
      calls of Close run beside it: the one that was made, and the one that is made then. */
  lemma ClosedStaysClosed(s: Shared, trace: seq<Step>, later: seq<Step>, id: nat)
    requires s.state == UNUSED && s.closers == map[] && Run(s, trace).Some?
    requires id in Run(s, trace).value.closers && Run(s, trace).value.closers[id] == Over
    requires Run(Run(s, trace).value, later).Some?
    ensures Next(Run(Run(s, trace).value, later).value, Gate).state.inner == Some(true)
  {
    RunKeeps(s, trace);
    var mid := Run(s, trace).value;
    assert NoneOpen(mid.state);
    RunKeeps(mid, later);
  }

  /** And until a Close has begun, every scheduler a gate hands out is open, and is the one that is there. */
  lemma {:induction false} OpenUntilClosed(s: Shared, trace: seq<Step>)
    requires !s.state.closed && (s.state.inner.Some? ==> !s.state.inner.value) && s.closers == map[]
    requires Run(s, trace).Some?
    requires forall i | 0 <= i < |trace| :: !trace[i].Mark?
    ensures var end := Run(s, trace).value;
      && !end.state.closed && Next(end, Gate).state.inner == Some(false)
      && (s.state.inner.Some? ==> end.state.inner == Some(false))
    decreases |trace|
  {
    if trace != [] {
      assert forall i | 0 <= i < |trace| - 1 :: trace[1..][i] == trace[i + 1];
      OpenUntilClosed(Next(s, trace[0]), trace[1..]);
    }
  }

  /** Closing makes nothing: what is made is made by a gate of a call that uses the scheduler. */
  lemma {:induction false} ClosingMakesNothing(s: Shared, trace: seq<Step>)
    requires Kept(s) && s.state.inner.None? && Run(s, trace).Some?
    requires forall i | 0 <= i < |trace| :: !trace[i].Gate?
    ensures Run(s, trace).value.state.inner.None?
    decreases |trace|
  {
    if trace != [] {
      StepKeeps(s, trace[0]);
      assert forall i | 0 <= i < |trace| - 1 :: trace[1..][i] == trace[i + 1];
      ClosingMakesNothing(Next(s, trace[0]), trace[1..]);
    }
  }
}
