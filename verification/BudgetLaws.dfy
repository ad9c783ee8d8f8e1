/** What each request does to a budget, amount by amount, and what requests that fail leave in it
    (v2/mw/budget.go:42-63; v2/internal/runtime/mw/budget.go:207-275). */
module BudgetLaws {
  import opened Budget

  /** When a request is sent, and with what reserved: never under a limit that is no amount; always, and with nothing
      reserved, where there is no limit; and under any other exactly when it has a price that is an amount, or may be
      sent without one, and what is in the ledger and that price are within the limit. */
  lemma SentIff(config: Config, spent: real, price: Price)
    ensures var verdict := VerdictOf(config, spent, price);
      match config.limit
      case NaN => verdict == Refused(UnusableLimit)
      case Infinite(_) => verdict == Refused(UnusableLimit)
      case Num(limit) =>
        if limit < 0.0 then verdict == Refused(UnusableLimit)
        else if limit == 0.0 then verdict == Uncounted
        else
          match price
          case Priced(Num(estimate)) =>
            if estimate >= 0.0
            then verdict == if spent + estimate <= limit then Reserved(estimate) else Refused(PastLimit)
            else verdict == Unestimated(config, spent)
          case _ => verdict == Unestimated(config, spent)
  {
  }

  /** The verdict on a request that has no price that is an amount. */
  function Unestimated(config: Config, spent: real): Verdict
    requires config.limit.Num?
  {
    if !config.allowUnpriced then Refused(CannotEstimate)
    else if spent <= config.limit.value then Reserved(0.0)
    else Refused(PastLimit)
  }

  /** What the end of a request leaves, among any number of others: a failure takes its reservation out of the ledger
      and costs nothing; an answer that can be measured, and has a price that is an amount, costs that in place of
      its reservation; and any other answer costs what it was reserved at, or nothing when the options say so. */
  lemma EndCosts(config: Config, s: State, k: nat, outcome: Outcome)
    requires config.limit.Num? && Kept(config, s) && Enabled(s, End(k, outcome))
    ensures var next, estimate := Next(config, s, End(k, outcome)), s.group[k].estimate;
      match outcome
      case Errored => next.spent == s.spent - estimate && Spend(next) == Spend(s)
      case Panicked => next.spent == s.spent - estimate && Spend(next) == Spend(s)
      case Answered(reportsUsage, cached, price) =>
        if (reportsUsage || cached) && price.Priced? && price.total.Num? && price.total.value >= 0.0
          then next.spent == s.spent - estimate + price.total.value && Spend(next) == Spend(s) + price.total.value
        else if config.allowUnpriced then next.spent == s.spent - estimate && Spend(next) == Spend(s)
        else next.spent == s.spent && Spend(next) == Spend(s) + estimate
  {
    EndIsExact(config, s, k, outcome);
    SumsOfEnded(s.group, k, Charged(config.allowUnpriced, s.group[k].estimate, outcome));
  }

  // ---------------------------------------------------------------- requests that fail

  /** No request of the trace is answered. */
  predicate AllFail(trace: seq<Step>) {
    forall i | 0 <= i < |trace| :: trace[i].End? ==> trace[i].outcome.Errored? || trace[i].outcome.Panicked?
  }

  /** Nothing has been spent, and what is in the ledger is reserved by requests in flight. */
  predicate NothingSpent(s: State) {
    Spend(s) == 0.0 && s.spent == Held(s.group)
  }

  lemma {:induction false} FailuresCostNothing(config: Config, s: State, trace: seq<Step>)
    requires config.limit.Num? && config.limit.value > 0.0 && Kept(config, s) && NothingSpent(s)
    requires Run(config, s, trace).Some? && AllFail(trace)
    ensures NothingSpent(Run(config, s, trace).value)
    decreases |trace|
  {
    if trace != [] {
      StepKeeps(config, s, trace[0]);
      FailureCostsNothing(config, s, trace[0]);
      FailuresCostNothing(config, Next(config, s, trace[0]), trace[1..]);
    }
  }

  lemma FailureCostsNothing(config: Config, s: State, step: Step)
    requires config.limit.Num? && config.limit.value > 0.0 && Kept(config, s) && NothingSpent(s) && Enabled(s, step)
    requires step.End? ==> step.outcome.Errored? || step.outcome.Panicked?
    ensures NothingSpent(Next(config, s, step))
  {
    match step
    case Ask(price) => GroupAfterAsk(s.group, Estimate(price).0);
    case End(k, outcome) =>
      EndCosts(config, s, k, outcome);
      EndKeeps(config, s, k, outcome);
  }

  lemma {:induction false} NoneIsHeld(group: seq<Request>)
    requires forall k | 0 <= k < |group| :: group[k].charge.Some?
    ensures Held(group) == 0.0
  {
    if group != [] { NoneIsHeld(group[..|group| - 1]); }
  }

  /** Requests that all fail leave nothing behind, whatever their interleaving: once they are over the ledger is what
      it was before the first, and every later request is sent or refused as it would have been then. While some are
      in flight, the ledger holds their reservations and no more. */
  lemma FailuresLeaveNothing(config: Config, start: State, trace: seq<Step>, price: Price)
    requires config.limit.Num? && config.limit.value > 0.0 && Empty(start)
    requires Run(config, start, trace).Some? && AllFail(trace)
    ensures var s := Run(config, start, trace).value;
      && Spend(s) == 0.0 && s.spent == Held(s.group)
      && ((forall k | 0 <= k < |s.group| :: s.group[k].charge.Some?) ==>
            s.spent == 0.0 && VerdictOf(config, s.spent, price) == VerdictOf(config, 0.0, price))
  {
    FailuresCostNothing(config, start, trace);
    var s := Run(config, start, trace).value;
    if forall k | 0 <= k < |s.group| :: s.group[k].charge.Some? { NoneIsHeld(s.group); }
  }
}
