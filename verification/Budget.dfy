/** The budget of a chain: what it reserves before a request is sent, what it settles when the request
    is over, and the bound it keeps with any number of callers at once (v2/mw/budget.go;
    v2/internal/runtime/mw/budget.go). Amounts that can be added up are reals. */
module Budget {
  import opened Common

  datatype Amount = NaN | Infinite(negative: bool) | Num(value: real)

  /** validCost: an amount a ledger can take. */
  predicate Valid(a: Amount) { a.Num? && a.value >= 0.0 }

  /** What the cost function says of a call: nothing it can price, which a panic in it counts as, or a
      figure. */
  datatype Price = NoPrice | Priced(total: Amount)

  /** How a request that was sent ended. */
  datatype Outcome = Errored | Panicked | Answered(reportsUsage: bool, cached: bool, price: Price)

  datatype Reason = UnusableLimit | CannotEstimate | PastLimit

  /** What becomes of a request before it is sent. */
  datatype Verdict = Refused(reason: Reason) | Uncounted | Reserved(estimate: real)

  datatype Config = Config(limit: Amount, allowUnpriced: bool)

  // ---------------------------------------------------------------- the estimate

  /** The tokens a request is estimated at: four bytes to a token of the prompt, and the answer at the
      ceiling the request names. */
  function EstimatedTokens(bytes: nat, maxTokens: int): (t: (nat, nat))
    ensures 4 * t.0 - 4 < bytes <= 4 * t.0
    ensures t.1 == if maxTokens > 0 then maxTokens else 500
  {
    ((bytes + 3) / 4, if maxTokens <= 0 then 500 else maxTokens)
  }

  function Estimate(price: Price): (e: (real, bool))
    ensures e.0 >= 0.0 && (e.1 <==> price.Priced? && Valid(price.total))
  {
    if price.Priced? && Valid(price.total) then (price.total.value, true) else (0.0, false)
  }

  predicate Unlimited(limit: Amount) { limit == Num(0.0) }

  predicate Unusable(limit: Amount) { !Unlimited(limit) && !(limit.Num? && limit.value > 0.0) }

  /** What a request that ended is charged. */
  function Charged(allowUnpriced: bool, estimate: real, outcome: Outcome): real {
    match outcome
    case Errored => 0.0
    case Panicked => 0.0
    case Answered(reportsUsage, cached, price) =>
      if (reportsUsage || cached) && Estimate(price).1 then Estimate(price).0
      else if allowUnpriced then 0.0
      else estimate
  }

  // ---------------------------------------------------------------- the ledger

  /** settle: the reservation is replaced by the cost, and a ledger below zero is set to zero. */
  function Settled(spent: real, estimate: real, measured: real, known: bool): real {
    var left := spent - estimate;
    var sum := if known then left + measured else left;
    if sum < 0.0 then 0.0 else sum
  }

  /** What the code leaves in the ledger when a request ends. */
  function Ended(config: Config, spent: real, estimate: real, outcome: Outcome): real {
    match outcome
    case Answered(reportsUsage, cached, price) =>
      if (reportsUsage || cached) && Estimate(price).1 then Settled(spent, estimate, Estimate(price).0, true)
      else if config.allowUnpriced then Settled(spent, estimate, 0.0, true)
      else spent
    case _ => Settled(spent, estimate, 0.0, false)
  }

  /** What the check says of a request, with this much in the ledger. */
  function VerdictOf(config: Config, spent: real, price: Price): Verdict {
    var (estimate, priced) := Estimate(price);
    if Unusable(config.limit) then Refused(UnusableLimit)
    else if Unlimited(config.limit) then Uncounted
    else if !priced && !config.allowUnpriced then Refused(CannotEstimate)
    else if spent + estimate > config.limit.value then Refused(PastLimit)
    else Reserved(estimate)
  }

  /** The budgets under which the caller's cost function is asked what a request will cost, and those it is
      documented to be asked under, which have a limit. */
  predicate Asks(limit: Amount) { !Unusable(limit) }

  predicate DocumentedToAsk(limit: Amount) { limit.Num? && limit.value > 0.0 }

  /** It is asked as it is documented to be exactly when the limit is not zero: with no limit it is asked too,
      and what it says decides nothing. */
  lemma AsksAsDocumentedIff(limit: Amount, allowUnpriced: bool, spent: real, price: Price)
    ensures (Asks(limit) == DocumentedToAsk(limit)) <==> !Unlimited(limit)
    ensures Asks(Num(0.0)) && VerdictOf(Config(Num(0.0), allowUnpriced), spent, price) == Uncounted
  {
  }

  class Ledger {
    const config: Config
    var spent: real
    /** How often the caller's cost function was asked for an estimate. */
    var asked: nat

    constructor (config: Config)
      ensures this.config == config && spent == 0.0 && asked == 0
    {
      this.config, spent, asked := config, 0.0, 0;
    }

    /** Complete up to the request: the check and the reservation, in one critical section. The price is what
        the cost function says when it is asked, which it is exactly when the limit is usable, none at all
        being one. */
    method Admit(price: Price) returns (v: Verdict)
      modifies this`spent, this`asked
      ensures v == VerdictOf(config, old(spent), price)
      ensures spent == old(spent) + if v.Reserved? then v.estimate else 0.0
      ensures v.Reserved? ==> spent <= config.limit.value
      ensures asked == old(asked) + if Asks(config.limit) then 1 else 0
    {
      if Unusable(config.limit) {
        return Refused(UnusableLimit);
      }
      asked := asked + 1;
      var (estimate, priced) := Estimate(price);
      if Unlimited(config.limit) {
        return Uncounted;
      }
      if !priced && !config.allowUnpriced {
        return Refused(CannotEstimate);
      }
      if spent + estimate > config.limit.value {
        return Refused(PastLimit);
      }
      spent := spent + estimate;
      return Reserved(estimate);
    }

    /** Complete from the answer on. A request that failed gives its reservation back; an answer that can be
        measured, and has a price that is an amount, costs that; and any other counts as nothing when the options
        say so, and at its reservation when they do not. */
    method Finish(estimate: real, outcome: Outcome)
      modifies this`spent
      ensures spent == Ended(config, old(spent), estimate, outcome)
      ensures 0.0 <= estimate <= old(spent) ==>
        match outcome
        case Errored => spent == old(spent) - estimate
        case Panicked => spent == old(spent) - estimate
        case Answered(reportsUsage, cached, price) =>
          if (reportsUsage || cached) && price.Priced? && price.total.Num? && price.total.value >= 0.0
            then spent == old(spent) - estimate + price.total.value
          else if config.allowUnpriced then spent == old(spent) - estimate
          else spent == old(spent)
    {
      match outcome {
        case Errored => Settle(estimate, 0.0, false);
        case Panicked => Settle(estimate, 0.0, false);
        case Answered(reportsUsage, cached, price) =>
          var (measured, ok) := if reportsUsage || cached then Estimate(price) else (0.0, false);
          if ok {
            Settle(estimate, measured, true);
          } else if config.allowUnpriced {
            Settle(estimate, 0.0, true);
          }
      }
    }

    method Settle(estimate: real, measured: real, known: bool)
      modifies this`spent
      ensures spent == Settled(old(spent), estimate, measured, known)
    {
      spent := spent - estimate;
      if known {
        spent := spent + measured;
      }
      if spent < 0.0 {
        spent := 0.0;
      }
    }
  }

  // ---------------------------------------------------------------- every interleaving

  /** A request that was in flight when the latest one was admitted: its reservation, and what it was
      charged, once it is over. */
  datatype Request = Request(estimate: real, charge: Option<real>)

  /** The ledger among callers. Spent is the amount the code keeps. The rest is what it stands for: what
      the requests cost that were over before the latest admission, and those that were in flight then. */
  datatype State = State(spent: real, before: real, group: seq<Request>)

  /** A caller's request is admitted or refused, or the k-th of the requests in flight at the latest
      admission ends. */
  datatype Step = Ask(price: Price) | End(k: nat, outcome: Outcome)

  predicate Enabled(s: State, step: Step) {
    step.End? ==> step.k < |s.group| && s.group[step.k].charge.None?
  }

  /** The requests that are still in flight. */
  function InFlight(group: seq<Request>): seq<Request> {
    if group == [] then []
    else InFlight(group[..|group| - 1]) + if group[|group| - 1].charge.None? then [group[|group| - 1]] else []
  }

  /** What the requests that are over were charged. */
  function Paid(group: seq<Request>): real {
    if group == [] then 0.0
    else Paid(group[..|group| - 1]) + if group[|group| - 1].charge.None? then 0.0 else group[|group| - 1].charge.value
  }

  /** What the requests in flight have reserved. */
  function Held(group: seq<Request>): real {
    if group == [] then 0.0
    else Held(group[..|group| - 1]) + if group[|group| - 1].charge.None? then group[|group| - 1].estimate else 0.0
  }

  /** What requests cost beyond their estimates. */
  function Excess(group: seq<Request>): real {
    if group == [] then 0.0
    else Excess(group[..|group| - 1]) + Beyond(group[|group| - 1])
  }

  function Beyond(r: Request): real {
    if r.charge.Some? && r.charge.value > r.estimate then r.charge.value - r.estimate else 0.0
  }

  function Next(config: Config, s: State, step: Step): State
    requires config.limit.Num? && Enabled(s, step)
  {
    match step
    case Ask(price) =>
      var verdict := VerdictOf(config, s.spent, price);
      if !verdict.Reserved? then s
      else State(s.spent + verdict.estimate, s.before + Paid(s.group),
        InFlight(s.group) + [Request(verdict.estimate, None)])
    case End(k, outcome) =>
      var estimate := s.group[k].estimate;
      var charge := Charged(config.allowUnpriced, estimate, outcome);
      State(Ended(config, s.spent, estimate, outcome), s.before, s.group[k := Request(estimate, Some(charge))])
  }

  /** A ledger nothing has been reserved in. */
  predicate Empty(s: State) { s.spent == 0.0 && s.before == 0.0 && s.group == [] }

  /** Where a trace leads; nowhere when a step could not be. */
  function Run(config: Config, s: State, trace: seq<Step>): Option<State>
    requires config.limit.Num?
    decreases |trace|
  {
    if trace == [] then Some(s)
    else if Enabled(s, trace[0]) then Run(config, Next(config, s, trace[0]), trace[1..])
    else None
  }

  /** What the requests that are over have cost. */
  function Spend(s: State): real { s.before + Paid(s.group) }

  // The sums.

  predicate Proper(group: seq<Request>) {
    forall k | 0 <= k < |group| :: group[k].estimate >= 0.0 && (group[k].charge.Some? ==> group[k].charge.value >= 0.0)
  }

  lemma {:induction false} SumsOfGroup(group: seq<Request>)
    requires Proper(group)
    ensures Paid(group) >= 0.0 && Held(group) >= 0.0 && Excess(group) >= 0.0
  {
    if group != [] { SumsOfGroup(group[..|group| - 1]); }
  }

  lemma {:induction false} SumsOfInFlight(group: seq<Request>)
    requires Proper(group)
    ensures var open := InFlight(group);
      Proper(open) && Paid(open) == 0.0 && Held(open) == Held(group) && Excess(open) == 0.0
  {
    if group != [] {
      var front, last := group[..|group| - 1], group[|group| - 1];
      SumsOfInFlight(front);
      if last.charge.None? { SumsOfOneMore(InFlight(front), last); } else { assert InFlight(group) == InFlight(front); }
    }
  }

  lemma SumsOfOneMore(group: seq<Request>, r: Request)
    requires r.charge.None?
    ensures var more := group + [r];
      Paid(more) == Paid(group) && Held(more) == Held(group) + r.estimate && Excess(more) == Excess(group)
  {
    assert (group + [r])[..|group|] == group;
  }

  lemma {:induction false} SumsOfEnded(group: seq<Request>, k: nat, charge: real)
    requires k < |group| && group[k].charge.None?
    ensures var estimate := group[k].estimate;
      var ended := group[k := Request(estimate, Some(charge))];
      && Paid(ended) == Paid(group) + charge && Held(ended) == Held(group) - estimate
      && Excess(ended) == Excess(group) + Beyond(Request(estimate, Some(charge)))
  {
    var last := |group| - 1;
    var ended := group[k := Request(group[k].estimate, Some(charge))];
    if k < last {
      SumsOfEnded(group[..last], k, charge);
      assert ended[..last] == group[..last][k := ended[k]];
    } else {
      assert ended[..last] == group[..last];
    }
  }

  lemma {:induction false} OneIsHeld(group: seq<Request>, k: nat)
    requires Proper(group) && k < |group| && group[k].charge.None?
    ensures group[k].estimate <= Held(group)
  {
    var last := |group| - 1;
    if k < last { OneIsHeld(group[..last], k); } else { SumsOfGroup(group[..last]); }
  }

  // The invariant.

  /** What the ledger keeps at every step: it is the cost of the requests that are over and the
      reservations of those in flight, and past the limit only by what some of the requests in flight at
      the latest admission cost beyond their estimates. */
  predicate Kept(config: Config, s: State)
    requires config.limit.Num?
  {
    && Proper(s.group) && s.before >= 0.0
    && s.spent == Spend(s) + Held(s.group)
    && s.spent <= config.limit.value + Excess(s.group)
  }

  lemma ChargesAreAmounts(allowUnpriced: bool, estimate: real, outcome: Outcome)
    requires estimate >= 0.0
    ensures Charged(allowUnpriced, estimate, outcome) >= 0.0
  {
  }

  lemma AskKeeps(config: Config, s: State, price: Price)
    requires config.limit.Num? && config.limit.value > 0.0 && Kept(config, s)
    ensures Kept(config, Next(config, s, Ask(price)))
  {
    SumsOfGroup(s.group);
    GroupAfterAsk(s.group, Estimate(price).0);
  }

  lemma GroupAfterAsk(group: seq<Request>, estimate: real)
    requires Proper(group) && estimate >= 0.0
    ensures var next := InFlight(group) + [Request(estimate, None)];
      Proper(next) && Paid(next) == 0.0 && Held(next) == Held(group) + estimate && Excess(next) == 0.0
  {
    SumsOfInFlight(group);
    SumsOfOneMore(InFlight(group), Request(estimate, None));
  }

  /** The ledger never reaches below zero, so the clamp of settle never acts. */
  lemma EndIsExact(config: Config, s: State, k: nat, outcome: Outcome)
    requires config.limit.Num? && Kept(config, s) && Enabled(s, End(k, outcome))
    ensures var estimate := s.group[k].estimate;
      Next(config, s, End(k, outcome)).spent == s.spent - estimate + Charged(config.allowUnpriced, estimate, outcome)
  {
    SumsOfGroup(s.group);
    OneIsHeld(s.group, k);
    ChargesAreAmounts(config.allowUnpriced, s.group[k].estimate, outcome);
  }

  lemma EndKeeps(config: Config, s: State, k: nat, outcome: Outcome)
    requires config.limit.Num? && Kept(config, s) && Enabled(s, End(k, outcome))
    ensures Kept(config, Next(config, s, End(k, outcome)))
  {
    var charge := Charged(config.allowUnpriced, s.group[k].estimate, outcome);
    ChargesAreAmounts(config.allowUnpriced, s.group[k].estimate, outcome);
    EndIsExact(config, s, k, outcome);
    SumsOfEnded(s.group, k, charge);
  }

  lemma StepKeeps(config: Config, s: State, step: Step)
    requires config.limit.Num? && config.limit.value > 0.0 && Kept(config, s) && Enabled(s, step)
    ensures Kept(config, Next(config, s, step))
  {
    match step
    case Ask(price) => AskKeeps(config, s, price);
    case End(k, outcome) => EndKeeps(config, s, k, outcome);
  }

  lemma {:induction false} RunKeeps(config: Config, s: State, trace: seq<Step>)
    requires config.limit.Num? && config.limit.value > 0.0 && Kept(config, s) && Run(config, s, trace).Some?
    ensures Kept(config, Run(config, s, trace).value)
    decreases |trace|
  {
    if trace != [] {
      StepKeeps(config, s, trace[0]);
      RunKeeps(config, Next(config, s, trace[0]), trace[1..]);
    }
  }

  /** Over every interleaving the ledger is the cost of the requests that are over and the reservations
      of those in flight. */
  lemma EveryTraceKeeps(config: Config, start: State, trace: seq<Step>)
    requires config.limit.Num? && config.limit.value > 0.0 && Empty(start) && Run(config, start, trace).Some?
    ensures Kept(config, Run(config, start, trace).value)
  {
    assert Kept(config, start);
    RunKeeps(config, start, trace);
  }

  // ---------------------------------------------------------------- the bound

  /** The bound on the spend: it passes the limit by no more than what requests cost beyond their
      estimates, over the requests in flight together at the latest admission. */
  lemma SpendBound(config: Config, start: State, trace: seq<Step>)
    requires config.limit.Num? && config.limit.value > 0.0 && Empty(start) && Run(config, start, trace).Some?
    ensures var s := Run(config, start, trace).value; Spend(s) <= config.limit.value + Excess(s.group)
  {
    EveryTraceKeeps(config, start, trace);
    SumsOfGroup(Run(config, start, trace).value.group);
  }

  /** An answer costs what its request was estimated at, or less. */
  predicate Fair(config: Config, s: State, step: Step)
    requires Enabled(s, step)
  {
    step.End? ==> Charged(config.allowUnpriced, s.group[step.k].estimate, step.outcome) <= s.group[step.k].estimate
  }

  predicate AllFair(config: Config, s: State, trace: seq<Step>)
    requires config.limit.Num? && Run(config, s, trace).Some?
    decreases |trace|
  {
    trace != [] ==> Fair(config, s, trace[0]) && AllFair(config, Next(config, s, trace[0]), trace[1..])
  }

  lemma FairAddsNoExcess(config: Config, s: State, step: Step)
    requires config.limit.Num? && Proper(s.group) && Excess(s.group) == 0.0
    requires Enabled(s, step) && Fair(config, s, step)
    ensures Excess(Next(config, s, step).group) == 0.0
  {
    match step
    case Ask(price) => GroupAfterAsk(s.group, Estimate(price).0);
    case End(k, outcome) =>
      SumsOfEnded(s.group, k, Charged(config.allowUnpriced, s.group[k].estimate, outcome));
  }

  lemma {:induction false} FairHasNoExcess(config: Config, s: State, trace: seq<Step>)
    requires config.limit.Num? && config.limit.value > 0.0 && Kept(config, s) && Excess(s.group) == 0.0
    requires Run(config, s, trace).Some? && AllFair(config, s, trace)
    ensures Excess(Run(config, s, trace).value.group) == 0.0
    decreases |trace|
  {
    if trace != [] {
      StepKeeps(config, s, trace[0]);
      FairAddsNoExcess(config, s, trace[0]);
      FairHasNoExcess(config, Next(config, s, trace[0]), trace[1..]);
    }
  }

  /** Estimates that are exact, or too high, never take the spend past the limit, whatever the
      interleaving. */
  lemma FairNeverPasses(config: Config, start: State, trace: seq<Step>)
    requires config.limit.Num? && config.limit.value > 0.0 && Empty(start)
    requires Run(config, start, trace).Some? && AllFair(config, start, trace)
    ensures Spend(Run(config, start, trace).value) <= config.limit.value
  {
    SpendBound(config, start, trace);
    FairHasNoExcess(config, start, trace);
  }

  // ---------------------------------------------------------------- the bound is reached

  /** So many callers at once, each with a request of this estimate. */
  function Crowd(callers: nat, estimate: real): seq<Step> {
    if callers == 0 then [] else [Ask(Priced(Num(estimate)))] + Crowd(callers - 1, estimate)
  }

  /** The requests from one on are answered, at this cost. */
  function Answers(from: nat, n: nat, cost: real): seq<Step>
    requires from <= n
    decreases n - from
  {
    if from == n then [] else [End(from, Answered(true, false, Priced(Num(cost))))] + Answers(from + 1, n, cost)
  }

  /** So many requests, of which the first are over. */
  predicate Alike(group: seq<Request>, n: nat, estimate: real, cost: real, over: nat) {
    && over <= n == |group|
    && forall k | 0 <= k < n :: group[k] == Request(estimate, if k < over then Some(cost) else None)
  }

  /** The sum of so many equal amounts. */
  function Times(n: nat, x: real): real {
    if n == 0 then 0.0 else Times(n - 1, x) + x
  }

  lemma {:induction false} TimesIsProduct(n: nat, x: real)
    ensures Times(n, x) == n as real * x
  {
    if n > 0 { TimesIsProduct(n - 1, x); }
  }

  lemma {:induction false} TimesGrows(n: nat, m: nat, x: real)
    requires n <= m && x >= 0.0
    ensures Times(n, x) <= Times(m, x)
  {
    if n < m { TimesGrows(n, m - 1, x); }
  }

  lemma {:induction false} AlikeSums(group: seq<Request>, n: nat, estimate: real, cost: real, over: nat)
    requires Alike(group, n, estimate, cost, over)
    ensures Paid(group) == Times(over, cost)
    ensures over == 0 ==> InFlight(group) == group
  {
    if n > 0 {
      AlikeSums(group[..n - 1], n - 1, estimate, cost, Min(over, n - 1));
    }
  }

  /** So many of the crowd were admitted so far, and none has been answered. */
  predicate Crowded(config: Config, s: State, n: nat, estimate: real)
    requires config.limit.Num?
  {
    s.before == 0.0 && s.spent == Times(n, estimate) <= config.limit.value && Alike(s.group, n, estimate, 0.0, 0)
  }

  /** One more of the crowd asks. */
  lemma OneAsks(config: Config, s: State, n: nat, estimate: real)
    requires config.limit.Num? && config.limit.value > 0.0 && estimate > 0.0 && Crowded(config, s, n, estimate)
    ensures var next := Next(config, s, Ask(Priced(Num(estimate))));
      if Times(n, estimate) + estimate > config.limit.value then next == s else Crowded(config, next, n + 1, estimate)
  {
    AlikeSums(s.group, n, estimate, 0.0, 0);
    assert Times(n + 1, estimate) == Times(n, estimate) + estimate;
  }

  lemma {:induction false} CrowdIsAdmitted(config: Config, s: State, n: nat, callers: nat, estimate: real)
      returns (admitted: nat, end: State)
    requires config.limit.Num? && config.limit.value > 0.0 && estimate > 0.0 && Crowded(config, s, n, estimate)
    ensures Run(config, s, Crowd(callers, estimate)) == Some(end)
    ensures n <= admitted <= n + callers && Crowded(config, end, admitted, estimate)
    ensures admitted < n + callers ==> Times(admitted, estimate) + estimate > config.limit.value
    decreases callers
  {
    if callers == 0 {
      admitted, end := n, s;
    } else {
      OneAsks(config, s, n, estimate);
      var next := Next(config, s, Ask(Priced(Num(estimate))));
      assert Crowd(callers, estimate)[1..] == Crowd(callers - 1, estimate);
      assert Run(config, s, Crowd(callers, estimate)) == Run(config, next, Crowd(callers - 1, estimate));
      if Times(n, estimate) + estimate > config.limit.value {
        admitted, end := CrowdIsAdmitted(config, s, n, callers - 1, estimate);
        if admitted > n { TimesGrows(n + 1, admitted, estimate); }
      } else {
        admitted, end := CrowdIsAdmitted(config, next, n + 1, callers - 1, estimate);
      }
    }
  }

  lemma {:induction false} AnswersAreCharged(config: Config, s: State, estimate: real, cost: real, from: nat, n: nat)
      returns (end: State)
    requires config.limit.Num? && cost >= 0.0 && from <= n && Alike(s.group, n, estimate, cost, from)
    ensures Run(config, s, Answers(from, n, cost)) == Some(end)
    ensures end.before == s.before && Alike(end.group, n, estimate, cost, n)
    decreases n - from
  {
    end := s;
    if from < n {
      var trace := Answers(from, n, cost);
      assert trace[1..] == Answers(from + 1, n, cost);
      end := AnswersAreCharged(config, Next(config, s, trace[0]), estimate, cost, from + 1, n);
    }
  }

  lemma {:induction false} RunOfConcat(config: Config, s: State, a: seq<Step>, b: seq<Step>)
    requires config.limit.Num? && Run(config, s, a).Some?
    ensures Run(config, s, a + b) == Run(config, Run(config, s, a).value, b)
    decreases |a|
  {
    if a == [] {
      assert a + b == b;
    } else {
      assert (a + b)[1..] == a[1..] + b;
      RunOfConcat(config, Next(config, s, a[0]), a[1..], b);
    }
  }

  lemma CrowdIsCharged(config: Config, start: State, callers: nat, estimate: real, cost: real)
      returns (n: nat, end: State)
    requires config.limit.Num? && config.limit.value > 0.0 && Empty(start) && estimate > 0.0 && cost >= 0.0
    ensures n <= callers && Times(n, estimate) <= config.limit.value
    ensures n < callers ==> Times(n, estimate) + estimate > config.limit.value
    ensures Run(config, start, Crowd(callers, estimate) + Answers(0, n, cost)) == Some(end)
    ensures Spend(end) == Times(n, cost)
  {
    var s;
    n, s := CrowdIsAdmitted(config, start, 0, callers, estimate);
    assert Alike(s.group, n, estimate, cost, 0);
    end := AnswersAreCharged(config, s, estimate, cost, 0, n);
    RunOfConcat(config, start, Crowd(callers, estimate), Answers(0, n, cost));
    AlikeSums(end.group, n, estimate, cost, n);
  }

  /** The bound is reached: of any crowd of callers that is too large for the limit, as many are admitted
      as the limit holds reservations, and the spend is what they all cost. */
  lemma BoundIsReached(config: Config, start: State, callers: nat, estimate: real, cost: real)
      returns (n: nat, end: State)
    requires config.limit.Num? && config.limit.value > 0.0 && Empty(start) && estimate > 0.0 && cost >= 0.0
    requires callers as real * estimate > config.limit.value
    ensures n < callers && n as real * estimate <= config.limit.value < n as real * estimate + estimate
    ensures Run(config, start, Crowd(callers, estimate) + Answers(0, n, cost)) == Some(end)
    ensures Spend(end) == n as real * cost
  {
    n, end := CrowdIsCharged(config, start, callers, estimate, cost);
    TimesIsProduct(n, estimate);
    TimesIsProduct(n, cost);
  }

  // ---------------------------------------------------------------- the options

  datatype Options = Options(cost: Option<nat>, allowUnpriced: bool)

  /** mergeBudgetOptions: the last cost function wins, and only the first value may loosen the budget. */
  method MergeOptions(opts: seq<Options>) returns (merged: Options, problem: bool)
    ensures merged.allowUnpriced == (opts != [] && opts[0].allowUnpriced)
    ensures problem <==> exists i :: 0 < i < |opts| && opts[i].allowUnpriced
    ensures merged.cost.None? <==> forall i | 0 <= i < |opts| :: opts[i].cost.None?
    ensures merged.cost.Some? ==>
      exists i :: 0 <= i < |opts| && merged.cost == opts[i].cost && forall j | i < j < |opts| :: opts[j].cost.None?
  {
    merged, problem := Options(None, false), false;
    ghost var last := 0;
    for i := 0 to |opts|
      invariant merged.allowUnpriced == (i > 0 && opts[0].allowUnpriced)
      invariant problem <==> exists k :: 0 < k < i && opts[k].allowUnpriced
      invariant merged.cost.None? <==> forall k | 0 <= k < i :: opts[k].cost.None?
      invariant merged.cost.Some? ==>
        0 <= last < i && merged.cost == opts[last].cost && forall j | last < j < i :: opts[j].cost.None?
    {
      if opts[i].cost.Some? {
        last := i;
        merged := merged.(cost := opts[i].cost);
      }
      if opts[i].allowUnpriced {
        if i == 0 {
          merged := merged.(allowUnpriced := true);
        } else {
          problem := true;
        }
      }
    }
  }
}
