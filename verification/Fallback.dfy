/** Fallback, and the trick by which a selector that knows two kinds follows the caller's list of them: each
    route's failure is relabelled before the selector sees it and given back after (v2/mw/fallback.go;
    v2/internal/runtime/mw/fallback.go:226-338). */
module Fallback {
  import opened Common
  import opened Kinds

  /** A failure: a route's own, the context's error, or a failure under a label that says whether to go on
      to the next route. */
  datatype Failure = Own(id: nat) | Over | Labeled(goOn: bool, cause: Failure)

  datatype Outcome = Answer(text: nat, provider: string, model: string) | Failed(failure: Failure)

  /** A request: its model, and whether it carries a schema and asks for JSON. */
  datatype Request = Request(model: string, wantsSchema: bool)

  /** A provider: one of the program's own, or a Fallback around others. An empty `on` is the default
      list. `native` is what the primary is declared to deliver, and `degrade` is AllowSchemaDegradation. */
  datatype Provider =
    | Leaf(id: nat, name: string)
    | Around(on: set<Kind>, primary: Provider, native: bool, degrade: bool, alternates: seq<Route>)

  datatype Route = Route(provider: Provider, native: bool, model: string)

  /** What is not the Fallback's to decide, at each moment: what a provider answers, whether the context is
      over, what the data policy allows, the model a provider sends, the kind the converter gives a failure,
      and the kind and mark the call path reads. */
  datatype World = World(
    answer: (nat, Request, nat) -> Outcome,
    over: nat -> bool,
    allows: (string, string) -> bool,
    sent: (Provider, string) -> string,
    kindOf: Failure -> Kind,
    callKind: Failure -> (InternalKind, Narrowing))

  function Name(p: Provider): string {
    match p
    case Leaf(_, name) => name
    case Around(_, primary, _, _, _) => Name(primary)
  }

  function Routed(req: Request, route: Route): Request {
    if route.model != "" then req.(model := route.model) else req
  }

  /** A route that may be asked: it delivers what the primary does, and the policy allows it. */
  predicate MayBeAsked(w: World, p: Provider, route: Route, req: Request)
    requires p.Around?
  {
    && (req.wantsSchema && p.native && !route.native ==> p.degrade)
    && w.allows(Name(route.provider), w.sent(route.provider, Routed(req, route).model))
  }

  /** An answer of an alternate that does not say who answered. */
  function Spoken(w: World, route: Route, req: Request, o: Outcome): Outcome
    requires o.Answer?
  {
    Answer(o.text, Or(o.provider, Name(route.provider)), Or(o.model, w.sent(route.provider, Routed(req, route).model)))
  }

  /** The kinds that go on to the next route when the caller lists none. */
  predicate GoesOnByDefault(kind: InternalKind, narrow: Narrowing) {
    || kind == KindUnsupportedCapability
    || (kind != KindAdmissionRejected && !(kind == KindInvariantViolation && narrow == NarrowPanic) && !Terminal(kind))
  }

  // ---------------------------------------------------------------- as it is written

  /** kindGate: the failure of a route, under one of the two kinds the selector tells apart. */
  function Gated(w: World, on: set<Kind>, o: Outcome): Outcome {
    if on == {} || o.Answer? then o else Failed(Labeled(w.kindOf(o.failure) in on, o.failure))
  }

  /** peeling: the failure a gate labelled, given back. */
  function Peeled(on: set<Kind>, o: Outcome): Outcome {
    if on != {} && o.Failed? && o.failure.Labeled? then Failed(o.failure.cause) else o
  }

  /** The selector's own question. With a list, it asks whether the kind is the unavailable provider's,
      which is the kind of the label that says go on. */
  predicate Triggers(w: World, on: set<Kind>, f: Failure) {
    if on == {} then GoesOnByDefault(w.callKind(f).0, w.callKind(f).1)
    else match f
      case Labeled(goOn, _) => goOn
      case _ => w.callKind(f).0 == KindProviderUnavailable
  }

  /** What a provider answers from a moment on, and the moment after. */
  function Complete(w: World, p: Provider, req: Request, clock: nat): (Outcome, nat)
    decreases p
  {
    match p
    case Leaf(id, _) => (w.answer(id, req, clock), clock + 1)
    case Around(on, primary, _, _, _) =>
      var (first, next) := Complete(w, primary, req, clock);
      var (out, end) := Select(w, p, 0, req, Gated(w, on, first), next);
      (Peeled(on, out), end)
  }

  /** The loop over the alternates from the i-th on, after the last outcome. */
  function Select(w: World, p: Provider, i: nat, req: Request, last: Outcome, clock: nat): (Outcome, nat)
    requires p.Around? && i <= |p.alternates|
    decreases p, |p.alternates| - i
  {
    if last.Answer? || i == |p.alternates| || !Triggers(w, p.on, last.failure) then (last, clock)
    else if w.over(clock) then (Failed(Over), clock + 1)
    else
      var route := p.alternates[i];
      if !MayBeAsked(w, p, route, req) then Select(w, p, i + 1, req, last, clock + 1)
      else
        var (tried, next) := Complete(w, route.provider, Routed(req, route), clock + 1);
        var o := Gated(w, p.on, tried);
        if o.Answer? then (Spoken(w, route, req, o), next) else Select(w, p, i + 1, req, o, next)
  }

  // ---------------------------------------------------------------- as it is meant

  predicate GoesOn(w: World, on: set<Kind>, f: Failure) {
    if on == {} then GoesOnByDefault(w.callKind(f).0, w.callKind(f).1) else w.kindOf(f) in on
  }

  /** The routes in order, each while the failure so far is of a kind in the list, with no labels. */
  function Meant(w: World, p: Provider, req: Request, clock: nat): (Outcome, nat)
    decreases p
  {
    match p
    case Leaf(id, _) => (w.answer(id, req, clock), clock + 1)
    case Around(_, primary, _, _, _) =>
      var (first, next) := Meant(w, primary, req, clock);
      MeantFrom(w, p, 0, req, first, next)
  }

  function MeantFrom(w: World, p: Provider, i: nat, req: Request, last: Outcome, clock: nat): (Outcome, nat)
    requires p.Around? && i <= |p.alternates|
    decreases p, |p.alternates| - i
  {
    if last.Answer? || i == |p.alternates| || !GoesOn(w, p.on, last.failure) then (last, clock)
    else if w.over(clock) then (Failed(Over), clock + 1)
    else
      var route := p.alternates[i];
      if !MayBeAsked(w, p, route, req) then MeantFrom(w, p, i + 1, req, last, clock + 1)
      else
        var (o, next) := Meant(w, route.provider, Routed(req, route), clock + 1);
        if o.Answer? then (Spoken(w, route, req, o), next) else MeantFrom(w, p, i + 1, req, o, next)
  }

  // ---------------------------------------------------------------- the trick works

  predicate Unlabeled(o: Outcome) { o.Failed? ==> !o.failure.Labeled? }

  /** No provider of the program's makes a label: only a gate does. */
  ghost predicate Clean(w: World) {
    forall id: nat, req: Request, clock: nat :: Unlabeled(w.answer(id, req, clock))
  }

  lemma {:induction false} NoLabelIsMeant(w: World, p: Provider, req: Request, clock: nat)
    requires Clean(w)
    ensures Unlabeled(Meant(w, p, req, clock).0)
    decreases p
  {
    if p.Around? {
      NoLabelIsMeant(w, p.primary, req, clock);
      var (first, next) := Meant(w, p.primary, req, clock);
      NoLabelIsMeantFrom(w, p, 0, req, first, next);
    }
  }

  lemma {:induction false} NoLabelIsMeantFrom(w: World, p: Provider, i: nat, req: Request, last: Outcome, clock: nat)
    requires Clean(w) && p.Around? && i <= |p.alternates| && Unlabeled(last)
    ensures Unlabeled(MeantFrom(w, p, i, req, last, clock).0)
    decreases p, |p.alternates| - i
  {
    if last.Failed? && i < |p.alternates| && GoesOn(w, p.on, last.failure) && !w.over(clock) {
      var route := p.alternates[i];
      if MayBeAsked(w, p, route, req) {
        NoLabelIsMeant(w, route.provider, Routed(req, route), clock + 1);
        var (o, next) := Meant(w, route.provider, Routed(req, route), clock + 1);
        if o.Failed? { NoLabelIsMeantFrom(w, p, i + 1, req, o, next); }
      } else {
        NoLabelIsMeantFrom(w, p, i + 1, req, last, clock + 1);
      }
    }
  }

  /** For any providers and any nesting of Fallbacks, with lists or without: the failure that comes out, the
      answer, and every call that was made are what the list says, as if there were no labels. */
  lemma {:induction false} SelectorFollowsTheList(w: World, p: Provider, req: Request, clock: nat)
    requires Clean(w)
    ensures Complete(w, p, req, clock) == Meant(w, p, req, clock)
    decreases p
  {
    if p.Around? {
      SelectorFollowsTheList(w, p.primary, req, clock);
      NoLabelIsMeant(w, p.primary, req, clock);
      var (first, next) := Meant(w, p.primary, req, clock);
      SelectionIsMeant(w, p, 0, req, first, next);
    }
  }

  lemma {:induction false} SelectionIsMeant(w: World, p: Provider, i: nat, req: Request, last: Outcome, clock: nat)
    requires Clean(w) && p.Around? && i <= |p.alternates| && Unlabeled(last)
    ensures var (out, end) := Select(w, p, i, req, Gated(w, p.on, last), clock);
      (Peeled(p.on, out), end) == MeantFrom(w, p, i, req, last, clock)
    decreases p, |p.alternates| - i
  {
    if last.Failed? && i < |p.alternates| && GoesOn(w, p.on, last.failure) && !w.over(clock) {
      var route := p.alternates[i];
      if MayBeAsked(w, p, route, req) {
        SelectorFollowsTheList(w, route.provider, Routed(req, route), clock + 1);
        NoLabelIsMeant(w, route.provider, Routed(req, route), clock + 1);
        var (o, next) := Meant(w, route.provider, Routed(req, route), clock + 1);
        if o.Failed? { SelectionIsMeant(w, p, i + 1, req, o, next); }
      } else {
        SelectionIsMeant(w, p, i + 1, req, last, clock + 1);
      }
    }
  }

  /** No label is visible outside, at any depth. */
  lemma NoLabelEscapes(w: World, p: Provider, req: Request, clock: nat)
    requires Clean(w)
    ensures Unlabeled(Complete(w, p, req, clock).0)
  {
    SelectorFollowsTheList(w, p, req, clock);
    NoLabelIsMeant(w, p, req, clock);
  }

  // ---------------------------------------------------------------- which routes are tried

  /** An alternate that was asked: its place, the request it was sent, and what it answered. */
  datatype Try = Try(place: nat, asked: Request, outcome: Outcome)

  /** The alternates that are asked from the i-th on, in order. */
  function Trail(w: World, p: Provider, i: nat, req: Request, last: Outcome, clock: nat): seq<Try>
    requires p.Around? && i <= |p.alternates|
    decreases |p.alternates| - i
  {
    if last.Answer? || i == |p.alternates| || !GoesOn(w, p.on, last.failure) || w.over(clock) then []
    else
      var route := p.alternates[i];
      if !MayBeAsked(w, p, route, req) then Trail(w, p, i + 1, req, last, clock + 1)
      else
        var (o, next) := Meant(w, route.provider, Routed(req, route), clock + 1);
        [Try(i, Routed(req, route), o)] + Trail(w, p, i + 1, req, o, next)
  }

  /** The failure a try follows: the one of the try before it, or of the primary. */
  function Before(trail: seq<Try>, k: nat, first: Outcome): Outcome
    requires k <= |trail|
  {
    if k == 0 then first else trail[k - 1].outcome
  }

  /** Tries of alternates from one place on, each at a later place than the one before it. */
  predicate InOrder(trail: seq<Try>, from: nat, n: nat) {
    trail != [] ==> from <= trail[0].place < n && InOrder(trail[1..], trail[0].place + 1, n)
  }

  lemma {:induction false} InOrderFromEarlier(trail: seq<Try>, from: nat, earlier: nat, n: nat)
    requires InOrder(trail, from, n) && earlier <= from
    ensures InOrder(trail, earlier, n)
  {
  }

  /** The routes are asked in their order, each once. */
  lemma {:induction false} TrailIsInOrder(w: World, p: Provider, i: nat, req: Request, last: Outcome, clock: nat)
    requires p.Around? && i <= |p.alternates|
    ensures InOrder(Trail(w, p, i, req, last, clock), i, |p.alternates|)
    decreases |p.alternates| - i
  {
    if last.Failed? && i < |p.alternates| && GoesOn(w, p.on, last.failure) && !w.over(clock) {
      var route := p.alternates[i];
      if MayBeAsked(w, p, route, req) {
        var (o, next) := Meant(w, route.provider, Routed(req, route), clock + 1);
        TrailIsInOrder(w, p, i + 1, req, o, next);
        assert Trail(w, p, i, req, last, clock)[1..] == Trail(w, p, i + 1, req, o, next);
      } else {
        TrailIsInOrder(w, p, i + 1, req, last, clock + 1);
        InOrderFromEarlier(Trail(w, p, i + 1, req, last, clock + 1), i + 1, i, |p.alternates|);
      }
    }
  }

  /** A try that was due. The route was sent the caller's request under its own model, or under the caller's where it
      has none, and answered that; the policy allows its provider the model that is sent for it; a route that cannot
      enforce a schema the primary enforces was asked for one only where that is allowed; and the failure before it
      is of a kind that goes on. */
  ghost predicate Due(w: World, p: Provider, req: Request, t: Try, before: Outcome)
    requires p.Around?
  {
    && t.place < |p.alternates|
    && var route := p.alternates[t.place];
       && t.asked == Request(if route.model != "" then route.model else req.model, req.wantsSchema)
       && (exists clock: nat :: t.outcome == Meant(w, route.provider, t.asked, clock).0)
       && w.allows(Name(route.provider), w.sent(route.provider, t.asked.model))
       && (req.wantsSchema && p.native && !route.native ==> p.degrade)
       && before.Failed?
       && if p.on == {} then GoesOnByDefault(w.callKind(before.failure).0, w.callKind(before.failure).1)
          else w.kindOf(before.failure) in p.on
  }

  /** Nothing is asked that may not be, and nothing after an answer or after a failure that stops. */
  lemma {:induction false} EveryTryIsDue(w: World, p: Provider, i: nat, req: Request, last: Outcome, clock: nat, k: nat)
    requires p.Around? && i <= |p.alternates| && k < |Trail(w, p, i, req, last, clock)|
    ensures var trail := Trail(w, p, i, req, last, clock); Due(w, p, req, trail[k], Before(trail, k, last))
    decreases |p.alternates| - i
  {
    var route := p.alternates[i];
    if MayBeAsked(w, p, route, req) {
      var (o, next) := Meant(w, route.provider, Routed(req, route), clock + 1);
      if k > 0 { EveryTryIsDue(w, p, i + 1, req, o, next, k - 1); }
    } else {
      EveryTryIsDue(w, p, i + 1, req, last, clock + 1, k);
    }
  }

  /** The primary is asked first and for the request itself, and its answer comes out as it is, with no route tried. */
  lemma PrimaryIsFirst(w: World, p: Provider, req: Request, clock: nat)
    requires Clean(w) && p.Around?
    ensures var (first, next) := Complete(w, p.primary, req, clock);
      && Complete(w, p, req, clock) == MeantFrom(w, p, 0, req, first, next)
      && (first.Answer? ==> Complete(w, p, req, clock) == (first, next) && Trail(w, p, 0, req, first, next) == [])
  {
    SelectorFollowsTheList(w, p, req, clock);
    SelectorFollowsTheList(w, p.primary, req, clock);
  }

  /** The answer a list of tries ends in: the primary's own, or the one of the alternate tried last, which names that
      alternate's provider and the model sent where the answer itself does not say who gave it. */
  function AnswerOfLast(w: World, p: Provider, trail: seq<Try>, first: Outcome): Outcome
    requires p.Around? && InOrder(trail, 0, |p.alternates|) && Before(trail, |trail|, first).Answer?
  {
    if trail == [] then first
    else
      LastIsInOrder(trail, 0, |p.alternates|);
      AnswerOf(w, p, trail[|trail| - 1])
  }

  function AnswerOf(w: World, p: Provider, t: Try): Outcome
    requires p.Around? && t.place < |p.alternates| && t.outcome.Answer?
  {
    var provider, o := p.alternates[t.place].provider, t.outcome;
    Answer(o.text, if o.provider != "" then o.provider else Name(provider),
      if o.model != "" then o.model else w.sent(provider, t.asked.model))
  }

  lemma {:induction false} LastIsInOrder(trail: seq<Try>, from: nat, n: nat)
    requires InOrder(trail, from, n) && trail != []
    ensures from <= trail[|trail| - 1].place < n
  {
    if |trail| > 1 { LastIsInOrder(trail[1..], trail[0].place + 1, n); }
  }

  lemma EndsAsTheRest(w: World, p: Provider, t: Try, rest: seq<Try>, first: Outcome)
    requires p.Around? && InOrder([t] + rest, 0, |p.alternates|) && InOrder(rest, 0, |p.alternates|)
    ensures Before([t] + rest, |rest| + 1, first) == Before(rest, |rest|, t.outcome)
    ensures Before(rest, |rest|, t.outcome).Answer? ==>
      AnswerOfLast(w, p, [t] + rest, first)
        == if rest == [] then AnswerOf(w, p, t) else AnswerOfLast(w, p, rest, t.outcome)
  {
    if rest != [] { assert ([t] + rest)[|rest|] == rest[|rest| - 1]; }
  }

  /** What comes out is the answer of the route tried last, or its failure, or the context's error. */
  lemma {:induction false} LastTriedComesOut(w: World, p: Provider, i: nat, req: Request, last: Outcome, clock: nat)
    requires p.Around? && i <= |p.alternates|
    ensures var trail := Trail(w, p, i, req, last, clock);
      var end := Before(trail, |trail|, last);
      var out := MeantFrom(w, p, i, req, last, clock).0;
      && InOrder(trail, 0, |p.alternates|)
      && if end.Answer? then out == AnswerOfLast(w, p, trail, last) else
        out == end || (out == Failed(Over) && exists t: nat :: w.over(t))
    decreases |p.alternates| - i
  {
    if last.Failed? && i < |p.alternates| && GoesOn(w, p.on, last.failure) && !w.over(clock) {
      var route := p.alternates[i];
      if MayBeAsked(w, p, route, req) {
        var (o, next) := Meant(w, route.provider, Routed(req, route), clock + 1);
        LastTriedComesOut(w, p, i + 1, req, o, next);
        TrailIsInOrder(w, p, i, req, last, clock);
        InOrderFromEarlier(Trail(w, p, i, req, last, clock), i, 0, |p.alternates|);
        var rest := Trail(w, p, i + 1, req, o, next);
        EndsAsTheRest(w, p, Try(i, Routed(req, route), o), rest, last);
      } else {
        LastTriedComesOut(w, p, i + 1, req, last, clock + 1);
      }
    }
  }

  /** A failure that goes on is the last word only when no route that may be asked is left, or the context
      is over: no route is passed over that should have been tried. */
  lemma {:induction false} NoneIsPassedOver(w: World, p: Provider, i: nat, req: Request, last: Outcome, clock: nat)
    requires p.Around? && i <= |p.alternates| && (forall t: nat :: !w.over(t))
    ensures var trail := Trail(w, p, i, req, last, clock);
      var end := Before(trail, |trail|, last);
      var from := if trail == [] then i else trail[|trail| - 1].place + 1;
      end.Failed? && (if p.on == {} then GoesOnByDefault(w.callKind(end.failure).0, w.callKind(end.failure).1)
                      else w.kindOf(end.failure) in p.on) ==>
        forall k | from <= k < |p.alternates| ::
          var route := p.alternates[k];
          var model := if route.model != "" then route.model else req.model;
          || !w.allows(Name(route.provider), w.sent(route.provider, model))
          || (req.wantsSchema && p.native && !route.native && !p.degrade)
    decreases |p.alternates| - i
  {
    if last.Failed? && i < |p.alternates| && GoesOn(w, p.on, last.failure) {
      var route := p.alternates[i];
      if MayBeAsked(w, p, route, req) {
        var (o, next) := Meant(w, route.provider, Routed(req, route), clock + 1);
        NoneIsPassedOver(w, p, i + 1, req, o, next);
        var rest := Trail(w, p, i + 1, req, o, next);
        assert Before([Try(i, Routed(req, route), o)] + rest, |rest| + 1, last) == Before(rest, |rest|, o);
      } else {
        NoneIsPassedOver(w, p, i + 1, req, last, clock + 1);
      }
    }
  }

  // ---------------------------------------------------------------- the default list

  /** The default as it is documented: these kinds go on to the next route, as a failure that no layer
      classified does, and every other stops (v2/mw/fallback.go:60-81). */
  predicate DocumentedToGoOn(kind: Option<Kind>) {
    kind.None? || kind.value in {ErrUnsupported, ErrRateLimited, ErrUnavailable, ErrTimeout, ErrTooLarge,
      ErrTruncated, ErrInvalidAnswer}
  }

  // ---------------------------------------------------------------- the options

  datatype Options = Options(on: seq<Kind>, degrade: bool, native: bool)

  /** mergeFallbackOptions: the kinds are joined, each once, an earlier one kept before a later; what the
      primary delivers is joined; and only the first value may loosen the guard. */
  method MergeOptions(opts: seq<Options>) returns (merged: Options, problem: bool)
    ensures forall kind :: kind in merged.on <==> exists i :: 0 <= i < |opts| && kind in opts[i].on
    ensures forall i, j | 0 <= i < j < |merged.on| :: merged.on[i] != merged.on[j]
    ensures merged.degrade == (opts != [] && opts[0].degrade)
    ensures merged.native <==> exists i :: 0 <= i < |opts| && opts[i].native
    ensures problem <==> exists i :: 0 < i < |opts| && opts[i].degrade
  {
    merged, problem := Options([], false, false), false;
    for i := 0 to |opts|
      invariant forall kind :: kind in merged.on <==> exists k :: 0 <= k < i && kind in opts[k].on
      invariant forall k, l | 0 <= k < l < |merged.on| :: merged.on[k] != merged.on[l]
      invariant merged.degrade == (i > 0 && opts[0].degrade)
      invariant merged.native <==> exists k :: 0 <= k < i && opts[k].native
      invariant problem <==> exists k :: 0 < k < i && opts[k].degrade
    {
      var on := Joined(merged.on, opts[i].on);
      merged := Options(on, merged.degrade || (i == 0 && opts[0].degrade), merged.native || opts[i].native);
      problem := problem || (i > 0 && opts[i].degrade);
    }
  }

  method Joined(on: seq<Kind>, more: seq<Kind>) returns (all: seq<Kind>)
    requires forall i, j | 0 <= i < j < |on| :: on[i] != on[j]
    ensures on <= all
    ensures forall kind :: kind in all <==> kind in on || kind in more
    ensures forall i, j | 0 <= i < j < |all| :: all[i] != all[j]
  {
    all := on;
    for k := 0 to |more|
      invariant on <= all
      invariant forall kind :: kind in all <==> kind in on || kind in more[..k]
      invariant forall i, j | 0 <= i < j < |all| :: all[i] != all[j]
    {
      if more[k] !in all {
        all := all + [more[k]];
      }
    }
  }
}
