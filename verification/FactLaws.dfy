/** What a caller is told of where and how a failure happened, field by field: each is that of the outermost error
    that gives it (factsOf, convertWith and completedError, v2/errors_convert.go:343-527; providerFailure,
    v2/provider_adapter.go:342-388). */
module FactLaws {
  import opened Common
  import opened Kinds
  import opened ChainWalk
  import opened ErrorGraph
  import opened Classifier
  import opened ErrorConvert
  import opened KindLaws

  // ---------------------------------------------------------------- what one error gives

  function ProviderIn(n: Node): string {
    match n
    case Lib(failure, _) => failure.provider
    case Operation(_, _, _, provider, _, _, _, _, _) => provider
    case Api(provider, _, _, _) => provider
    case _ => ""
  }

  function ModelIn(n: Node): string {
    match n
    case Lib(failure, _) => failure.model
    case Operation(_, _, _, _, model, _, _, _, _) => model
    case Api(_, model, _, _) => model
    case _ => ""
  }

  function RequestIDIn(n: Node): string {
    match n
    case Lib(failure, _) => failure.requestID
    case Operation(_, _, _, _, _, requestID, _, _, _) => requestID
    case _ => ""
  }

  function MessageIn(n: Node): string {
    match n
    case Lib(failure, _) => failure.message
    case Operation(_, _, _, _, _, _, _, message, _) => message
    case _ => ""
  }

  function StatusIn(n: Node): int {
    match n
    case Lib(failure, _) => failure.status
    case Api(_, _, status, _) => status
    case _ => 0
  }

  function RetryAfterIn(n: Node): int {
    match n
    case Lib(failure, _) => failure.retryAfter
    case Operation(_, _, _, _, _, _, retryAfter, _, _) => retryAfter
    case RateLimit(retryAfter, _) => retryAfter
    case _ => 0
  }

  /** A code is a short run of letters, digits and separators. */
  predicate IsCode(code: string, letter: char -> bool) {
    |code| <= 64 && forall i | 0 <= i < |code| :: letter(code[i]) || code[i] in "_-.:"
  }

  function CodeOf(n: Node, letter: char -> bool): string {
    match n
    case Lib(failure, _) => if IsCode(failure.code, letter) then failure.code else ""
    case Api(_, _, _, code) => if IsCode(code, letter) then code else ""
    case _ => ""
  }

  function CodeIn(letter: char -> bool): Node -> string { (n: Node) => CodeOf(n, letter) }

  /** What the first error of a walk that gives something gives. */
  function FirstText(h: Heap, v: seq<nat>, field: Node -> string): string {
    if v == [] then ""
    else if v[0] < |h| && field(h[v[0]]) != "" then field(h[v[0]]) else FirstText(h, v[1..], field)
  }

  function FirstInt(h: Heap, v: seq<nat>, field: Node -> int): int {
    if v == [] then 0
    else if v[0] < |h| && field(h[v[0]]) != 0 then field(h[v[0]]) else FirstInt(h, v[1..], field)
  }

  lemma {:induction false} GatheredAre(h: Heap, v: seq<nat>, letter: char -> bool)
    ensures FactsOver(h, v, letter)
      == Facts(FirstText(h, v, ProviderIn), FirstText(h, v, ModelIn), FirstText(h, v, RequestIDIn),
               FirstInt(h, v, StatusIn), FirstText(h, v, CodeIn(letter)), FirstInt(h, v, RetryAfterIn),
               FirstText(h, v, MessageIn))
  {
    if v != [] {
      GatheredAre(h, v[1..], letter);
      if v[0] < |h| { StatedGives(h[v[0]], letter); }
    }
  }

  lemma StatedGives(n: Node, letter: char -> bool)
    ensures Stated(n, letter)
      == Facts(ProviderIn(n), ModelIn(n), RequestIDIn(n), StatusIn(n), CodeIn(letter)(n), RetryAfterIn(n), MessageIn(n))
  {
  }

  // ---------------------------------------------------------------- the route and the message of a chain

  /** The route of the first error of a chain that was classified with one. */
  function RouteIn(h: Heap, e: Ref, fuel: nat): Option<Route> {
    match First(h, e, fuel, set i | 0 <= i < |h| && h[i].Classified? && h[i].route.Some?)
    case None => None
    case Some(id) => if id < |h| && h[id].Classified? then h[id].route else None
  }

  lemma RouteIs(h: Heap, e: Ref, fuel: nat)
    requires CallOf(h, e, fuel).Done?
    ensures CallOf(h, e, fuel).value == RouteIn(h, e, fuel)
  {
    FoundIsGoal(GraphOf(h), Routed(h), [e], fuel);
  }

  /** What is told of a chain, by the errors that are walked and, for what none of them gives, by its route. */
  predicate Places(h: Heap, e: Ref, letter: char -> bool, route: Option<Route>, f: Facts) {
    var v := Walk(GraphOf(h), e, 256);
    && f.provider == (if FirstText(h, v, ProviderIn) == "" && route.Some? then route.value.provider
                      else FirstText(h, v, ProviderIn))
    && f.model == (if FirstText(h, v, ModelIn) == "" && route.Some? then route.value.model
                   else FirstText(h, v, ModelIn))
    && f.requestID == (if FirstText(h, v, RequestIDIn) == "" && route.Some? then route.value.requestID
                       else FirstText(h, v, RequestIDIn))
    && f.retryAfter == (if FirstInt(h, v, RetryAfterIn) == 0 && route.Some? then route.value.retryAfter
                        else FirstInt(h, v, RetryAfterIn))
    && f.status == FirstInt(h, v, StatusIn) && f.code == FirstText(h, v, CodeIn(letter))
  }

  /** Its message: the first that an error gives, or the text of the carrier that decided, when that is a
      configuration or an invalid request the call path made and no route was noted; put in the words of version 2. */
  predicate Words(host: Host, h: Heap, e: Ref, route: Option<Route>, decided: Option<Verdict>, fuel: nat,
      message: string) {
    var said := FirstText(h, Walk(GraphOf(h), e, 256), MessageIn);
    var raw := if || said != "" || route.Some? || decided.None? || decided.value.source != FromCarrier
                  || !(decided.value.kind == ErrConfiguration || decided.value.kind == ErrInvalidRequest)
      then said else host.text(h, decided.value.node);
    if raw == "" then message == ""
    else
      && Is(h, e, 1, fuel).Done?
      && message == host.inVersion2Words(if Is(h, e, 1, fuel).value then host.noModelMessage(raw) else raw)
  }

  lemma FactsArePlaced(host: Host, h: Heap, e: Ref, decided: Option<Verdict>, fuel: nat)
    requires FactsOf(host, h, e, decided, fuel).Done?
    ensures CallOf(h, e, fuel).Done?
    ensures Places(h, e, host.letter, RouteIn(h, e, fuel), FactsOf(host, h, e, decided, fuel).value)
    ensures Words(host, h, e, RouteIn(h, e, fuel), decided, fuel, FactsOf(host, h, e, decided, fuel).value.message)
  {
    GatheredAre(h, Walk(GraphOf(h), e, MAX_CHAIN_NODES), host.letter);
    RouteIs(h, e, fuel);
  }

  // ---------------------------------------------------------------- what a conversion tells

  /** Of any error but an *Error with a kind, the new *Error tells what its chain gives. */
  lemma ErrorIsPlaced(host: Host, h: Heap, op: string, e: Ref, fuel: nat)
    requires e.At? && !(e.id < |h| && h[e.id].Lib? && h[e.id].failure.kind.Some?)
    requires ConvertError(host, h, op, e, fuel).Done?
    ensures ClassifiedBy(h, e, fuel).Done?
    ensures var (h2, r) := ConvertError(host, h, op, e, fuel).value;
      && r == At(|h|) && |h2| == |h| + 1 && h2[|h|].Lib? && h2[|h|].err == e && h2[|h|].failure.op == op
      && var told := h2[|h|].failure;
         && Places(h, e, host.letter, RouteIn(h, e, fuel),
              Facts(told.provider, told.model, told.requestID, told.status, told.code, told.retryAfter, told.message))
         && Words(host, h, e, RouteIn(h, e, fuel), ClassifiedBy(h, e, fuel).value, fuel, told.message)
  {
    DecidedIsClassified(host, h, e, fuel);
    FactsArePlaced(host, h, e, ClassifiedBy(h, e, fuel).value, fuel);
  }

  lemma DecidedIsClassified(host: Host, h: Heap, e: Ref, fuel: nat)
    requires DecidedKind(host, h, e, fuel).Done?
    ensures ClassifiedBy(h, e, fuel) == Done(DecidedKind(host, h, e, fuel).value.1)
  {
  }

  /** An *Error with a kind keeps what it says, and is told with what its cause gives where it says nothing: as itself
      when that is nothing, and else as a copy around it. */
  lemma ErrorIsCompleted(host: Host, h: Heap, op: string, id: nat, fuel: nat) returns (f: Facts)
    requires id < |h| && h[id].Lib? && h[id].failure.kind.Some? && ConvertError(host, h, op, At(id), fuel).Done?
    ensures Places(h, h[id].err, host.letter, RouteIn(h, h[id].err, fuel), f)
    ensures var (h2, r) := ConvertError(host, h, op, At(id), fuel).value;
      && r.At? && r.id < |h2| && h2[r.id].Lib? && (if r == At(id) then h2 == h else h2 == h + [h2[|h|]] && r == At(|h|))
      && var was, told := h[id].failure, h2[r.id].failure;
         && (r == At(id) <==> told == was) && told.kind == was.kind && told.message == was.message
         && told.op == (if was.op == "" then op else was.op)
         && told.provider == (if was.provider == "" then f.provider else was.provider)
         && told.model == (if was.model == "" then f.model else was.model)
         && told.requestID == (if was.requestID == "" then f.requestID else was.requestID)
         && told.status == (if was.status == 0 then f.status else was.status)
         && told.code == (if was.code == "" then f.code else was.code)
         && told.retryAfter == (if was.retryAfter == 0 then f.retryAfter else was.retryAfter)
  {
    f := FactsOf(host, h, h[id].err, None, fuel).value;
    FactsArePlaced(host, h, h[id].err, None, fuel);
  }

  // ---------------------------------------------------------------- what a relay carries

  /** The error a provider's failure that no internal error decided is relayed as: on the route its chain gives, or
      the one it is sent on, with its id and its wait; around the failure itself, beside a rate-limit error that
      carries the wait when there is one and the chain has no such error. */
  lemma RelayIsPlaced(host: Host, h: Heap, e: Ref, provider: string, model: string, fuel: nat)
      returns (f: Facts, o: nat)
    requires e.At? && ProviderFailure(host, h, e, provider, model, fuel).Done?
    requires var d := ClassifiedBy(h, e, fuel); d.Done? && (d.value.None? || d.value.value.source == FromLibrary)
    ensures Places(h, e, host.letter, RouteIn(h, e, fuel), f)
    ensures var (h2, r) := ProviderFailure(host, h, e, provider, model, fuel).value;
      && h <= h2 && |h| <= o < |h2| && r == At(o) && h2[o].Operation?
      && h2[o].provider == (if f.provider == "" then provider else f.provider)
      && h2[o].model == (if f.model == "" then model else f.model)
      && h2[o].requestID == f.requestID && h2[o].retryAfter == f.retryAfter && h2[o].op == "" && h2[o].message == ""
      && if f.retryAfter <= 0 || First(h, e, fuel, set i | 0 <= i < |h| && h[i].RateLimit?).Some?
         then h2[o].err == e
         else
           && o == |h| + 3 && h2[|h|] == Api(provider, model, f.status, "")
           && h2[|h| + 1] == RateLimit(f.retryAfter, At(|h|)) && h2[|h| + 2] == Foreign([e, At(|h| + 1)])
           && h2[o].err == At(|h| + 2)
  {
    f := FactsOf(host, h, e, None, fuel).value;
    FactsArePlaced(host, h, e, None, fuel);
    CauseIs(h, e, f, provider, model, fuel);
    o := |ProviderFailure(host, h, e, provider, model, fuel).value.0| - 1;
  }

  lemma CauseIs(h: Heap, e: Ref, f: Facts, provider: string, model: string, fuel: nat)
    requires CauseOf(h, e, f, provider, model, fuel).Done?
    ensures CauseOf(h, e, f, provider, model, fuel).value ==
      if f.retryAfter <= 0 || First(h, e, fuel, set i | 0 <= i < |h| && h[i].RateLimit?).Some? then (h, e)
      else (h + [Api(provider, model, f.status, ""), RateLimit(f.retryAfter, At(|h|)), Foreign([e, At(|h| + 1)])],
            At(|h| + 2))
  {
  }
}
