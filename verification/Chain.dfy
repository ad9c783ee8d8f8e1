/** Chains of middleware: how they are put together and taken apart, and what is found under them
    (v2/mw/mw.go:26-42, 181-195, 252-282; v2/provider_convert.go:139-179; Optional,
    v2/internal/bind/hooks.go:280-312). */
module Chain {
  import opened Common
  import Records

  // ---------------------------------------------------------------- the two sets of types

  datatype Usage = Usage(input: Records.Int64, output: Records.Int64, total: Records.Int64, cached: Records.Int64,
    cacheWrite: Records.Int64, reasoning: Records.Int64)

  datatype TokenUsage = TokenUsage(prompt: Records.Int64, completion: Records.Int64, total: Records.Int64,
                                   cached: Records.Int64, cacheWrite: Records.Int64,
                                   reasoning: Records.Int64, input: Records.Int64, output: Records.Int64)

  function UsageIn(u: Usage): TokenUsage {
    TokenUsage(u.input, u.output, if u.total == 0 then Records.SumInt(u.input, u.output) else u.total,
               u.cached, u.cacheWrite, u.reasoning, 0, 0)
  }

  function UsageOut(u: TokenUsage): Usage {
    Usage(if u.prompt == 0 then u.input else u.prompt, if u.completion == 0 then u.output else u.completion,
          u.total, u.cached, u.cacheWrite, u.reasoning)
  }

  /** A count through a join and back is the count it was, with the total that was not given filled in as the sum of
      what went in and what came out, held at the ends of the machine's integers; and to fill it in is to fill it in
      once. */
  lemma UsageComesBack(u: Usage)
    ensures UsageOut(UsageIn(u)) == u.(total :=
      if u.total != 0 then u.total
      else if u.input + u.output > Records.MAX_INT then Records.MAX_INT
      else if u.input + u.output < Records.MIN_INT then Records.MIN_INT
      else u.input + u.output)
    ensures UsageIn(UsageOut(UsageIn(u))) == UsageIn(u)
  {
  }

  /** What a provider counted under either spelling is read: the prompt and the completion where they are given, and
      else the input and the output. */
  lemma EitherSpellingIsRead(t: TokenUsage)
    ensures UsageOut(t).input == if t.prompt != 0 then t.prompt else t.input
    ensures UsageOut(t).output == if t.completion != 0 then t.completion else t.output
    ensures UsageOut(t).total == t.total && UsageOut(t).cached == t.cached
    ensures UsageOut(t).cacheWrite == t.cacheWrite && UsageOut(t).reasoning == t.reasoning
  {
  }

  // ---------------------------------------------------------------- providers

  /** A provider: one with nothing under it, a layer of the program's own, or a layer of the package, with
      the names of the layers it says. */
  datatype Provider =
    | Base(id: nat)
    | Own(id: nat, inner: Provider)
    | Wrapper(name: string, inner: Provider, layers: seq<string>)

  /** newWrapper. */
  function NewWrapper(name: string, inner: Provider): Provider {
    Wrapper(name, inner, [name] + if inner.Wrapper? then inner.layers else [])
  }

  datatype Middleware = Package(name: string) | Program(id: nat)

  function Apply(m: Middleware, next: Provider): Provider {
    match m
    case Package(name) => NewWrapper(name, next)
    case Program(id) => Own(id, next)
  }

  /** What Chain makes: the first of the list is the outermost, and a nil one is skipped. */
  function Chained(base: Provider, mws: seq<Option<Middleware>>): Provider {
    if mws == [] then base
    else
      var below := Chained(base, mws[1..]);
      if mws[0].None? then below else Apply(mws[0].value, below)
  }

  /** Chain, as it is written: from the last to the first. */
  method Chain(base: Provider, mws: seq<Option<Middleware>>) returns (wrapped: Provider)
    ensures wrapped == Chained(base, mws)
  {
    wrapped := base;
    var i := |mws|;
    while i > 0
      invariant 0 <= i <= |mws| && wrapped == Chained(base, mws[i..])
    {
      i := i - 1;
      assert mws[i..][1..] == mws[i + 1..];
      if mws[i].Some? {
        wrapped := Apply(mws[i].value, wrapped);
      }
    }
    assert mws[0..] == mws;
  }

  /** A chain of two lists is a chain of the first around a chain of the second. */
  lemma {:induction false} ChainOfConcat(base: Provider, xs: seq<Option<Middleware>>, ys: seq<Option<Middleware>>)
    ensures Chained(base, xs + ys) == Chained(Chained(base, ys), xs)
  {
    if xs == [] {
      assert xs + ys == ys;
    } else {
      assert (xs + ys)[1..] == xs[1..] + ys;
      ChainOfConcat(base, xs[1..], ys);
    }
  }

  /** A nil middleware is neutral wherever it stands. */
  lemma NilIsNeutral(base: Provider, xs: seq<Option<Middleware>>, ys: seq<Option<Middleware>>)
    ensures Chained(base, xs + [None] + ys) == Chained(base, xs + ys)
  {
    assert xs + [None] + ys == xs + ([None] + ys);
    ChainOfConcat(base, xs, [None] + ys);
    ChainOfConcat(base, xs, ys);
    assert ([None] + ys)[1..] == ys;
  }

  // ---------------------------------------------------------------- what is under a chain

  function Unwrap(p: Provider): Option<Provider> {
    if p.Base? then None else Some(p.inner)
  }

  function Unwrapped(p: Provider, n: nat): Option<Provider> {
    if n == 0 then Some(p) else if p.Base? then None else Unwrapped(p.inner, n - 1)
  }

  function Layers(mws: seq<Option<Middleware>>): nat {
    if mws == [] then 0 else Layers(mws[1..]) + if mws[0].Some? then 1 else 0
  }

  /** Unwrap, once for each layer, walks back to the base. */
  lemma {:induction false} UnwrapsToTheBase(base: Provider, mws: seq<Option<Middleware>>)
    ensures Unwrapped(Chained(base, mws), Layers(mws)) == Some(base)
  {
    if mws != [] { UnwrapsToTheBase(base, mws[1..]); }
  }

  /** The names of the layers of the package from a provider down, as far as they are next to each other. */
  function Adjacent(p: Provider): seq<string> {
    if p.Wrapper? then [p.name] + Adjacent(p.inner) else []
  }

  /** Every wrapper of a provider says the names it should. */
  predicate Named(p: Provider) {
    match p
    case Base(_) => true
    case Own(_, inner) => Named(inner)
    case Wrapper(_, inner, layers) => Named(inner) && layers == Adjacent(p)
  }

  /** A layer says the names of the layers of the package next to each other from it down, the outermost
      first. */
  lemma {:induction false} ChainsAreNamed(base: Provider, mws: seq<Option<Middleware>>)
    requires Named(base)
    ensures Named(Chained(base, mws))
    ensures Chained(base, mws).Wrapper? ==> Chained(base, mws).layers == Adjacent(Chained(base, mws))
  {
    if mws != [] { ChainsAreNamed(base, mws[1..]); }
  }

  const MAX_DEPTH: nat := 64

  /** The first of a provider and what it wraps that is what is looked for, as far as so many. */
  function FirstOf(p: Provider, wanted: Provider -> bool, depth: nat): Option<Provider> {
    if depth == 0 then None
    else if wanted(p) then Some(p)
    else if p.Base? then None
    else FirstOf(p.inner, wanted, depth - 1)
  }

  /** bind.Optional, as it is written. */
  method Optional(p: Provider, wanted: Provider -> bool) returns (found: Option<Provider>)
    ensures found == FirstOf(p, wanted, MAX_DEPTH)
  {
    var next := Some(p);
    for depth := 0 to MAX_DEPTH
      invariant FirstOf(p, wanted, MAX_DEPTH)
        == if next.Some? then FirstOf(next.value, wanted, MAX_DEPTH - depth) else None
    {
      if next.None? {
        break;
      }
      if wanted(next.value) {
        return next;
      }
      next := Unwrap(next.value);
    }
    return None;
  }

  /** What only the base can do is found through a chain exactly when the chain has fewer than 64 layers: a
      longer one hides the base. */
  lemma {:induction false} BaseIsFoundIff(base: Provider, mws: seq<Option<Middleware>>, wanted: Provider -> bool,
      depth: nat)
    requires base.Base? && wanted(base) && (forall p: Provider :: !p.Base? ==> !wanted(p))
    ensures FirstOf(Chained(base, mws), wanted, depth) == if Layers(mws) < depth then Some(base) else None
  {
    if mws != [] {
      BaseIsFoundIff(base, mws[1..], wanted, if depth > 0 && mws[0].Some? then depth - 1 else depth);
    }
  }

  // ---------------------------------------------------------------- retry settings

  /** A Retrier's retries as the call path counts them: zero is the library's default, which is "not
      configured", and a negative number is never. */
  function RetriesIn(retries: int): int { if retries == 0 then -1 else if retries < 0 then 0 else retries }

  /** The call path's retries as a Retrier counts them. */
  function RetriesOut(retries: int): int { if retries < 0 then 0 else if retries == 0 then -1 else retries }

  /** The two conventions say the same through any number of joins: never stays never, the default the
      default, and a count itself. */
  lemma RetriesComeBack(retries: int)
    ensures RetriesOut(RetriesIn(retries)) == if retries < 0 then -1 else retries
    ensures RetriesIn(RetriesOut(retries)) == if retries < 0 then -1 else retries
  {
  }
}
