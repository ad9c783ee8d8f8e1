/** The envelope of a run of many requests: what it adds up, what it leaves out, and what it says of
    their cost (sumMetas, weakestLevels, qualityTally and agreed, v2/op/call.go:227-399; Timing.Add,
    v2/internal/types/timing.go; itemMetaFromChunk, v2/internal/ops/plan_many.go:412-435). Numbers do
    not wrap round here, and money is a real. */
module MetaSum {
  import opened Common

  datatype Amounts = Amounts(attempts: nat, repairs: nat, retries: nat, cacheHits: nat)

  /** The five fields that are added, and the ones that are not. */
  datatype Tokens = Tokens(prompt: nat, completion: nat, total: nat, cached: nat, reasoning: nat)
  datatype Usage = Usage(tokens: Tokens, input: nat, output: nat, cacheWrite: nat)

  datatype Phases = Phases(calls: nat, queued: nat, lookup: nat, connect: nat, handshake: nat,
                           send: nat, wait: nat, read: nat, network: nat)

  datatype Timing = Timing(phases: Phases, reused: bool)

  /** Unset is the empty string. */
  datatype Quality = Unset | Unknown | Estimated | Exact | Free

  datatype Spend = Spend(total: real, prompt: real, completion: real, cached: real, reasoning: real)

  datatype Cost = Cost(priced: bool, spend: Spend, currency: string, source: string, quality: Quality)

  /** Provider, Model, RequestedModel and SchemaID. */
  datatype Names = Names(provider: string, model: string, requestedModel: string, schemaId: string)

  /** One of the four names. */
  datatype Name = Provider | Model | RequestedModel | SchemaId

  function NameOf(n: Names, f: Name): string {
    match f
    case Provider => n.provider
    case Model => n.model
    case RequestedModel => n.requestedModel
    case SchemaId => n.schemaId
  }

  /** The envelope of one request, or of one item. `failedChecks` counts the checks that did not pass,
      and a tier of 0 is TierUnset. */
  datatype Meta = Meta(
    amounts: Amounts, usage: Usage, timing: Timing, hedged: bool, serviceTier: string, cost: Cost,
    failedChecks: nat, names: Names, tier: int, requested: int, delivered: int,
    drifted: bool, driftUnknown: bool)

  // ---------------------------------------------------------------- what is added over every item

  function AddAmounts(a: Amounts, b: Amounts): Amounts {
    Amounts(a.attempts + b.attempts, a.repairs + b.repairs, a.retries + b.retries, a.cacheHits + b.cacheHits)
  }

  function AddTokens(a: Tokens, b: Tokens): Tokens {
    Tokens(a.prompt + b.prompt, a.completion + b.completion, a.total + b.total, a.cached + b.cached,
      a.reasoning + b.reasoning)
  }

  function AddPhases(a: Phases, b: Phases): Phases {
    Phases(a.calls + b.calls, a.queued + b.queued, a.lookup + b.lookup, a.connect + b.connect,
      a.handshake + b.handshake,
           a.send + b.send, a.wait + b.wait, a.read + b.read, a.network + b.network)
  }

  predicate RanACall(t: Timing) { t.phases.calls > 0 || t.phases.network > 0 }

  /** Timing.Add. A timing of nothing but the wait for a slot has no vote on Reused. */
  function AddTiming(t: Timing, other: Timing): Timing {
    Timing(AddPhases(t.phases, other.phases),
           if RanACall(t) && !RanACall(other) then t.reused
           else if !RanACall(t) && RanACall(other) then other.reused
           else t.reused && other.reused)
  }

  function LastTier(a: string, b: string): string { if b != "" then b else a }

  const NO_PHASES := Phases(0, 0, 0, 0, 0, 0, 0, 0, 0)

  /** What the first loop of sumMetas holds. */
  datatype Added = Added(amounts: Amounts, tokens: Tokens, timing: Timing, hedged: bool, serviceTier: string)

  function AddMeta(a: Added, m: Meta): Added {
    Added(AddAmounts(a.amounts, m.amounts), AddTokens(a.tokens, m.usage.tokens), AddTiming(a.timing, m.timing),
          a.hedged || m.hedged, LastTier(a.serviceTier, m.serviceTier))
  }

  const NONE_ADDED := Added(Amounts(0, 0, 0, 0), Tokens(0, 0, 0, 0, 0), Timing(NO_PHASES, false), false, "")

  function AddFrom(a: Added, metas: seq<Meta>): Added
    decreases |metas|
  {
    if metas == [] then a else AddFrom(AddMeta(a, metas[0]), metas[1..])
  }

  function Sent(m: Meta): bool { m.amounts.attempts > 0 }

  /** The requests that were made. */
  function MadeOf(metas: seq<Meta>): seq<Meta> {
    if metas == [] then [] else (if Sent(metas[0]) then [metas[0]] else []) + MadeOf(metas[1..])
  }

  function FailedChecks(made: seq<Meta>): nat {
    if made == [] then 0 else made[0].failedChecks + FailedChecks(made[1..])
  }

  datatype Levels = Levels(requested: int, delivered: int)

  function LevelsOf(m: Meta): Levels { Levels(m.requested, m.delivered) }

  function Weaker(a: Levels, b: Levels): Levels {
    Levels(Min(a.requested, b.requested), Min(a.delivered, b.delivered))
  }

  /** The weakest level any item requested, and the weakest it was delivered at. */
  function WeakestOf(metas: seq<Meta>): Levels {
    if metas == [] then Levels(0, 0)
    else if |metas| == 1 then LevelsOf(metas[0])
    else Weaker(WeakestOf(metas[..|metas| - 1]), LevelsOf(metas[|metas| - 1]))
  }

  method WeakestLevels(metas: seq<Meta>) returns (l: Levels)
    ensures l == WeakestOf(metas)
  {
    l := Levels(0, 0);
    for i := 0 to |metas|
      invariant l == WeakestOf(metas[..i])
    {
      assert metas[..i + 1][..i] == metas[..i];
      if i == 0 {
        l := LevelsOf(metas[0]);
      } else {
        l := Weaker(l, LevelsOf(metas[i]));
      }
    }
    assert metas[..|metas|] == metas;
  }

  // ---------------------------------------------------------------- what the requests that were made say

  const NO_USAGE := Usage(Tokens(0, 0, 0, 0, 0), 0, 0, 0)

  /** A request that reported nothing about what it cost has no vote on the price. */
  predicate Votes(m: Meta) { m.cost.priced || m.usage != NO_USAGE }

  predicate Pays(m: Meta) { Votes(m) && m.cost.priced }

  function AddSpend(a: Spend, b: Spend): Spend {
    Spend(a.total + b.total, a.prompt + b.prompt, a.completion + b.completion, a.cached + b.cached,
      a.reasoning + b.reasoning)
  }

  const NO_SPEND := Spend(0.0, 0.0, 0.0, 0.0, 0.0)

  /** qualityTally. */
  datatype Tally = Tally(any: bool, unknown: bool, estimated: bool, exact: bool)

  function AddQuality(t: Tally, q: Quality): Tally {
    match q
    case Estimated => Tally(true, t.unknown, true, t.exact)
    case Exact => Tally(true, t.unknown, t.estimated, true)
    case Free => Tally(true, t.unknown, t.estimated, t.exact)
    case _ => Tally(true, true, t.estimated, t.exact)
  }

  function TallyResult(t: Tally): Quality {
    if !t.any || t.unknown then Unknown else if t.estimated then Estimated else if t.exact then Exact else Free
  }

  /** What the second loop of sumMetas holds. */
  datatype Bill = Bill(priced: bool, voters: nat, tally: Tally, currency: string, source: string, spend: Spend)

  function AddBill(b: Bill, m: Meta): Bill {
    if !Votes(m) then b
    else
      var voters, tally := b.voters + 1, AddQuality(b.tally, m.cost.quality);
      if !m.cost.priced then Bill(false, voters, tally, b.currency, b.source, b.spend)
      else
        var first := voters == 1 || b.currency == "";
        Bill(b.priced, voters, tally, if first then m.cost.currency else b.currency,
             if first then m.cost.source else b.source, AddSpend(b.spend, m.cost.spend))
  }

  const NO_BILL := Bill(true, 0, Tally(false, false, false, false), "", "", NO_SPEND)

  function BillFrom(b: Bill, made: seq<Meta>): Bill
    decreases |made|
  {
    if made == [] then b else BillFrom(AddBill(b, made[0]), made[1..])
  }

  // ---------------------------------------------------------------- the envelope

  /** The envelope of a run. `refused` is the count its check of repairs says, when there is one. */
  datatype Envelope = Envelope(
    added: Added, refused: nat, levels: Levels, priced: bool, quality: Quality,
    currency: string, source: string, spend: Spend, names: Names, tier: int, drifted: bool, driftUnknown: bool)

  /** agreed: the value every meta has for a field, or the empty string. */
  function AgreedOf(made: seq<Meta>, f: Name): string
    requires made != []
  {
    if forall i | 0 <= i < |made| :: NameOf(made[i].names, f) == NameOf(made[0].names, f)
    then NameOf(made[0].names, f) else ""
  }

  method AgreedOn(made: seq<Meta>, f: Name) returns (value: string)
    requires made != []
    ensures value == AgreedOf(made, f)
  {
    value := NameOf(made[0].names, f);
    for i := 1 to |made|
      invariant forall k | 0 <= k < i :: NameOf(made[k].names, f) == value
    {
      if NameOf(made[i].names, f) != value {
        return "";
      }
    }
  }

  /** The requested tier, when it is set and every request agrees on it. */
  function TierOf(made: seq<Meta>): int
    requires made != []
  {
    if forall i | 0 <= i < |made| :: made[i].tier == made[0].tier then made[0].tier else 0
  }

  predicate AnyDrifted(made: seq<Meta>) { exists i | 0 <= i < |made| :: made[i].drifted }

  predicate AnyDriftUnknown(made: seq<Meta>) { exists i | 0 <= i < |made| :: made[i].driftUnknown }

  function NamesOf(made: seq<Meta>): Names
    requires made != []
  {
    Names(AgreedOf(made, Provider), AgreedOf(made, Model), AgreedOf(made, RequestedModel), AgreedOf(made, SchemaId))
  }

  /** What sumMetas makes of some envelopes. */
  function EnvelopeOf(metas: seq<Meta>): Envelope {
    var made := MadeOf(metas);
    var added, refused, levels := AddFrom(NONE_ADDED, metas), FailedChecks(made), WeakestOf(metas);
    if made == [] then
      Envelope(added, refused, levels, false, Unset, "", "", NO_SPEND, Names("", "", "", ""), 0, false, false)
    else
      var b := BillFrom(NO_BILL, made);
      var priced := b.priced && b.voters > 0;
      Envelope(added, refused, levels, priced, TallyResult(b.tally), b.currency, if priced then b.source
        else "", b.spend,
               NamesOf(made), TierOf(made), AnyDrifted(made), AnyDriftUnknown(made))
  }

  lemma {:induction false} AddFromOneMore(a: Added, metas: seq<Meta>, i: nat)
    requires i < |metas|
    ensures AddFrom(a, metas[..i + 1]) == AddMeta(AddFrom(a, metas[..i]), metas[i])
    decreases i
  {
    if i > 0 {
      var rest := metas[1..];
      assert metas[..i + 1][1..] == rest[..i] && metas[..i][1..] == rest[..i - 1];
      AddFromOneMore(AddMeta(a, metas[0]), rest, i - 1);
    }
  }

  lemma {:induction false} BillFromOneMore(b: Bill, made: seq<Meta>, i: nat)
    requires i < |made|
    ensures BillFrom(b, made[..i + 1]) == AddBill(BillFrom(b, made[..i]), made[i])
    decreases i
  {
    if i > 0 {
      var rest := made[1..];
      assert made[..i + 1][1..] == rest[..i] && made[..i][1..] == rest[..i - 1];
      BillFromOneMore(AddBill(b, made[0]), rest, i - 1);
    }
  }

  lemma {:induction false} MadeOfConcat(a: seq<Meta>, b: seq<Meta>)
    ensures MadeOf(a + b) == MadeOf(a) + MadeOf(b)
  {
    if a == [] {
      assert a + b == b;
    } else {
      assert (a + b)[1..] == a[1..] + b;
      MadeOfConcat(a[1..], b);
    }
  }

  lemma {:induction false} FailedOfConcat(a: seq<Meta>, b: seq<Meta>)
    ensures FailedChecks(a + b) == FailedChecks(a) + FailedChecks(b)
  {
    if a == [] {
      assert a + b == b;
    } else {
      assert (a + b)[1..] == a[1..] + b;
      FailedOfConcat(a[1..], b);
    }
  }

  lemma MadeOfOneMore(metas: seq<Meta>, i: nat)
    requires i < |metas|
    ensures MadeOf(metas[..i + 1]) == MadeOf(metas[..i]) + if Sent(metas[i]) then [metas[i]] else []
    ensures FailedChecks(MadeOf(metas[..i + 1])) == FailedChecks(MadeOf(metas[..i])) + if Sent(metas[i])
      then metas[i].failedChecks else 0
  {
    assert metas[..i + 1] == metas[..i] + [metas[i]];
    assert MadeOf([metas[i]]) == if Sent(metas[i]) then [metas[i]] else [];
    MadeOfConcat(metas[..i], [metas[i]]);
    FailedOfConcat(MadeOf(metas[..i]), MadeOf([metas[i]]));
  }

  /** The first loop. */
  method AddAll(metas: seq<Meta>) returns (added: Added, made: seq<Meta>, refused: nat)
    ensures added == AddFrom(NONE_ADDED, metas) && made == MadeOf(metas) && refused == FailedChecks(made)
  {
    var amounts, tokens, timing, hedged, serviceTier :=
      NONE_ADDED.amounts, NONE_ADDED.tokens, NONE_ADDED.timing, false, "";
    made, refused := [], 0;
    for i := 0 to |metas|
      invariant Added(amounts, tokens, timing, hedged, serviceTier) == AddFrom(NONE_ADDED, metas[..i])
      invariant made == MadeOf(metas[..i]) && refused == FailedChecks(made)
    {
      var meta := metas[i];
      AddFromOneMore(NONE_ADDED, metas, i);
      MadeOfOneMore(metas, i);
      amounts := AddAmounts(amounts, meta.amounts);
      hedged := hedged || meta.hedged;
      if meta.serviceTier != "" {
        serviceTier := meta.serviceTier;
      }
      tokens := AddTokens(tokens, meta.usage.tokens);
      timing := AddTiming(timing, meta.timing);
      if meta.amounts.attempts > 0 {
        made := made + [meta];
        refused := refused + meta.failedChecks;
      }
    }
    assert metas[..|metas|] == metas;
    added := Added(amounts, tokens, timing, hedged, serviceTier);
  }

  /** The second loop. */
  method AddBills(made: seq<Meta>) returns (b: Bill)
    ensures b == BillFrom(NO_BILL, made)
  {
    b := NO_BILL;
    for i := 0 to |made|
      invariant b == BillFrom(NO_BILL, made[..i])
    {
      BillFromOneMore(NO_BILL, made, i);
      var cost := made[i].cost;
      if !cost.priced && made[i].usage == NO_USAGE {
        continue;
      }
      b := b.(voters := b.voters + 1, tally := AddQuality(b.tally, cost.quality));
      if !cost.priced {
        b := b.(priced := false);
        continue;
      }
      if b.voters == 1 || b.currency == "" {
        b := b.(currency := cost.currency, source := cost.source);
      }
      b := b.(spend := AddSpend(b.spend, cost.spend));
    }
    assert made[..|made|] == made;
  }

  /** The requested tier and the drift of the requests that were made. */
  method TierAndDrift(made: seq<Meta>) returns (tier: int, drifted: bool, driftUnknown: bool)
    requires made != []
    ensures tier == TierOf(made) && drifted == AnyDrifted(made) && driftUnknown == AnyDriftUnknown(made)
  {
    tier := made[0].tier;
    if tier != 0 {
      var same := true;
      for i := 1 to |made|
        invariant same <==> forall k | 0 <= k < i :: made[k].tier == tier
      {
        same := same && made[i].tier == tier;
      }
      if !same {
        tier := 0;
      }
    }
    drifted, driftUnknown := false, false;
    for i := 0 to |made|
      invariant drifted == exists k | 0 <= k < i :: made[k].drifted
      invariant driftUnknown == exists k | 0 <= k < i :: made[k].driftUnknown
    {
      drifted := drifted || made[i].drifted;
      driftUnknown := driftUnknown || made[i].driftUnknown;
    }
  }

  /** sumMetas. */
  method SumMetas(metas: seq<Meta>) returns (e: Envelope)
    ensures e == EnvelopeOf(metas)
  {
    var added, made, refused := AddAll(metas);
    var levels := WeakestLevels(metas);
    if |made| == 0 {
      return Envelope(added, refused, levels, false, Unset, "", "", NO_SPEND, Names("", "", "", ""), 0, false, false);
    }
    var b := AddBills(made);
    var priced := b.priced && b.voters > 0;
    var provider := AgreedOn(made, Provider);
    var model := AgreedOn(made, Model);
    var requestedModel := AgreedOn(made, RequestedModel);
    var schemaId := AgreedOn(made, SchemaId);
    var tier, drifted, driftUnknown := TierAndDrift(made);
    e := Envelope(added, refused, levels, priced, TallyResult(b.tally), b.currency, if priced then b.source
      else "", b.spend,
                  Names(provider, model, requestedModel, schemaId), tier, drifted, driftUnknown);
  }
}
