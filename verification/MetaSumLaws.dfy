/** What the envelope of a run says: which sums, which worst, which votes; and that the order of the requests matters
    to little of it. */
module MetaSumLaws {
  import opened Common
  import opened MetaSum

  // ---------------------------------------------------------------- the sums

  const FIGURES: nat := 18

  function Figure(a: Amounts, t: Tokens, p: Phases, k: nat): nat
    requires k < FIGURES
  {
    if k < 4 then AmountOf(a, k) else if k < 9 then TokensOf(t, k - 4) else PhaseOf(p, k - 9)
  }

  function AmountOf(a: Amounts, k: nat): nat
    requires k < 4
  {
    if k == 0 then a.attempts else if k == 1 then a.repairs else if k == 2 then a.retries else a.cacheHits
  }

  function TokensOf(t: Tokens, k: nat): nat
    requires k < 5
  {
    if k == 0 then t.prompt else if k == 1 then t.completion else if k == 2 then t.total
    else if k == 3 then t.cached else t.reasoning
  }

  function PhaseOf(p: Phases, k: nat): nat
    requires k < 9
  {
    if k == 0 then p.calls else if k == 1 then p.queued else if k == 2 then p.lookup else if k == 3 then p.connect
    else if k == 4 then p.handshake else if k == 5 then p.send else if k == 6 then p.wait else if k == 7 then p.read
    else p.network
  }

  function MetaFigure(m: Meta, k: nat): nat
    requires k < FIGURES
  {
    Figure(m.amounts, m.usage.tokens, m.timing.phases, k)
  }

  function AddedFigure(a: Added, k: nat): nat
    requires k < FIGURES
  {
    Figure(a.amounts, a.tokens, a.timing.phases, k)
  }

  function Sigma(metas: seq<Meta>, k: nat): nat
    requires k < FIGURES
  {
    if metas == [] then 0 else MetaFigure(metas[0], k) + Sigma(metas[1..], k)
  }

  lemma {:induction false} FiguresAdd(a: Added, metas: seq<Meta>, k: nat)
    requires k < FIGURES
    ensures AddedFigure(AddFrom(a, metas), k) == AddedFigure(a, k) + Sigma(metas, k)
    decreases |metas|
  {
    if metas != [] {
      FiguresAdd(AddMeta(a, metas[0]), metas[1..], k);
    }
  }

  /** Attempts, repairs, retries, cache hits, the five counts of tokens and every phase of the timing are
      the sums of the items'. */
  lemma FiguresAreSums(metas: seq<Meta>, k: nat)
    requires k < FIGURES
    ensures AddedFigure(EnvelopeOf(metas).added, k) == Sigma(metas, k)
  {
    AddedIs(metas);
    FiguresAdd(NONE_ADDED, metas, k);
    NothingIsAdded(k);
  }

  lemma AddedIs(metas: seq<Meta>)
    ensures EnvelopeOf(metas).added == AddFrom(NONE_ADDED, metas)
  {
  }

  lemma NothingIsAdded(k: nat)
    requires k < FIGURES
    ensures AddedFigure(NONE_ADDED, k) == 0
  {
  }

  predicate Quiet(a: Added) { !RanACall(a.timing) ==> !a.timing.reused }

  lemma {:induction false} ReusedFrom(a: Added, metas: seq<Meta>)
    requires Quiet(a)
    ensures var t := AddFrom(a, metas).timing;
      && Quiet(AddFrom(a, metas))
      && (RanACall(t) <==> RanACall(a.timing) || exists i | 0 <= i < |metas| :: RanACall(metas[i].timing))
      && (RanACall(t) ==> (t.reused <==>
            (RanACall(a.timing) ==> a.timing.reused)
            && forall i | 0 <= i < |metas| && RanACall(metas[i].timing) :: metas[i].timing.reused))
    decreases |metas|
  {
    if metas != [] {
      var rest := metas[1..];
      ReusedFrom(AddMeta(a, metas[0]), rest);
      assert forall i | 0 <= i < |rest| :: rest[i] == metas[i + 1];
      assert forall i | 0 < i < |metas| :: metas[i] == rest[i - 1];
    }
  }

  /** A run reused its connections when some call was timed and every item that timed one says so. */
  lemma ReusedIff(metas: seq<Meta>)
    ensures EnvelopeOf(metas).added.timing.reused <==>
      && (exists i | 0 <= i < |metas| :: metas[i].timing.phases.calls > 0 || metas[i].timing.phases.network > 0)
      && forall i | 0 <= i < |metas| && (metas[i].timing.phases.calls > 0 || metas[i].timing.phases.network > 0) ::
           metas[i].timing.reused
  {
    ReusedFrom(NONE_ADDED, metas);
    assert forall i | 0 <= i < |metas| :: RanACall(metas[i].timing) <==>
      metas[i].timing.phases.calls > 0 || metas[i].timing.phases.network > 0;
  }

  lemma {:induction false} HedgedFrom(a: Added, metas: seq<Meta>)
    ensures AddFrom(a, metas).hedged <==> a.hedged || exists i | 0 <= i < |metas| :: metas[i].hedged
    decreases |metas|
  {
    if metas != [] {
      var rest := metas[1..];
      HedgedFrom(AddMeta(a, metas[0]), rest);
      assert forall i | 0 <= i < |rest| :: rest[i] == metas[i + 1];
      assert forall i | 0 < i < |metas| :: metas[i] == rest[i - 1];
    }
  }

  /** A run hedged when some item did. */
  lemma HedgedIff(metas: seq<Meta>)
    ensures EnvelopeOf(metas).added.hedged <==> exists i | 0 <= i < |metas| :: metas[i].hedged
  {
    HedgedFrom(NONE_ADDED, metas);
  }

  // ---------------------------------------------------------------- the bill

  lemma {:induction false} BillSays(b: Bill, made: seq<Meta>)
    ensures var c := BillFrom(b, made);
      && (c.priced <==> b.priced && forall i | 0 <= i < |made| && Votes(made[i]) :: made[i].cost.priced)
      && (c.voters > 0 <==> b.voters > 0 || exists i | 0 <= i < |made| :: Votes(made[i]))
    decreases |made|
  {
    if made != [] {
      var rest := made[1..];
      BillSays(AddBill(b, made[0]), rest);
      assert forall i | 0 <= i < |rest| :: rest[i] == made[i + 1];
      assert forall i | 0 < i < |made| :: made[i] == rest[i - 1];
    }
  }

  /** A request that was made and reported nothing that could be billed. */
  predicate UsedNothing(m: Meta) { m.usage == Usage(Tokens(0, 0, 0, 0, 0), 0, 0, 0) }

  /** A run is priced exactly when some request that was made was priced, and every other one used nothing. */
  lemma PricedIff(metas: seq<Meta>)
    ensures var made := MadeOf(metas);
      EnvelopeOf(metas).priced <==>
        && (exists i | 0 <= i < |made| :: made[i].cost.priced)
        && forall i | 0 <= i < |made| :: made[i].cost.priced || UsedNothing(made[i])
  {
    var made := MadeOf(metas);
    BillSays(NO_BILL, made);
    assert forall i | 0 <= i < |made| :: Votes(made[i]) <==> made[i].cost.priced || !UsedNothing(made[i]);
  }

  predicate VotesFor(m: Meta, q: Quality) { (m.cost.priced || !UsedNothing(m)) && m.cost.quality == q }

  predicate AnyFor(made: seq<Meta>, q: Quality) { exists i | 0 <= i < |made| :: VotesFor(made[i], q) }

  lemma AnyForOneMore(made: seq<Meta>, q: Quality)
    requires made != []
    ensures AnyFor(made, q) <==> VotesFor(made[0], q) || AnyFor(made[1..], q)
  {
    var rest := made[1..];
    assert forall i | 0 <= i < |rest| :: rest[i] == made[i + 1];
    assert forall i | 0 < i < |made| :: made[i] == rest[i - 1];
  }

  lemma {:induction false} TallySays(b: Bill, made: seq<Meta>)
    ensures var t := BillFrom(b, made).tally;
      && (t.unknown <==> b.tally.unknown || AnyFor(made, Unset) || AnyFor(made, Unknown))
      && (t.estimated <==> b.tally.estimated || AnyFor(made, Estimated))
      && (t.exact <==> b.tally.exact || AnyFor(made, Exact))
    decreases |made|
  {
    if made != [] {
      TallySays(AddBill(b, made[0]), made[1..]);
      AnyForOneMore(made, Unset);
      AnyForOneMore(made, Unknown);
      AnyForOneMore(made, Estimated);
      AnyForOneMore(made, Exact);
    }
  }

  lemma {:induction false} TallyHasAny(b: Bill, made: seq<Meta>)
    ensures BillFrom(b, made).tally.any <==> b.tally.any || exists i | 0 <= i < |made| :: Votes(made[i])
    decreases |made|
  {
    if made != [] {
      var rest := made[1..];
      TallyHasAny(AddBill(b, made[0]), rest);
      assert forall i | 0 <= i < |rest| :: rest[i] == made[i + 1];
      assert forall i | 0 < i < |made| :: made[i] == rest[i - 1];
    }
  }

  /** The pricing quality is the worst of the requests that have a vote, whatever their order: unknown when
      none has or any is unknown or unset, else estimated if any is, else exact if any is, else free. */
  lemma QualityIsWorst(metas: seq<Meta>)
    requires MadeOf(metas) != []
    ensures var e, made := EnvelopeOf(metas), MadeOf(metas);
      var any := AnyFor(made, Estimated) || AnyFor(made, Exact) || AnyFor(made, Free);
      && (e.quality == Unknown <==> AnyFor(made, Unset) || AnyFor(made, Unknown) || !any)
      && (e.quality == Estimated <==> !AnyFor(made, Unset) && !AnyFor(made, Unknown) && AnyFor(made, Estimated))
      && (e.quality == Exact <==>
            !AnyFor(made, Unset) && !AnyFor(made, Unknown) && !AnyFor(made, Estimated) && AnyFor(made, Exact))
      && e.quality != Unset
  {
    var made := MadeOf(metas);
    TallySays(NO_BILL, made);
    TallyHasAny(NO_BILL, made);
    forall i | 0 <= i < |made| && Votes(made[i]) ensures AnyFor(made, made[i].cost.quality) {
      assert VotesFor(made[i], made[i].cost.quality);
    }
  }

  function SpendOf(made: seq<Meta>): Spend {
    if made == [] then NO_SPEND
    else if Pays(made[0]) then AddSpend(made[0].cost.spend, SpendOf(made[1..])) else SpendOf(made[1..])
  }

  lemma {:induction false} SpendAdds(b: Bill, made: seq<Meta>)
    ensures BillFrom(b, made).spend == AddSpend(b.spend, SpendOf(made))
    decreases |made|
  {
    if made != [] { SpendAdds(AddBill(b, made[0]), made[1..]); }
  }

  /** The parts of a spend. */
  const PARTS: nat := 5

  function PartOf(s: Spend, k: nat): real
    requires k < PARTS
  {
    if k == 0 then s.total else if k == 1 then s.prompt else if k == 2 then s.completion
    else if k == 3 then s.cached else s.reasoning
  }

  function PaidSigma(made: seq<Meta>, k: nat): real
    requires k < PARTS
  {
    if made == [] then 0.0
    else PaidSigma(made[1..], k) + if made[0].cost.priced then PartOf(made[0].cost.spend, k) else 0.0
  }

  lemma {:induction false} PartsAdd(made: seq<Meta>, k: nat)
    requires k < PARTS
    ensures PartOf(SpendOf(made), k) == PaidSigma(made, k)
  {
    if made != [] { PartsAdd(made[1..], k); }
  }

  /** Every part of the spend is what the priced requests that were made say of that part, added up; one that
      is not priced adds nothing, and takes nothing away from the others. */
  lemma SpendIsWhatWasPaid(metas: seq<Meta>, k: nat)
    requires k < PARTS
    ensures PartOf(EnvelopeOf(metas).spend, k) == PaidSigma(MadeOf(metas), k)
  {
    SpendAdds(NO_BILL, MadeOf(metas));
    PartsAdd(MadeOf(metas), k);
  }

  // ---------------------------------------------------------------- in any order

  lemma {:induction false} SigmaOfConcat(a: seq<Meta>, b: seq<Meta>, k: nat)
    requires k < FIGURES
    ensures Sigma(a + b, k) == Sigma(a, k) + Sigma(b, k)
  {
    if a == [] {
      assert a + b == b;
    } else {
      assert (a + b)[1..] == a[1..] + b;
      SigmaOfConcat(a[1..], b, k);
    }
  }

  lemma {:induction false} SpendOfConcat(a: seq<Meta>, b: seq<Meta>)
    ensures SpendOf(a + b) == AddSpend(SpendOf(a), SpendOf(b))
  {
    if a == [] {
      assert a + b == b;
    } else {
      assert (a + b)[1..] == a[1..] + b;
      SpendOfConcat(a[1..], b);
    }
  }

  lemma {:induction false} SigmaInAnyOrder(a: seq<Meta>, b: seq<Meta>, k: nat)
    requires k < FIGURES && multiset(a) == multiset(b)
    ensures Sigma(a, k) == Sigma(b, k)
    decreases |a|
  {
    if a == [] {
      assert |multiset(b)| == 0;
    } else {
      var front, back := TakeOut(a, b);
      SigmaInAnyOrder(a[1..], front + back, k);
      SigmaOfConcat(front, back, k);
      SigmaOfConcat(front, [a[0]] + back, k);
      assert ([a[0]] + back)[1..] == back;
    }
  }

  lemma {:induction false} SpendInAnyOrder(a: seq<Meta>, b: seq<Meta>)
    requires multiset(a) == multiset(b)
    ensures SpendOf(a) == SpendOf(b)
    decreases |a|
  {
    if a == [] {
      assert |multiset(b)| == 0;
    } else {
      var front, back := TakeOut(a, b);
      SpendInAnyOrder(a[1..], front + back);
      SpendOfConcat(front, back);
      SpendOfConcat(front, [a[0]] + back);
      assert ([a[0]] + back)[1..] == back;
    }
  }

  lemma {:induction false} MadeInAnyOrder(a: seq<Meta>, b: seq<Meta>)
    requires multiset(a) == multiset(b)
    ensures multiset(MadeOf(a)) == multiset(MadeOf(b))
    decreases |a|
  {
    if a == [] {
      assert |multiset(b)| == 0;
    } else {
      var front, back := TakeOut(a, b);
      MadeInAnyOrder(a[1..], front + back);
      MadeOfConcat(front, back);
      MadeOfConcat(front, [a[0]] + back);
      assert ([a[0]] + back)[1..] == back;
    }
  }

  lemma SameMembers(a: seq<Meta>, b: seq<Meta>, q: Quality)
    requires multiset(a) == multiset(b)
    ensures AnyFor(a, q) ==> AnyFor(b, q)
  {
    if AnyFor(a, q) {
      var i :| 0 <= i < |a| && VotesFor(a[i], q);
      assert a[i] in multiset(b);
      var j :| 0 <= j < |b| && b[j] == a[i];
    }
  }

  /** The sums, the spend, the quality and whether the run is priced are the same in whatever order the
      items are. */
  lemma AnyOrder(a: seq<Meta>, b: seq<Meta>)
    requires multiset(a) == multiset(b)
    ensures forall k: nat | k < FIGURES :: AddedFigure(EnvelopeOf(a).added, k) == AddedFigure(EnvelopeOf(b).added, k)
    ensures EnvelopeOf(a).spend == EnvelopeOf(b).spend
    ensures EnvelopeOf(a).quality == EnvelopeOf(b).quality && EnvelopeOf(a).priced == EnvelopeOf(b).priced
  {
    forall k: nat | k < FIGURES ensures AddedFigure(EnvelopeOf(a).added, k) == AddedFigure(EnvelopeOf(b).added, k) {
      FiguresAreSums(a, k);
      FiguresAreSums(b, k);
      SigmaInAnyOrder(a, b, k);
    }
    MadeInAnyOrder(a, b);
    SpendOfAnyOrder(a, b);
    PricedInAnyOrder(a, b);
    QualityInAnyOrder(a, b);
  }

  lemma SpendOfAnyOrder(a: seq<Meta>, b: seq<Meta>)
    requires multiset(MadeOf(a)) == multiset(MadeOf(b))
    ensures EnvelopeOf(a).spend == EnvelopeOf(b).spend
  {
    var m, n := MadeOf(a), MadeOf(b);
    assert |multiset(m)| == |m| && |multiset(n)| == |n|;
    SpendAdds(NO_BILL, m);
    SpendAdds(NO_BILL, n);
    SpendInAnyOrder(m, n);
  }

  predicate AnyPriced(made: seq<Meta>) { exists i | 0 <= i < |made| :: made[i].cost.priced }

  predicate RestUsedNothing(made: seq<Meta>) {
    forall i | 0 <= i < |made| :: made[i].cost.priced || UsedNothing(made[i])
  }

  lemma SamePrices(a: seq<Meta>, b: seq<Meta>)
    requires multiset(a) == multiset(b)
    ensures AnyPriced(a) ==> AnyPriced(b)
    ensures RestUsedNothing(b) ==> RestUsedNothing(a)
  {
    forall i | 0 <= i < |a| ensures exists j :: 0 <= j < |b| && b[j] == a[i] {
      assert a[i] in multiset(b);
    }
  }

  lemma PricedInAnyOrder(a: seq<Meta>, b: seq<Meta>)
    requires multiset(MadeOf(a)) == multiset(MadeOf(b))
    ensures EnvelopeOf(a).priced == EnvelopeOf(b).priced
  {
    PricedIff(a);
    PricedIff(b);
    SamePrices(MadeOf(a), MadeOf(b));
    SamePrices(MadeOf(b), MadeOf(a));
    assert EnvelopeOf(a).priced == (AnyPriced(MadeOf(a)) && RestUsedNothing(MadeOf(a)));
    assert EnvelopeOf(b).priced == (AnyPriced(MadeOf(b)) && RestUsedNothing(MadeOf(b)));
  }

  lemma QualityInAnyOrder(a: seq<Meta>, b: seq<Meta>)
    requires multiset(MadeOf(a)) == multiset(MadeOf(b))
    ensures EnvelopeOf(a).quality == EnvelopeOf(b).quality
  {
    var m, n := MadeOf(a), MadeOf(b);
    assert |multiset(m)| == |m| && |multiset(n)| == |n|;
    if m != [] {
      QualityIsWorst(a);
      QualityIsWorst(b);
      forall q: Quality ensures AnyFor(m, q) == AnyFor(n, q) {
        SameMembers(m, n, q);
        SameMembers(n, m, q);
      }
    }
  }

  // ---------------------------------------------------------------- the weakest, and the tier

  /** No item requested or was delivered less than the run says, and some item as much. */
  lemma {:induction false} WeakestIs(metas: seq<Meta>)
    requires metas != []
    ensures var l := WeakestOf(metas);
      && (forall i | 0 <= i < |metas| :: l.requested <= metas[i].requested && l.delivered <= metas[i].delivered)
      && (exists i | 0 <= i < |metas| :: l.requested == metas[i].requested)
      && (exists i | 0 <= i < |metas| :: l.delivered == metas[i].delivered)
  {
    if |metas| > 1 {
      var front := metas[..|metas| - 1];
      WeakestIs(front);
      assert forall i | 0 <= i < |front| :: front[i] == metas[i];
    }
  }

  /** The levels of a run: the weakest of its items', whether they were sent or not. */
  lemma LevelsAreWeakest(metas: seq<Meta>)
    ensures var l := EnvelopeOf(metas).levels;
      if metas == [] then l == Levels(0, 0)
      else
        && (forall i | 0 <= i < |metas| :: l.requested <= metas[i].requested && l.delivered <= metas[i].delivered)
        && (exists i | 0 <= i < |metas| :: l.requested == metas[i].requested)
        && (exists i | 0 <= i < |metas| :: l.delivered == metas[i].delivered)
  {
    if metas != [] { WeakestIs(metas); }
  }

  // ---------------------------------------------------------------- the other fields

  /** The requests that were made are the items with an attempt, in their order. */
  lemma {:induction false} MadeAreSent(metas: seq<Meta>)
    ensures forall m :: m in MadeOf(metas) <==> m in metas && m.amounts.attempts > 0
    ensures |MadeOf(metas)| == |metas| <==> forall i | 0 <= i < |metas| :: metas[i].amounts.attempts > 0
    ensures |MadeOf(metas)| <= |metas|
    ensures |MadeOf(metas)| == |metas| ==> MadeOf(metas) == metas
  {
    if metas != [] {
      MadeAreSent(metas[1..]);
      assert metas == [metas[0]] + metas[1..];
      assert forall i | 0 < i < |metas| :: metas[i] == metas[1..][i - 1];
    }
  }

  /** What every request that was made says, or nothing when they differ. */
  ghost predicate Agreed(made: seq<Meta>, field: Meta -> string, value: string)
    requires made != []
  {
    if forall i | 0 <= i < |made| :: field(made[i]) == field(made[0]) then value == field(made[0]) else value == ""
  }

  /** Each of the four names is the one its requests agree on, and so is the tier; a run has drifted when some request
      has, and it is not known whether it has when it is not of some request. */
  lemma RestIsAgreed(metas: seq<Meta>)
    requires MadeOf(metas) != []
    ensures var e, made := EnvelopeOf(metas), MadeOf(metas);
      && Agreed(made, (m: Meta) => m.names.provider, e.names.provider)
      && Agreed(made, (m: Meta) => m.names.model, e.names.model)
      && Agreed(made, (m: Meta) => m.names.requestedModel, e.names.requestedModel)
      && Agreed(made, (m: Meta) => m.names.schemaId, e.names.schemaId)
      && (e.tier == if forall i | 0 <= i < |made| :: made[i].tier == made[0].tier then made[0].tier else 0)
      && (e.drifted <==> exists i | 0 <= i < |made| :: made[i].drifted)
      && (e.driftUnknown <==> exists i | 0 <= i < |made| :: made[i].driftUnknown)
  {
    AgreedIs(MadeOf(metas));
  }

  lemma AgreedIs(made: seq<Meta>)
    requires made != []
    ensures var names := NamesOf(made);
      && Agreed(made, (m: Meta) => m.names.provider, names.provider)
      && Agreed(made, (m: Meta) => m.names.model, names.model)
      && Agreed(made, (m: Meta) => m.names.requestedModel, names.requestedModel)
      && Agreed(made, (m: Meta) => m.names.schemaId, names.schemaId)
  {
  }

  /** The envelope of a run that made no request says nothing of what requests say. */
  lemma NothingMadeSaysNothing(metas: seq<Meta>)
    requires MadeOf(metas) == []
    ensures var e := EnvelopeOf(metas);
      && e.names == Names("", "", "", "") && e.tier == 0 && !e.drifted && !e.driftUnknown
      && !e.priced && e.quality == Unset && e.currency == "" && e.source == "" && e.spend == NO_SPEND
  {
  }

  function ChecksOf(metas: seq<Meta>): nat {
    if metas == [] then 0
    else ChecksOf(metas[1..]) + if metas[0].amounts.attempts > 0 then metas[0].failedChecks else 0
  }

  /** The checks a run failed are those of the requests that were made. */
  lemma {:induction false} RefusedIsSum(metas: seq<Meta>)
    ensures EnvelopeOf(metas).refused == ChecksOf(metas)
  {
    if metas != [] {
      RefusedIsSum(metas[1..]);
      FailedOfConcat(if Sent(metas[0]) then [metas[0]] else [], MadeOf(metas[1..]));
    }
  }

  /** The last of the items that names a service tier names this one, and there is none where none does. */
  ghost predicate IsLastTier(metas: seq<Meta>, tier: string, otherwise: string) {
    if forall i | 0 <= i < |metas| :: metas[i].serviceTier == "" then tier == otherwise
    else exists i ::
      && 0 <= i < |metas| && tier == metas[i].serviceTier && tier != ""
      && forall j | i < j < |metas| :: metas[j].serviceTier == ""
  }

  lemma {:induction false} LastTierIs(a: Added, metas: seq<Meta>)
    ensures IsLastTier(metas, AddFrom(a, metas).serviceTier, a.serviceTier)
    decreases |metas|
  {
    if metas != [] {
      LastTierIs(AddMeta(a, metas[0]), metas[1..]);
      assert forall i | 0 < i < |metas| :: metas[i] == metas[1..][i - 1];
      assert forall i | 0 <= i < |metas| - 1 :: metas[1..][i] == metas[i + 1];
    }
  }

  /** The service tier of a run is the last that any item names. */
  lemma ServiceTierIsLast(metas: seq<Meta>)
    ensures IsLastTier(metas, EnvelopeOf(metas).added.serviceTier, "")
  {
    LastTierIs(NONE_ADDED, metas);
  }

  /** The bill takes its currency, and where its prices are from, from this request: the first priced one that names a
      currency, or the last priced one when none does. */
  predicate TakenFrom(made: seq<Meta>, i: nat, currency: string, source: string) {
    && i < |made| && made[i].cost.priced
    && currency == made[i].cost.currency && source == made[i].cost.source
    && (forall j | 0 <= j < i && made[j].cost.priced :: made[j].cost.currency == "")
    && (currency == "" ==> forall j | i < j < |made| :: !made[j].cost.priced)
  }

  predicate NonePriced(made: seq<Meta>) { forall i | 0 <= i < |made| :: !made[i].cost.priced }

  predicate IsTaken(made: seq<Meta>, currency: string, source: string) {
    exists i | 0 <= i < |made| :: TakenFrom(made, i, currency, source)
  }

  lemma {:induction false} BillIsTaken(b: Bill, made: seq<Meta>)
    requires b.voters == 0 ==> b.currency == ""
    ensures var c := BillFrom(b, made);
      if b.currency != "" || NonePriced(made) then c.currency == b.currency && c.source == b.source
      else IsTaken(made, c.currency, c.source)
    decreases |made|
  {
    if made != [] {
      var next, rest, c := AddBill(b, made[0]), made[1..], BillFrom(b, made);
      BillIsTaken(next, rest);
      OneMorePriced(made);
      if b.currency == "" && !NonePriced(made) {
        if made[0].cost.priced && (next.currency != "" || NonePriced(rest)) {
          TakenFromFirst(made, c.currency, c.source);
        } else {
          TakenFromLater(made, c.currency, c.source);
        }
      }
    }
  }

  lemma OneMorePriced(made: seq<Meta>)
    requires made != []
    ensures NonePriced(made) <==> !made[0].cost.priced && NonePriced(made[1..])
  {
    assert forall i | 0 < i < |made| :: made[i] == made[1..][i - 1];
    assert forall i | 0 <= i < |made| - 1 :: made[1..][i] == made[i + 1];
  }

  lemma TakenFromFirst(made: seq<Meta>, currency: string, source: string)
    requires made != [] && made[0].cost.priced && currency == made[0].cost.currency && source == made[0].cost.source
    requires currency == "" ==> NonePriced(made[1..])
    ensures IsTaken(made, currency, source)
  {
    assert forall i | 0 < i < |made| :: made[i] == made[1..][i - 1];
    assert TakenFrom(made, 0, currency, source);
  }

  lemma TakenFromLater(made: seq<Meta>, currency: string, source: string)
    requires made != [] && IsTaken(made[1..], currency, source)
    requires made[0].cost.priced ==> made[0].cost.currency == ""
    ensures IsTaken(made, currency, source)
  {
    var i :| 0 <= i < |made[1..]| && TakenFrom(made[1..], i, currency, source);
    assert forall j | 0 < j < |made| :: made[j] == made[1..][j - 1];
    assert TakenFrom(made, i + 1, currency, source);
  }

  /** The currency of a run, and where the prices of one that is priced are from; of one that is not, it is not said. */
  lemma CurrencyIsFirst(metas: seq<Meta>) returns (source: string)
    ensures NonePriced(MadeOf(metas)) ==> EnvelopeOf(metas).currency == "" && EnvelopeOf(metas).source == ""
    ensures !NonePriced(MadeOf(metas)) ==> IsTaken(MadeOf(metas), EnvelopeOf(metas).currency, source)
    ensures EnvelopeOf(metas).source == if EnvelopeOf(metas).priced then source else ""
  {
    var c := BillFrom(NO_BILL, MadeOf(metas));
    source := c.source;
    BillIsTaken(NO_BILL, MadeOf(metas));
    assert NO_BILL.currency == "" && NO_BILL.source == "" && NO_BILL.voters == 0;
    assert EnvelopeOf(metas).currency == c.currency;
  }
}
