/** A provider's stream as the call path hears it: what is yielded, in which order, and what becomes of a
    panic of the provider's or of the consumer's (internalProvider.CompleteStream,
    v2/provider_adapter.go:165-201). */
module Stream {
  import opened Common

  /** What a provider's sequence does next, until it ends. */
  datatype Item = Chunk(n: nat) | Failure(e: nat) | Panic

  /** One call of yield: a chunk, a failure, or the error a provider's panic becomes. */
  datatype Heard = Gave(n: nat) | Failed(e: nat) | PanicError

  /** What the consumer does with what it has heard so far: it goes on, it stops, or it panics. */
  datatype Reply = GoesOn | Stops | Throws

  /** A provider: its items, and whether it panics as it is told to stop at one of them. */
  datatype Provider = Provider(items: seq<Item>, throwsAtStop: nat -> bool)

  type Consumer = seq<Heard> -> Reply

  /** What was heard, and whether a panic came out of the stream. */
  datatype Ending = Ending(heard: seq<Heard>, panicked: bool)

  // ---------------------------------------------------------------- as it is meant

  function Meant(p: Provider, i: nat, consumer: Consumer, heard: seq<Heard>): Ending
    requires i <= |p.items|
    decreases |p.items| - i
  {
    if i == |p.items| then Ending(heard, false)
    else match p.items[i]
      case Chunk(n) =>
        var next := heard + [Gave(n)];
        (match consumer(next)
         case GoesOn => Meant(p, i + 1, consumer, next)
         case Stops => Ending(next, p.throwsAtStop(i))
         case Throws => Ending(next, true))
      case Failure(e) =>
        var next := heard + [Failed(e)];
        Ending(next, consumer(next).Throws? || p.throwsAtStop(i))
      case Panic =>
        var next := heard + [PanicError];
        Ending(next, consumer(next).Throws?)
  }

  // ---------------------------------------------------------------- as it is written

  /** CompleteStream, with its flag: a panic is recovered, and is thrown again when the flag says that the
      consumer had been called and had not gone on. `unusable` is a request that cannot be converted. */
  method CompleteStream(p: Provider, consumer: Consumer, unusable: Option<nat>) returns (end: Ending)
    ensures unusable.Some? ==> end == Ending([Failed(unusable.value)], consumer([Failed(unusable.value)]).Throws?)
    ensures unusable.None? ==> end == Meant(p, 0, consumer, [])
  {
    var heard: seq<Heard> := [];
    if unusable.Some? {
      heard := [Failed(unusable.value)];
      return Ending(heard, consumer(heard).Throws?);
    }
    var inYield, thrown, over := false, false, false;
    var i := 0;
    while i < |p.items| && !over && !thrown
      invariant i <= |p.items|
      invariant !over && !thrown ==> !inYield && Meant(p, 0, consumer, []) == Meant(p, i, consumer, heard)
      invariant over && !thrown ==> Meant(p, 0, consumer, []) == Ending(heard, false)
      invariant thrown && inYield ==> Meant(p, 0, consumer, []) == Ending(heard, true)
      invariant thrown && !inYield ==>
        var next := heard + [PanicError]; Meant(p, 0, consumer, []) == Ending(next, consumer(next).Throws?)
      decreases |p.items| - i, !over && !thrown
    {
      match p.items[i] {
        case Chunk(n) =>
          inYield := true;
          heard := heard + [Gave(n)];
          match consumer(heard) {
            case GoesOn =>
              inYield := false;
              i := i + 1;
            case Stops =>
              over, thrown := true, p.throwsAtStop(i);
            case Throws =>
              thrown := true;
          }
        case Failure(e) =>
          inYield := true;
          heard := heard + [Failed(e)];
          over, thrown := true, consumer(heard).Throws? || p.throwsAtStop(i);
        case Panic =>
          thrown := true;
      }
    }
    if thrown {
      if inYield {
        return Ending(heard, true);
      }
      heard := heard + [PanicError];
      return Ending(heard, consumer(heard).Throws?);
    }
    return Ending(heard, false);
  }

  // ---------------------------------------------------------------- the protocol

  /** The first so many things heard were chunks, and the consumer went on after each. */
  predicate WentOn(consumer: Consumer, heard: seq<Heard>, n: int)
    requires n <= |heard|
  {
    forall k | 0 <= k < n :: heard[k].Gave? && consumer(heard[..k + 1]).GoesOn?
  }

  /** Yield is not called again after the consumer stopped or panicked, or after it was given an error. */
  lemma {:induction false} YieldIsPolite(p: Provider, i: nat, consumer: Consumer, heard: seq<Heard>)
    requires i <= |p.items| && WentOn(consumer, heard, |heard|)
    ensures var all := Meant(p, i, consumer, heard).heard; WentOn(consumer, all, |all| - 1)
    decreases |p.items| - i
  {
    if i < |p.items| {
      var longer := heard + [NextHeard(p.items[i])];
      forall k | 0 <= k < |heard| ensures longer[k].Gave? && consumer(longer[..k + 1]).GoesOn? {
        assert heard[k].Gave? && longer[..k + 1] == heard[..k + 1];
      }
      assert longer[..|longer|] == longer;
      if p.items[i].Chunk? && consumer(longer).GoesOn? {
        YieldIsPolite(p, i + 1, consumer, longer);
        assert Meant(p, i, consumer, heard) == Meant(p, i + 1, consumer, longer);
      } else {
        assert Meant(p, i, consumer, heard).heard == longer;
      }
    }
  }

  /** What is heard of an item. */
  function NextHeard(item: Item): Heard {
    match item
    case Chunk(n) => Gave(n)
    case Failure(e) => Failed(e)
    case Panic => PanicError
  }

  /** What is heard is the provider's items in their order, from the first, and nothing else: a chunk for a
      chunk, its failure for a failure, and one error for a panic. */
  lemma {:induction false} HeardInOrder(p: Provider, i: nat, consumer: Consumer, heard: seq<Heard>)
    requires i == |heard| <= |p.items| && forall k | 0 <= k < i :: heard[k] == NextHeard(p.items[k])
    ensures var all := Meant(p, i, consumer, heard).heard;
      |all| <= |p.items| && forall k | 0 <= k < |all| :: all[k] == NextHeard(p.items[k])
    decreases |p.items| - i
  {
    if i < |p.items| && p.items[i].Chunk? && consumer(heard + [Gave(p.items[i].n)]).GoesOn? {
      HeardInOrder(p, i + 1, consumer, heard + [Gave(p.items[i].n)]);
    }
  }

  /** Nothing is held back either: the stream ends before its items do only when the consumer stopped or
      panicked, or was given an error. */
  lemma {:induction false} NothingHeldBack(p: Provider, i: nat, consumer: Consumer, heard: seq<Heard>)
    requires i == |heard| <= |p.items|
    ensures var all := Meant(p, i, consumer, heard).heard;
      || |all| == |p.items|
      || (all != [] && (!all[|all| - 1].Gave? || !consumer(all).GoesOn?))
    decreases |p.items| - i
  {
    if i < |p.items| && p.items[i].Chunk? && consumer(heard + [Gave(p.items[i].n)]).GoesOn? {
      NothingHeldBack(p, i + 1, consumer, heard + [Gave(p.items[i].n)]);
    }
  }

  /** A panic comes out of the stream exactly when the consumer panicked, or the provider did as it was told
      to stop; a provider that panics before that is heard as one last error, which is not a panic. */
  lemma {:induction false} PanicsIff(p: Provider, i: nat, consumer: Consumer, heard: seq<Heard>)
    requires i == |heard| <= |p.items|
    ensures var end := Meant(p, i, consumer, heard);
      var last := |end.heard| - 1;
      end.panicked <==>
        && |end.heard| > i
        && (consumer(end.heard).Throws?
            || (last < |p.items| && p.throwsAtStop(last)
                && (end.heard[last].Failed? || (end.heard[last].Gave? && consumer(end.heard).Stops?))))
    decreases |p.items| - i
  {
    if i < |p.items| && p.items[i].Chunk? && consumer(heard + [Gave(p.items[i].n)]).GoesOn? {
      var longer := heard + [Gave(p.items[i].n)];
      PanicsIff(p, i + 1, consumer, longer);
      HeardGrows(p, i + 1, consumer, longer);
      var all := Meant(p, i + 1, consumer, longer).heard;
      assert |all| == i + 1 ==> all == longer && all[i].Gave?;
    }
  }

  /** A provider that panics where the consumer has gone on so far: one error, and it is the last thing
      heard. */
  lemma {:induction false} PanicIsOneError(p: Provider, i: nat, consumer: Consumer, heard: seq<Heard>, at: nat)
    requires i == |heard| <= at < |p.items| && p.items[at].Panic?
    requires forall k | i <= k < at :: p.items[k].Chunk?
    requires forall h: seq<Heard> :: |h| <= at ==> consumer(h).GoesOn?
    ensures var all := Meant(p, i, consumer, heard).heard;
      |all| == at + 1 && all[at] == PanicError && forall k | i <= k < at :: all[k].Gave?
    decreases at - i
  {
    if i < at {
      var next := heard + [Gave(p.items[i].n)];
      PanicIsOneError(p, i + 1, consumer, next, at);
      HeardGrows(p, i + 1, consumer, next);
      assert Meant(p, i, consumer, heard).heard[i] == next[i];
    }
  }

  lemma {:induction false} HeardGrows(p: Provider, i: nat, consumer: Consumer, heard: seq<Heard>)
    requires i <= |p.items|
    ensures heard <= Meant(p, i, consumer, heard).heard
    decreases |p.items| - i
  {
    if i < |p.items| && p.items[i].Chunk? && consumer(heard + [Gave(p.items[i].n)]).GoesOn? {
      HeardGrows(p, i + 1, consumer, heard + [Gave(p.items[i].n)]);
    }
  }
}
