/** What becomes of an error at a join, in as many steps as it takes: what a wrapper hands on of it, what the next
    one takes of that, and what is told and read of it (v2/mw/mw.go:197-250; v2/provider_adapter.go:228-241,
    330-388). */
module HandedErrors {
  import opened Common
  import opened Kinds
  import opened ChainWalk
  import opened ErrorGraph
  import opened Classifier
  import opened ErrorConvert
  import opened FiniteChains
  import opened MoreSteps
  import opened ProviderRoundTrip
  import opened ChainErrors
  import opened Readings

  // ---------------------------------------------------------------- without steps

  /** What a search comes to in as many steps as it takes. */
  ghost function Eventually<T>(run: nat -> Run<T>, otherwise: T): T {
    if exists n: nat :: run(n).Done? then
      var n: nat :| run(n).Done?;
      run(n).value
    else otherwise
  }

  /** With more steps it comes to the same. */
  ghost predicate Settles<T(!new)>(run: nat -> Run<T>) {
    forall n: nat, more: nat | n <= more && run(n).Done? :: run(more) == run(n)
  }

  lemma EventuallyIs<T(!new)>(run: nat -> Run<T>, otherwise: T, n: nat)
    requires Settles(run) && run(n).Done?
    ensures Eventually(run, otherwise) == run(n).value
  {
    var m: nat :| run(m).Done? && Eventually(run, otherwise) == run(m).value;
    assert run(n + m) == run(n) && run(n + m) == run(m);
  }

  function OutRun(host: Host, x: Error): nat -> Run<Error> { (n: nat) => Out(host, x, n) }

  function InRun(host: Host, y: Error, name: string, model: string): nat -> Run<Error> {
    (n: nat) => In(host, y, name, model, n)
  }

  function ReadRun(host: Host, x: Error): nat -> Run<Read> { (n: nat) => ReadOf(host, x, n) }

  /** What a wrapper hands on. */
  ghost function OutOf(host: Host, x: Error): Error { Eventually(OutRun(host, x), x) }

  /** What the wrapper above a join takes. */
  ghost function InOf(host: Host, y: Error, name: string, model: string): Error {
    Eventually(InRun(host, y, name, model), y)
  }

  /** What a layer reads. */
  ghost function AsRead(host: Host, x: Error): Read { Eventually(ReadRun(host, x), NOTHING_READ) }

  lemma OutStays(host: Host, x: Error, n: nat, more: nat)
    requires Out(host, x, n).Done? && n <= more
    ensures Out(host, x, more) == Out(host, x, n)
  {
    ConversionStays(host, x.heap, "", x.at, ErrUnavailable, n, more);
    var (h, r) := ConvertWith(host, x.heap, "", x.at, ErrUnavailable, n).value;
    SeekStays(GraphOf(h), Operations(h), r, n, more);
  }

  lemma OutOfIs(host: Host, x: Error, n: nat)
    requires Out(host, x, n).Done?
    ensures OutOf(host, x) == Out(host, x, n).value
  {
    var run := OutRun(host, x);
    forall n: nat, more: nat | n <= more && run(n).Done? ensures run(more) == run(n) { OutStays(host, x, n, more); }
    EventuallyIs(run, x, n);
  }

  lemma InOfIs(host: Host, y: Error, name: string, model: string, n: nat)
    requires In(host, y, name, model, n).Done?
    ensures InOf(host, y, name, model) == In(host, y, name, model, n).value
  {
    var run := InRun(host, y, name, model);
    forall n: nat, more: nat | n <= more && run(n).Done? ensures run(more) == run(n) {
      RelayingStays(host, y.heap, y.at, name, model, n, more);
    }
    EventuallyIs(run, y, n);
  }

  lemma AsReadIs(host: Host, x: Error, n: nat)
    requires ReadOf(host, x, n).Done?
    ensures AsRead(host, x) == ReadOf(host, x, n).value
  {
    var run := ReadRun(host, x);
    forall n: nat, more: nat | n <= more && run(n).Done? ensures run(more) == run(n) {
      ClassifyStays(host, x.heap, x.at, n, more);
      NarrowingStays(x.heap, x.at, n, more);
    }
    EventuallyIs(run, NOTHING_READ, n);
  }

  // ---------------------------------------------------------------- errors of providers and of handlers

  /** An error a provider may return: its chain is there, ends, and holds no sentinel of the trust guard. */
  ghost predicate Given(y: Error) { exists n: nat :: Whole(y, n) }

  /** An error a handler may return. */
  ghost predicate Handed(host: Host, x: Error) { Given(x) && Fixed(host, x) }

  /** What a caller is told of an error of a handler. */
  ghost function Told(host: Host, x: Error): Failure
    requires Handed(host, x)
  {
    HandedIsTold(host, x);
    FailureOf(OutOf(host, x))
  }

  lemma HandedIsTold(host: Host, x: Error)
    requires Handed(host, x)
    ensures HasFailure(OutOf(host, x)) && Given(OutOf(host, x))
    ensures exists n: nat :: Says(host, OutOf(host, x), n)
  {
    var n: nat :| Whole(x, n);
    OutSays(host, x, n);
    OutOfIs(host, x, n + 1);
    var y := OutOf(host, x);
    assert Says(host, y, n);
    WrappedIsWhole(y.heap, y.at.id, n);
    assert Whole(y, n + 1);
  }

  /** What is taken of an error of a provider's is an error a handler may return. */
  lemma TakenIsHanded(host: Host, y: Error, name: string, model: string)
    requires Given(y)
    ensures Handed(host, InOf(host, y, name, model))
  {
    var n: nat :| Whole(y, n);
    var h := y.heap;
    WholeIsFinite(y, n);
    FiniteFails(host, h, y.at, name, model, n);
    ClassifiedByReturns(h, y.at, n);
    LibraryDecidesItself(h, y.at, n);
    InOfIs(host, y, name, model, n);
    var d := ClassifiedBy(h, y.at, n).value;
    if d.Some? && d.value.source != FromLibrary {
      assert InOf(host, y, name, model) == y && !HasFailure(y);
    } else {
      RelayMade(host, h, y.at, name, model, n);
      var (h2, r) := ProviderFailure(host, h, y.at, name, model, n).value;
      RelayIsWhole(y, h2, r.id, n);
      assert Whole(Error(h2, r), n + 4);
    }
  }

  /** What comes through a join, of an error a wrapper hands on: what a caller is told of it and what the
      layers read of it. */
  lemma TakenTells(host: Host, x: Error, name: string, model: string)
    requires Handed(host, x)
    ensures Told(host, x).kind.Some?
    ensures var j := InOf(host, OutOf(host, x), name, model);
      && Handed(host, j) && Told(host, j).(message := "") == Through(Told(host, x), name, model)
      && AsRead(host, j) == Joined(Told(host, x).kind.value)
  {
    HandedIsTold(host, x);
    var y := OutOf(host, x);
    var n: nat :| Says(host, y, n);
    JoinKeeps(host, y, name, model, n);
    InOfIs(host, y, name, model, n + 1);
    var j := InOf(host, y, name, model);
    OutOfIs(host, j, n + 5);
    assert Whole(j, n + 5);
    JoinIsRead(host, y, name, model, n, 1);
    AsReadIs(host, j, 1);
  }

  /** What the layers read of it is the kind that is told. */
  lemma TakenIsRead(host: Host, x: Error, name: string, model: string, kind: Kind)
    requires Handed(host, x) && Told(host, x).kind == Some(kind)
    ensures AsRead(host, InOf(host, OutOf(host, x), name, model)) == Joined(kind)
  {
    TakenTells(host, x, name, model);
  }
}
