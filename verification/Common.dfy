/** The small datatypes every other module of the project uses. */
module Common {

  datatype Option<+T> = None | Some(value: T)

  /** What an unbounded search of the call path comes to within the steps it was given:
      a value, or still running. A search that is `Hung` for every number of steps is one
      that never returns. */
  datatype Run<+T> = Hung | Done(value: T)

  /** The first of two that is not empty (setIfEmpty). */
  function Or(a: string, b: string): string { if a == "" then b else a }

  function Max(a: int, b: int): int { if a < b then b else a }

  function Min(a: int, b: int): int { if a < b then a else b }

  lemma WithoutOne<T>(rest: seq<T>, front: seq<T>, x: T, back: seq<T>)
    requires multiset([x] + rest) == multiset(front + ([x] + back))
    ensures multiset(rest) == multiset(front + back)
  {
    var one := multiset([x]);
    assert multiset([x] + rest) == one + multiset(rest);
    assert multiset(front + ([x] + back)) == multiset(front) + (one + multiset(back));
    assert one + multiset(rest) - one == multiset(rest);
    assert multiset(front) + (one + multiset(back)) - one == multiset(front) + multiset(back);
  }

  /** Two lists that hold the same, with the first of one taken out of each. */
  lemma TakeOut<T>(a: seq<T>, b: seq<T>) returns (front: seq<T>, back: seq<T>)
    requires a != [] && multiset(a) == multiset(b)
    ensures b == front + ([a[0]] + back) && multiset(a[1..]) == multiset(front + back)
  {
    assert a[0] in multiset(b);
    var k :| 0 <= k < |b| && b[k] == a[0];
    front, back := b[..k], b[k + 1..];
    assert a == [a[0]] + a[1..] && b == front + ([a[0]] + back);
    WithoutOne(a[1..], front, a[0], back);
  }
}
