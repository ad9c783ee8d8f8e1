/** The labels a choice is between, the routes a program can go, and the scale of a rating
    (refuseUnusableLabels and refuseScale, v2/decide.go:387-431; RouteFault,
    v2/internal/ops/flow.go:78-107). */
module Labels {
  import opened Common
  import opened Text
  import opened Records

  /** Up to this many labels are compared with each other, and more are looked up in a map. */
  const LARGEST_COMPARED: nat := 32

  /** What is wrong with a list of labels, at a position from 1. */
  datatype Verdict =
    Usable | BlankAt(position: nat) | RepeatsAt(position: nat) | NothingToRunAt(position: nat) | NoRoutes

  /** Labels are compared without the space around them. */
  predicate RepeatsEarlier(labels: seq<string>, i: nat)
    requires i < |labels|
  {
    exists k | 0 <= k < i :: Trim(labels[k]) == Trim(labels[i])
  }

  predicate Fine(labels: seq<string>, i: nat)
    requires i < |labels|
  {
    !Blank(labels[i]) && !RepeatsEarlier(labels, i)
  }

  /** The first so many labels say something and are distinct. */
  predicate Distinct(labels: seq<string>, n: nat)
    requires n <= |labels|
  {
    forall i | 0 <= i < n :: Fine(labels, i)
  }

  /** The verdict on a list: usable when every label says something and none is given twice, and otherwise
      the first position that is wrong, with what is wrong there. */
  predicate Says(labels: seq<string>, v: Verdict) {
    match v
    case Usable => Distinct(labels, |labels|)
    case BlankAt(p) => 1 <= p <= |labels| && Distinct(labels, p - 1) && Blank(labels[p - 1])
    case RepeatsAt(p) =>
      1 <= p <= |labels| && Distinct(labels, p - 1) && !Blank(labels[p - 1]) && RepeatsEarlier(labels, p - 1)
    case _ => false
  }

  /** There is one verdict on a list. */
  lemma OneVerdict(labels: seq<string>, v: Verdict, w: Verdict)
    requires Says(labels, v) && Says(labels, w)
    ensures v == w
  {
    var n, m := Bad(v, |labels|), Bad(w, |labels|);
    assert Distinct(labels, n) && Distinct(labels, m);
    assert n < |labels| ==> !Fine(labels, n);
    assert m < |labels| ==> !Fine(labels, m);
  }

  function Bad(v: Verdict, n: nat): int {
    match v
    case BlankAt(p) => p - 1
    case RepeatsAt(p) => p - 1
    case _ => n
  }

  /** A list is usable exactly when no label is nothing without the space around it, and no two are the same. */
  lemma UsableIff(labels: seq<string>)
    ensures Says(labels, Usable) <==>
      && (forall i | 0 <= i < |labels| :: Trim(labels[i]) != "")
      && (forall i, j | 0 <= i < j < |labels| :: Trim(labels[i]) != Trim(labels[j]))
  {
    forall i | 0 <= i < |labels| ensures Trim(labels[i]) != "" <==> !Blank(labels[i]) { TrimIsEmptyIff(labels[i]); }
    assert Says(labels, Usable) == Distinct(labels, |labels|);
    if Distinct(labels, |labels|) {
      forall i, j | 0 <= i < j < |labels| ensures Trim(labels[i]) != Trim(labels[j]) { assert Fine(labels, j); }
      forall i | 0 <= i < |labels| ensures Trim(labels[i]) != "" { assert Fine(labels, i); }
    } else {
      var j :| 0 <= j < |labels| && !Fine(labels, j);
    }
  }

  /** A position that is named is the first that is wrong: the labels before it are usable by themselves, and it is
      blank, or says what one of them does. */
  lemma FirstWrongIsNamed(labels: seq<string>, v: Verdict)
    requires Says(labels, v)
    ensures match v
      case Usable => true
      case BlankAt(p) => 1 <= p <= |labels| && Says(labels[..p - 1], Usable) && Trim(labels[p - 1]) == ""
      case RepeatsAt(p) =>
        && 1 <= p <= |labels| && Says(labels[..p - 1], Usable) && Trim(labels[p - 1]) != ""
        && exists k :: 0 <= k < p - 1 && Trim(labels[k]) == Trim(labels[p - 1])
      case _ => false
  {
    match v
    case Usable =>
    case BlankAt(p) =>
      PrefixIsUsable(labels, p - 1);
      TrimIsEmptyIff(labels[p - 1]);
    case RepeatsAt(p) =>
      PrefixIsUsable(labels, p - 1);
      TrimIsEmptyIff(labels[p - 1]);
  }

  lemma PrefixIsUsable(labels: seq<string>, n: nat)
    requires n <= |labels| && Distinct(labels, n)
    ensures Says(labels[..n], Usable)
  {
    forall i | 0 <= i < n ensures Fine(labels[..n], i) {
      assert Fine(labels, i);
    }
  }

  /** The trimmed labels before a position. */
  ghost predicate SeenAre(labels: seq<string>, i: nat, seen: set<string>)
    requires i <= |labels|
  {
    forall t :: t in seen <==> exists k | 0 <= k < i :: Trim(labels[k]) == t
  }

  lemma SeenOneMore(labels: seq<string>, i: nat, seen: set<string>)
    requires i < |labels| && SeenAre(labels, i, seen)
    ensures SeenAre(labels, i + 1, seen + {Trim(labels[i])})
    ensures Trim(labels[i]) in seen <==> RepeatsEarlier(labels, i)
  {
  }

  /** The check of a long list. */
  method LookUp(labels: seq<string>) returns (v: Verdict)
    ensures Says(labels, v)
  {
    var seen: set<string> := {};
    for i := 0 to |labels|
      invariant Distinct(labels, i) && SeenAre(labels, i, seen)
    {
      TrimIsEmptyIff(labels[i]);
      SeenOneMore(labels, i, seen);
      var trimmed := Trim(labels[i]);
      if trimmed == "" {
        return BlankAt(i + 1);
      }
      if trimmed in seen {
        return RepeatsAt(i + 1);
      }
      seen := seen + {trimmed};
    }
    return Usable;
  }

  /** The check of a short one. */
  method Compare(labels: seq<string>) returns (v: Verdict)
    ensures Says(labels, v)
  {
    for i := 0 to |labels|
      invariant Distinct(labels, i)
    {
      TrimIsEmptyIff(labels[i]);
      var trimmed := Trim(labels[i]);
      if trimmed == "" {
        return BlankAt(i + 1);
      }
      for k := 0 to i
        invariant forall j | 0 <= j < k :: Trim(labels[j]) != trimmed
      {
        if Trim(labels[k]) == trimmed {
          return RepeatsAt(i + 1);
        }
      }
    }
    return Usable;
  }

  /** refuseUnusableLabels: which of the two checks is made is not seen. */
  method RefuseUnusableLabels(labels: seq<string>) returns (v: Verdict)
    ensures Says(labels, v)
  {
    if |labels| > LARGEST_COMPARED {
      v := LookUp(labels);
    } else {
      v := Compare(labels);
    }
  }

  // ---------------------------------------------------------------- routes

  /** A route: its label, and whether it has something to run. */
  datatype Route = Route(name: string, runs: bool)

  function LabelsOf(routes: seq<Route>): (labels: seq<string>)
    ensures |labels| == |routes|
    ensures forall i | 0 <= i < |routes| :: labels[i] == routes[i].name
  {
    seq(|routes|, i requires 0 <= i < |routes| => routes[i].name)
  }

  /** The first so many routes can be chosen between. */
  predicate Sound(routes: seq<Route>, n: nat)
    requires n <= |routes|
  {
    Distinct(LabelsOf(routes), n) && forall i | 0 <= i < n :: routes[i].runs
  }

  /** The verdict on a set of routes: nothing is wrong when there are routes, every label says something,
      none is given twice and every route has something to run; and otherwise the first route that is wrong
      is named, with what is wrong with it. */
  predicate RoutesSay(routes: seq<Route>, v: Verdict) {
    match v
    case NoRoutes => routes == []
    case Usable => routes != [] && Sound(routes, |routes|)
    case NothingToRunAt(p) =>
      1 <= p <= |routes| && Sound(routes, p - 1) && Fine(LabelsOf(routes), p - 1) && !routes[p - 1].runs
    case BlankAt(p) => 1 <= p <= |routes| && Sound(routes, p - 1) && Blank(routes[p - 1].name)
    case RepeatsAt(p) =>
      1 <= p <= |routes| && Sound(routes, p - 1) && !Blank(routes[p - 1].name)
        && RepeatsEarlier(LabelsOf(routes), p - 1)
  }

  /** Routes can be chosen between exactly when there are some, their labels are usable and each has something to run;
      and a route that is named is the first that is wrong, after others that can be chosen between: it has no label,
      or that of one before it, or nothing to run. */
  lemma RoutesAreUsableIff(routes: seq<Route>, v: Verdict)
    requires RoutesSay(routes, v)
    ensures v == Usable <==>
      routes != [] && Says(LabelsOf(routes), Usable) && forall i | 0 <= i < |routes| :: routes[i].runs
    ensures match v
      case Usable => true
      case NoRoutes => routes == []
      case BlankAt(p) => FirstRoutes(routes, p) && Trim(routes[p - 1].name) == ""
      case RepeatsAt(p) =>
        && FirstRoutes(routes, p) && Trim(routes[p - 1].name) != ""
        && exists k :: 0 <= k < p - 1 && Trim(routes[k].name) == Trim(routes[p - 1].name)
      case NothingToRunAt(p) => FirstRoutes(routes, p) && Says(LabelsOf(routes[..p]), Usable) && !routes[p - 1].runs
  {
    match v
    case Usable =>
    case NoRoutes =>
    case BlankAt(p) =>
      FirstRoutesAre(routes, p);
      TrimIsEmptyIff(routes[p - 1].name);
      assert !Fine(LabelsOf(routes), p - 1);
    case RepeatsAt(p) =>
      FirstRoutesAre(routes, p);
      TrimIsEmptyIff(routes[p - 1].name);
      assert !Fine(LabelsOf(routes), p - 1);
    case NothingToRunAt(p) =>
      FirstRoutesAre(routes, p);
      assert LabelsOf(routes)[..p] == LabelsOf(routes[..p]);
      PrefixIsUsable(LabelsOf(routes), p);
  }

  /** The routes before a position can be chosen between. */
  predicate FirstRoutes(routes: seq<Route>, p: nat) {
    1 <= p <= |routes| && Says(LabelsOf(routes[..p - 1]), Usable) && forall i | 0 <= i < p - 1 :: routes[i].runs
  }

  lemma FirstRoutesAre(routes: seq<Route>, p: nat)
    requires 1 <= p <= |routes| && Sound(routes, p - 1)
    ensures FirstRoutes(routes, p)
  {
    assert LabelsOf(routes)[..p - 1] == LabelsOf(routes[..p - 1]);
    PrefixIsUsable(LabelsOf(routes), p - 1);
  }

  method RouteFault(routes: seq<Route>) returns (v: Verdict)
    ensures RoutesSay(routes, v)
  {
    if |routes| == 0 {
      return NoRoutes;
    }
    var seen: set<string> := {};
    ghost var labels := LabelsOf(routes);
    for i := 0 to |routes|
      invariant Sound(routes, i) && SeenAre(labels, i, seen)
    {
      TrimIsEmptyIff(routes[i].name);
      SeenOneMore(labels, i, seen);
      var trimmed := Trim(routes[i].name);
      if trimmed == "" {
        return BlankAt(i + 1);
      }
      if trimmed in seen {
        return RepeatsAt(i + 1);
      }
      if !routes[i].runs {
        return NothingToRunAt(i + 1);
      }
      seen := seen + {trimmed};
    }
    return Usable;
  }

  // ---------------------------------------------------------------- scales

  const WIDEST_SCALE := 100

  /** An int as an unsigned number of 64 bits. */
  function Unsigned(x: Int64): int { if x < 0 then x + 0x1_0000_0000_0000_0000 else x }

  function UnsignedLess(a: int, b: int): int { (a - b) % 0x1_0000_0000_0000_0000 }

  datatype Scale = Fits | NothingToChoose | TooWide

  /** refuseScale: over the whole range of the integers, the scales that fit are those of two to a hundred
      levels. */
  method RefuseScale(low: Int64, high: Int64) returns (s: Scale)
    ensures s == Fits <==> 2 <= high - low + 1 <= WIDEST_SCALE
    ensures s == NothingToChoose <==> high - low + 1 < 2
  {
    if high <= low {
      return NothingToChoose;
    }
    if UnsignedLess(Unsigned(high), Unsigned(low)) >= WIDEST_SCALE {
      return TooWide;
    }
    return Fits;
  }

  /** The width worked out in the machine's own integers would pass for a narrow one: the scale of all of
      them has a width of less than nothing. */
  lemma SignedWidthWraps()
    ensures Wrapped(MAX_INT - MIN_INT) < WIDEST_SCALE < MAX_INT - MIN_INT
  {
    assert Wrapped(MAX_INT - MIN_INT) == -1;
  }
}
