/** What a line of the log may not carry, taken out of it without copying what stays as it is
    (v2/logguard.go; Bound, v2/internal/types/limits.go:14-51). Text is bytes, one to a character. */
module LogGuard {
  import opened Common

  const MAX_PROVIDER_NAME: nat := 64
  const MAX_MODEL_NAME: nat := 128
  const MAX_ID: nat := 128

  /** The value of an attribute: a group, an error with the name of its kind, a string, or anything else,
      which a value that resolves itself later is. */
  datatype Value = Group(members: seq<Attr>) | Err(kind: string) | Text(text: string) | Other(id: nat)

  datatype Attr = Attr(key: string, value: Value)

  // ---------------------------------------------------------------- Bound

  predicate Printable(c: char) { ' ' <= c <= '~' }

  predicate Fits(s: string, limit: nat) {
    |s| <= limit && forall i | 0 <= i < |s| :: Printable(s[i])
  }

  function Cleaned(s: string): (r: string)
    ensures |r| == |s|
    ensures forall i | 0 <= i < |s| :: r[i] == if Printable(s[i]) then s[i] else '?'
  {
    if s == "" then "" else [if Printable(s[0]) then s[0] else '?'] + Cleaned(s[1..])
  }

  function Bounded(s: string, limit: nat): string {
    if Fits(s, limit) then s else Cleaned(s[..Min(|s|, limit)])
  }

  /** A bounded value is fit to be written, and is the value itself exactly when that is; so bounding it
      again changes nothing. */
  lemma BoundedFits(s: string, limit: nat)
    ensures Fits(Bounded(s, limit), limit)
    ensures Bounded(s, limit) == s <==> Fits(s, limit)
    ensures Bounded(Bounded(s, limit), limit) == Bounded(s, limit)
  {
    if !Fits(s, limit) {
      var cut := s[..Min(|s|, limit)];
      forall i | 0 <= i < |cut| ensures Printable(Cleaned(cut)[i]) {}
    }
  }

  /** types.Bound, as it is written. */
  method Bound(value: string, limit: nat) returns (bounded: string)
    ensures bounded == Bounded(value, limit)
  {
    var clean := |value| <= limit;
    var index := 0;
    while clean && index < |value|
      invariant index <= |value|
      invariant clean ==> |value| <= limit && forall i | 0 <= i < index :: Printable(value[i])
      invariant !clean ==> !Fits(value, limit)
      decreases |value| - index
    {
      clean := Printable(value[index]);
      index := index + 1;
    }
    if clean {
      return value;
    }
    var cut := value;
    if |value| > limit {
      cut := value[..limit];
    }
    bounded := "";
    for i := 0 to |cut|
      invariant |bounded| == i && forall k | 0 <= k < i :: bounded[k] == Cleaned(cut)[k]
    {
      bounded := bounded + [if Printable(cut[i]) then cut[i] else '?'];
    }
    assert cut == value[..Min(|value|, limit)];
    assert bounded == Cleaned(cut);
  }

  // ---------------------------------------------------------------- the simple rewrite

  const WITHHELD := "withheld"

  /** The length a name of this key is cut to. */
  function Limit(key: string): Option<nat> {
    if key == "provider" then Some(MAX_PROVIDER_NAME)
    else if key == "model" then Some(MAX_MODEL_NAME)
    else if key == "requestID" || key == "correlationID" then Some(MAX_ID)
    else None
  }

  predicate ErrorKey(key: string) { key == "error" || key == "err" }

  function RewrittenText(key: string, text: string): Attr {
    if ErrorKey(key) then Attr("kind", Text(WITHHELD))
    else if Limit(key).Some? then Attr(key, Text(Bounded(text, Limit(key).value)))
    else Attr(key, Text(text))
  }

  function Rewritten(a: Attr): Attr {
    match a.value
    case Group(members) => Attr(a.key, Group(AllRewritten(members)))
    case Err(kind) => Attr("kind", Text(kind))
    case Text(text) => RewrittenText(a.key, text)
    case Other(_) => a
  }

  function AllRewritten(attrs: seq<Attr>): (r: seq<Attr>)
    ensures |r| == |attrs|
  {
    if attrs == [] then [] else [Rewritten(attrs[0])] + AllRewritten(attrs[1..])
  }

  lemma {:induction false} RewrittenAt(attrs: seq<Attr>, i: nat)
    requires i < |attrs|
    ensures AllRewritten(attrs)[i] == Rewritten(attrs[i])
  {
    if i > 0 { RewrittenAt(attrs[1..], i - 1); }
  }

  // ---------------------------------------------------------------- what is clean

  /** Nothing of an attribute has to be taken out, at any depth. */
  predicate Clean(a: Attr) {
    match a.value
    case Group(members) => AllClean(members)
    case Err(_) => false
    case Text(text) => !ErrorKey(a.key) && (Limit(a.key).Some? ==> Fits(text, Limit(a.key).value))
    case Other(_) => true
  }

  predicate AllClean(attrs: seq<Attr>) {
    attrs == [] || (Clean(attrs[0]) && AllClean(attrs[1..]))
  }

  /** No error, no text under the key of one and no name over its length survives, at any depth of groups;
      and what has none of them is left as it is. */
  lemma {:induction false} RewrittenIsClean(a: Attr)
    ensures Clean(Rewritten(a))
    ensures Rewritten(a) == a <==> Clean(a)
  {
    match a.value
    case Group(members) => AllRewrittenAreClean(members);
    case Text(text) => if Limit(a.key).Some? { BoundedFits(text, Limit(a.key).value); }
    case _ =>
  }

  lemma {:induction false} AllRewrittenAreClean(attrs: seq<Attr>)
    ensures AllClean(AllRewritten(attrs))
    ensures AllRewritten(attrs) == attrs <==> AllClean(attrs)
  {
    if attrs != [] {
      RewrittenIsClean(attrs[0]);
      AllRewrittenAreClean(attrs[1..]);
      var all := AllRewritten(attrs);
      assert all[1..] == AllRewritten(attrs[1..]) && attrs == [attrs[0]] + attrs[1..];
      assert all == attrs ==> all[0] == attrs[0] && all[1..] == attrs[1..];
    }
  }

  /** To guard a line twice is to guard it once. */
  lemma GuardingIsIdempotent(attrs: seq<Attr>)
    ensures AllRewritten(AllRewritten(attrs)) == AllRewritten(attrs)
  {
    AllRewrittenAreClean(attrs);
    AllRewrittenAreClean(AllRewritten(attrs));
  }

  /** A name cut to a length: as much of it as there is room for, with a question mark for what cannot be printed. */
  predicate IsCut(text: string, limit: nat, cut: string) {
    && |cut| == Min(|text|, limit)
    && forall i | 0 <= i < |cut| :: cut[i] == if ' ' <= text[i] <= '~' then text[i] else '?'
  }

  /** What is written in place of an attribute: for an error the name of its kind, and for a text under the key of one
      that it is withheld, both under "kind"; for the names and the ids of a line what of them fits; for a group what
      is written for its members, in order; and anything else as it is. */
  predicate IsWritten(a: Attr, b: Attr) {
    match a.value
    case Group(members) =>
      && b.key == a.key && b.value.Group? && |b.value.members| == |members|
      && forall i | 0 <= i < |members| :: IsWritten(members[i], b.value.members[i])
    case Err(kind) => b == Attr("kind", Text(kind))
    case Text(text) =>
      if a.key == "error" || a.key == "err" then b == Attr("kind", Text("withheld"))
      else
        && b.key == a.key && b.value.Text?
        && if a.key == "provider" then IsCut(text, 64, b.value.text)
           else if a.key == "model" then IsCut(text, 128, b.value.text)
           else if a.key == "requestID" || a.key == "correlationID" then IsCut(text, 128, b.value.text)
           else b.value.text == text
    case Other(_) => b == a
  }

  lemma BoundedIsCut(text: string, limit: nat)
    ensures IsCut(text, limit, Bounded(text, limit))
  {
  }

  /** Every attribute of a line is written so, at any depth. */
  lemma {:induction false} RewrittenIsWritten(a: Attr)
    ensures IsWritten(a, Rewritten(a))
  {
    match a.value
    case Group(members) =>
      forall i | 0 <= i < |members| ensures IsWritten(members[i], AllRewritten(members)[i]) {
        RewrittenIsWritten(members[i]);
        RewrittenAt(members, i);
      }
    case Text(text) => if Limit(a.key).Some? { BoundedIsCut(text, Limit(a.key).value); }
    case _ =>
  }

  // ---------------------------------------------------------------- what slog leaves out

  predicate EmptyGroup(a: Attr) { a.value == Group([]) }

  /** slog leaves empty groups out of a group and out of a record. */
  function WithoutEmpty(attrs: seq<Attr>): seq<Attr> {
    if attrs == [] then []
    else (if EmptyGroup(attrs[0]) then [] else [attrs[0]]) + WithoutEmpty(attrs[1..])
  }

  /** Attributes as slog makes them: no group in them holds an empty one. */
  predicate Made(a: Attr) {
    a.value.Group? ==> AllMade(a.value.members)
  }

  predicate AllMade(attrs: seq<Attr>) {
    attrs == [] || (!EmptyGroup(attrs[0]) && Made(attrs[0]) && AllMade(attrs[1..]))
  }

  lemma {:induction false} NothingEmpty(attrs: seq<Attr>)
    requires AllMade(attrs)
    ensures WithoutEmpty(AllRewritten(attrs)) == AllRewritten(attrs)
  {
    if attrs != [] {
      NothingEmpty(attrs[1..]);
      var all := AllRewritten(attrs);
      assert all[1..] == AllRewritten(attrs[1..]);
      StaysFull(attrs[0]);
    }
  }

  lemma StaysFull(a: Attr)
    requires !EmptyGroup(a)
    ensures !EmptyGroup(Rewritten(a))
  {
    match a.value
    case Group(members) => assert |members| > 0;
    case _ =>
  }

  lemma {:induction false} MadeAt(attrs: seq<Attr>, i: nat)
    requires AllMade(attrs) && i < |attrs|
    ensures Made(attrs[i])
  {
    if i > 0 { MadeAt(attrs[1..], i - 1); }
  }

  // ---------------------------------------------------------------- as it is written

  /** boundedAttr. */
  method BoundedAttr(a: Attr, text: string, limit: nat) returns (next: Attr, changed: bool)
    requires a.value == Text(text)
    ensures next == Attr(a.key, Text(Bounded(text, limit))) && (changed <==> next != a)
  {
    var bounded := Bound(text, limit);
    if bounded != text {
      return Attr(a.key, Text(bounded)), true;
    }
    return a, false;
  }

  /** guardedAttr: nothing is copied before the first attribute that changes, and the flag says whether
      anything did. */
  method GuardedAttr(a: Attr) returns (next: Attr, changed: bool)
    requires Made(a)
    ensures next == Rewritten(a) && (changed <==> next != a)
    decreases a, 1
  {
    match a.value {
      case Group(members) =>
        var guarded, copied := GuardedMembers(members);
        if !copied {
          return a, false;
        }
        NothingEmpty(members);
        return Attr(a.key, Group(WithoutEmpty(guarded))), true;
      case Err(kind) =>
        return Attr("kind", Text(kind)), true;
      case Text(text) =>
        if ErrorKey(a.key) {
          return Attr("kind", Text(WITHHELD)), true;
        }
        if Limit(a.key).Some? {
          next, changed := BoundedAttr(a, text, Limit(a.key).value);
          return;
        }
        return a, false;
      case Other(_) =>
        return a, false;
    }
  }

  lemma OneMore(attrs: seq<Attr>, i: nat)
    requires i < |attrs|
    ensures AllRewritten(attrs)[..i + 1] == AllRewritten(attrs)[..i] + [Rewritten(attrs[i])]
    ensures attrs[..i + 1] == attrs[..i] + [attrs[i]]
    ensures AllRewritten(attrs)[..i + 1] == attrs[..i + 1] <==>
      AllRewritten(attrs)[..i] == attrs[..i] && Rewritten(attrs[i]) == attrs[i]
  {
    RewrittenAt(attrs, i);
    SameSoFar(AllRewritten(attrs), attrs, i);
  }

  lemma SameSoFar(x: seq<Attr>, y: seq<Attr>, i: nat)
    requires i < |x| == |y|
    ensures x[..i + 1] == x[..i] + [x[i]] && y[..i + 1] == y[..i] + [y[i]]
    ensures x[..i + 1] == y[..i + 1] <==> x[..i] == y[..i] && x[i] == y[i]
  {
    if x[..i + 1] == y[..i + 1] {
      assert x[i] == x[..i + 1][i] && y[i] == y[..i + 1][i];
      assert x[..i] == x[..i + 1][..i] && y[..i] == y[..i + 1][..i];
    }
  }

  /** The loop over the members of a group. */
  method GuardedMembers(members: seq<Attr>) returns (guarded: seq<Attr>, copied: bool)
    requires AllMade(members)
    ensures copied <==> AllRewritten(members) != members
    ensures copied ==> guarded == AllRewritten(members)
    decreases members, 0
  {
    guarded, copied := [], false;
    for i := 0 to |members|
      invariant !copied ==> AllRewritten(members)[..i] == members[..i]
      invariant copied ==> guarded == AllRewritten(members)[..i] && guarded != members[..i]
    {
      MadeAt(members, i);
      var next, changed := GuardedAttr(members[i]);
      if changed && !copied {
        guarded, copied := members[..i], true;
      }
      if copied {
        guarded := guarded + [next];
      }
      OneMore(members, i);
    }
    assert AllRewritten(members)[..|members|] == AllRewritten(members) && members[..|members|] == members;
  }

  /** Handle: a line that needs nothing is passed on as it is, and another is made again; either way what
      the inner handler is given is the simple rewrite of the line. */
  method Handle(attrs: seq<Attr>) returns (passed: seq<Attr>, same: bool)
    requires AllMade(attrs)
    ensures passed == AllRewritten(attrs)
    ensures same <==> passed == attrs
  {
    var changed := false;
    var i := 0;
    while i < |attrs| && !changed
      invariant i <= |attrs|
      invariant !changed ==> AllRewritten(attrs)[..i] == attrs[..i]
      invariant changed ==> AllRewritten(attrs) != attrs
      decreases |attrs| - i
    {
      MadeAt(attrs, i);
      RewrittenAt(attrs, i);
      var next;
      next, changed := GuardedAttr(attrs[i]);
      assert AllRewritten(attrs)[..i + 1] == AllRewritten(attrs)[..i] + [next];
      assert attrs[..i + 1] == attrs[..i] + [attrs[i]];
      i := i + 1;
    }
    if !changed {
      assert AllRewritten(attrs)[..|attrs|] == AllRewritten(attrs) && attrs[..|attrs|] == attrs;
      return attrs, true;
    }
    forall i | 0 <= i < |attrs| ensures Made(attrs[i]) { MadeAt(attrs, i); }
    passed := WithAttrs(attrs);
    NothingEmpty(attrs);
    passed := WithoutEmpty(passed);
    same := false;
  }

  /** WithAttrs: an empty group among the attributes, which a Logger may hand on, is passed as it is. */
  method WithAttrs(attrs: seq<Attr>) returns (guarded: seq<Attr>)
    requires forall i | 0 <= i < |attrs| :: Made(attrs[i])
    ensures guarded == AllRewritten(attrs)
  {
    guarded := [];
    for i := 0 to |attrs|
      invariant guarded == AllRewritten(attrs)[..i]
    {
      RewrittenAt(attrs, i);
      var next, _ := GuardedAttr(attrs[i]);
      guarded := guarded + [next];
    }
  }
}
