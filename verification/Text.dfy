/** The white space of strings.TrimSpace, which decides what is empty text. */
module Text {

  /** unicode.IsSpace, on the characters of one code unit. */
  predicate Space(c: char) {
    var n := c as int;
    || 0x09 <= n <= 0x0d || n == 0x20 || n == 0x85 || n == 0xa0 || n == 0x1680 || 0x2000 <= n <= 0x200a
    || n == 0x2028 || n == 0x2029 || n == 0x202f || n == 0x205f || n == 0x3000
  }

  const SPACES :=
    "\t\n\U{0B}\U{0C}\r \U{85}\U{A0}\U{1680}\U{2000}\U{2001}\U{2002}\U{2003}\U{2004}\U{2005}\U{2006}\U{2007}" +
    "\U{2008}\U{2009}\U{200A}\U{2028}\U{2029}\U{202F}\U{205F}\U{3000}"

  /** White space is these: the tab, the line feed, the vertical tab, the form feed, the return and the space, the next
      line and the space that does not break, and the separators of Unicode. */
  lemma SpacesAre(c: char)
    ensures Space(c) <==> c in SPACES
  {
  }

  function TrimLeft(s: string): string {
    if s != "" && Space(s[0]) then TrimLeft(s[1..]) else s
  }

  function TrimRight(s: string): string {
    if s != "" && Space(s[|s| - 1]) then TrimRight(s[..|s| - 1]) else s
  }

  function Trim(s: string): string { TrimRight(TrimLeft(s)) }

  /** Text with nothing in it. */
  predicate Blank(s: string) { forall i | 0 <= i < |s| :: Space(s[i]) }

  lemma {:induction false} TrimLeftSplits(s: string) returns (k: nat)
    ensures k <= |s| && TrimLeft(s) == s[k..] && Blank(s[..k])
    ensures k < |s| ==> !Space(s[k])
  {
    if s != "" && Space(s[0]) {
      var k' := TrimLeftSplits(s[1..]);
      k := k' + 1;
      assert s[..k] == [s[0]] + s[1..][..k'];
    } else {
      k := 0;
    }
  }

  lemma {:induction false} TrimRightSplits(s: string) returns (k: nat)
    ensures k <= |s| && TrimRight(s) == s[..k] && Blank(s[k..])
    ensures k > 0 ==> !Space(s[k - 1])
  {
    if s != "" && Space(s[|s| - 1]) {
      var t := s[..|s| - 1];
      k := TrimRightSplits(t);
      assert t[..k] == s[..k];
      assert s[k..] == t[k..] + [s[|s| - 1]];
    } else {
      k := |s|;
    }
  }

  /** Text trims to nothing exactly when there is nothing in it. */
  lemma TrimIsEmptyIff(s: string)
    ensures Trim(s) == "" <==> Blank(s)
  {
    var k := TrimLeftSplits(s);
    var n := TrimRightSplits(s[k..]);
    if k == |s| {
      assert s == s[..k];
    } else {
      assert s[k..][0] == s[k];
      assert s[k..][0..] == s[k..] && !Blank(s[k..]);
    }
  }
}
