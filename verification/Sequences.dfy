/** Where in a list something first occurs. */
module Sequences {
  /** Position of the first element with the property, or the length when there is none. */
  function FirstWhere<X>(s: seq<X>, p: X -> bool): nat {
    if s == [] then 0 else if p(s[0]) then 0 else 1 + FirstWhere(s[1..], p)
  }

  lemma {:induction false} FirstWhereFinds<X>(s: seq<X>, p: X -> bool)
    ensures FirstWhere(s, p) <= |s|
    ensures FirstWhere(s, p) < |s| ==> p(s[FirstWhere(s, p)])
    ensures forall i :: 0 <= i < |s| && p(s[i]) ==> FirstWhere(s, p) <= i
  {
    if s != [] && !p(s[0]) { FirstWhereFinds(s[1..], p); }
  }

  /** An element seen before keeps its first position; a new one gets the last. */
  lemma {:induction false} FirstWhereAppend<X>(s: seq<X>, x: X, p: X -> bool)
    ensures FirstWhere(s + [x], p) == if FirstWhere(s, p) < |s| then FirstWhere(s, p) else |s| + if p(x) then 0 else 1
    ensures FirstWhere(s, p) <= |s|
  {
    if s == [] {
      assert [x][1..] == [];
    } else {
      assert (s + [x])[1..] == s[1..] + [x];
      FirstWhereAppend(s[1..], x, p);
    }
  }
}
