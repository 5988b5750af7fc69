/** Facts about sequences that several modules need. */
module Sequences {
  import opened Wrappers

  /** The place of the first element with the property. */
  function FindFirst<A>(s: seq<A>, p: A -> bool): (r: Option<nat>)
    ensures r.Some? ==> r.value < |s| && p(s[r.value]) && forall i | 0 <= i < r.value :: !p(s[i])
    ensures r.None? ==> forall i | 0 <= i < |s| :: !p(s[i])
  {
    if s == [] then None
    else if p(s[0]) then Some(0)
    else match FindFirst(s[1..], p)
      case None => None
      case Some(i) => Some(i + 1)
  }

  function Reversed<A>(s: seq<A>): (r: seq<A>)
    ensures |r| == |s| && forall i | 0 <= i < |s| :: r[i] == s[|s| - 1 - i]
  {
    seq(|s|, i requires 0 <= i < |s| => s[|s| - 1 - i])
  }

  lemma ReversedSnoc<A>(s: seq<A>, x: A)
    ensures Reversed(s + [x]) == [x] + Reversed(s)
  {
    forall i | 0 < i <= |s| ensures Reversed(s + [x])[i] == Reversed(s)[i - 1] {
      assert (s + [x])[|s| - i] == s[|s| - i];
    }
  }

  /** s without the element at a place, if there is such a place: those before it stay where they
      are, those after it move up by one. */
  function RemoveAt<A>(s: seq<A>, at: nat): (r: seq<A>)
    ensures at >= |s| ==> r == s
    ensures at < |s| ==> |r| + 1 == |s| && forall i | 0 <= i < |r| :: r[i] == s[if i < at then i else i + 1]
  {
    if at < |s| then s[..at] + s[at + 1..] else s
  }

  /** How many elements have the property. */
  function Count<A>(s: seq<A>, p: A -> bool): (n: nat)
    ensures n <= |s|
  {
    if s == [] then 0 else Count(s[..|s| - 1], p) + if p(s[|s| - 1]) then 1 else 0
  }

  /** r is made of the elements of s with the property, each once and in their order: such an
      element stands where as many go before it as in s. f is what r keeps of an element. */
  ghost predicate PickedFrom<A, B(!new)>(s: seq<A>, p: A -> bool, f: A -> B, r: seq<B>) {
    |r| == Count(s, p) && forall i | 0 <= i < |s| && p(s[i]) :: Count(s[..i], p) < |r| && r[Count(s[..i], p)] == f(s[i])
  }

  lemma PickedOneMore<A, B(!new)>(s: seq<A>, p: A -> bool, f: A -> B, r: seq<B>, x: A)
    requires PickedFrom(s, p, f, r)
    ensures PickedFrom(s + [x], p, f, if p(x) then r + [f(x)] else r)
  {
    var t := s + [x];
    assert t[..|s|] == s;
    forall i | 0 <= i < |s| ensures t[..i] == s[..i] && t[i] == s[i] {
    }
  }

  lemma Concatenated<A>(a: seq<A>, b: seq<A>, c: seq<A>)
    ensures a + b + c == a + (b + c)
  {
  }

  /** What holds at the start of a run and is kept by every step holds throughout. */
  lemma {:induction false} HoldsThroughout<S(!new), E(!new)>(next: (S, E, S) -> bool, inv: S -> bool, states: seq<S>, events: seq<E>, i: nat)
    requires |states| == |events| + 1 && i <= |events| && inv(states[0])
    requires forall k {:trigger events[k]} | 0 <= k < |events| :: next(states[k], events[k], states[k + 1])
    requires forall s, e, t :: inv(s) && next(s, e, t) ==> inv(t)
    ensures inv(states[i])
  {
    if i > 0 {
      HoldsThroughout(next, inv, states, events, i - 1);
      assert next(states[i - 1], events[i - 1], states[i]);
    }
  }
}
