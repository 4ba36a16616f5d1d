/** Types shared by every service: optional values and the fate of a remote call. */
module Prelude {
  datatype Option<+T> = None | Some(value: T)

  /** What becomes of one remote command. The caller sees an error exactly when the reply is
      lost, and a command whose reply is lost may or may not have taken effect. */
  datatype Fate = Answered | Lost(applied: bool)
  {
    predicate Applied() { Answered? || applied }
  }
}

/** Runs of a step function, with the step predicates that trace hypotheses are made of. */
module Runs {
  /** The state after the given events, in order. */
  function Run<S, E>(next: (S, E) -> S, s: S, events: seq<E>): S
  {
    if events == [] then s
    else next(Run(next, s, events[..|events| - 1]), events[|events| - 1])
  }

  /** p holds of every step: of each event together with the state it meets. */
  ghost predicate Always<S, E>(next: (S, E) -> S, s: S, events: seq<E>, p: (S, E) -> bool)
  {
    events == [] ||
    (var before := events[..|events| - 1];
     Always(next, s, before, p) && p(Run(next, s, before), events[|events| - 1]))
  }

  /** The number of steps of which p holds. */
  ghost function Count<S, E>(next: (S, E) -> S, s: S, events: seq<E>, p: (S, E) -> bool): nat
  {
    if events == [] then 0
    else
      var before := events[..|events| - 1];
      Count(next, s, before, p) + if p(Run(next, s, before), events[|events| - 1]) then 1 else 0
  }

  lemma RunSnoc<S, E>(next: (S, E) -> S, s: S, events: seq<E>, e: E)
    ensures Run(next, s, events + [e]) == next(Run(next, s, events), e)
  {
    assert (events + [e])[..|events|] == events;
  }

  lemma RunOne<S, E>(next: (S, E) -> S, s: S, e: E)
    ensures Run(next, s, [e]) == next(s, e)
  {
    assert [e][..0] == [];
  }

  lemma CountSnoc<S, E>(next: (S, E) -> S, s: S, events: seq<E>, e: E, p: (S, E) -> bool)
    ensures Count(next, s, events + [e], p)
            == Count(next, s, events, p) + if p(Run(next, s, events), e) then 1 else 0
  {
    assert (events + [e])[..|events|] == events;
  }

  lemma AlwaysSnoc<S, E>(next: (S, E) -> S, s: S, events: seq<E>, e: E, p: (S, E) -> bool)
    ensures Always(next, s, events + [e], p) <==> Always(next, s, events, p) && p(Run(next, s, events), e)
  {
    assert (events + [e])[..|events|] == events;
  }

  lemma {:induction false} RunConcat<S, E>(next: (S, E) -> S, s: S, first: seq<E>, second: seq<E>)
    ensures Run(next, s, first + second) == Run(next, Run(next, s, first), second)
  {
    if second == [] {
      assert first + second == first;
    } else {
      var before := second[..|second| - 1];
      RunConcat(next, s, first, before);
      assert (first + second)[..|first + second| - 1] == first + before;
    }
  }
}

/** Counting the elements of finite sets. */
module Counting {
  /** The numbers 0, ..., n - 1. */
  function Below(n: nat): (r: set<nat>)
    ensures |r| == n
    ensures forall c: nat :: c in r <==> c < n
  {
    if n == 0 then {} else Below(n - 1) + {n - 1}
  }

  lemma RemoveOne<T>(s: set<T>, x: T)
    ensures |s - {x}| == |s| - if x in s then 1 else 0
  {
    if x in s { assert s == (s - {x}) + {x}; } else { assert s - {x} == s; }
  }

  lemma {:induction false} SubsetIsSmaller<T>(small: set<T>, large: set<T>)
    requires small <= large
    ensures |small| <= |large|
  {
    if small != {} {
      var x :| x in small;
      SubsetIsSmaller(small - {x}, large - {x});
    }
  }
}
