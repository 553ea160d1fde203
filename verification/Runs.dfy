/** Runs of a step relation: what can follow a state, and what is kept along the way. */
module Runs {

  ghost predicate Link<S(!new)>(next: (S, S) -> bool, r: seq<S>, i: nat)
    requires i + 1 < |r|
  {
    next(r[i], r[i + 1])
  }

  /** States each of which is a step from the one before. */
  ghost predicate Path<S(!new)>(next: (S, S) -> bool, r: seq<S>) {
    |r| > 0 && forall i: nat | i + 1 < |r| :: Link(next, r, i)
  }

  ghost predicate Leads<S(!new)>(next: (S, S) -> bool, r: seq<S>, s: S, s': S) {
    Path(next, r) && r[0] == s && r[|r| - 1] == s'
  }

  /** Some continuation of a run that is at `s` is later at `s'`. */
  ghost predicate Reaches<S(!new)>(next: (S, S) -> bool, s: S, s': S) {
    exists r :: Leads(next, r, s, s')
  }

  lemma Stays<S(!new)>(next: (S, S) -> bool, s: S)
    ensures Reaches(next, s, s)
  {
    assert Leads(next, [s], s, s);
  }

  lemma Then<S(!new)>(next: (S, S) -> bool, s: S, s': S, s'': S)
    requires Reaches(next, s, s') && next(s', s'')
    ensures Reaches(next, s, s'')
  {
    var r :| Leads(next, r, s, s');
    var longer := r + [s''];
    forall i: nat | i + 1 < |longer| ensures Link(next, longer, i) {
      if i + 1 < |r| {
        assert Link(next, r, i);
      }
    }
    assert Leads(next, longer, s, s'');
  }

  lemma {:induction false} Follows<S(!new)>(next: (S, S) -> bool, s: S, r: seq<S>, i: nat)
    requires Path(next, r) && i < |r| && Reaches(next, s, r[0])
    ensures Reaches(next, s, r[i])
  {
    if i > 0 {
      Follows(next, s, r, i - 1);
      assert Link(next, r, i - 1);
      Then(next, s, r[i - 1], r[i]);
    }
  }

  lemma Joins<S(!new)>(next: (S, S) -> bool, s: S, s': S, s'': S)
    requires Reaches(next, s, s') && Reaches(next, s', s'')
    ensures Reaches(next, s, s'')
  {
    var r :| Leads(next, r, s', s'');
    Follows(next, s, r, |r| - 1);
  }

  /** What every step keeps, every run keeps. */
  lemma {:induction false} KeptAlong<S(!new)>(next: (S, S) -> bool, kept: S -> bool, r: seq<S>, i: nat)
    requires Path(next, r) && i < |r| && kept(r[0])
    requires forall s, s' | kept(s) && next(s, s') :: kept(s')
    ensures kept(r[i])
  {
    if i > 0 {
      KeptAlong(next, kept, r, i - 1);
      assert Link(next, r, i - 1);
    }
  }

  lemma Kept<S(!new)>(next: (S, S) -> bool, kept: S -> bool, s: S, s': S)
    requires Reaches(next, s, s') && kept(s)
    requires forall x, y | kept(x) && next(x, y) :: kept(y)
    ensures kept(s')
  {
    var r :| Leads(next, r, s, s');
    KeptAlong(next, kept, r, |r| - 1);
  }
}
