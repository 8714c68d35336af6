/** OAuth scope sets, ordered by an implication between single scopes.

    The implication itself belongs to a shared library that is not part of this
    repository, so it is a parameter; the results ask of it only that it is a
    preorder. */
module Scopes {

  type Scope = string

  type ScopeSet = set<Scope>

  type Implication = (Scope, Scope) -> bool

  ghost predicate Preorder(implies: Implication) {
    && (forall x :: implies(x, x))
    && (forall x, y, z :: implies(x, y) && implies(y, z) ==> implies(x, z))
  }

  /** Some scope that is held implies the wanted one. */
  predicate Covers(implies: Implication, have: ScopeSet, wanted: Scope) {
    exists h :: h in have && implies(h, wanted)
  }

  predicate Contains(implies: Implication, have: ScopeSet, wanted: ScopeSet) {
    forall w :: w in wanted ==> Covers(implies, have, w)
  }

  function Difference(implies: Implication, a: ScopeSet, b: ScopeSet): ScopeSet {
    set x | x in a && !Covers(implies, b, x)
  }

  predicate Intersects(implies: Implication, have: ScopeSet, other: ScopeSet) {
    exists w :: w in other && Covers(implies, have, w)
  }

  /** Narrowing a narrowed scope set stays inside the first one. */
  lemma ContainsTransitive(implies: Implication, a: ScopeSet, b: ScopeSet, c: ScopeSet)
    requires Preorder(implies)
    requires Contains(implies, a, b) && Contains(implies, b, c)
    ensures Contains(implies, a, c)
  {
    forall w | w in c
      ensures Covers(implies, a, w)
    {
      var h :| h in b && implies(h, w);
      assert Covers(implies, a, h);
      var g :| g in a && implies(g, h);
      assert implies(g, w);
    }
  }

  lemma ContainsReflexive(implies: Implication, a: ScopeSet)
    requires Preorder(implies)
    ensures Contains(implies, a, a)
  {
    forall w | w in a
      ensures Covers(implies, a, w)
    {
      assert implies(w, w);
    }
  }
}
