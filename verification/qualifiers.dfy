/**
  The qualifiers of the Signedness Checker and the subtype relation between them.

  Each qualifier names its direct supertypes in a `@SubtypeOf` meta-annotation.
  Only the declaration of `ConstantPositive` is part of this model, so the
  subtype relation is defined over any hierarchy (a map from each qualifier to
  the qualifiers it declares as supertypes) that agrees with that declaration;
  where `Literal`, `Signed`, `Unsigned` and `UnknownSignedness` sit is left open.
*/
module Qualifiers {

  datatype Qualifier = UnknownSignedness | Signed | Unsigned | ConstantPositive | Literal

  /** The `@SubtypeOf` declarations: a qualifier absent from the map declares no supertype. */
  type Hierarchy = map<Qualifier, set<Qualifier>>

  function DirectSupertypes(h: Hierarchy, q: Qualifier): (r: set<Qualifier>) {
    if q in h then h[q] else {}
  }

  /** `@SubtypeOf({Unsigned.class, Signed.class})` on `ConstantPositive`. */
  const ConstantPositiveSupertypes: set<Qualifier> := {Unsigned, Signed}

  predicate DeclaresConstantPositive(h: Hierarchy) {
    DirectSupertypes(h, ConstantPositive) == ConstantPositiveSupertypes
  }

  /** `b` is reached from `a` by following at most `n` declared `@SubtypeOf` edges upwards. */
  predicate ReachableWithin(h: Hierarchy, a: Qualifier, b: Qualifier, n: nat)
    decreases n
  {
    a == b || (n > 0 && exists c :: c in DirectSupertypes(h, a) && ReachableWithin(h, c, b, n - 1))
  }

  /** The subtype relation: the reflexive-transitive closure of the declared edges. */
  ghost predicate IsSubtype(h: Hierarchy, a: Qualifier, b: Qualifier) {
    exists n: nat :: ReachableWithin(h, a, b, n)
  }

  lemma {:induction false} ReachableWithinMonotone(h: Hierarchy, a: Qualifier, b: Qualifier, n: nat, k: nat)
    requires ReachableWithin(h, a, b, n) && n <= k
    ensures ReachableWithin(h, a, b, k)
    decreases n
  {
    if a != b {
      var c :| c in DirectSupertypes(h, a) && ReachableWithin(h, c, b, n - 1);
      ReachableWithinMonotone(h, c, b, n - 1, k - 1);
    }
  }

  lemma {:induction false} ReachableWithinTransitive(h: Hierarchy, a: Qualifier, b: Qualifier, c: Qualifier, n: nat, m: nat)
    requires ReachableWithin(h, a, b, n) && ReachableWithin(h, b, c, m)
    ensures ReachableWithin(h, a, c, n + m)
    decreases n
  {
    if a == b {
      ReachableWithinMonotone(h, b, c, m, n + m);
    } else {
      var d :| d in DirectSupertypes(h, a) && ReachableWithin(h, d, b, n - 1);
      ReachableWithinTransitive(h, d, b, c, n - 1, m);
      assert ReachableWithin(h, d, c, n + m - 1);
    }
  }

  /** Every qualifier is a subtype of itself. */
  lemma IsSubtypeReflexive(h: Hierarchy, a: Qualifier)
    ensures IsSubtype(h, a, a)
  {
    assert ReachableWithin(h, a, a, 0);
  }

  /** Subtyping composes: a subtype of a subtype is a subtype. */
  lemma IsSubtypeTransitive(h: Hierarchy, a: Qualifier, b: Qualifier, c: Qualifier)
    requires IsSubtype(h, a, b) && IsSubtype(h, b, c)
    ensures IsSubtype(h, a, c)
  {
    var n: nat :| ReachableWithin(h, a, b, n);
    var m: nat :| ReachableWithin(h, b, c, m);
    ReachableWithinTransitive(h, a, b, c, n, m);
  }

  /** A declared supertype is a supertype. */
  lemma DeclaredSupertypeIsSupertype(h: Hierarchy, a: Qualifier, b: Qualifier)
    requires b in DirectSupertypes(h, a)
    ensures IsSubtype(h, a, b)
  {
    assert ReachableWithin(h, b, b, 0);
    assert ReachableWithin(h, a, b, 1);
  }

  /** ConstantPositive is a subtype of Unsigned in every hierarchy that has its declaration. */
  lemma ConstantPositiveIsSubtypeOfUnsigned(h: Hierarchy)
    requires DeclaresConstantPositive(h)
    ensures IsSubtype(h, ConstantPositive, Unsigned)
  {
    DeclaredSupertypeIsSupertype(h, ConstantPositive, Unsigned);
  }

  /** ConstantPositive is a subtype of Signed in every hierarchy that has its declaration. */
  lemma ConstantPositiveIsSubtypeOfSigned(h: Hierarchy)
    requires DeclaresConstantPositive(h)
    ensures IsSubtype(h, ConstantPositive, Signed)
  {
    DeclaredSupertypeIsSupertype(h, ConstantPositive, Signed);
  }

  /**
    ConstantPositive is a common lower bound of Signed and Unsigned: wherever a
    Signed or an Unsigned value (or any supertype of either) is required, a
    ConstantPositive value is acceptable.
  */
  lemma ConstantPositiveIsCommonLowerBound(h: Hierarchy, q: Qualifier)
    requires DeclaresConstantPositive(h)
    requires IsSubtype(h, Signed, q) || IsSubtype(h, Unsigned, q)
    ensures IsSubtype(h, ConstantPositive, q)
  {
    if IsSubtype(h, Signed, q) {
      ConstantPositiveIsSubtypeOfSigned(h);
      IsSubtypeTransitive(h, ConstantPositive, Signed, q);
    } else {
      ConstantPositiveIsSubtypeOfUnsigned(h);
      IsSubtypeTransitive(h, ConstantPositive, Unsigned, q);
    }
  }
}
