# Signedness Checker qualifier rules

A Dafny model of the qualifier rules of the Checker Framework's Signedness
Checker: the lattice fact declared by the `ConstantPositive` qualifier, and the
tree-annotation and defaulting rules of `SignednessAnnotatedTypeFactory`.

An annotated type is modelled as a type kind (`Boolean`, `Byte`, `Short`,
`Int`, `Long`, `Char`, `Float`, `Double`, or any other kind) plus a set of
qualifiers drawn from `UnknownSignedness`, `Signed`, `Unsigned`,
`ConstantPositive` and `Literal`.

- `qualifiers.dfy` (module `Qualifiers`): the qualifiers, and the subtype
  relation as the reflexive-transitive closure of the `@SubtypeOf`
  declarations. Only `ConstantPositive`'s declaration is modelled, so every
  lattice fact is proved for any hierarchy that contains that declaration.
  Where `Literal` sits is left open.
- `twos_complement.dfy` (module `TwosComplement`): the value-range claim in the
  documentation of `ConstantPositive`. Bit patterns of width `w` are read as
  unsigned or as two's-complement numbers. The signed positive range is
  `0 <= v < 2^(w-1)`, so it **includes zero**; it is exactly the set of
  patterns whose top bit is clear.
- `framework.dfy` (module `Framework`): the compiler and framework entities the
  factory touches. These are the type kinds, binary operator kinds, type-use
  locations and trees. It also holds the mutable `AnnotatedTypeMirror` class
  and the `QualifierDefaults` class.
- `signedness_rules.dfy` (module `SignednessRules`): the rules as functions:
  the boolean rule, the binary-expression rule, and the local-variable default.
  It also holds lemmas about them.
- `signedness_factory.dfy` (module `SignednessFactory`): the factory and its
  tree annotator as classes. Their methods update the passed-in type in place,
  as the source does, and each is proved against the matching rule.

Two defects of the source are kept as written:

- `visitBinary` reads its "right" operand from the left operand. The model does
  the same: `VisitBinary`'s contract states that every type the classifier is
  asked about is the left operand's type, that the guard is the classifier's
  answer on that type alone, and that the right operand never matters.
- The classifier `isLiteralOrConstantPositive` always throws, and `visitBinary`
  calls it before applying any rule. The classifier is a `Classifier` value:
  either `NotYetImplemented` (as written) or `Classify(holds)` for any test
  `holds`. With `NotYetImplemented`, `VisitBinary` always ends in
  `Thrown("not yet implemented")` and leaves the type unchanged. With any given
  test, the two branches of the guard have the same effect. So the outcome does
  not depend on what the classifier answers.

The code behaves as follows, whatever its comments or a reader might expect:

- Compound assignments get only the boolean rule. They are not reset to
  `UnknownSignedness`.
- The boolean rule adds `UnknownSignedness` to the set. It does not remove a
  qualifier that is already there.
- The local-variable default also covers `float` and `double`, as the `switch`
  does. The method's doc comment names only byte, short, int and long.

## Model

| member | source | states |
|---|---|---|
| `Qualifiers.ConstantPositiveIsSubtypeOfUnsigned` | checker/src/main/java/org/checkerframework/checker/signedness/qual/ConstantPositive.java:20 | ConstantPositive is a subtype of Unsigned in every hierarchy that contains its declaration |
| `Qualifiers.ConstantPositiveIsSubtypeOfSigned` | checker/src/main/java/org/checkerframework/checker/signedness/qual/ConstantPositive.java:20 | ConstantPositive is a subtype of Signed in every hierarchy that contains its declaration |
| `Qualifiers.ConstantPositiveIsCommonLowerBound` | checker/src/main/java/org/checkerframework/checker/signedness/qual/ConstantPositive.java:20 | a ConstantPositive value is acceptable wherever Signed, Unsigned or any supertype of either is required |
| `Qualifiers.IsSubtypeTransitive` | checker/src/main/java/org/checkerframework/checker/signedness/qual/ConstantPositive.java:20 | the subtype relation generated by `@SubtypeOf` declarations is transitive |
| `Qualifiers.IsSubtypeReflexive` | checker/src/main/java/org/checkerframework/checker/signedness/qual/ConstantPositive.java:20 | every qualifier is a subtype of itself |
| `Qualifiers.DeclaredSupertypeIsSupertype` | checker/src/main/java/org/checkerframework/checker/signedness/qual/ConstantPositive.java:20 | a qualifier named in a `@SubtypeOf` declaration is a supertype of the declaring qualifier |
| `TwosComplement.ConstantPositiveSameValue` | checker/src/main/java/org/checkerframework/checker/signedness/qual/ConstantPositive.java:11-12 | a value in the signed positive range of width w (zero included) reads as itself both as unsigned and as two's-complement |
| `TwosComplement.SameReadingIffSignedPositive` | checker/src/main/java/org/checkerframework/checker/signedness/qual/ConstantPositive.java:11-12 | the signed and unsigned readings of a bit pattern agree if and only if it lies in the signed positive range |
| `TwosComplement.TopBitClearIffSignedPositive` | checker/src/main/java/org/checkerframework/checker/signedness/qual/ConstantPositive.java:11 | a pattern lies in the signed positive range exactly when its most significant bit is clear |
| `TwosComplement.SignedValueBounds` | checker/src/main/java/org/checkerframework/checker/signedness/qual/ConstantPositive.java:11 | a two's-complement reading of w bits lies in [-2^(w-1), 2^(w-1)), so the signed positive range is its non-negative half |
| `TwosComplement.UnsignedValueBound` | checker/src/main/java/org/checkerframework/checker/signedness/qual/ConstantPositive.java:12 | an unsigned reading of w bits is below 2^w |
| `TwosComplement.Bits` | checker/src/main/java/org/checkerframework/checker/signedness/qual/ConstantPositive.java:12 | every value below 2^w has a w-bit pattern whose unsigned reading is that value |
| `SignednessRules.BooleanRule` | checker/src/main/java/org/checkerframework/checker/signedness/SignednessAnnotatedTypeFactory.java:143-151 | nothing is removed, at most UnknownSignedness is added, and the result carries UnknownSignedness exactly when the kind is boolean or it was already there |
| `SignednessRules.BinaryRule` | checker/src/main/java/org/checkerframework/checker/signedness/SignednessAnnotatedTypeFactory.java:165-217 | a non-boolean shift gets exactly the left operand's qualifiers, a non-boolean non-shift keeps its own, a boolean result carries UnknownSignedness; the right operand does not enter |
| `SignednessRules.LocalVariableDefault` | checker/src/main/java/org/checkerframework/checker/signedness/SignednessAnnotatedTypeFactory.java:87-102 | qualifiers change only for an unqualified numeric or char type at a local variable, which then gets exactly UnknownSignedness |
| `SignednessRules.BooleanRuleIdempotent` | checker/src/main/java/org/checkerframework/checker/signedness/SignednessAnnotatedTypeFactory.java:143-151 | applying the boolean rule twice is the same as once |
| `SignednessRules.BinaryRuleIdempotent` | checker/src/main/java/org/checkerframework/checker/signedness/SignednessAnnotatedTypeFactory.java:158-218 | annotating an unchanged binary expression a second time changes nothing |
| `SignednessRules.ShiftIgnoresPriorAnnotations` | checker/src/main/java/org/checkerframework/checker/signedness/SignednessAnnotatedTypeFactory.java:169-175 | a shift's qualifiers do not depend on what its own type carried before |
| `SignednessRules.LocalVariableDefaultIdempotent` | checker/src/main/java/org/checkerframework/checker/signedness/SignednessAnnotatedTypeFactory.java:87-102 | applying the local-variable default twice is the same as once |
| `Framework.ApplyDefaults` | checker/src/main/java/org/checkerframework/checker/signedness/SignednessAnnotatedTypeFactory.java:96-98 | a type that already carries a qualifier is never overridden; an unqualified one gets its location's default when one is registered |
| `Framework.AnnotatedTypeMirror.AddAnnotation` | checker/src/main/java/org/checkerframework/checker/signedness/SignednessAnnotatedTypeFactory.java:146 | the qualifier is added to the type's set and nothing is removed |
| `Framework.AnnotatedTypeMirror.ReplaceAnnotations` | checker/src/main/java/org/checkerframework/checker/signedness/SignednessAnnotatedTypeFactory.java:174 | the type's qualifiers become exactly the given set |
| `Framework.QualifierDefaults.AddCheckedCodeDefault` | checker/src/main/java/org/checkerframework/checker/signedness/SignednessAnnotatedTypeFactory.java:97 | the default for the location is registered and all others are kept |
| `Framework.QualifierDefaults.Annotate` | checker/src/main/java/org/checkerframework/checker/signedness/SignednessAnnotatedTypeFactory.java:98 | the type's qualifiers become those `ApplyDefaults` gives for the tree's location |
| `SignednessFactory.SignednessAnnotatedTypeFactory.AddComputedTypeAnnotations` | checker/src/main/java/org/checkerframework/checker/signedness/SignednessAnnotatedTypeFactory.java:67-81 | the local-variable default is applied first and the superclass's computation sees the defaulted qualifiers |
| `SignednessFactory.SignednessAnnotatedTypeFactory.AddUnknownSignednessToIntegralLocals` | checker/src/main/java/org/checkerframework/checker/signedness/SignednessAnnotatedTypeFactory.java:87-102 | the new qualifiers are `LocalVariableDefault` of the kind, the tree's location and the old qualifiers |
| `SignednessFactory.SignednessTreeAnnotator.AnnotateBoolean` | checker/src/main/java/org/checkerframework/checker/signedness/SignednessAnnotatedTypeFactory.java:143-151 | the new qualifiers are `BooleanRule` of the kind and the old qualifiers |
| `SignednessFactory.SignednessTreeAnnotator.IsLiteralOrConstantPositive` | checker/src/main/java/org/checkerframework/checker/signedness/SignednessAnnotatedTypeFactory.java:220-228 | fails with "not yet implemented" exactly for the as-written classifier; a given test answers without failing |
| `SignednessFactory.SignednessTreeAnnotator.VisitBinary` | checker/src/main/java/org/checkerframework/checker/signedness/SignednessAnnotatedTypeFactory.java:153-218 | as written it always throws and leaves the type unchanged; the classifier is only ever asked about the left operand's type, once or twice, so the guard is its answer on that type alone; with any given classifier it completes with `BinaryRule` of the left operand's qualifiers, whatever the classifier answers and whatever the right operand is |
| `SignednessFactory.SignednessTreeAnnotator.VisitCompoundAssignment` | checker/src/main/java/org/checkerframework/checker/signedness/SignednessAnnotatedTypeFactory.java:230-234 | only the boolean rule is applied, so a non-boolean compound assignment keeps its qualifiers |

## Left out

- The lookup of the Value Checker's factory and its lazy cache (SignednessAnnotatedTypeFactory.java:32-41). It calls a subchecker that is not part of this model, and no rule uses it.
- The constructor's building of annotation mirrors and the set of supported qualifiers (lines 52-64). This is reflection and boilerplate; the qualifiers are the `Qualifier` datatype.
- `createTreeAnnotator` (lines 119-124). It only passes this annotator and the framework's propagation annotator to the framework's `ListTreeAnnotator`, which is not part of this model.
- The commented-out code for boxed types (lines 43-50 and 104-115).
- Compile-level slips: `Literal` is not imported (line 55), and `lht` is declared again inside both `switch` blocks (lines 173 and 208). The model follows the evident intent: the inner `lht` is the left operand's type.
- The `@SubtypeOf` declarations of `UnknownSignedness`, `Signed`, `Unsigned` and `Literal` are not part of this model. Top-ness, antisymmetry and least upper bounds of the hierarchy are therefore not stated; the lattice lemmas hold for every hierarchy that contains `ConstantPositive`'s declaration.
- The framework's `getAnnotatedType` and the superclass's `addComputedTypeAnnotations` are given to the factory as functions. Their own behaviour, including any recursive use of the tree annotator, is not modelled.
- `Framework.AnnotatedTypeMirror.ReplaceAnnotations`: modelled as replacing the whole set, while the framework replaces qualifier by qualifier within each hierarchy. The two differ in three cases: an empty replacement set (the model empties the type's set, the framework keeps the old qualifier); a replacement set holding more than one signedness qualifier (the model keeps all of them, the framework keeps one); and a type that already holds more than one (the framework removes only one of them per replaced qualifier). In these cases `SignednessRules.BinaryRule`'s "a non-boolean shift gets exactly the left operand's qualifiers" describes the model, not the framework. None of the cases arises when the left operand's type and the expression's type each carry exactly one qualifier, as a fully annotated type does.
- `Framework.QualifierDefaults.Annotate`: modelled for the one type-use position of a primitive type. Defaults for nested type uses (array components, type arguments) are not modelled; primitive kinds have none.
- `Framework.QualifierDefaults.AddCheckedCodeDefault`: the framework's refusal of a second default for the same location is not modelled; the factory always registers one default on a fresh object.
- The Java bit widths of the kinds (8, 16, 32, 64) are not tied to the kinds. The range lemmas hold for every width of at least one bit.
- checker/jdk/nullness/src/java/lang/IncompatibleClassChangeError.java is not part of this model. It is a signature stub with no logic.
- Dataflow refinement, subtype checking at assignments and diagnostics. None of this is in the modelled files.
