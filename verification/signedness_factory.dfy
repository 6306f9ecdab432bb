/**
  The Signedness Checker's type factory and its tree annotator. Both work by
  updating the qualifiers of the type they are handed in place; each method is
  proved against the rule of `SignednessRules` that it implements.

  The framework's own behaviour that the factory delegates to (the superclass's
  computation of annotations and the lookup of a tree's type) is given to the
  factory as functions when it is built.
*/
module SignednessFactory {
  import opened Qualifiers
  import opened Framework
  import opened SignednessRules

  /**
    The classifier `isLiteralOrConstantPositive`: either as it is written, where
    every call throws, or a given test of an annotated type.
  */
  datatype Classifier = NotYetImplemented | Classify(holds: AnnotatedType -> bool)

  const NotYetImplementedMessage: string := "not yet implemented"

  class SignednessAnnotatedTypeFactory {
    /** The superclass's `addComputedTypeAnnotations`: new qualifiers from tree, kind, qualifiers and the flow flag. */
    const superAddComputedTypeAnnotations: (Tree, TypeKind, set<Qualifier>, bool) -> set<Qualifier>
    /** The framework's `getAnnotatedType`: the type of a tree. */
    const getAnnotatedType: Tree -> AnnotatedType

    constructor (superAddComputedTypeAnnotations: (Tree, TypeKind, set<Qualifier>, bool) -> set<Qualifier>,
                 getAnnotatedType: Tree -> AnnotatedType)
      ensures this.superAddComputedTypeAnnotations == superAddComputedTypeAnnotations
      ensures this.getAnnotatedType == getAnnotatedType
    {
      this.superAddComputedTypeAnnotations := superAddComputedTypeAnnotations;
      this.getAnnotatedType := getAnnotatedType;
    }

    /**
      The local-variable default is applied first, and the superclass's
      computation then sees the defaulted qualifiers.
    */
    method AddComputedTypeAnnotations(tree: Tree, atype: AnnotatedTypeMirror, iUseFlow: bool)
      modifies atype
      ensures atype.annotations ==
                superAddComputedTypeAnnotations(tree, atype.kind,
                  LocalVariableDefault(atype.kind, LocationOf(tree), old(atype.annotations)), iUseFlow)
    {
      AddUnknownSignednessToIntegralLocals(tree, atype);
      atype.annotations := superAddComputedTypeAnnotations(tree, atype.kind, atype.annotations, iUseFlow);
    }

    /**
      For byte, short, int, long, float, double and char types, applies a fresh set
      of defaults whose only entry is UnknownSignedness for local variables; other
      kinds are left alone.
    */
    method AddUnknownSignednessToIntegralLocals(tree: Tree, atype: AnnotatedTypeMirror)
      modifies atype
      ensures atype.annotations == LocalVariableDefault(atype.kind, LocationOf(tree), old(atype.annotations))
    {
      match atype.kind
      case Byte | Short | Int | Long | Float | Double | Char =>
        var defaults := new QualifierDefaults();
        defaults.AddCheckedCodeDefault(UnknownSignedness, LocalVariable);
        assert defaults.checkedCodeDefaults == LocalVariableDefaults;
        defaults.Annotate(tree, atype);
      case _ =>
    }
  }

  class SignednessTreeAnnotator {
    const atypeFactory: SignednessAnnotatedTypeFactory
    const classifier: Classifier

    constructor (atypeFactory: SignednessAnnotatedTypeFactory, classifier: Classifier)
      ensures this.atypeFactory == atypeFactory && this.classifier == classifier
    {
      this.atypeFactory := atypeFactory;
      this.classifier := classifier;
    }

    method AnnotateBoolean(atype: AnnotatedTypeMirror)
      modifies atype
      ensures atype.annotations == BooleanRule(atype.kind, old(atype.annotations))
    {
      match atype.kind
      case Boolean =>
        atype.AddAnnotation(UnknownSignedness);
      case _ =>
    }

    /** Fails on every call as written; a given classifier answers without failing. */
    method IsLiteralOrConstantPositive(atm: AnnotatedType) returns (r: Result<bool>)
      ensures r.Failure? <==> classifier.NotYetImplemented?
      ensures r.Failure? ==> r.error == NotYetImplementedMessage
      ensures r.Success? ==> r.value == classifier.holds(atm)
    {
      match classifier
      case NotYetImplemented =>
        r := Failure(NotYetImplementedMessage);
      case Classify(holds) =>
        r := Success(holds(atm));
    }

    /**
      Both operand types are read from the left operand. The classifier is asked
      about the left operand's type before anything else happens: when it throws,
      the visitor ends with that error and the type is untouched. Otherwise the
      guard is the classifier's answer on the left operand's type alone, and the
      two branches of the guard act alike, so the qualifiers end up those of
      `BinaryRule`, whatever the classifier answered and whatever the right
      operand is. `asked` lists the types the classifier was asked about and
      `guardHeld` is the value of the guard.
    */
    method VisitBinary(tree: Tree, atype: AnnotatedTypeMirror)
      returns (c: Completion, ghost asked: seq<AnnotatedType>, ghost guardHeld: bool)
      requires tree.Binary?
      modifies atype
      ensures c == if classifier.NotYetImplemented? then Thrown(NotYetImplementedMessage) else Normal
      ensures 1 <= |asked| <= 2
      ensures forall i :: 0 <= i < |asked| ==> asked[i] == atypeFactory.getAnnotatedType(tree.left)
      ensures classifier.NotYetImplemented? ==> |asked| == 1
      ensures classifier.Classify? ==>
                guardHeld == classifier.holds(atypeFactory.getAnnotatedType(tree.left)) &&
                |asked| == (if guardHeld then 2 else 1)
      ensures c.Thrown? ==> atype.annotations == old(atype.annotations)
      ensures c.Normal? ==>
                atype.annotations ==
                  BinaryRule(tree.op, atype.kind, old(atype.annotations),
                             atypeFactory.getAnnotatedType(tree.left).annotations)
    {
      var lhs := tree.left;
      var rhs := tree.left;
      var lht := atypeFactory.getAnnotatedType(lhs);
      var rht := atypeFactory.getAnnotatedType(rhs);

      // `isLiteralOrConstantPositive(lht) && isLiteralOrConstantPositive(rht)`
      // with Java's short-circuit: the right call happens only after the left one answered true,
      // and an error from either call ends the visitor.
      var guard := IsLiteralOrConstantPositive(lht);
      asked, guardHeld := [lht], false;
      if guard.Success? && guard.value {
        guard := IsLiteralOrConstantPositive(rht);
        asked := asked + [rht];
      }
      if guard.Failure? {
        c := Thrown(guard.error);
        return;
      }
      guardHeld := guard.value;

      if guard.value {
        // Special rules for operands that are both Literal or ConstantPositive.
        match tree.op {
          case LeftShift | RightShift | UnsignedRightShift =>
            var shifted := atypeFactory.getAnnotatedType(tree.left);
            atype.ReplaceAnnotations(shifted.annotations);
          case _ =>
        }
        AnnotateBoolean(atype);
        c := Normal;
      } else {
        match tree.op {
          case LeftShift | RightShift | UnsignedRightShift =>
            var shifted := atypeFactory.getAnnotatedType(tree.left);
            atype.ReplaceAnnotations(shifted.annotations);
          case _ =>
        }
        AnnotateBoolean(atype);
        c := Normal;
      }
    }

    /** A compound assignment gets only the boolean rule. */
    method VisitCompoundAssignment(tree: Tree, atype: AnnotatedTypeMirror)
      requires tree.CompoundAssignment?
      modifies atype
      ensures atype.annotations == BooleanRule(atype.kind, old(atype.annotations))
    {
      AnnotateBoolean(atype);
    }
  }
}
