/**
  The parts of the host compiler and of the type-checking framework that the
  Signedness Checker's factory works with, reduced to what its rules look at:
  the kind of a type, the kinds of syntax trees, the location a type is used at,
  and annotated types, which carry a kind and a set of qualifiers.
*/
module Framework {
  import opened Qualifiers

  /** The compiler's type kinds: the eight primitive kinds and everything else. */
  datatype TypeKind = Boolean | Byte | Short | Int | Long | Char | Float | Double | OtherKind

  /** The compiler's binary operator kinds. */
  datatype BinaryOp =
    | LeftShift | RightShift | UnsignedRightShift
    | And | Or | Xor | ConditionalAnd | ConditionalOr
    | Plus | Minus | Multiply | Divide | Remainder
    | EqualTo | NotEqualTo | LessThan | LessThanEqual | GreaterThan | GreaterThanEqual

  /** Where a type is used; defaults are chosen per location. */
  datatype TypeUseLocation =
    | LocalVariable | ResourceVariable | ExceptionParameter | Field | Parameter | Receiver | Return | Otherwise

  /** A read-only syntax tree, as far as the factory inspects it. */
  datatype Tree =
    | Binary(op: BinaryOp, left: Tree, right: Tree)
    | CompoundAssignment(variable: Tree, expression: Tree)
    | VariableTree(location: TypeUseLocation)
    | OtherTree

  /** The location at which a tree's type is used: only variables sit at a declared location. */
  function LocationOf(tree: Tree): (r: TypeUseLocation) {
    match tree
    case VariableTree(location) => location
    case _ => Otherwise
  }

  /** A snapshot of an annotated type, as the framework's type lookup returns it. */
  datatype AnnotatedType = AnnotatedType(kind: TypeKind, annotations: set<Qualifier>)

  datatype Result<T> = Success(value: T) | Failure(error: string)

  /** How a visitor ends: normally, or by throwing an error with a message. */
  datatype Completion = Normal | Thrown(message: string)

  /**
    The framework's defaulting step: a type use that carries no qualifier gets the
    default registered for its location, if there is one; an explicit qualifier
    is never overridden.
  */
  function ApplyDefaults(defaults: map<TypeUseLocation, Qualifier>, location: TypeUseLocation,
                         annotations: set<Qualifier>): (r: set<Qualifier>)
    ensures annotations != {} ==> r == annotations
    ensures annotations == {} && location in defaults ==> r == {defaults[location]}
    ensures location !in defaults ==> r == annotations
  {
    if annotations == {} && location in defaults then {defaults[location]} else annotations
  }

  /** A type whose qualifiers are updated in place; its kind never changes. */
  class AnnotatedTypeMirror {
    const kind: TypeKind
    var annotations: set<Qualifier>

    constructor (kind: TypeKind, annotations: set<Qualifier>)
      ensures this.kind == kind && this.annotations == annotations
    {
      this.kind := kind;
      this.annotations := annotations;
    }

    method AddAnnotation(q: Qualifier)
      modifies this
      ensures annotations == old(annotations) + {q}
    {
      annotations := annotations + {q};
    }

    method ReplaceAnnotations(qs: set<Qualifier>)
      modifies this
      ensures annotations == qs
    {
      annotations := qs;
    }
  }

  /** A set of per-location defaults for checked code, applied to one type at a time. */
  class QualifierDefaults {
    var checkedCodeDefaults: map<TypeUseLocation, Qualifier>

    constructor ()
      ensures checkedCodeDefaults == map[]
    {
      checkedCodeDefaults := map[];
    }

    method AddCheckedCodeDefault(q: Qualifier, location: TypeUseLocation)
      modifies this
      ensures checkedCodeDefaults == old(checkedCodeDefaults)[location := q]
    {
      checkedCodeDefaults := checkedCodeDefaults[location := q];
    }

    method Annotate(tree: Tree, t: AnnotatedTypeMirror)
      modifies t
      ensures t.annotations == ApplyDefaults(checkedCodeDefaults, LocationOf(tree), old(t.annotations))
    {
      t.annotations := ApplyDefaults(checkedCodeDefaults, LocationOf(tree), t.annotations);
    }
  }
}
