/**
  The Signedness Checker's rules for the qualifiers of an expression's type, as
  functions of the kind and qualifiers they read. The factory's visitors and its
  defaulting step, which update types in place, are proved against these.
*/
module SignednessRules {
  import opened Qualifiers
  import opened Framework

  /**
    The boolean rule: a boolean-kinded type gets UnknownSignedness added, so that
    the later propagation step cannot give it Signed or Unsigned; any other kind
    keeps its qualifiers.
  */
  function BooleanRule(kind: TypeKind, annotations: set<Qualifier>): (r: set<Qualifier>)
    ensures annotations <= r && r - annotations <= {UnknownSignedness}
    ensures UnknownSignedness in r <==> kind == Boolean || UnknownSignedness in annotations
  {
    match kind
    case Boolean => annotations + {UnknownSignedness}
    case _ => annotations
  }

  predicate IsShift(op: BinaryOp) {
    match op
    case LeftShift | RightShift | UnsignedRightShift => true
    case _ => false
  }

  /**
    The qualifiers of a binary expression of operator `op` whose type has kind
    `kind` and qualifiers `annotations`, when its left operand's type carries
    `leftAnnotations`: a shift takes exactly the left operand's qualifiers, any
    other operator keeps what the expression had, and the boolean rule follows.
    Nothing about the right operand enters.
  */
  function BinaryRule(op: BinaryOp, kind: TypeKind, annotations: set<Qualifier>,
                      leftAnnotations: set<Qualifier>): (r: set<Qualifier>)
    ensures kind != Boolean && IsShift(op) ==> r == leftAnnotations
    ensures kind != Boolean && !IsShift(op) ==> r == annotations
    ensures kind == Boolean ==> UnknownSignedness in r
    ensures IsShift(op) ==> leftAnnotations <= r && r - leftAnnotations <= {UnknownSignedness}
    ensures !IsShift(op) ==> annotations <= r && r - annotations <= {UnknownSignedness}
  {
    BooleanRule(kind, if IsShift(op) then leftAnnotations else annotations)
  }

  /** The kinds that get the UnknownSignedness local-variable default. */
  predicate IsNumericOrChar(kind: TypeKind) {
    match kind
    case Byte | Short | Int | Long | Float | Double | Char => true
    case _ => false
  }

  /** The single default registered for the numeric and char kinds. */
  const LocalVariableDefaults: map<TypeUseLocation, Qualifier> := map[LocalVariable := UnknownSignedness]

  /**
    The local-variable default: an unqualified numeric or char type used at a
    local variable gets UnknownSignedness, so that dataflow may refine it; every
    other kind, location or already-qualified type is left as it was.
  */
  function LocalVariableDefault(kind: TypeKind, location: TypeUseLocation,
                                annotations: set<Qualifier>): (r: set<Qualifier>)
    ensures r != annotations ==>
              IsNumericOrChar(kind) && location == LocalVariable && annotations == {}
    ensures IsNumericOrChar(kind) && location == LocalVariable && annotations == {} ==>
              r == {UnknownSignedness}
  {
    if IsNumericOrChar(kind) then ApplyDefaults(LocalVariableDefaults, location, annotations)
    else annotations
  }

  /** Applying the boolean rule again changes nothing. */
  lemma BooleanRuleIdempotent(kind: TypeKind, annotations: set<Qualifier>)
    ensures BooleanRule(kind, BooleanRule(kind, annotations)) == BooleanRule(kind, annotations)
  {
  }

  /** Annotating a binary expression again, with its operand unchanged, changes nothing. */
  lemma BinaryRuleIdempotent(op: BinaryOp, kind: TypeKind, annotations: set<Qualifier>,
                             leftAnnotations: set<Qualifier>)
    ensures var once := BinaryRule(op, kind, annotations, leftAnnotations);
            BinaryRule(op, kind, once, leftAnnotations) == once
  {
  }

  /** A shift's qualifiers do not depend on those its own type had before. */
  lemma ShiftIgnoresPriorAnnotations(op: BinaryOp, kind: TypeKind, a1: set<Qualifier>, a2: set<Qualifier>,
                                     leftAnnotations: set<Qualifier>)
    requires IsShift(op)
    ensures BinaryRule(op, kind, a1, leftAnnotations) == BinaryRule(op, kind, a2, leftAnnotations)
  {
  }

  /** Applying the local-variable default again changes nothing. */
  lemma LocalVariableDefaultIdempotent(kind: TypeKind, location: TypeUseLocation, annotations: set<Qualifier>)
    ensures var once := LocalVariableDefault(kind, location, annotations);
            LocalVariableDefault(kind, location, once) == once
  {
  }
}
