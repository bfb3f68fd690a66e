/**
 * Why an outlives constraint was generated, and the sentence fragment each
 * reason contributes to a diagnostic.
 */
module ConstraintCategories {

  /** The closed set of constraint categories (every case of the description table). */
  datatype ConstraintCategory =
    | Return
    | Yield
    | UseAsConst
    | UseAsStatic
    | TypeAnnotation
    | Cast
    | ClosureBounds
    | CallArgument
    | CopyBound
    | SizedBound
    | Assignment
    | OpaqueType
    | Boring
    | BoringNoLocation
    | Internal

  /** Categories that carry no user-facing description. */
  predicate IsUninformative(c: ConstraintCategory) {
    c.Boring? || c.BoringNoLocation? || c.Internal?
  }

  /**
   * The description fragment of a category. A fragment is either empty or ends
   * with exactly one space, so `Description(c) + "requires that ..."` reads as a
   * sentence in both cases.
   */
  function Description(c: ConstraintCategory): (r: string)
    ensures r == "" <==> IsUninformative(c)
    ensures r != "" ==> r[|r| - 1] == ' ' && |r| >= 2 && r[|r| - 2] != ' '
  {
    match c
    case Assignment => "assignment "
    case Return => "returning this value "
    case Yield => "yielding this value "
    case UseAsConst => "using this value as a constant "
    case UseAsStatic => "using this value as a static "
    case Cast => "cast "
    case CallArgument => "argument "
    case TypeAnnotation => "type annotation "
    case ClosureBounds => "closure body "
    case SizedBound => "proving this value is `Sized` "
    case CopyBound => "copying this value "
    case OpaqueType => "opaque type "
    case Boring | BoringNoLocation | Internal => ""
  }
}
