/**
 * The small part of the host program model (PSI) that the two components read.
 * Syntax nodes and types are values; object identity is modelled by an `id`.
 */
module Psi {

  /** A nullable reference: `None` is Java's `null`. */
  datatype Option<+T> = None | Some(value: T)

  /** A `PsiClass`, by identity. Inheritance between classes is supplied by the caller. */
  type ClassId = nat

  /** A `PsiType`: a class type whose `resolve()` may fail, or any other type (primitive, array, ...). */
  datatype PsiType =
    | ClassType(canonicalText: string, resolved: Option<ClassId>)
    | OtherType(canonicalText: string)

  /** A `PsiExpression`; `exprType` is what `getType()` answers, possibly `null`. */
  datatype PsiExpression = PsiExpression(id: nat, exprType: Option<PsiType>)

  /** The class a type resolves to, when it is a class type that resolves. */
  function ResolvedClass(t: Option<PsiType>): (r: Option<ClassId>)
    ensures r.Some? <==> t.Some? && t.value.ClassType? && t.value.resolved.Some?
    ensures r.Some? ==> t.value.resolved == r
  {
    if t.Some? && t.value.ClassType? then t.value.resolved else None
  }
}
