/** `TypeUtils.isTypeMirrorEqual`, as written and as evidently intended.
    The written version tests the first argument's kind against itself and
    takes the "other" element from the first argument again, so it answers
    true for any primitive or declared first argument.
 */
module TypeUtils {
  import opened Elements

  /** `TypeKind.isPrimitive`. */
  predicate IsPrimitive(t: TypeMirror) {
    t.BooleanType? || t.ByteType? || t.ShortType? || t.IntType? || t.LongType?
    || t.CharType? || t.FloatType? || t.DoubleType?
  }

  /** The method as written: identity and `equals` are one test on values;
      both later tests compare `typeMirror` with itself. */
  predicate IsTypeMirrorEqualAsWritten(typeMirror: TypeMirror, other: TypeMirror) {
    if typeMirror == other then true
    else if KindOf(typeMirror) == KindOf(typeMirror) && IsPrimitive(typeMirror) then true
    else if KindOf(typeMirror) == KindOf(typeMirror) && typeMirror.DeclaredType? then
      typeMirror.decl == typeMirror.decl
    else false
  }

  /** What the written method decides: equal arguments, or any primitive or
      declared first argument. */
  lemma AsWrittenIgnoresOther(typeMirror: TypeMirror, other: TypeMirror)
    ensures IsTypeMirrorEqualAsWritten(typeMirror, other)
        <==> typeMirror == other || IsPrimitive(typeMirror) || typeMirror.DeclaredType?
  {
  }

  /** The input that shows it: `int` is reported equal to `String`. */
  lemma AsWrittenIntEqualsString(stringElement: TypeElement)
    ensures IsTypeMirrorEqualAsWritten(IntType, DeclaredType(stringElement, []))
    ensures KindOf(IntType) != KindOf(DeclaredType(stringElement, []))
  {
  }

  /** The evidently intended comparison: the same kind, and for declared
      types the same element. */
  predicate IsTypeMirrorEqual(typeMirror: TypeMirror, other: TypeMirror) {
    if typeMirror == other then true
    else if KindOf(typeMirror) == KindOf(other) && IsPrimitive(typeMirror) then true
    else if KindOf(typeMirror) == KindOf(other) && typeMirror.DeclaredType? then
      typeMirror.decl == other.decl
    else false
  }

  /** The corrected comparison is an equivalence that never relates types of
      different kinds, and that ignores type arguments of declared types. */
  lemma IsTypeMirrorEqualProperties(a: TypeMirror, b: TypeMirror, c: TypeMirror)
    ensures IsTypeMirrorEqual(a, a)
    ensures IsTypeMirrorEqual(a, b) ==> IsTypeMirrorEqual(b, a)
    ensures IsTypeMirrorEqual(a, b) && IsTypeMirrorEqual(b, c) ==> IsTypeMirrorEqual(a, c)
    ensures IsTypeMirrorEqual(a, b) ==> KindOf(a) == KindOf(b)
    ensures IsTypeMirrorEqual(a, b) && a.DeclaredType? ==> a.decl == b.decl
    ensures a.DeclaredType? && b.DeclaredType? && a.decl == b.decl ==> IsTypeMirrorEqual(a, b)
    ensures KindOf(a) == KindOf(b) && IsPrimitive(a) ==> IsTypeMirrorEqual(a, b)
  {
  }

  /** Where the written version answers false, so does the corrected one;
      the written version only errs towards true. */
  lemma CorrectedImpliesAsWritten(a: TypeMirror, b: TypeMirror)
    ensures IsTypeMirrorEqual(a, b) ==> IsTypeMirrorEqualAsWritten(a, b)
  {
  }
}
