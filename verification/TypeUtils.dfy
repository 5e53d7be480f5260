/**
 * Model of `com.siyeh.ig.psiutils.TypeUtils`: the null-safe type predicates and the
 * weakest-necessary-class analysis of a variable.
 *
 * The class graph is abstract: `isInheritor(a, b)` answers `a.isInheritor(b, true)`, that is,
 * class `a` strictly inherits from class `b`. The references to the variable, which the source
 * obtains from a reference search, are given as a sequence of usage descriptors in search order.
 */
module TypeUtils {
  import opened Psi

  const JAVA_LANG_OBJECT: string := "java.lang.Object"
  const JAVA_LANG_STRING: string := "java.lang.String"

  // ---------------------------------------------------------------------------------------------
  // Null-safe type predicates
  // ---------------------------------------------------------------------------------------------

  /** `typeEquals`: a null type equals no name; otherwise the type's text is compared. */
  predicate TypeEquals(typeName: string, targetType: Option<PsiType>)
  {
    if targetType.None? then false else targetType.value.canonicalText == typeName
  }

  /** `expressionHasType`: a null expression has no type. */
  predicate ExpressionHasType(typeName: string, expression: Option<PsiExpression>)
  {
    if expression.None? then false else TypeEquals(typeName, expression.value.exprType)
  }

  predicate IsJavaLangObject(targetType: Option<PsiType>)
  {
    TypeEquals(JAVA_LANG_OBJECT, targetType)
  }

  predicate IsJavaLangString(targetType: Option<PsiType>)
  {
    TypeEquals(JAVA_LANG_STRING, targetType)
  }

  /**
   * The single-name `expressionHasTypeOrSubtype`. `isSubclass(c, name)` stands for
   * `ClassUtils.isSubclass(c, name)`.
   */
  predicate ExpressionHasTypeOrSubtype(isSubclass: (ClassId, string) -> bool, typeName: string,
                                       expression: Option<PsiExpression>)
  {
    if expression.None? then false
    else if expression.value.exprType.None? then false
    else if !expression.value.exprType.value.ClassType? then false
    else if expression.value.exprType.value.resolved.None? then false
    else isSubclass(expression.value.exprType.value.resolved.value, typeName)
  }

  /** A null type, or a null expression, satisfies none of the type predicates. */
  lemma NullHasNoType(typeName: string, isSubclass: (ClassId, string) -> bool)
    ensures !TypeEquals(typeName, None) && !IsJavaLangObject(None) && !IsJavaLangString(None)
    ensures !ExpressionHasType(typeName, None) && !ExpressionHasTypeOrSubtype(isSubclass, typeName, None)
  {
  }

  /**
   * The varargs `expressionHasTypeOrSubtype`: true as soon as the expression's resolved class
   * is a subclass of one of the names.
   */
  method ExpressionHasTypeOrSubtypeOfAny(isSubclass: (ClassId, string) -> bool,
                                         expression: Option<PsiExpression>, typeNames: seq<string>)
    returns (r: bool)
    ensures r <==> exists i :: 0 <= i < |typeNames| && ExpressionHasTypeOrSubtype(isSubclass, typeNames[i], expression)
    ensures r <==> ResolvedClass(if expression.Some? then expression.value.exprType else None).Some? &&
                   exists i :: 0 <= i < |typeNames| && isSubclass(expression.value.exprType.value.resolved.value, typeNames[i])
  {
    if expression.None? {
      return false;
    }
    var t := expression.value.exprType;
    if t.None? {
      return false;
    }
    if !t.value.ClassType? {
      return false;
    }
    var aClass := t.value.resolved;
    if aClass.None? {
      return false;
    }
    for i := 0 to |typeNames|
      invariant forall j :: 0 <= j < i ==> !isSubclass(aClass.value, typeNames[j])
    {
      if isSubclass(aClass.value, typeNames[i]) {
        return true;
      }
    }
    return false;
  }

  // ---------------------------------------------------------------------------------------------
  // getExpressionIndex
  // ---------------------------------------------------------------------------------------------

  /** The index of the first occurrence of `expression`, or -1 when it does not occur. */
  function IndexOf(expressions: seq<PsiExpression>, expression: PsiExpression): (r: int)
    ensures -1 <= r < |expressions|
    ensures r == -1 <==> expression !in expressions
    ensures 0 <= r ==> expressions[r] == expression && expression !in expressions[..r]
    decreases |expressions|
  {
    if expressions == [] then -1
    else if expressions[0] == expression then 0
    else
      var k := IndexOf(expressions[1..], expression);
      if k == -1 then -1
      else
        assert expressions[..k + 1] == [expressions[0]] + expressions[1..][..k];
        k + 1
  }

  /** `getExpressionIndex`: a linear search that stops at the first match. */
  method GetExpressionIndex(expression: PsiExpression, expressions: seq<PsiExpression>) returns (r: int)
    ensures r == IndexOf(expressions, expression)
  {
    for i := 0 to |expressions|
      invariant expression !in expressions[..i]
    {
      if expression == expressions[i] {
        assert expressions[..i + 1] == expressions[..i] + [expressions[i]];
        return i;
      }
    }
    assert expressions[..|expressions|] == expressions;
    return -1;
  }

  // ---------------------------------------------------------------------------------------------
  // The class graph and the set of weakest classes
  // ---------------------------------------------------------------------------------------------

  ghost predicate Irreflexive(isInheritor: (ClassId, ClassId) -> bool)
  {
    forall c :: !isInheritor(c, c)
  }

  ghost predicate Transitive(isInheritor: (ClassId, ClassId) -> bool)
  {
    forall a, b, c :: isInheritor(a, b) && isInheritor(b, c) ==> isInheritor(a, c)
  }

  /** No member of the set strictly inherits from another member. */
  predicate Antichain(isInheritor: (ClassId, ClassId) -> bool, classes: set<ClassId>)
  {
    forall x, y :: x in classes && y in classes && x != y ==> !isInheritor(x, y)
  }

  /** Some member of the set is `c` or strictly inherits from `c`, so it satisfies a use that needs `c`. */
  ghost predicate Covered(isInheritor: (ClassId, ClassId) -> bool, classes: set<ClassId>, c: ClassId)
  {
    exists m :: m in classes && (m == c || isInheritor(m, c))
  }

  /** `checkClass` drops `member` when `aClass` is a different class that strictly inherits from it. */
  predicate Supersedes(isInheritor: (ClassId, ClassId) -> bool, aClass: ClassId, member: ClassId)
  {
    member != aClass && isInheritor(aClass, member)
  }

  /**
   * `member` keeps `aClass` out of the set: it is `aClass` itself, or it strictly inherits from
   * `aClass` and was not dropped for it.
   */
  predicate Subsumes(isInheritor: (ClassId, ClassId) -> bool, member: ClassId, aClass: ClassId)
  {
    member == aClass || (!isInheritor(aClass, member) && isInheritor(member, aClass))
  }

  /** The set that `checkClass(classes, aClass)` leaves behind. */
  function Checked(isInheritor: (ClassId, ClassId) -> bool, classes: set<ClassId>, aClass: ClassId): set<ClassId>
  {
    var kept := set m | m in classes && !Supersedes(isInheritor, aClass, m);
    if exists m :: m in classes && Subsumes(isInheritor, m, aClass) then kept else kept + {aClass}
  }

  /**
   * `checkClass`: walks the set once in its (unspecified) iteration order, removing through the
   * iterator every member that `aClass` strictly inherits from and clearing `shouldAdd` when a
   * member equals `aClass` or strictly inherits from it; adds `aClass` at the end if still allowed.
   */
  method CheckClass(isInheritor: (ClassId, ClassId) -> bool, weakestTypeClasses: set<ClassId>, aClass: ClassId)
    returns (r: set<ClassId>)
    ensures r == Checked(isInheritor, weakestTypeClasses, aClass)
  {
    var shouldAdd := true;
    var pending := weakestTypeClasses;
    r := weakestTypeClasses;
    while pending != {}
      invariant pending <= weakestTypeClasses
      invariant r == set m | m in weakestTypeClasses && (m in pending || !Supersedes(isInheritor, aClass, m))
      invariant shouldAdd <==> !exists m :: m in weakestTypeClasses && m !in pending && Subsumes(isInheritor, m, aClass)
      decreases pending
    {
      var weakestTypeClass :| weakestTypeClass in pending;
      if weakestTypeClass != aClass {
        if isInheritor(aClass, weakestTypeClass) {
          r := r - {weakestTypeClass};
        } else if isInheritor(weakestTypeClass, aClass) {
          shouldAdd := false;
        }
      } else {
        shouldAdd := false;
      }
      pending := pending - {weakestTypeClass};
    }
    if shouldAdd {
      r := r + {aClass};
    }
  }

  /** Folding several classes in turn, as the receiver case does for its super methods. */
  function CheckedAll(isInheritor: (ClassId, ClassId) -> bool, classes: set<ClassId>, cs: seq<ClassId>): set<ClassId>
    decreases |cs|
  {
    if cs == [] then classes
    else Checked(isInheritor, CheckedAll(isInheritor, classes, cs[..|cs| - 1]), cs[|cs| - 1])
  }

  /**
   * With an irreflexive, transitive inheritance relation, `checkClass` removes exactly the other
   * members that `aClass` strictly inherits from, keeps every other member, adds nothing but
   * `aClass`, and `aClass` ends up in the set iff it was there or no member strictly inherits from it.
   */
  lemma CheckedMembers(isInheritor: (ClassId, ClassId) -> bool, classes: set<ClassId>, aClass: ClassId)
    requires Irreflexive(isInheritor) && Transitive(isInheritor)
    ensures forall m :: m in classes && m != aClass ==>
              (m in Checked(isInheritor, classes, aClass) <==> !isInheritor(aClass, m))
    ensures forall m :: m in Checked(isInheritor, classes, aClass) ==> m in classes || m == aClass
    ensures aClass in Checked(isInheritor, classes, aClass) <==>
              aClass in classes || forall m :: m in classes ==> !isInheritor(m, aClass)
  {
    var r := Checked(isInheritor, classes, aClass);
    if aClass !in classes && forall m :: m in classes ==> !isInheritor(m, aClass) {
      assert !exists m :: m in classes && Subsumes(isInheritor, m, aClass);
    }
    if aClass !in classes && exists m :: m in classes && isInheritor(m, aClass) {
      var m :| m in classes && isInheritor(m, aClass);
      if isInheritor(aClass, m) {
        assert false;
      }
      assert Subsumes(isInheritor, m, aClass);
    }
  }

  /** `checkClass` keeps the set an antichain, whatever the inheritance relation is. */
  lemma CheckedKeepsAntichain(isInheritor: (ClassId, ClassId) -> bool, classes: set<ClassId>, aClass: ClassId)
    requires Antichain(isInheritor, classes)
    ensures Antichain(isInheritor, Checked(isInheritor, classes, aClass))
  {
    var r := Checked(isInheritor, classes, aClass);
    forall x, y | x in r && y in r && x != y
      ensures !isInheritor(x, y)
    {
      if x == aClass && aClass !in classes {
        assert !Supersedes(isInheritor, aClass, y);
      } else if y == aClass && aClass !in classes {
        assert !Subsumes(isInheritor, x, aClass);
      }
    }
  }

  /** Folding the same class twice leaves the same set as folding it once. */
  lemma CheckedIdempotent(isInheritor: (ClassId, ClassId) -> bool, classes: set<ClassId>, aClass: ClassId)
    ensures Checked(isInheritor, Checked(isInheritor, classes, aClass), aClass) == Checked(isInheritor, classes, aClass)
  {
    var once := Checked(isInheritor, classes, aClass);
    var twice := Checked(isInheritor, once, aClass);
    if exists m :: m in classes && Subsumes(isInheritor, m, aClass) {
      var m :| m in classes && Subsumes(isInheritor, m, aClass);
      assert m in once;
    } else {
      assert aClass in once;
    }
    assert exists m :: m in once && Subsumes(isInheritor, m, aClass);
    assert forall m :: m in once ==> !Supersedes(isInheritor, aClass, m);
  }

  /**
   * Under a transitive relation, `checkClass` never loses a requirement: every class covered
   * before is still covered, and `aClass` itself is covered afterwards.
   */
  lemma CheckedCovers(isInheritor: (ClassId, ClassId) -> bool, classes: set<ClassId>, aClass: ClassId, c: ClassId)
    requires Transitive(isInheritor)
    ensures Covered(isInheritor, Checked(isInheritor, classes, aClass), aClass)
    ensures Covered(isInheritor, classes, c) ==> Covered(isInheritor, Checked(isInheritor, classes, aClass), c)
  {
    var r := Checked(isInheritor, classes, aClass);
    // a member of r that is aClass or inherits from it
    var w: ClassId;
    if exists m :: m in classes && Subsumes(isInheritor, m, aClass) {
      w :| w in classes && Subsumes(isInheritor, w, aClass);
      assert w in r;
    } else {
      w := aClass;
      assert w in r;
    }
    assert w == aClass || isInheritor(w, aClass);
    if Covered(isInheritor, classes, c) {
      var m :| m in classes && (m == c || isInheritor(m, c));
      if m !in r {
        assert isInheritor(aClass, m);
        assert isInheritor(aClass, c);
        assert w in r && (w == c || isInheritor(w, c));
      }
    }
  }

  lemma CheckedAllKeepsAntichain(isInheritor: (ClassId, ClassId) -> bool, classes: set<ClassId>, cs: seq<ClassId>)
    requires Antichain(isInheritor, classes)
    ensures Antichain(isInheritor, CheckedAll(isInheritor, classes, cs))
    decreases |cs|
  {
    if cs != [] {
      CheckedAllKeepsAntichain(isInheritor, classes, cs[..|cs| - 1]);
      CheckedKeepsAntichain(isInheritor, CheckedAll(isInheritor, classes, cs[..|cs| - 1]), cs[|cs| - 1]);
    }
  }

  /** After folding `cs`, everything covered before and every class of `cs` is covered. */
  lemma {:induction false} CheckedAllCovers(isInheritor: (ClassId, ClassId) -> bool, classes: set<ClassId>, cs: seq<ClassId>, c: ClassId)
    requires Transitive(isInheritor)
    requires Covered(isInheritor, classes, c) || c in cs
    ensures Covered(isInheritor, CheckedAll(isInheritor, classes, cs), c)
    decreases |cs|
  {
    if cs != [] {
      var init, last := cs[..|cs| - 1], cs[|cs| - 1];
      var before := CheckedAll(isInheritor, classes, init);
      if c == last {
        CheckedCovers(isInheritor, before, last, c);
      } else {
        assert c in cs ==> c in init by {
          if c in cs {
            var i :| 0 <= i < |cs| && cs[i] == c;
            assert i < |cs| - 1;
            assert init[i] == c;
          }
        }
        CheckedAllCovers(isInheritor, classes, init, c);
        CheckedCovers(isInheritor, before, last, c);
      }
    }
  }

  // ---------------------------------------------------------------------------------------------
  // References to the variable
  // ---------------------------------------------------------------------------------------------

  /** A resolved `PsiMethod`: its parameter types, and the containing class of each deepest super method. */
  datatype PsiMethod = PsiMethod(parameterTypes: seq<PsiType>, deepestSuperMethodClasses: seq<Option<ClassId>>)

  /** `reference.getElement()`: an expression, or some other element. */
  datatype ReferenceElement = ExpressionElement(expr: PsiExpression) | OtherElement(id: nat)

  /** The reference element's parent, as far as the analysis distinguishes it. */
  datatype ParentNode =
    | ExpressionList(expressions: seq<PsiExpression>)
    | Assignment(lhs: PsiExpression, rhs: Option<PsiExpression>)
    | OtherParent

  /** The reference element's grandparent: a method call (whose method expression may not resolve to a method) or anything else. */
  datatype GrandParentNode = MethodCall(resolved: Option<PsiMethod>) | OtherGrandParent

  /** One reference found by the search. */
  datatype Usage = Usage(element: ReferenceElement, parent: ParentNode, grandParent: GrandParentNode)

  predicate IsClassType(t: Option<PsiType>)
  {
    t.Some? && t.value.ClassType?
  }

  /** The assignment case reaches `checkClass` only with a class that resolves. */
  predicate AssignmentResolvable(element: ReferenceElement, lhs: PsiExpression, rhs: Option<PsiExpression>)
  {
    if element == ExpressionElement(lhs) && rhs.Some? then
      IsClassType(rhs.value.exprType) ==> ResolvedClass(rhs.value.exprType).Some?
    else if rhs.Some? && element == ExpressionElement(rhs.value) then
      IsClassType(lhs.exprType) ==> ResolvedClass(lhs.exprType).Some?
    else true
  }

  /**
   * The source does not guard these spots, so a usage the scan reaches must satisfy them:
   * the argument is found among the call's arguments at an index the method has a parameter for,
   * every deepest super method has a containing class, and an assignment's class type resolves.
   */
  predicate Resolvable(u: Usage)
  {
    if u.parent.ExpressionList? then
      (u.grandParent.MethodCall? && u.grandParent.resolved.Some? && u.element.ExpressionElement?) ==>
        0 <= IndexOf(u.parent.expressions, u.element.expr) < |u.grandParent.resolved.value.parameterTypes|
    else if u.grandParent.MethodCall? then
      u.grandParent.resolved.Some? ==>
        forall i :: 0 <= i < |u.grandParent.resolved.value.deepestSuperMethodClasses| ==>
          u.grandParent.resolved.value.deepestSuperMethodClasses[i].Some?
    else if u.parent.Assignment? then
      AssignmentResolvable(u.element, u.parent.lhs, u.parent.rhs)
    else true
  }

  function ContainingClasses(classes: seq<Option<ClassId>>): (r: seq<ClassId>)
    requires forall i :: 0 <= i < |classes| ==> classes[i].Some?
    ensures |r| == |classes| && forall i :: 0 <= i < |r| ==> classes[i] == Some(r[i])
  {
    seq(|classes|, i requires 0 <= i < |classes| && classes[i].Some? => classes[i].value)
  }

  function AssignmentConstraint(element: ReferenceElement, lhs: PsiExpression, rhs: Option<PsiExpression>): Option<seq<ClassId>>
    requires AssignmentResolvable(element, lhs, rhs)
  {
    if element == ExpressionElement(lhs) && rhs.Some? then
      if !IsClassType(rhs.value.exprType) then None
      else Some([ResolvedClass(rhs.value.exprType).value])
    else if rhs.Some? && element == ExpressionElement(rhs.value) then
      if !IsClassType(lhs.exprType) then None
      else Some([ResolvedClass(lhs.exprType).value])
    else Some([])
  }

  /**
   * What one reference contributes: `None` when the analysis gives up on it (the source
   * returns null), otherwise the classes that are folded in, in order.
   */
  function Constraint(u: Usage): Option<seq<ClassId>>
    requires Resolvable(u)
  {
    if u.parent.ExpressionList? then
      if !u.grandParent.MethodCall? then None
      else if u.grandParent.resolved.None? then None
      else if !u.element.ExpressionElement? then None
      else
        var parameterType := u.grandParent.resolved.value.parameterTypes[IndexOf(u.parent.expressions, u.element.expr)];
        if !parameterType.ClassType? then None
        else if parameterType.resolved.None? then None
        else Some([parameterType.resolved.value])
    else if u.grandParent.MethodCall? then
      if u.grandParent.resolved.None? then None
      else Some(ContainingClasses(u.grandParent.resolved.value.deepestSuperMethodClasses))
    else if u.parent.Assignment? then
      AssignmentConstraint(u.element, u.parent.lhs, u.parent.rhs)
    else Some([])
  }

  /** Every reference that the scan reaches is resolvable (the source would throw otherwise). */
  predicate ScanDefined(isInheritor: (ClassId, ClassId) -> bool, variableClass: ClassId, classes: set<ClassId>, usages: seq<Usage>)
    decreases |usages|
  {
    usages == [] || variableClass in classes ||
    (Resolvable(usages[0]) &&
     (Constraint(usages[0]).Some? ==>
        ScanDefined(isInheritor, variableClass, CheckedAll(isInheritor, classes, Constraint(usages[0]).value), usages[1..])))
  }

  /** The loop over the references, starting from the set `classes`. */
  function Scan(isInheritor: (ClassId, ClassId) -> bool, variableClass: ClassId, classes: set<ClassId>, usages: seq<Usage>): Option<set<ClassId>>
    requires ScanDefined(isInheritor, variableClass, classes, usages)
    decreases |usages|
  {
    if usages == [] then Some(classes)
    else if variableClass in classes then None
    else match Constraint(usages[0])
      case None => None
      case Some(cs) => Scan(isInheritor, variableClass, CheckedAll(isInheritor, classes, cs), usages[1..])
  }

  predicate AnalysisDefined(isInheritor: (ClassId, ClassId) -> bool, objectClass: ClassId, variableType: PsiType, usages: seq<Usage>)
  {
    variableType.ClassType? && variableType.resolved.Some? && variableType.resolved.value != objectClass ==>
      ScanDefined(isInheritor, variableType.resolved.value, {objectClass}, usages)
  }

  /** What `calculateWeakestClassesNecessary` returns; `objectClass` is `java.lang.Object` in the variable's scope. */
  function WeakestClasses(isInheritor: (ClassId, ClassId) -> bool, objectClass: ClassId, variableType: PsiType, usages: seq<Usage>): Option<set<ClassId>>
    requires AnalysisDefined(isInheritor, objectClass, variableType, usages)
  {
    if !variableType.ClassType? then None
    else if variableType.resolved.None? then None
    else if variableType.resolved.value == objectClass then None
    else Scan(isInheritor, variableType.resolved.value, {objectClass}, usages)
  }

  /** `calculateWeakestClassesNecessary`: `None` is the source's `null`. */
  method CalculateWeakestClassesNecessary(isInheritor: (ClassId, ClassId) -> bool, objectClass: ClassId,
                                          variableType: PsiType, usages: seq<Usage>)
    returns (r: Option<set<ClassId>>)
    requires AnalysisDefined(isInheritor, objectClass, variableType, usages)
    ensures r == WeakestClasses(isInheritor, objectClass, variableType, usages)
  {
    if !variableType.ClassType? {
      return None;
    }
    var variableClass := variableType.resolved;
    if variableClass.None? {
      return None;
    }
    if variableClass.value == objectClass {
      return None;
    }
    var weakestTypeClasses := {objectClass};
    assert usages[0..] == usages;
    for n := 0 to |usages|
      invariant ScanDefined(isInheritor, variableClass.value, weakestTypeClasses, usages[n..])
      invariant Scan(isInheritor, variableClass.value, weakestTypeClasses, usages[n..])
                == WeakestClasses(isInheritor, objectClass, variableType, usages)
    {
      if variableClass.value in weakestTypeClasses {
        return None;
      }
      var reference := usages[n];
      assert usages[n..][0] == reference && usages[n..][1..] == usages[n + 1..];
      ghost var before := weakestTypeClasses;
      ghost var contributed: seq<ClassId> := [];
      if reference.parent.ExpressionList? {
        if !reference.grandParent.MethodCall? {
          return None;
        }
        var resolvedMethod := reference.grandParent.resolved;
        if resolvedMethod.None? {
          return None;
        }
        if !reference.element.ExpressionElement? {
          return None;
        }
        var index := GetExpressionIndex(reference.element.expr, reference.parent.expressions);
        var parameterType := resolvedMethod.value.parameterTypes[index];
        if !parameterType.ClassType? {
          return None;
        }
        var aClass := parameterType.resolved;
        if aClass.None? {
          return None;
        }
        weakestTypeClasses := CheckClass(isInheritor, weakestTypeClasses, aClass.value);
        contributed := [aClass.value];
        assert contributed[..0] == [];
      } else if reference.grandParent.MethodCall? {
        var resolvedMethod := reference.grandParent.resolved;
        if resolvedMethod.None? {
          return None;
        }
        var superMethodClasses := resolvedMethod.value.deepestSuperMethodClasses;
        ghost var folded := ContainingClasses(superMethodClasses);
        for k := 0 to |superMethodClasses|
          invariant weakestTypeClasses == CheckedAll(isInheritor, before, folded[..k])
        {
          weakestTypeClasses := CheckClass(isInheritor, weakestTypeClasses, superMethodClasses[k].value);
          assert folded[..k + 1][..k] == folded[..k];
        }
        assert folded[..|superMethodClasses|] == folded;
        contributed := folded;
      } else if reference.parent.Assignment? {
        var lhs, rhs := reference.parent.lhs, reference.parent.rhs;
        if reference.element == ExpressionElement(lhs) && rhs.Some? {
          var t := rhs.value.exprType;
          if !(t.Some? && t.value.ClassType?) {
            return None;
          }
          var aClass := t.value.resolved;
          weakestTypeClasses := CheckClass(isInheritor, weakestTypeClasses, aClass.value);
          contributed := [aClass.value];
          assert contributed[..0] == [];
        } else if rhs.Some? && reference.element == ExpressionElement(rhs.value) {
          var t := lhs.exprType;
          if !(t.Some? && t.value.ClassType?) {
            return None;
          }
          var aClass := t.value.resolved;
          weakestTypeClasses := CheckClass(isInheritor, weakestTypeClasses, aClass.value);
          contributed := [aClass.value];
          assert contributed[..0] == [];
        }
      }
      assert Constraint(reference) == Some(contributed);
      assert weakestTypeClasses == CheckedAll(isInheritor, before, contributed);
    }
    return Some(weakestTypeClasses);
  }

  // ---------------------------------------------------------------------------------------------
  // Properties of the analysis
  // ---------------------------------------------------------------------------------------------

  /** Null unless the declared type is a class type that resolves to a class other than java.lang.Object. */
  lemma WeakestGivesUpOnUnsupportedType(isInheritor: (ClassId, ClassId) -> bool, objectClass: ClassId,
                                        variableType: PsiType, usages: seq<Usage>)
    requires AnalysisDefined(isInheritor, objectClass, variableType, usages)
    ensures (!variableType.ClassType? || variableType.resolved.None? || variableType.resolved == Some(objectClass))
            ==> WeakestClasses(isInheritor, objectClass, variableType, usages).None?
  {
  }

  /** With no references the answer is exactly `{java.lang.Object}`. */
  lemma WeakestWithoutReferences(isInheritor: (ClassId, ClassId) -> bool, objectClass: ClassId, variableType: PsiType)
    requires variableType.ClassType? && variableType.resolved.Some? && variableType.resolved.value != objectClass
    ensures WeakestClasses(isInheritor, objectClass, variableType, []) == Some({objectClass})
  {
  }

  /**
   * The early exit runs before each reference: once the set holds the variable's own class,
   * the answer is null whatever the remaining references are.
   */
  lemma ScanStopsAtOwnClass(isInheritor: (ClassId, ClassId) -> bool, variableClass: ClassId, classes: set<ClassId>, usages: seq<Usage>)
    requires variableClass in classes && usages != []
    ensures ScanDefined(isInheritor, variableClass, classes, usages)
    ensures Scan(isInheritor, variableClass, classes, usages) == None
  {
  }

  /**
   * One reference, when the set does not yet hold the variable's class: the scan gives up when
   * the reference is unsupported, and otherwise goes on from the set with its classes folded in.
   */
  lemma ScanStep(isInheritor: (ClassId, ClassId) -> bool, variableClass: ClassId, classes: set<ClassId>, u: Usage, rest: seq<Usage>)
    requires variableClass !in classes && ScanDefined(isInheritor, variableClass, classes, [u] + rest)
    ensures Resolvable(u)
    ensures Constraint(u).None? ==> Scan(isInheritor, variableClass, classes, [u] + rest) == None
    ensures Constraint(u).Some? ==>
              ScanDefined(isInheritor, variableClass, CheckedAll(isInheritor, classes, Constraint(u).value), rest) &&
              Scan(isInheritor, variableClass, classes, [u] + rest)
              == Scan(isInheritor, variableClass, CheckedAll(isInheritor, classes, Constraint(u).value), rest)
  {
    assert ([u] + rest)[0] == u && ([u] + rest)[1..] == rest;
  }

  /**
   * How each position constrains the variable: an argument gives up on a grandparent that is not
   * a resolved method call, on a non-expression element and on a parameter type that is not a
   * resolved class type, and otherwise contributes the parameter's class; a receiver contributes the
   * containing class of every deepest super method; an assignment contributes the class of the
   * other side or gives up when that side's type is not a class type; any other position
   * contributes nothing.
   */
  lemma ConstraintByPosition(u: Usage)
    requires Resolvable(u)
    ensures u.parent.ExpressionList? ==>
              (Constraint(u).None? <==>
                 !u.grandParent.MethodCall? || u.grandParent.resolved.None? || !u.element.ExpressionElement? ||
                 ResolvedClass(Some(u.grandParent.resolved.value.parameterTypes[IndexOf(u.parent.expressions, u.element.expr)])).None?)
    ensures u.parent.ExpressionList? && Constraint(u).Some? ==>
              Constraint(u).value == [ResolvedClass(Some(u.grandParent.resolved.value.parameterTypes[IndexOf(u.parent.expressions, u.element.expr)])).value]
    ensures !u.parent.ExpressionList? && u.grandParent.MethodCall? && u.grandParent.resolved.None? ==> Constraint(u).None?
    ensures !u.parent.ExpressionList? && u.grandParent.MethodCall? && u.grandParent.resolved.Some? ==>
              Constraint(u).Some? &&
              |Constraint(u).value| == |u.grandParent.resolved.value.deepestSuperMethodClasses| &&
              forall i :: 0 <= i < |u.grandParent.resolved.value.deepestSuperMethodClasses| ==>
                u.grandParent.resolved.value.deepestSuperMethodClasses[i] == Some(Constraint(u).value[i])
    ensures !u.parent.ExpressionList? && !u.grandParent.MethodCall? && u.parent.Assignment? &&
            u.element == ExpressionElement(u.parent.lhs) && u.parent.rhs.Some? ==>
              Constraint(u) == (if IsClassType(u.parent.rhs.value.exprType) then Some([ResolvedClass(u.parent.rhs.value.exprType).value]) else None)
    ensures !u.parent.ExpressionList? && !u.grandParent.MethodCall? && u.parent.Assignment? &&
            u.element != ExpressionElement(u.parent.lhs) && u.parent.rhs.Some? && u.element == ExpressionElement(u.parent.rhs.value) ==>
              Constraint(u) == (if IsClassType(u.parent.lhs.exprType) then Some([ResolvedClass(u.parent.lhs.exprType).value]) else None)
    ensures !u.parent.ExpressionList? && !u.grandParent.MethodCall? && u.parent.Assignment? &&
            !(u.element == ExpressionElement(u.parent.lhs) && u.parent.rhs.Some?) &&
            !(u.parent.rhs.Some? && u.element == ExpressionElement(u.parent.rhs.value)) ==>
              Constraint(u) == Some([])
    ensures !u.parent.ExpressionList? && !u.grandParent.MethodCall? && !u.parent.Assignment? ==> Constraint(u) == Some([])
  {
  }

  /** A reference in any other position leaves the scan where it was. */
  lemma ScanSkipsOtherPositions(isInheritor: (ClassId, ClassId) -> bool, variableClass: ClassId, classes: set<ClassId>, u: Usage, rest: seq<Usage>)
    requires variableClass !in classes && ScanDefined(isInheritor, variableClass, classes, [u] + rest)
    requires !u.parent.ExpressionList? && !u.parent.Assignment? && !u.grandParent.MethodCall?
    ensures ScanDefined(isInheritor, variableClass, classes, rest)
    ensures Scan(isInheritor, variableClass, classes, [u] + rest) == Scan(isInheritor, variableClass, classes, rest)
  {
    ScanStep(isInheritor, variableClass, classes, u, rest);
    assert CheckedAll(isInheritor, classes, []) == classes;
  }

  lemma {:induction false} ScanKeepsAntichain(isInheritor: (ClassId, ClassId) -> bool, variableClass: ClassId, classes: set<ClassId>, usages: seq<Usage>)
    requires ScanDefined(isInheritor, variableClass, classes, usages)
    requires Antichain(isInheritor, classes)
    ensures Scan(isInheritor, variableClass, classes, usages).Some? ==>
              Antichain(isInheritor, Scan(isInheritor, variableClass, classes, usages).value)
    decreases |usages|
  {
    if usages != [] && variableClass !in classes && Constraint(usages[0]).Some? {
      var next := CheckedAll(isInheritor, classes, Constraint(usages[0]).value);
      CheckedAllKeepsAntichain(isInheritor, classes, Constraint(usages[0]).value);
      ScanKeepsAntichain(isInheritor, variableClass, next, usages[1..]);
    }
  }

  /** Whatever the inheritance relation, a non-null answer is an antichain. */
  lemma WeakestIsAntichain(isInheritor: (ClassId, ClassId) -> bool, objectClass: ClassId, variableType: PsiType, usages: seq<Usage>)
    requires AnalysisDefined(isInheritor, objectClass, variableType, usages)
    ensures WeakestClasses(isInheritor, objectClass, variableType, usages).Some? ==>
              Antichain(isInheritor, WeakestClasses(isInheritor, objectClass, variableType, usages).value)
  {
    if variableType.ClassType? && variableType.resolved.Some? && variableType.resolved.value != objectClass {
      ScanKeepsAntichain(isInheritor, variableType.resolved.value, {objectClass}, usages);
    }
  }

  /** Every class folded in for a reference is covered by the set. */
  ghost predicate CoversReferences(isInheritor: (ClassId, ClassId) -> bool, classes: set<ClassId>, usages: seq<Usage>)
  {
    forall i :: 0 <= i < |usages| ==>
      Resolvable(usages[i]) && Constraint(usages[i]).Some? &&
      forall c :: c in Constraint(usages[i]).value ==> Covered(isInheritor, classes, c)
  }

  /**
   * Under a transitive relation, a non-null scan covers what the starting set covered and
   * every class folded in for any reference. A receiver folds in only the classes declaring the
   * deepest super methods, so this is not a guarantee that every call still resolves
   * (`ZooReceiverWithoutSuperMethods`).
   */
  lemma {:induction false} ScanCovers(isInheritor: (ClassId, ClassId) -> bool, variableClass: ClassId, classes: set<ClassId>, usages: seq<Usage>, c: ClassId)
    requires Transitive(isInheritor)
    requires ScanDefined(isInheritor, variableClass, classes, usages)
    requires Scan(isInheritor, variableClass, classes, usages).Some?
    ensures CoversReferences(isInheritor, Scan(isInheritor, variableClass, classes, usages).value, usages)
    ensures Covered(isInheritor, classes, c) ==> Covered(isInheritor, Scan(isInheritor, variableClass, classes, usages).value, c)
    decreases |usages|
  {
    if usages != [] {
      var r := Scan(isInheritor, variableClass, classes, usages).value;
      var cs := Constraint(usages[0]).value;
      var next := CheckedAll(isInheritor, classes, cs);
      assert Scan(isInheritor, variableClass, next, usages[1..]) == Some(r);
      ScanCovers(isInheritor, variableClass, next, usages[1..], c);
      if Covered(isInheritor, classes, c) {
        CheckedAllCovers(isInheritor, classes, cs, c);
      }
      forall d | d in cs
        ensures Covered(isInheritor, r, d)
      {
        CheckedAllCovers(isInheritor, classes, cs, d);
        ScanCovers(isInheritor, variableClass, next, usages[1..], d);
      }
      forall i | 0 <= i < |usages|
        ensures Resolvable(usages[i]) && Constraint(usages[i]).Some? &&
                forall d :: d in Constraint(usages[i]).value ==> Covered(isInheritor, r, d)
      {
        if i > 0 {
          assert usages[i] == usages[1..][i - 1];
        }
      }
    }
  }

  /** The answer of the whole analysis covers every class folded in for any reference. */
  lemma WeakestCoversReferences(isInheritor: (ClassId, ClassId) -> bool, objectClass: ClassId, variableType: PsiType, usages: seq<Usage>)
    requires Transitive(isInheritor)
    requires AnalysisDefined(isInheritor, objectClass, variableType, usages)
    requires WeakestClasses(isInheritor, objectClass, variableType, usages).Some?
    ensures CoversReferences(isInheritor, WeakestClasses(isInheritor, objectClass, variableType, usages).value, usages)
  {
    ScanCovers(isInheritor, variableType.resolved.value, {objectClass}, usages, objectClass);
  }

  // ---------------------------------------------------------------------------------------------
  // Worked examples over a small hierarchy
  // ---------------------------------------------------------------------------------------------

  const Object: ClassId := 0
  const Animal: ClassId := 1
  const Dog: ClassId := 2
  const Cat: ClassId := 3
  const Poodle: ClassId := 4

  /** Every class inherits from Object; Dog and Cat from Animal; Poodle from Dog and Animal. */
  predicate Zoo(a: ClassId, b: ClassId)
  {
    (a != Object && b == Object) || ((a == Dog || a == Cat) && b == Animal) || (a == Poodle && (b == Dog || b == Animal))
  }

  /** Folding Animal then Dog into `{Object}` keeps only Dog; unrelated Dog and Cat are both kept. */
  lemma ZooFolds()
    ensures Checked(Zoo, Checked(Zoo, {Object}, Animal), Dog) == {Dog}
    ensures Checked(Zoo, Checked(Zoo, {Object}, Dog), Cat) == {Dog, Cat}
    ensures Checked(Zoo, {Dog}, Animal) == {Dog}
  {
    assert Checked(Zoo, {Object}, Animal) == {Animal};
    assert Checked(Zoo, {Object}, Dog) == {Dog};
    assert !Subsumes(Zoo, Dog, Cat);
    assert Subsumes(Zoo, Dog, Animal);
  }

  /** A call `callNeedingDog(x)` whose only parameter is declared `Dog`. */
  function DogArgument(x: PsiExpression): Usage
  {
    Usage(ExpressionElement(x), ExpressionList([x]), MethodCall(Some(PsiMethod([ClassType("Dog", Some(Dog))], []))))
  }

  /** `d.bark()`, where `bark` overrides or implements nothing, so it has no deepest super method. */
  function ReceiverOfOwnMethod(x: PsiExpression): Usage
  {
    Usage(ExpressionElement(x), OtherParent, MethodCall(Some(PsiMethod([], []))))
  }

  /**
   * A receiver contributes only the classes that declare the called method's deepest super
   * methods. A `Dog` variable whose only use calls a method that `Dog` itself introduces is
   * answered with `{java.lang.Object}`, even though an `Object` cannot receive that call.
   */
  lemma ZooReceiverWithoutSuperMethods(x: PsiExpression)
    ensures AnalysisDefined(Zoo, Object, ClassType("Dog", Some(Dog)), [ReceiverOfOwnMethod(x)])
    ensures WeakestClasses(Zoo, Object, ClassType("Dog", Some(Dog)), [ReceiverOfOwnMethod(x)]) == Some({Object})
  {
    var u := ReceiverOfOwnMethod(x);
    assert Constraint(u) == Some([]);
    assert CheckedAll(Zoo, {Object}, []) == {Object};
    assert [u][1..] == [];
    assert Scan(Zoo, Dog, {Object}, [u]) == Scan(Zoo, Dog, {Object}, []);
  }

  /**
   * A `Poodle` variable passed only to `callNeedingDog` can be declared `Dog`. A variable declared
   * `Object` gets no answer. A `Dog` variable used the same way yields `{Dog}`, its own class:
   * the early exit is not repeated after the last reference.
   */
  lemma ZooWeakest(x: PsiExpression)
    ensures AnalysisDefined(Zoo, Object, ClassType("Poodle", Some(Poodle)), [DogArgument(x)])
    ensures WeakestClasses(Zoo, Object, ClassType("Poodle", Some(Poodle)), [DogArgument(x)]) == Some({Dog})
    ensures WeakestClasses(Zoo, Object, ClassType("java.lang.Object", Some(Object)), [DogArgument(x)]) == None
    ensures AnalysisDefined(Zoo, Object, ClassType("Dog", Some(Dog)), [DogArgument(x)])
    ensures WeakestClasses(Zoo, Object, ClassType("Dog", Some(Dog)), [DogArgument(x)]) == Some({Dog})
  {
    var u := DogArgument(x);
    assert IndexOf([x], x) == 0;
    assert Resolvable(u);
    assert Constraint(u) == Some([Dog]);
    assert [Dog][..0] == [];
    assert CheckedAll(Zoo, {Object}, [Dog]) == Checked(Zoo, {Object}, Dog);
    assert Checked(Zoo, {Object}, Dog) == {Dog};
    assert [u][1..] == [];
    assert Scan(Zoo, Poodle, {Dog}, []) == Some({Dog});
    assert Scan(Zoo, Poodle, {Object}, [u]) == Scan(Zoo, Poodle, {Dog}, []);
    assert Scan(Zoo, Dog, {Object}, [u]) == Scan(Zoo, Dog, {Dog}, []);
  }
}
