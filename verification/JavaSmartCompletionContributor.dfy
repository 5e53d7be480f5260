/**
 * Model of the decision logic of `JavaSmartCompletionContributor`: which branches of smart
 * completion run at a cursor position, the expected types at a `throw`, the filters chosen for a
 * class reference, the kind-based pre-filter handed to reference completion, the order in which
 * suggestions reach the result set, and the replacement offset computed before completion starts.
 *
 * The cursor position is a record of syntactic facts that the source reads off PSI patterns, and
 * every collaborator whose body is not part of this model (expected-type inference, reference
 * completion, the basic and chained expression contributors, the special providers) is a field
 * of `Collaborators` whose value is given.
 */
module JavaSmartCompletionContributor {
  import opened Psi

  const JAVA_LANG_THROWABLE: string := "java.lang.Throwable"
  const JAVA_LANG_RUNTIME_EXCEPTION: string := "java.lang.RuntimeException"
  /** `CompletionUtil.DUMMY_IDENTIFIER_TRIMMED`. */
  const DUMMY_IDENTIFIER_TRIMMED: string := "IntellijIdeaRulezzz"

  // ---------------------------------------------------------------------------------------------
  // Expected types
  // ---------------------------------------------------------------------------------------------

  datatype ExpectedKind = TypeStrictly | TypeOrSubtype | TypeOrSupertype

  datatype TailType = Semicolon | OtherTail(name: string)

  /** An `ExpectedTypeInfo`: the expected type, its kind, the default type and the tail. */
  datatype ExpectedTypeInfo = ExpectedTypeInfo(infoType: PsiType, kind: ExpectedKind, defaultType: PsiType, tail: TailType)

  function InfoSet(infos: seq<ExpectedTypeInfo>): set<ExpectedTypeInfo>
  {
    set info | info in infos
  }

  /** `EXPECTED_TYPE_INFO_STRATEGY.computeHashCode`: the hash of the info's type. */
  function StrategyHashCode(typeHashCode: PsiType -> int, info: ExpectedTypeInfo): int
  {
    typeHashCode(info.infoType)
  }

  /** `EXPECTED_TYPE_INFO_STRATEGY.equals`: two infos are equal when their types are. */
  predicate StrategyEquals(a: ExpectedTypeInfo, b: ExpectedTypeInfo)
  {
    a.infoType == b.infoType
  }

  /** The strategy is an equivalence, and equal infos hash alike, whatever the type's hash is. */
  lemma StrategyIsConsistent(typeHashCode: PsiType -> int, a: ExpectedTypeInfo, b: ExpectedTypeInfo, c: ExpectedTypeInfo)
    ensures StrategyEquals(a, a)
    ensures StrategyEquals(a, b) == StrategyEquals(b, a)
    ensures StrategyEquals(a, b) && StrategyEquals(b, c) ==> StrategyEquals(a, c)
    ensures StrategyEquals(a, b) ==> StrategyHashCode(typeHashCode, a) == StrategyHashCode(typeHashCode, b)
    ensures a.infoType == b.infoType && a.kind != b.kind ==> StrategyEquals(a, b)
  {
  }

  /**
   * `merged` is an iteration order of a set built with the strategy from `infos`: its members come
   * from `infos`, no two are equal under the strategy, and every info of `infos` has an equal one.
   */
  ghost predicate MergedByType(infos: set<ExpectedTypeInfo>, merged: seq<ExpectedTypeInfo>)
  {
    && (forall i :: 0 <= i < |merged| ==> merged[i] in infos)
    && (forall i, j :: 0 <= i < j < |merged| ==> !StrategyEquals(merged[i], merged[j]))
    && (forall x :: x in infos ==> exists i :: 0 <= i < |merged| && StrategyEquals(merged[i], x))
  }

  /**
   * `new THashSet<>(infos, EXPECTED_TYPE_INFO_STRATEGY)`: the infos are offered in the hash-set
   * iteration order of `infos` (unspecified, so chosen freely here) and one is kept only when no
   * kept info has its type.
   */
  method MergeByType(infos: set<ExpectedTypeInfo>) returns (merged: seq<ExpectedTypeInfo>)
    ensures MergedByType(infos, merged)
  {
    merged := [];
    var pending := infos;
    while pending != {}
      invariant pending <= infos
      invariant forall i :: 0 <= i < |merged| ==> merged[i] in infos
      invariant forall i, j :: 0 <= i < j < |merged| ==> !StrategyEquals(merged[i], merged[j])
      invariant forall x :: x in infos && x !in pending ==>
                  exists i :: 0 <= i < |merged| && StrategyEquals(merged[i], x)
      decreases pending
    {
      var info :| info in pending;
      ghost var previous := merged;
      if !exists i :: 0 <= i < |merged| && StrategyEquals(merged[i], info) {
        merged := merged + [info];
        forall x | x in infos && x !in pending - {info}
          ensures exists i :: 0 <= i < |merged| && StrategyEquals(merged[i], x)
        {
          if x == info {
            assert StrategyEquals(merged[|merged| - 1], x);
          } else {
            var i :| 0 <= i < |previous| && StrategyEquals(previous[i], x);
            assert merged[i] == previous[i];
          }
        }
      }
      pending := pending - {info};
    }
  }

  // ---------------------------------------------------------------------------------------------
  // Lookup elements, filters and the collaborators
  // ---------------------------------------------------------------------------------------------

  /** What a lookup element stands for (`getObject()`). */
  datatype PsiObject =
    | ClassObject(id: nat)
    | MethodObject(id: nat, isConstructor: bool)
    | VariableObject(id: nat)
    | OtherObject(id: nat)

  datatype InsertHandler = SmartConstructorInsertHandler

  /** A lookup element, possibly wrapped by a decorator; decorators answer their delegate's object. */
  datatype LookupElement =
    | Item(object: PsiObject)
    | WithInsertHandler(delegate: LookupElement, handler: InsertHandler)
    | Decorated(delegate: LookupElement, infos: set<ExpectedTypeInfo>)

  function ObjectOf(e: LookupElement): PsiObject
  {
    match e
    case Item(o) => o
    case WithInsertHandler(d, _) => ObjectOf(d)
    case Decorated(d, _) => ObjectOf(d)
  }

  /** The filters this contributor builds; their own `isAcceptable` bodies are not part of this model. */
  datatype ElementFilter =
    | ElementExtractorFilter(inner: ElementFilter)
    | AssignableFromClassName(className: string)
    | AssignableFromType(fromType: PsiType)
    | AssignableToType(toType: PsiType)
    | OrFilter(filters: seq<ElementFilter>)
    | ReferenceListApplicabilityFilter

  const THROWABLES_FILTER: ElementFilter := ElementExtractorFilter(AssignableFromClassName(JAVA_LANG_THROWABLE))

  /** The Java interfaces a candidate's class implements, as `isClassAcceptable` tests them. */
  datatype HintClass = HintClass(isPsiClass: bool, isPsiVariable: bool, isPsiMethod: bool, isCandidateInfo: bool)

  /** What `completeReference` hands to reference completion: the filter, its class pre-filter flags and the options. */
  datatype ReferenceQuery = ReferenceQuery(filter: ElementFilter, acceptClasses: bool, acceptMembers: bool,
                                           filterStaticAfterInstance: bool)

  /** What `ReferenceExpressionCompletionContributor.fillCompletionVariants` adds at once, and the elements its slow continuation adds when run. */
  datatype ReferenceFill = ReferenceFill(immediate: seq<LookupElement>, continuation: Option<seq<LookupElement>>)

  datatype Provider = InstanceofTypes | ExpectedAnnotations | CatchTypes | MethodReferences

  /** The collaborators' answers for one completion request. */
  datatype Collaborators = Collaborators(
    runtimeExceptionClass: Option<ClassId>,
    providedExpectedTypes: seq<ExpectedTypeInfo>,
    newExpectedTypes: seq<PsiType>,
    processReference: ReferenceQuery -> seq<LookupElement>,
    basicVariants: ExpectedTypeInfo -> seq<LookupElement>,
    referenceVariants: ExpectedTypeInfo -> ReferenceFill,
    lookupElementType: LookupElement -> Option<PsiType>,
    isAssignableFrom: (PsiType, PsiType) -> bool,
    providerVariants: Provider -> seq<LookupElement>,
    showParameterNameHints: bool,
    invocationCount: int)

  /** The facts about the cursor position that the source reads off PSI patterns. */
  datatype Position = Position(
    isComment: bool,
    parentIsLiteral: bool,
    shouldSuggestCast: bool,
    referenceAtOffset: bool,
    insideExpression: bool,
    afterThrowNew: bool,
    afterDotInNew: bool,
    isNewClassReference: bool,
    insideReferenceList: bool,
    insideTypecast: bool,
    castType: Option<PsiType>,
    throwReference: bool,
    enclosingMethodThrows: Option<seq<PsiType>>,
    hasEnclosingExpression: bool,
    constructorCallPlace: bool,
    afterInstanceof: bool,
    annotationAttributeValue: bool,
    catchClauseType: bool,
    afterDoubleColon: bool)

  /** The result set: elements are appended in order and never read back. */
  class CompletionResultSet {
    var elements: seq<LookupElement>

    constructor ()
      ensures elements == []
    {
      elements := [];
    }

    method AddElement(element: LookupElement)
      modifies this
      ensures elements == old(elements) + [element]
    {
      elements := elements + [element];
    }
  }

  /** The elements appended for each of `xs`, in order. */
  function FlatMap<T>(xs: seq<T>, f: T -> seq<LookupElement>): seq<LookupElement>
    decreases |xs|
  {
    if xs == [] then [] else FlatMap(xs[..|xs| - 1], f) + f(xs[|xs| - 1])
  }

  lemma {:induction false} FlatMapMember<T>(xs: seq<T>, f: T -> seq<LookupElement>, e: LookupElement)
    ensures e in FlatMap(xs, f) <==> exists i :: 0 <= i < |xs| && e in f(xs[i])
    decreases |xs|
  {
    if xs != [] {
      var init := xs[..|xs| - 1];
      FlatMapMember(init, f, e);
      if exists i :: 0 <= i < |init| && e in f(init[i]) {
        var i :| 0 <= i < |init| && e in f(init[i]);
        assert xs[i] == init[i];
      }
      if exists i :: 0 <= i < |xs| && e in f(xs[i]) {
        var i :| 0 <= i < |xs| && e in f(xs[i]);
        if i < |init| {
          assert init[i] == xs[i];
        }
      }
    }
  }

  lemma FlatMapStep<T>(xs: seq<T>, i: nat, f: T -> seq<LookupElement>)
    requires i < |xs|
    ensures FlatMap(xs[..i + 1], f) == FlatMap(xs[..i], f) + f(xs[i])
  {
    assert xs[..i + 1][..i] == xs[..i];
  }

  lemma AppendAssociative(a: seq<LookupElement>, b: seq<LookupElement>, c: seq<LookupElement>, d: seq<LookupElement>)
    ensures a + b + c + d == a + (b + c + d)
  {
  }

  /** The consumer made by `decorateWithoutTypeCheck`, applied to each element a collaborator feeds it. */
  function DecorateAll(items: seq<LookupElement>, infos: set<ExpectedTypeInfo>): seq<LookupElement>
  {
    FlatMap(items, e => [Decorated(e, infos)])
  }

  method DecorateWithoutTypeCheck(result: CompletionResultSet, items: seq<LookupElement>, infos: set<ExpectedTypeInfo>)
    modifies result
    ensures result.elements == old(result.elements) + DecorateAll(items, infos)
  {
    for i := 0 to |items|
      invariant result.elements == old(result.elements) + DecorateAll(items[..i], infos)
    {
      FlatMapStep(items, i, e => [Decorated(e, infos)]);
      result.AddElement(Decorated(items[i], infos));
    }
    assert items[..|items|] == items;
  }

  // ---------------------------------------------------------------------------------------------
  // getExpectedTypes
  // ---------------------------------------------------------------------------------------------

  /** The info the `throw` context makes for each type: `TYPE_OR_SUBTYPE`, with a semicolon tail. */
  function ThrowInfo(t: PsiType): ExpectedTypeInfo
  {
    ExpectedTypeInfo(t, TypeOrSubtype, t, Semicolon)
  }

  function RuntimeExceptionType(env: Collaborators): PsiType
  {
    ClassType(JAVA_LANG_RUNTIME_EXCEPTION, env.runtimeExceptionClass)
  }

  function ThrowInfos(types: seq<PsiType>): seq<ExpectedTypeInfo>
  {
    seq(|types|, i requires 0 <= i < |types| => ThrowInfo(types[i]))
  }

  /** What `getExpectedTypes` returns. */
  function ExpectedTypes(pos: Position, env: Collaborators): seq<ExpectedTypeInfo>
  {
    if pos.throwReference then
      [ThrowInfo(RuntimeExceptionType(env))] +
      (if pos.enclosingMethodThrows.Some? then ThrowInfos(pos.enclosingMethodThrows.value) else [])
    else if !pos.hasEnclosingExpression then []
    else env.providedExpectedTypes
  }

  /** `getExpectedTypes`: at a reference directly inside `throw`, a list built up in a loop. */
  method GetExpectedTypes(pos: Position, env: Collaborators) returns (r: seq<ExpectedTypeInfo>)
    ensures r == ExpectedTypes(pos, env)
  {
    if pos.throwReference {
      var classType := RuntimeExceptionType(env);
      var result := [ThrowInfo(classType)];
      if pos.enclosingMethodThrows.Some? {
        var referencedTypes := pos.enclosingMethodThrows.value;
        for i := 0 to |referencedTypes|
          invariant result == [ThrowInfo(classType)] + ThrowInfos(referencedTypes[..i])
        {
          result := result + [ThrowInfo(referencedTypes[i])];
        }
        assert referencedTypes[..|referencedTypes|] == referencedTypes;
      }
      return result;
    }
    if !pos.hasEnclosingExpression {
      return [];
    }
    return env.providedExpectedTypes;
  }

  /**
   * At a reference directly inside `throw`: `RuntimeException` first, then each type of the
   * enclosing method's throws list in order, every one `TYPE_OR_SUBTYPE` with a semicolon tail.
   */
  lemma ThrowContextExpectedTypes(pos: Position, env: Collaborators)
    requires pos.throwReference
    ensures var r := ExpectedTypes(pos, env);
            var throws := if pos.enclosingMethodThrows.Some? then pos.enclosingMethodThrows.value else [];
            && |r| == 1 + |throws|
            && r[0].infoType == ClassType(JAVA_LANG_RUNTIME_EXCEPTION, env.runtimeExceptionClass)
            && (forall i :: 0 <= i < |throws| ==> r[i + 1].infoType == throws[i])
            && (forall i :: 0 <= i < |r| ==> r[i].kind == TypeOrSubtype && r[i].tail == Semicolon && r[i].defaultType == r[i].infoType)
  {
    var throws := if pos.enclosingMethodThrows.Some? then pos.enclosingMethodThrows.value else [];
    var r := ExpectedTypes(pos, env);
    assert r == [ThrowInfo(RuntimeExceptionType(env))] + ThrowInfos(throws);
    forall i | 0 <= i < |r|
      ensures r[i] == if i == 0 then ThrowInfo(RuntimeExceptionType(env)) else ThrowInfo(throws[i - 1])
    {
    }
  }

  /** The `throw` context does not deduplicate: a method declared to throw `RuntimeException` gets it twice. */
  lemma ThrowContextKeepsDuplicates(pos: Position, env: Collaborators)
    requires pos.throwReference && pos.enclosingMethodThrows == Some([RuntimeExceptionType(env)])
    ensures |ExpectedTypes(pos, env)| == 2 && ExpectedTypes(pos, env)[0] == ExpectedTypes(pos, env)[1]
  {
  }

  /** Outside a `throw`, with no enclosing expression, there is no expected type. */
  lemma NoExpectedTypesOutsideExpressions(pos: Position, env: Collaborators)
    requires !pos.throwReference && !pos.hasEnclosingExpression
    ensures ExpectedTypes(pos, env) == []
  {
  }

  // ---------------------------------------------------------------------------------------------
  // getClassReferenceFilter and completeReference
  // ---------------------------------------------------------------------------------------------

  function AssignableFromFilters(types: seq<PsiType>): seq<ElementFilter>
  {
    seq(|types|, i requires 0 <= i < |types| => AssignableFromType(types[i]))
  }

  /** `getClassReferenceFilter`; `None` is the source's `null`. */
  function GetClassReferenceFilter(pos: Position, inRefList: bool, newExpectedTypes: seq<PsiType>): Option<ElementFilter>
  {
    if pos.afterThrowNew then Some(THROWABLES_FILTER)
    else if pos.afterDotInNew && pos.isNewClassReference then Some(OrFilter(AssignableFromFilters(newExpectedTypes)))
    else if inRefList then Some(ElementExtractorFilter(ReferenceListApplicabilityFilter))
    else None
  }

  /**
   * The cases in priority order: `throw new` wins over everything, the class reference of
   * `new a.b` over a reference list, and there is a filter only in these three contexts.
   */
  lemma ClassReferenceFilterPriority(pos: Position, inRefList: bool, newExpectedTypes: seq<PsiType>)
    ensures pos.afterThrowNew ==> GetClassReferenceFilter(pos, inRefList, newExpectedTypes) == Some(THROWABLES_FILTER)
    ensures !pos.afterThrowNew && pos.afterDotInNew && pos.isNewClassReference ==>
              var f := GetClassReferenceFilter(pos, inRefList, newExpectedTypes);
              f.Some? && f.value.OrFilter? && |f.value.filters| == |newExpectedTypes| &&
              forall i :: 0 <= i < |newExpectedTypes| ==> f.value.filters[i] == AssignableFromType(newExpectedTypes[i])
    ensures !pos.afterThrowNew && !(pos.afterDotInNew && pos.isNewClassReference) && inRefList ==>
              GetClassReferenceFilter(pos, inRefList, newExpectedTypes) == Some(ElementExtractorFilter(ReferenceListApplicabilityFilter))
    ensures GetClassReferenceFilter(pos, inRefList, newExpectedTypes).None? <==>
              !pos.afterThrowNew && !(pos.afterDotInNew && pos.isNewClassReference) && !inRefList
  {
  }

  /** The `checkClass` filter's `isClassAcceptable`: classes by `acceptClasses`, members by `acceptMembers`, nothing else. */
  predicate IsClassAcceptable(query: ReferenceQuery, hint: HintClass)
  {
    if hint.isPsiClass then query.acceptClasses
    else if hint.isPsiVariable || hint.isPsiMethod || hint.isCandidateInfo then query.acceptMembers
    else false
  }

  /** The query `completeReference` builds: static members after an instance are filtered on the first invocation only. */
  function CompleteReferenceQuery(filter: ElementFilter, acceptClasses: bool, acceptMembers: bool, invocationCount: int): ReferenceQuery
  {
    ReferenceQuery(filter, acceptClasses, acceptMembers, invocationCount <= 1)
  }

  function CompleteReference(env: Collaborators, filter: ElementFilter, acceptClasses: bool, acceptMembers: bool): seq<LookupElement>
  {
    env.processReference(CompleteReferenceQuery(filter, acceptClasses, acceptMembers, env.invocationCount))
  }

  /**
   * The pre-filter of `completeReference`: a hint that is a `PsiClass` answers `acceptClasses`
   * even when it is also a member kind; a variable, method or candidate-info hint answers
   * `acceptMembers`; any other kind is refused. The option is on iff `invocationCount <= 1`.
   */
  lemma CompleteReferencePreFilter(filter: ElementFilter, acceptClasses: bool, acceptMembers: bool, invocationCount: int, hint: HintClass)
    ensures var q := CompleteReferenceQuery(filter, acceptClasses, acceptMembers, invocationCount);
            && (hint.isPsiClass ==> IsClassAcceptable(q, hint) == acceptClasses)
            && (!hint.isPsiClass && (hint.isPsiVariable || hint.isPsiMethod || hint.isCandidateInfo) ==> IsClassAcceptable(q, hint) == acceptMembers)
            && (!hint.isPsiClass && !hint.isPsiVariable && !hint.isPsiMethod && !hint.isCandidateInfo ==> !IsClassAcceptable(q, hint))
            && (q.filterStaticAfterInstance <==> invocationCount <= 1)
            && q.filter == filter
  {
  }

  /**
   * The two queries this contributor makes: the class-reference query (`true, false`) accepts
   * exactly the class hints, and the typecast query (`false, true`) refuses class hints and
   * accepts exactly the variable, method and candidate-info hints.
   */
  lemma ContributorQueriesPreFilter(filter: ElementFilter, invocationCount: int, hint: HintClass)
    ensures IsClassAcceptable(CompleteReferenceQuery(filter, true, false, invocationCount), hint) <==> hint.isPsiClass
    ensures IsClassAcceptable(CompleteReferenceQuery(filter, false, true, invocationCount), hint) <==>
              !hint.isPsiClass && (hint.isPsiVariable || hint.isPsiMethod || hint.isCandidateInfo)
  {
  }

  // ---------------------------------------------------------------------------------------------
  // addClassReferenceSuggestions
  // ---------------------------------------------------------------------------------------------

  /** What one completed item adds in the class-reference branch. */
  function ClassItemAddition(item: LookupElement, inRefList: bool, constructorHints: bool, infos: set<ExpectedTypeInfo>): seq<LookupElement>
  {
    var o := ObjectOf(item);
    if o.ClassObject? || (constructorHints && o.MethodObject? && o.isConstructor) then
      [Decorated(if !inRefList && o.ClassObject? then WithInsertHandler(item, SmartConstructorInsertHandler) else item, infos)]
    else []
  }

  /** What `addClassReferenceSuggestions` appends to the result set. */
  function ClassReferenceAdditions(pos: Position, env: Collaborators): seq<LookupElement>
  {
    var inRefList := pos.insideReferenceList;
    var filter := GetClassReferenceFilter(pos, inRefList, env.newExpectedTypes);
    if filter.Some? then
      var infos := InfoSet(ExpectedTypes(pos, env));
      var constructorHints := env.showParameterNameHints && pos.constructorCallPlace;
      FlatMap(CompleteReference(env, filter.value, true, false), item => ClassItemAddition(item, inRefList, constructorHints, infos))
    else if pos.insideTypecast && pos.castType.Some? then
      CompleteReference(env, AssignableToType(pos.castType.value), false, true)
    else []
  }

  method AddClassReferenceSuggestions(pos: Position, env: Collaborators, result: CompletionResultSet)
    modifies result
    ensures result.elements == old(result.elements) + ClassReferenceAdditions(pos, env)
  {
    var inRefList := pos.insideReferenceList;
    var filter := GetClassReferenceFilter(pos, inRefList, env.newExpectedTypes);
    if filter.Some? {
      var expected := GetExpectedTypes(pos, env);
      var infos := InfoSet(expected);
      var constructorHints := env.showParameterNameHints && pos.constructorCallPlace;
      var items := CompleteReference(env, filter.value, true, false);
      ghost var f := item => ClassItemAddition(item, inRefList, constructorHints, infos);
      for i := 0 to |items|
        invariant result.elements == old(result.elements) + FlatMap(items[..i], f)
      {
        FlatMapStep(items, i, f);
        var item := items[i];
        var o := ObjectOf(item);
        if o.ClassObject? || (constructorHints && o.MethodObject? && o.isConstructor) {
          if !inRefList && o.ClassObject? {
            item := WithInsertHandler(item, SmartConstructorInsertHandler);
          }
          result.AddElement(Decorated(item, infos));
        }
      }
      assert items[..|items|] == items;
    } else if pos.insideTypecast && pos.castType.Some? {
      var items := CompleteReference(env, AssignableToType(pos.castType.value), false, true);
      for i := 0 to |items|
        invariant result.elements == old(result.elements) + items[..i]
      {
        result.AddElement(items[i]);
        assert items[..i + 1] == items[..i] + [items[i]];
      }
      assert items[..|items|] == items;
    }
  }

  /**
   * With a class-reference filter, every element added is decorated with the expected types and
   * stands for a class, or for a constructor when parameter hints are on at a constructor-call
   * place; the smart constructor insert handler is attached exactly to the classes outside a
   * reference list. Without a filter nothing is added unless the position is a typecast target.
   */
  lemma ClassReferenceAdditionsShape(pos: Position, env: Collaborators, e: LookupElement)
    requires e in ClassReferenceAdditions(pos, env)
    ensures GetClassReferenceFilter(pos, pos.insideReferenceList, env.newExpectedTypes).Some? ==>
              && e.Decorated?
              && e.infos == InfoSet(ExpectedTypes(pos, env))
              && (ObjectOf(e).ClassObject? ||
                  (env.showParameterNameHints && pos.constructorCallPlace && ObjectOf(e).MethodObject? && ObjectOf(e).isConstructor))
              && var items := CompleteReference(env, GetClassReferenceFilter(pos, pos.insideReferenceList, env.newExpectedTypes).value, true, false);
                 if ObjectOf(e).ClassObject? && !pos.insideReferenceList
                 then e.delegate.WithInsertHandler? && e.delegate.handler == SmartConstructorInsertHandler && e.delegate.delegate in items
                 else e.delegate in items
    ensures GetClassReferenceFilter(pos, pos.insideReferenceList, env.newExpectedTypes).None? ==>
              pos.insideTypecast && pos.castType.Some? &&
              e in env.processReference(ReferenceQuery(AssignableToType(pos.castType.value), false, true, env.invocationCount <= 1))
  {
    var inRefList := pos.insideReferenceList;
    var filter := GetClassReferenceFilter(pos, inRefList, env.newExpectedTypes);
    if filter.Some? {
      var infos := InfoSet(ExpectedTypes(pos, env));
      var constructorHints := env.showParameterNameHints && pos.constructorCallPlace;
      var f := item => ClassItemAddition(item, inRefList, constructorHints, infos);
      var items := CompleteReference(env, filter.value, true, false);
      FlatMapMember(items, f, e);
      var i :| 0 <= i < |items| && e in f(items[i]);
      assert e in ClassItemAddition(items[i], inRefList, constructorHints, infos);
    }
  }

  // ---------------------------------------------------------------------------------------------
  // addExpressionSuggestions
  // ---------------------------------------------------------------------------------------------

  /** The basic contributor's candidate passes the type check: it has a type the info's type is assignable from. */
  predicate PassesTypeCheck(env: Collaborators, info: ExpectedTypeInfo, e: LookupElement)
  {
    env.lookupElementType(e).Some? && env.isAssignableFrom(info.infoType, env.lookupElementType(e).value)
  }

  /** The type-checked stream for one merged info. */
  function TypedVariants(env: Collaborators, infos: set<ExpectedTypeInfo>, info: ExpectedTypeInfo): seq<LookupElement>
  {
    FlatMap(env.basicVariants(info), e => if PassesTypeCheck(env, info, e) then [Decorated(e, infos)] else [])
  }

  /** `chainedEtc`: the non-null slow continuations, one per merged info that has one, in iteration order. */
  function Continuations(env: Collaborators, merged: seq<ExpectedTypeInfo>): seq<seq<LookupElement>>
    decreases |merged|
  {
    if merged == [] then []
    else
      var last := env.referenceVariants(merged[|merged| - 1]).continuation;
      Continuations(env, merged[..|merged| - 1]) + (if last.Some? then [last.value] else [])
  }

  /** What the chained contributor adds at once, decorated, for each merged info in turn. */
  function ImmediateAdditions(env: Collaborators, infos: set<ExpectedTypeInfo>, merged: seq<ExpectedTypeInfo>): seq<LookupElement>
  {
    FlatMap(merged, info => DecorateAll(env.referenceVariants(info).immediate, infos))
  }

  /** The type-checked streams of the merged infos, one after another. */
  function TypedAdditions(env: Collaborators, infos: set<ExpectedTypeInfo>, merged: seq<ExpectedTypeInfo>): seq<LookupElement>
  {
    FlatMap(merged, info => TypedVariants(env, infos, info))
  }

  /** What running the collected continuations adds, decorated, in collection order. */
  function ContinuationAdditions(infos: set<ExpectedTypeInfo>, chainedEtc: seq<seq<LookupElement>>): seq<LookupElement>
  {
    FlatMap(chainedEtc, c => DecorateAll(c, infos))
  }

  /**
   * What `addExpressionSuggestions` appends for the merged iteration order `merged`: first what the
   * chained contributor adds at once, then every type-checked stream, and only then the
   * continuations, in the order they were collected.
   */
  function ExpressionAdditions(env: Collaborators, infos: set<ExpectedTypeInfo>, merged: seq<ExpectedTypeInfo>): seq<LookupElement>
  {
    ImmediateAdditions(env, infos, merged) + TypedAdditions(env, infos, merged) + ContinuationAdditions(infos, Continuations(env, merged))
  }

  method AddTypeChecked(env: Collaborators, result: CompletionResultSet, info: ExpectedTypeInfo, infos: set<ExpectedTypeInfo>)
    modifies result
    ensures result.elements == old(result.elements) + TypedVariants(env, infos, info)
  {
    var candidates := env.basicVariants(info);
    ghost var f := e => if PassesTypeCheck(env, info, e) then [Decorated(e, infos)] else [];
    for i := 0 to |candidates|
      invariant result.elements == old(result.elements) + FlatMap(candidates[..i], f)
    {
      FlatMapStep(candidates, i, f);
      var lookupElement := candidates[i];
      var psiType := env.lookupElementType(lookupElement);
      if psiType.Some? && env.isAssignableFrom(info.infoType, psiType.value) {
        result.AddElement(Decorated(lookupElement, infos));
      }
    }
    assert candidates[..|candidates|] == candidates;
  }

  /** The first loop of `addExpressionSuggestions`: run the chained contributor, keep its continuations. */
  method AddChainedVariants(env: Collaborators, infos: set<ExpectedTypeInfo>, merged: seq<ExpectedTypeInfo>, result: CompletionResultSet)
    returns (chainedEtc: seq<seq<LookupElement>>)
    modifies result
    ensures result.elements == old(result.elements) + ImmediateAdditions(env, infos, merged)
    ensures chainedEtc == Continuations(env, merged)
  {
    chainedEtc := [];
    ghost var immediate := info => DecorateAll(env.referenceVariants(info).immediate, infos);
    for i := 0 to |merged|
      invariant result.elements == old(result.elements) + FlatMap(merged[..i], immediate)
      invariant chainedEtc == Continuations(env, merged[..i])
    {
      FlatMapStep(merged, i, immediate);
      assert merged[..i + 1][..i] == merged[..i];
      var fill := env.referenceVariants(merged[i]);
      DecorateWithoutTypeCheck(result, fill.immediate, infos);
      if fill.continuation.Some? {
        chainedEtc := chainedEtc + [fill.continuation.value];
      }
    }
    assert merged[..|merged|] == merged;
  }

  /** The second loop of `addExpressionSuggestions`: the basic contributor, behind the type check. */
  method AddTypedVariants(env: Collaborators, infos: set<ExpectedTypeInfo>, merged: seq<ExpectedTypeInfo>, result: CompletionResultSet)
    modifies result
    ensures result.elements == old(result.elements) + TypedAdditions(env, infos, merged)
  {
    ghost var typed := info => TypedVariants(env, infos, info);
    for i := 0 to |merged|
      invariant result.elements == old(result.elements) + FlatMap(merged[..i], typed)
    {
      FlatMapStep(merged, i, typed);
      AddTypeChecked(env, result, merged[i], infos);
    }
    assert merged[..|merged|] == merged;
  }

  /** The third loop of `addExpressionSuggestions`: run each collected continuation. */
  method RunContinuations(infos: set<ExpectedTypeInfo>, chainedEtc: seq<seq<LookupElement>>, result: CompletionResultSet)
    modifies result
    ensures result.elements == old(result.elements) + ContinuationAdditions(infos, chainedEtc)
  {
    ghost var run := c => DecorateAll(c, infos);
    for k := 0 to |chainedEtc|
      invariant result.elements == old(result.elements) + FlatMap(chainedEtc[..k], run)
    {
      FlatMapStep(chainedEtc, k, run);
      DecorateWithoutTypeCheck(result, chainedEtc[k], infos);
    }
    assert chainedEtc[..|chainedEtc|] == chainedEtc;
  }

  method AddExpressionSuggestions(env: Collaborators, infos: set<ExpectedTypeInfo>, result: CompletionResultSet)
    modifies result
    ensures exists merged :: MergedByType(infos, merged) &&
              result.elements == old(result.elements) + ExpressionAdditions(env, infos, merged)
  {
    var mergedInfos := MergeByType(infos);
    ghost var s0 := result.elements;
    var chainedEtc := AddChainedVariants(env, infos, mergedInfos, result);
    ghost var s1 := result.elements;
    AddTypedVariants(env, infos, mergedInfos, result);
    ghost var s2 := result.elements;
    RunContinuations(infos, chainedEtc, result);
    ghost var i := ImmediateAdditions(env, infos, mergedInfos);
    ghost var t := TypedAdditions(env, infos, mergedInfos);
    ghost var c := ContinuationAdditions(infos, chainedEtc);
    assert s0 == old(result.elements);
    assert result.elements == s0 + i + t + c;
    assert ExpressionAdditions(env, infos, mergedInfos) == i + t + c;
    AppendAssociative(s0, i, t, c);
  }

  /**
   * Every element of a type-checked stream is decorated with the infos, and the candidate it
   * decorates has a non-null type that the type of one of the merged infos is assignable from.
   */
  lemma TypedAdditionsAreAssignable(env: Collaborators, infos: set<ExpectedTypeInfo>, merged: seq<ExpectedTypeInfo>, e: LookupElement)
    requires e in TypedAdditions(env, infos, merged)
    ensures e.Decorated? && e.infos == infos
    ensures exists i :: 0 <= i < |merged| &&
              env.lookupElementType(e.delegate).Some? &&
              env.isAssignableFrom(merged[i].infoType, env.lookupElementType(e.delegate).value)
  {
    FlatMapMember(merged, info => TypedVariants(env, infos, info), e);
    var i :| 0 <= i < |merged| && e in TypedVariants(env, infos, merged[i]);
    var f := x => if PassesTypeCheck(env, merged[i], x) then [Decorated(x, infos)] else [];
    FlatMapMember(env.basicVariants(merged[i]), f, e);
  }

  /** Each collected continuation is the non-null continuation of one merged info. */
  lemma {:induction false} ContinuationsComeFromMergedInfos(env: Collaborators, merged: seq<ExpectedTypeInfo>, k: nat)
    requires k < |Continuations(env, merged)|
    ensures exists i :: 0 <= i < |merged| && env.referenceVariants(merged[i]).continuation == Some(Continuations(env, merged)[k])
    decreases |merged|
  {
    var init := merged[..|merged| - 1];
    if k < |Continuations(env, init)| {
      ContinuationsComeFromMergedInfos(env, init, k);
      var i :| 0 <= i < |init| && env.referenceVariants(init[i]).continuation == Some(Continuations(env, init)[k]);
      assert merged[i] == init[i];
    } else {
      assert env.referenceVariants(merged[|merged| - 1]).continuation == Some(Continuations(env, merged)[k]);
    }
  }

  // ---------------------------------------------------------------------------------------------
  // provideSmartCompletionSuggestions
  // ---------------------------------------------------------------------------------------------

  /** What the special providers append, in the order the source consults them. */
  function ProviderAdditions(pos: Position, env: Collaborators): seq<LookupElement>
  {
    (if pos.afterInstanceof then env.providerVariants(InstanceofTypes) else [])
    + (if pos.annotationAttributeValue then env.providerVariants(ExpectedAnnotations) else [])
    + (if pos.catchClauseType then env.providerVariants(CatchTypes) else [])
    + (if pos.afterDoubleColon then env.providerVariants(MethodReferences) else [])
  }

  predicate NoSmartCompletion(pos: Position)
  {
    pos.isComment || pos.parentIsLiteral
  }

  method AddProviderVariants(result: CompletionResultSet, items: seq<LookupElement>)
    modifies result
    ensures result.elements == old(result.elements) + items
  {
    for i := 0 to |items|
      invariant result.elements == old(result.elements) + items[..i]
    {
      result.AddElement(items[i]);
      assert items[..i + 1] == items[..i] + [items[i]];
    }
    assert items[..|items|] == items;
  }

  /** The tail of `provideSmartCompletionSuggestions`: each special provider whose context matches. */
  method AddSpecialProviderVariants(pos: Position, env: Collaborators, result: CompletionResultSet)
    modifies result
    ensures result.elements == old(result.elements) + ProviderAdditions(pos, env)
  {
    if pos.afterInstanceof {
      AddProviderVariants(result, env.providerVariants(InstanceofTypes));
    }
    if pos.annotationAttributeValue {
      AddProviderVariants(result, env.providerVariants(ExpectedAnnotations));
    }
    if pos.catchClauseType {
      AddProviderVariants(result, env.providerVariants(CatchTypes));
    }
    if pos.afterDoubleColon {
      AddProviderVariants(result, env.providerVariants(MethodReferences));
    }
  }

  /**
   * `provideSmartCompletionSuggestions`: nothing at a comment or inside a literal; otherwise,
   * unless a cast is suggested, the class-reference branch when there is a reference at the offset
   * and the expression branch inside an expression; then each special provider whose context
   * matches, whatever happened before.
   */
  method ProvideSmartCompletionSuggestions(pos: Position, env: Collaborators, result: CompletionResultSet)
    modifies result
    ensures NoSmartCompletion(pos) ==> result.elements == old(result.elements)
    ensures !NoSmartCompletion(pos) && (pos.shouldSuggestCast || !pos.insideExpression) ==>
              result.elements == old(result.elements)
                + (if !pos.shouldSuggestCast && pos.referenceAtOffset then ClassReferenceAdditions(pos, env) else [])
                + ProviderAdditions(pos, env)
    ensures !NoSmartCompletion(pos) && !pos.shouldSuggestCast && pos.insideExpression ==>
              exists merged :: MergedByType(InfoSet(ExpectedTypes(pos, env)), merged) &&
                result.elements == old(result.elements)
                  + (if pos.referenceAtOffset then ClassReferenceAdditions(pos, env) else [])
                  + ExpressionAdditions(env, InfoSet(ExpectedTypes(pos, env)), merged)
                  + ProviderAdditions(pos, env)
  {
    if pos.isComment || pos.parentIsLiteral {
      return;
    }
    if !pos.shouldSuggestCast {
      if pos.referenceAtOffset {
        AddClassReferenceSuggestions(pos, env, result);
      }
      ghost var classPart := if pos.referenceAtOffset then ClassReferenceAdditions(pos, env) else [];
      assert result.elements == old(result.elements) + classPart;
      if pos.insideExpression {
        var expected := GetExpectedTypes(pos, env);
        var infos := InfoSet(expected);
        ghost var beforeExpression := result.elements;
        AddExpressionSuggestions(env, infos, result);
        ghost var merged :| MergedByType(infos, merged) &&
          result.elements == beforeExpression + ExpressionAdditions(env, infos, merged);
        ghost var expressionPart := ExpressionAdditions(env, infos, merged);
        ghost var beforeProviders := result.elements;
        AddSpecialProviderVariants(pos, env, result);
        assert result.elements == old(result.elements) + classPart + expressionPart + ProviderAdditions(pos, env);
        assert MergedByType(InfoSet(ExpectedTypes(pos, env)), merged) &&
          result.elements == old(result.elements) + classPart + ExpressionAdditions(env, InfoSet(ExpectedTypes(pos, env)), merged)
            + ProviderAdditions(pos, env);
        return;
      }
    }
    AddSpecialProviderVariants(pos, env, result);
  }

  // ---------------------------------------------------------------------------------------------
  // beforeSmartCompletion
  // ---------------------------------------------------------------------------------------------

  /** An ancestor of the identifier at the caret, with the end offset of its text range. */
  datatype NodeKind =
    | JavaCodeReferenceNode
    | MethodCallNode(methodExpressionEnd: int)
    | NewExpressionNode(classReferenceEnd: Option<int>)
    | OtherCallNode
    | ThisExpressionNode
    | SuperExpressionNode
    | TypeElementNode
    | ClassObjectAccessNode
    | OtherNode

  datatype TreeNode = TreeNode(kind: NodeKind, endOffset: int)

  /** A leaf found at an offset: its text, whether it is an identifier, whether its parent is a parenthesized expression. */
  datatype Leaf = Leaf(text: string, isIdentifier: bool, parentIsParenthesized: bool)

  /** A reference, call, `this`, `super`, type element or class-object access: the walk goes on through it. */
  predicate InReplacementChain(node: TreeNode)
  {
    !node.kind.OtherNode?
  }

  /** The offset a chain element proposes: the end of a call's method expression, of a `new`'s class reference, or of the element. */
  function ProposedEnd(node: TreeNode): int
  {
    match node.kind
    case MethodCallNode(methodExpressionEnd) => methodExpressionEnd
    case NewExpressionNode(classReferenceEnd) => if classReferenceEnd.Some? then classReferenceEnd.value else node.endOffset
    case _ => node.endOffset
  }

  /** How many ancestors, from the innermost, the walk passes through. */
  function ChainLength(ancestors: seq<TreeNode>): (k: nat)
    ensures k <= |ancestors|
    ensures forall i :: 0 <= i < k ==> InReplacementChain(ancestors[i])
    ensures k < |ancestors| ==> !InReplacementChain(ancestors[k])
    decreases |ancestors|
  {
    if ancestors == [] || !InReplacementChain(ancestors[0]) then 0
    else 1 + ChainLength(ancestors[1..])
  }

  /** The part of `CompletionInitializationContext` that the source updates. */
  class CompletionInitializationContext {
    var replacementOffset: int
    var dummyIdentifier: string

    constructor (replacementOffset: int, dummyIdentifier: string)
      ensures this.replacementOffset == replacementOffset && this.dummyIdentifier == dummyIdentifier
    {
      this.replacementOffset := replacementOffset;
      this.dummyIdentifier := dummyIdentifier;
    }

    method SetReplacementOffset(offset: int)
      modifies this
      ensures replacementOffset == offset && dummyIdentifier == old(dummyIdentifier)
    {
      replacementOffset := offset;
    }

    method SetDummyIdentifier(identifier: string)
      modifies this
      ensures dummyIdentifier == identifier && replacementOffset == old(replacementOffset)
    {
      dummyIdentifier := identifier;
    }
  }

  /**
   * `beforeSmartCompletion`. `elementAtStart` is the leaf at the start offset, `ancestors` its
   * parents from the innermost outwards, `leafBeforeStart` the leaf just before the start offset.
   */
  method BeforeSmartCompletion(context: CompletionInitializationContext, hasSelection: bool,
                               elementAtStart: Option<Leaf>, ancestors: seq<TreeNode>, leafBeforeStart: Option<Leaf>)
    modifies context
    ensures context.replacementOffset ==
              if !hasSelection && elementAtStart.Some? && elementAtStart.value.isIdentifier && ChainLength(ancestors) > 0
              then ProposedEnd(ancestors[ChainLength(ancestors) - 1])
              else old(context.replacementOffset)
    ensures context.dummyIdentifier ==
              if leafBeforeStart.Some? && leafBeforeStart.value.text == "(" && leafBeforeStart.value.parentIsParenthesized
              then old(context.dummyIdentifier)
              else DUMMY_IDENTIFIER_TRIMMED
  {
    if !hasSelection {
      if elementAtStart.Some? && elementAtStart.value.isIdentifier {
        var i := 0;
        while i < |ancestors| && InReplacementChain(ancestors[i])
          invariant 0 <= i <= ChainLength(ancestors)
          invariant i == 0 ==> context.replacementOffset == old(context.replacementOffset)
          invariant i > 0 ==> context.replacementOffset == ProposedEnd(ancestors[i - 1])
          invariant context.dummyIdentifier == old(context.dummyIdentifier)
          decreases |ancestors| - i
        {
          var element := ancestors[i];
          var newEnd := element.endOffset;
          if element.kind.MethodCallNode? {
            newEnd := element.kind.methodExpressionEnd;
          } else if element.kind.NewExpressionNode? {
            var classReference := element.kind.classReferenceEnd;
            if classReference.Some? {
              newEnd := classReference.value;
            }
          }
          context.SetReplacementOffset(newEnd);
          i := i + 1;
        }
      }
    }
    if leafBeforeStart.Some? && leafBeforeStart.value.text == "(" && leafBeforeStart.value.parentIsParenthesized {
      return;
    }
    context.SetDummyIdentifier(DUMMY_IDENTIFIER_TRIMMED);
  }

  /**
   * The walk stops at the first ancestor outside the chain, so the offset that wins is the one the
   * outermost chained ancestor proposes: for a method call the end of its method expression, for
   * a `new` with a class reference the end of that reference.
   */
  lemma OutermostChainElementWins(ancestors: seq<TreeNode>)
    requires ChainLength(ancestors) > 0
    ensures var outer := ancestors[ChainLength(ancestors) - 1];
            && (outer.kind.MethodCallNode? ==> ProposedEnd(outer) == outer.kind.methodExpressionEnd)
            && (outer.kind.NewExpressionNode? && outer.kind.classReferenceEnd.Some? ==> ProposedEnd(outer) == outer.kind.classReferenceEnd.value)
            && (ChainLength(ancestors) < |ancestors| ==> ancestors[ChainLength(ancestors)].kind.OtherNode?)
  {
  }
}
