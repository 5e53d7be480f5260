# Weakest necessary classes and smart completion for Java, in Dafny

This project models two parts of the IntelliJ Java support in Dafny and proves properties about them.

**`TypeUtils` (InspectionGadgets), in `TypeUtils.dfy`**
- The null-safe type predicates.
- `getExpressionIndex`.
- The analysis `calculateWeakestClassesNecessary`, with its helper `checkClass`. Given a local variable, the analysis looks at every reference to it. It keeps the set of weakest classes that still satisfy every class the source folds in for a reference: the parameter's class for an argument, the classes declaring the called method's deepest super methods for a receiver, and the other side's class for one side of an assignment. The answer is null when some use is unsupported, or when, before some reference is examined, the set already holds the variable's own class.

**`JavaSmartCompletionContributor`, in `JavaSmartCompletionContributor.dfy`**
This is the decision logic of smart type completion:
- the hashing strategy that merges expected types that share a type;
- the expected types at a `throw`;
- the filter chosen for a class reference;
- the kind pre-filter and options handed to reference completion;
- the order in which suggestions reach the result set;
- the replacement offset and dummy identifier that are set before completion starts.

**Shared data, in `Psi.dfy`**
`Psi.dfy` holds the small part of the program model that both modules read: types, expressions and nullable references (`Option`, where `None` is `null`).

Classes are opaque identities. Inheritance is a relation `isInheritor(a, b)` passed in as a parameter, meaning `a` strictly inherits from `b`.

### Proved about the analysis
- Its result is always an antichain: no member inherits from another.
- Under a transitive inheritance relation, every class the source folds in for some reference is covered by a member that is that class or inherits from it.
- `checkClass` removes exactly the members that the new class inherits from, adds the new class only when no member is that class or a subclass of it, is idempotent, and never loses coverage.

### Proved about completion
- Nothing is offered in a comment or a literal.
- The three expression streams arrive in a fixed order: immediate chained variants, then type-checked basic variants, then slow continuations.
- Every type-checked variant has a type that an expected type is assignable from.
- With a class-reference filter (`throw new`, `new a.b`, reference list), class-reference suggestions are classes, or constructors when parameter hints are enabled and the position is a constructor-call place. The smart constructor insert handler goes on exactly the classes outside a reference list. Without one, only the typecast branch adds, and it adds what reference completion returns for the cast type, undecorated.
- The expected types at a `throw` are `RuntimeException` followed by the method's `throws` list, and duplicates are kept.
- The replacement offset comes from the outermost ancestor in the reference/call chain.

### Behaviour of the code worth noting
- A variable declared `java.lang.Object` gives null (lines 51-53). It does not give `{Object}`.
- The early exit is tested before each reference, not after the last one. A `Dog` variable whose only use needs a `Dog` therefore gets `{Dog}`, its own class (`TypeUtils.ZooWeakest`).
- A receiver contributes only the classes that declare the called method's deepest super methods (lines 111-117). A method that overrides or implements nothing has none, so a `Dog` variable whose only use is `d.bark()`, with `bark` introduced in `Dog`, gets `{java.lang.Object}` (`TypeUtils.ZooReceiverWithoutSuperMethods`).
- The expected types at a `throw` are not deduplicated (`JavaSmartCompletionContributor.ThrowContextKeepsDuplicates`).

## Model

| member | source | states |
|---|---|---|
| TypeUtils.NullHasNoType | plugins/InspectionGadgets/src/com/siyeh/ig/psiutils/TypeUtils.java:182-227 | a null expression or null type satisfies none of `typeEquals`, `isJavaLangObject`, `isJavaLangString`, `expressionHasType`, `expressionHasTypeOrSubtype` |
| TypeUtils.ExpressionHasTypeOrSubtypeOfAny | plugins/InspectionGadgets/src/com/siyeh/ig/psiutils/TypeUtils.java:229-253 | the varargs overload is true iff the single-name overload holds for some name, iff the expression's type resolves to a class that is a subclass of some name |
| TypeUtils.IndexOf | plugins/InspectionGadgets/src/com/siyeh/ig/psiutils/TypeUtils.java:169-180 | the index is -1 iff the expression is absent; otherwise it is in range, holds the expression, and no earlier position does |
| TypeUtils.GetExpressionIndex | plugins/InspectionGadgets/src/com/siyeh/ig/psiutils/TypeUtils.java:169-180 | the linear search returns the first index of the expression, or -1 |
| TypeUtils.CheckClass | plugins/InspectionGadgets/src/com/siyeh/ig/psiutils/TypeUtils.java:147-166 | for every iteration order, the single pass with removal leaves the set `Checked`: the members the class does not strictly inherit from, plus the class unless a member is that class or a subclass of it |
| TypeUtils.CheckedMembers | plugins/InspectionGadgets/src/com/siyeh/ig/psiutils/TypeUtils.java:147-166 | for an irreflexive, transitive relation: another member stays iff the class does not inherit from it; nothing but the class is added; the class is present afterwards iff it was there before or no member inherits from it |
| TypeUtils.CheckedKeepsAntichain | plugins/InspectionGadgets/src/com/siyeh/ig/psiutils/TypeUtils.java:147-166 | for any relation, `checkClass` keeps the set free of members that inherit from one another |
| TypeUtils.CheckedIdempotent | plugins/InspectionGadgets/src/com/siyeh/ig/psiutils/TypeUtils.java:147-166 | checking the same class twice gives the same set as checking it once |
| TypeUtils.CheckedCovers | plugins/InspectionGadgets/src/com/siyeh/ig/psiutils/TypeUtils.java:147-166 | under a transitive relation, afterwards some member is the class or inherits from it, and every class covered before is still covered |
| TypeUtils.CheckedAllKeepsAntichain | plugins/InspectionGadgets/src/com/siyeh/ig/psiutils/TypeUtils.java:111-117 | checking the deepest super methods' classes one after another keeps the antichain |
| TypeUtils.CheckedAllCovers | plugins/InspectionGadgets/src/com/siyeh/ig/psiutils/TypeUtils.java:111-117 | after checking a sequence of classes, each of them and everything covered before is covered |
| TypeUtils.CalculateWeakestClassesNecessary | plugins/InspectionGadgets/src/com/siyeh/ig/psiutils/TypeUtils.java:35-145 | the method, with its early exits and in-place updates of the set, returns `WeakestClasses`; the requires are exactly the spots the source leaves unguarded (index out of range, null class passed to `checkClass`) for the references the loop reaches |
| TypeUtils.WeakestGivesUpOnUnsupportedType | plugins/InspectionGadgets/src/com/siyeh/ig/psiutils/TypeUtils.java:37-53 | the result is null when the declared type is not a class type, does not resolve, or is `java.lang.Object` |
| TypeUtils.WeakestWithoutReferences | plugins/InspectionGadgets/src/com/siyeh/ig/psiutils/TypeUtils.java:48-144 | with no references, the result is exactly `{java.lang.Object}` |
| TypeUtils.ScanStopsAtOwnClass | plugins/InspectionGadgets/src/com/siyeh/ig/psiutils/TypeUtils.java:56-59 | once the set holds the variable's class and a reference remains, the result is null whatever the remaining references are |
| TypeUtils.ScanStep | plugins/InspectionGadgets/src/com/siyeh/ig/psiutils/TypeUtils.java:56-143 | a reference the analysis gives up on makes the result null; any other reference continues from the set with its classes folded in |
| TypeUtils.ConstraintByPosition | plugins/InspectionGadgets/src/com/siyeh/ig/psiutils/TypeUtils.java:63-142 | an argument gives up unless it is in a resolved call with a class-type parameter that resolves, and then contributes that class; a receiver of an unresolved call gives up, and a receiver of a resolved call contributes exactly the containing classes of its deepest super methods, in order (none when there are none); an assignment side that is neither the left side with a right side nor the right side contributes nothing; an assignment contributes the other side's class, or gives up on a non-class type; any other position contributes nothing |
| TypeUtils.ScanSkipsOtherPositions | plugins/InspectionGadgets/src/com/siyeh/ig/psiutils/TypeUtils.java:118-142 | a reference that is not an argument, a receiver or an assignment side leaves the result unchanged |
| TypeUtils.ScanKeepsAntichain | plugins/InspectionGadgets/src/com/siyeh/ig/psiutils/TypeUtils.java:56-143 | the loop over references keeps the antichain |
| TypeUtils.WeakestIsAntichain | plugins/InspectionGadgets/src/com/siyeh/ig/psiutils/TypeUtils.java:35-145 | for any inheritance relation, a non-null result has no member that inherits from another |
| TypeUtils.ScanCovers | plugins/InspectionGadgets/src/com/siyeh/ig/psiutils/TypeUtils.java:56-143 | under a transitive relation, a non-null result of the loop covers what the starting set covered and every class the source folds in for any reference |
| TypeUtils.WeakestCoversReferences | plugins/InspectionGadgets/src/com/siyeh/ig/psiutils/TypeUtils.java:35-145 | a non-null result covers every class the source folds in for a reference: each is a member or an ancestor of a member |
| TypeUtils.ZooFolds | plugins/InspectionGadgets/src/com/siyeh/ig/psiutils/TypeUtils.java:147-166 | on a small hierarchy: Animal then Dog leave `{Dog}`; unrelated Dog and Cat are both kept; Animal is absorbed by Dog |
| TypeUtils.ZooReceiverWithoutSuperMethods | plugins/InspectionGadgets/src/com/siyeh/ig/psiutils/TypeUtils.java:101-117 | a `Dog` variable used only as the receiver of a method with no deepest super method gets `{java.lang.Object}`: the receiver case folds in nothing |
| TypeUtils.ZooWeakest | plugins/InspectionGadgets/src/com/siyeh/ig/psiutils/TypeUtils.java:35-145 | a Poodle variable passed only where a Dog is needed gets `{Dog}`; an Object variable gets null; a Dog variable used the same way gets `{Dog}`, its own class |
| JavaSmartCompletionContributor.StrategyIsConsistent | java/java-impl/src/com/intellij/codeInsight/completion/JavaSmartCompletionContributor.java:37-47 | the strategy's equality is an equivalence that looks only at the type; equal infos hash alike; infos differing only in kind are equal |
| JavaSmartCompletionContributor.MergeByType | java/java-impl/src/com/intellij/codeInsight/completion/JavaSmartCompletionContributor.java:136 | for any iteration order: the merged infos come from the input, no two are equal under the strategy (same type), and every input info has a strategy-equal representative |
| JavaSmartCompletionContributor.DecorateWithoutTypeCheck | java/java-impl/src/com/intellij/codeInsight/completion/JavaSmartCompletionContributor.java:159-162 | every element fed to the consumer is added, decorated with the infos, in order |
| JavaSmartCompletionContributor.GetExpectedTypes | java/java-impl/src/com/intellij/codeInsight/completion/JavaSmartCompletionContributor.java:203-223 | the list built in the loop is `ExpectedTypes`: the throw-context list, empty with no enclosing expression, or the provider's answer |
| JavaSmartCompletionContributor.ThrowContextExpectedTypes | java/java-impl/src/com/intellij/codeInsight/completion/JavaSmartCompletionContributor.java:204-217 | at a `throw`: RuntimeException first, then the throws list in order, all TYPE_OR_SUBTYPE with a semicolon tail and default type equal to the type |
| JavaSmartCompletionContributor.ThrowContextKeepsDuplicates | java/java-impl/src/com/intellij/codeInsight/completion/JavaSmartCompletionContributor.java:208-216 | a method that throws RuntimeException gets it twice |
| JavaSmartCompletionContributor.NoExpectedTypesOutsideExpressions | java/java-impl/src/com/intellij/codeInsight/completion/JavaSmartCompletionContributor.java:219-220 | outside a throw and with no enclosing expression there are no expected types |
| JavaSmartCompletionContributor.ClassReferenceFilterPriority | java/java-impl/src/com/intellij/codeInsight/completion/JavaSmartCompletionContributor.java:66-98 | `throw new` gives the Throwable filter first; then `new a.b` gives one assignable-from filter per expected type, in order; then a reference list gives the applicability filter; otherwise null, and only then |
| JavaSmartCompletionContributor.CompleteReferencePreFilter | java/java-impl/src/com/intellij/codeInsight/completion/JavaSmartCompletionContributor.java:225-254 | a class hint answers `acceptClasses` even if it is also a member kind; variable, method and candidate-info hints answer `acceptMembers`; all others are refused; static-after-instance filtering is on iff the invocation count is at most 1 |
| JavaSmartCompletionContributor.ContributorQueriesPreFilter | java/java-impl/src/com/intellij/codeInsight/completion/JavaSmartCompletionContributor.java:108-124 | the class-reference query accepts exactly class hints; the typecast query refuses class hints and accepts exactly variable, method and candidate-info hints |
| JavaSmartCompletionContributor.AddClassReferenceSuggestions | java/java-impl/src/com/intellij/codeInsight/completion/JavaSmartCompletionContributor.java:100-129 | the loop appends exactly `ClassReferenceAdditions`, in completion order |
| JavaSmartCompletionContributor.ClassReferenceAdditionsShape | java/java-impl/src/com/intellij/codeInsight/completion/JavaSmartCompletionContributor.java:104-128 | with a filter, each addition is decorated with the expected types and is a class, or a constructor when hints are on at a constructor-call place; exactly the classes outside a reference list get the smart constructor insert handler; without a filter, additions come only from the typecast query |
| JavaSmartCompletionContributor.AddTypeChecked | java/java-impl/src/com/intellij/codeInsight/completion/JavaSmartCompletionContributor.java:145-150 | a basic variant is added, decorated, iff its type is non-null and the info's type is assignable from it |
| JavaSmartCompletionContributor.AddChainedVariants | java/java-impl/src/com/intellij/codeInsight/completion/JavaSmartCompletionContributor.java:137-142 | the immediate chained variants of each merged info are added in order, and the non-null continuations are collected in order |
| JavaSmartCompletionContributor.AddTypedVariants | java/java-impl/src/com/intellij/codeInsight/completion/JavaSmartCompletionContributor.java:144-152 | the type-checked streams are added one merged info after another |
| JavaSmartCompletionContributor.RunContinuations | java/java-impl/src/com/intellij/codeInsight/completion/JavaSmartCompletionContributor.java:154-156 | the collected continuations run in collection order |
| JavaSmartCompletionContributor.AddExpressionSuggestions | java/java-impl/src/com/intellij/codeInsight/completion/JavaSmartCompletionContributor.java:131-157 | for some merging of the infos by type, the result grows by all immediate chained variants, then all type-checked variants, then all continuations |
| JavaSmartCompletionContributor.TypedAdditionsAreAssignable | java/java-impl/src/com/intellij/codeInsight/completion/JavaSmartCompletionContributor.java:145-149 | every type-checked addition is decorated with the infos and has a non-null type that some merged info's type is assignable from |
| JavaSmartCompletionContributor.ContinuationsComeFromMergedInfos | java/java-impl/src/com/intellij/codeInsight/completion/JavaSmartCompletionContributor.java:138-142 | each collected continuation is the non-null continuation of one merged info |
| JavaSmartCompletionContributor.AddSpecialProviderVariants | java/java-impl/src/com/intellij/codeInsight/completion/JavaSmartCompletionContributor.java:181-192 | the instanceof, annotation, catch and method-reference providers each add their items exactly when their context matches, in that order |
| JavaSmartCompletionContributor.ProvideSmartCompletionSuggestions | java/java-impl/src/com/intellij/codeInsight/completion/JavaSmartCompletionContributor.java:164-193 | in a comment or literal nothing is added; otherwise, unless a cast is suggested, class-reference additions come first, then expression additions, and provider additions come last in every case |
| JavaSmartCompletionContributor.ChainLength | java/java-impl/src/com/intellij/codeInsight/completion/JavaSmartCompletionContributor.java:262-265 | the walk passes exactly the maximal prefix of ancestors that are references, calls, `this`, `super`, type elements or class-object accesses |
| JavaSmartCompletionContributor.BeforeSmartCompletion | java/java-impl/src/com/intellij/codeInsight/completion/JavaSmartCompletionContributor.java:256-289 | with no selection and an identifier at the start, the replacement offset is what the outermost chain ancestor proposes, and it is unchanged otherwise; the dummy identifier is trimmed unless the previous leaf is a `(` of a parenthesized expression |
| JavaSmartCompletionContributor.OutermostChainElementWins | java/java-impl/src/com/intellij/codeInsight/completion/JavaSmartCompletionContributor.java:262-278 | the winning offset is the method-expression end for a call and the class-reference end for a `new` that has one; the walk stops at a node outside the chain |

## Left out

- PSI patterns: `AFTER_THROW_NEW`, `INSIDE_EXPRESSION`, `INSIDE_TYPECAST_EXPRESSION`, `INSIDE_REFERENCE_LIST`, the provider patterns and `shouldSuggestCast` are not evaluated. Their outcomes are boolean fields of `Position`, because matching them needs the syntax tree.
- The reference search, `findDeepestSuperMethods`, `resolve()`, `isInheritor` and `ClassUtils.isSubclass` are not computed. Their answers are given: a sequence of usages in search order, or function parameters.
- The collaborators of completion are not part of this model: `ExpectedTypesProvider`, `ExpectedTypesGetter`, `JavaCompletionUtil.processJavaReference`, the basic and chained expression contributors, the four special providers, `getLookupElementType` and `isAssignableFrom`. Each is a field of `Collaborators` whose answer is given.
- The body of the filters' `isAcceptable`, including `ReferenceListWeigher`, is not modelled. The filters are data, and only the choice between them is modelled.
- TypeUtils.CalculateWeakestClassesNecessary: `java.lang.Object` is assumed to resolve in the variable's scope. The null class that the source would put in the set when it does not resolve is not modelled.
- TypeUtils.CalculateWeakestClassesNecessary: the spots where the source throws are preconditions, not modelled error results. These are an argument index of -1 or beyond the parameter list (as with a varargs call), and a null class passed to `checkClass`.
- TypeUtils.CheckClass: returns the updated set instead of mutating the caller's `HashSet`. The set is a local of the analysis, so no other holder can observe the difference.
- Hash-set iteration order is not fixed. Where the source iterates a hash set (`checkClass`, the strategy-merged set), the model picks the order freely and proves its contract for every order. The set returned by `completeReference` is a sequence in the collaborator's order.
- Decorated elements carry the expected types as a set. The class-reference branch passes them as a list, so their order and duplicates are not represented there.
- The result set is append-only. Prefix matching, sorting and what `SmartCompletionDecorator` does with its infos are not modelled.
- Cancellation, threading, settings lookup beyond the parameter-hints flag, and editor access are not modelled. The selection flag and the leaves around the caret are parameters instead.
- `CompletionUtil.DUMMY_IDENTIFIER_TRIMMED` is defined outside the modelled files, so its value `"IntellijIdeaRulezzz"` is written out as a constant.
