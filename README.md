# Five error-prone checks of gradle-baseline, in Dafny

This project models five compile-time checks from gradle-baseline's `baseline-error-prone` module. Each check looks at one node of a Java syntax tree, typed by the compiler, and either reports a finding or stays silent. Each check is modelled as a pure function, and the project proves what each one decides.

- **StrictCollectionIncompatibleType.** Takes a call such as `Collection.contains(Object)` or `Map.get(Object)`, out of a catalog of 17 methods. It reports the call when the boxed argument type and the collection's type argument are subtypes of each other in neither direction. Both are compared as erased types.
- **UnexpectedType.** Takes `Map.get/containsKey/remove(Object)` and `Collection.contains/remove(Object)`. It reports an argument that cannot even be cast to the key or element type. The map methods are tried first.
- **PreferExpressionLambda.** Takes a lambda whose block body is a single `return e;` or `f(...);`. It reports the lambda and rewrites the body to `e` or `f(...)`.
- **ThrowSafeLoggableExceptions.** Reports `throw new E(...)` of an exception that is not `SafeLoggable`, unless the constructor call passes nothing or only a cause. It also reports calls to the common argument validators of Guava, the JDK and Commons Lang.
- **CustomExceptionsAreLogSafe.** Reports a declared `Throwable` class that is not `SafeLoggable` and declares a constructor of its own.

The compiler's type system is an explicit class table. It lives in `java_types.dfy` (module `JavaTypes`):

- a class is an index into a sequence of declarations, and id 0 is `java.lang.Object`;
- each declaration lists its arity and its direct supertypes, whose arguments may mention the declaration's own parameters;
- the table is acyclic because every declared supertype has a smaller id than its subclass;
- fully qualified names resolve through a map, which plays the role of the compiler's symbol table.

The other modules:

- **Supertypes** (`supertypes.dfy`) models the compiler's `asSuper`. It views a type as one of its ancestors, substituting type arguments at every inheritance step.
- **JavaTrees** (`java_trees.dfy`) holds the part of the syntax tree the checks read. It also holds the helpers the checks share: the receiver's type, viewing it as the base type, boxing, and the method matchers.
- **CollectionCheckers** relates the two collection checks to each other.
- **CollectionScenarios** and **ExceptionScenarios** replay the repository's test cases on small class tables.

## Model

| member | source | states |
|---|---|---|
| JavaTypes.Subst | baseline-error-prone/src/main/java/com/palantir/baseline/errorprone/StrictCollectionIncompatibleType.java:95 | replaces every type parameter by the matching actual argument; its laws are the lemmas below (identity, closed types, composition) |
| JavaTypes.SubstIdentity | baseline-error-prone/src/main/java/com/palantir/baseline/errorprone/StrictCollectionIncompatibleType.java:95 | substituting a declaration's own parameters for themselves leaves a type unchanged |
| JavaTypes.SubstAllIdentity | baseline-error-prone/src/main/java/com/palantir/baseline/errorprone/StrictCollectionIncompatibleType.java:95 | the same, for a list of type arguments |
| JavaTypes.SubstClosed | baseline-error-prone/src/main/java/com/palantir/baseline/errorprone/StrictCollectionIncompatibleType.java:95 | a type that mentions no type parameter is left alone by every substitution |
| JavaTypes.SubstAllClosed | baseline-error-prone/src/main/java/com/palantir/baseline/errorprone/StrictCollectionIncompatibleType.java:95 | the same, for a list of types |
| JavaTypes.SubstCompose | baseline-error-prone/src/main/java/com/palantir/baseline/errorprone/StrictCollectionIncompatibleType.java:95 | substituting `a` and then `b` equals substituting `a` with `b` already applied |
| JavaTypes.SubstAllCompose | baseline-error-prone/src/main/java/com/palantir/baseline/errorprone/StrictCollectionIncompatibleType.java:95 | the same composition law, for a list of types |
| JavaTypes.SubstParamsBelow | baseline-error-prone/src/main/java/com/palantir/baseline/errorprone/StrictCollectionIncompatibleType.java:95 | substituting types over the first `n` parameters yields a type over the first `n` parameters |
| JavaTypes.SubstAllParamsBelow | baseline-error-prone/src/main/java/com/palantir/baseline/errorprone/StrictCollectionIncompatibleType.java:95 | the same, for a list of types |
| JavaTypes.IsSubclassTransitive | baseline-error-prone/src/main/java/com/palantir/baseline/errorprone/StrictCollectionIncompatibleType.java:137-141 | erased subclassing is transitive |
| JavaTypes.IsSubtypeReflexive | baseline-error-prone/src/main/java/com/palantir/baseline/errorprone/StrictCollectionIncompatibleType.java:137-141 | every type is a subtype of itself |
| JavaTypes.IsSubtypeTransitive | baseline-error-prone/src/main/java/com/palantir/baseline/errorprone/StrictCollectionIncompatibleType.java:137-141 | erased subtyping, including null and primitive widening, is transitive |
| JavaTypes.ObjectIsTop | baseline-error-prone/src/main/java/com/palantir/baseline/errorprone/StrictCollectionIncompatibleType.java:138-140 | every reference type and the null type is a subtype of `Object` |
| JavaTypes.IsSubtype | baseline-error-prone/src/main/java/com/palantir/baseline/errorprone/StrictCollectionIncompatibleType.java:137-141 | the analysis library's subtype test on erased types: subclassing, null below every reference, primitive widening; reflexive and transitive by the lemmas beside it |
| JavaTypes.BoxedTypeOrType | baseline-error-prone/src/main/java/com/palantir/baseline/errorprone/StrictCollectionIncompatibleType.java:79 | a reference type (or the null type) is returned unchanged, a primitive with a box class becomes exactly that class, so no primitive with a box survives; the value casts to the boxed type and back (boxing and unboxing conversions) |
| JavaTypes.BoxingIdempotent | baseline-error-prone/src/main/java/com/palantir/baseline/errorprone/StrictCollectionIncompatibleType.java:79 | boxing an already boxed type changes nothing |
| JavaTypes.IsCastable | baseline-error-prone/src/main/java/com/palantir/baseline/errorprone/UnexpectedType.java:90 | castability after erasure, with boxing and unboxing; implied by subtyping both ways (`SubtypeImpliesCastable`), equal to relatedness between classes (`ClassCastableIffRelated`) |
| JavaTypes.SubtypeImpliesCastable | baseline-error-prone/src/main/java/com/palantir/baseline/errorprone/UnexpectedType.java:90 | subtyping in either direction makes a cast legal |
| JavaTypes.ClassCastableIffRelated | baseline-error-prone/src/main/java/com/palantir/baseline/errorprone/UnexpectedType.java:90 | between two classes that are not interfaces, a cast is legal exactly when the classes are related by subclassing |
| JavaTypes.NullCastableToReference | baseline-error-prone/src/main/java/com/palantir/baseline/errorprone/UnexpectedType.java:104 | `null` can be cast to every reference type |
| Supertypes.AsSuper | baseline-error-prone/src/main/java/com/palantir/baseline/errorprone/StrictCollectionIncompatibleType.java:95 | a view, when there is one, is a class type of exactly the target class |
| Supertypes.AsSuperAmong | baseline-error-prone/src/main/java/com/palantir/baseline/errorprone/StrictCollectionIncompatibleType.java:95 | a view found through a list of declared supertypes is a class type of the target class |
| Supertypes.AsSuperDefinedIff | baseline-error-prone/src/main/java/com/palantir/baseline/errorprone/StrictCollectionIncompatibleType.java:95 | a view exists exactly when the target is an erased supertype of the receiver's class |
| Supertypes.AsSuperAmongDefinedIff | baseline-error-prone/src/main/java/com/palantir/baseline/errorprone/StrictCollectionIncompatibleType.java:95 | a view through the declared supertypes exists exactly when one of them is a subclass of the target |
| Supertypes.AsSuperArity | baseline-error-prone/src/main/java/com/palantir/baseline/errorprone/UnexpectedType.java:85 | on a well-formed table, a fully parameterised receiver's view has exactly as many arguments as the target class has parameters |
| Supertypes.AsSuperAmongArity | baseline-error-prone/src/main/java/com/palantir/baseline/errorprone/UnexpectedType.java:85 | the same arity law, through a list of declared supertypes |
| Supertypes.AsSuperParamsBelow | baseline-error-prone/src/main/java/com/palantir/baseline/errorprone/StrictCollectionIncompatibleType.java:95 | a view mentions no type parameter that the receiver's arguments do not mention |
| Supertypes.AsSuperAmongParamsBelow | baseline-error-prone/src/main/java/com/palantir/baseline/errorprone/StrictCollectionIncompatibleType.java:95 | the same, through a list of declared supertypes |
| Supertypes.AsSuperThroughArguments | baseline-error-prone/src/main/java/com/palantir/baseline/errorprone/StrictCollectionIncompatibleType.java:95 | viewing `C<args>` as an ancestor gives the generic declaration's view of that ancestor with `args` substituted, over any number of inheritance steps |
| Supertypes.AsSuperAmongThroughArguments | baseline-error-prone/src/main/java/com/palantir/baseline/errorprone/StrictCollectionIncompatibleType.java:95 | the same chained-substitution law, through a list of declared supertypes |
| Supertypes.RawViewIsRaw | baseline-error-prone/src/main/java/com/palantir/baseline/errorprone/StrictCollectionIncompatibleType.java:125-127 | a raw receiver with a generic ancestry sees every ancestor other than `Object` raw, without type arguments |
| Supertypes.RawAmongIsRaw | baseline-error-prone/src/main/java/com/palantir/baseline/errorprone/StrictCollectionIncompatibleType.java:125-127 | the same, through a list of declared supertypes |
| JavaTrees.ResultType | baseline-error-prone/src/main/java/com/palantir/baseline/errorprone/StrictCollectionIncompatibleType.java:75 | statements have no result type |
| JavaTrees.StripParentheses | baseline-error-prone/src/main/java/com/palantir/baseline/errorprone/ThrowSafeLoggableExceptions.java:62 | the result is not parenthesised and has the same type as the original expression |
| JavaTrees.StripParenthesesIdempotent | baseline-error-prone/src/main/java/com/palantir/baseline/errorprone/ThrowSafeLoggableExceptions.java:62 | stripping parentheses twice is stripping them once |
| JavaTrees.TargetTypeAsSuper | baseline-error-prone/src/main/java/com/palantir/baseline/errorprone/StrictCollectionIncompatibleType.java:83-96 | there is no view for an unqualified call or an unresolvable name; a view found is a class type of exactly the named class |
| JavaTrees.TargetTypeAsSuperDefinedIff | baseline-error-prone/src/main/java/com/palantir/baseline/errorprone/StrictCollectionIncompatibleType.java:83-106 | a view exists exactly when the call has an explicit receiver, the name resolves, and the receiver's type is a class type below the named class |
| JavaTrees.BoxedResult | baseline-error-prone/src/main/java/com/palantir/baseline/errorprone/StrictCollectionIncompatibleType.java:74-80 | the boxed type exists exactly when the expression has a type; a reference-typed expression keeps its type, a primitive with a box class becomes that class, and the result is never a primitive that has a known box |
| StrictCollectionIncompatibleType.Incompatible | baseline-error-prone/src/main/java/com/palantir/baseline/errorprone/StrictCollectionIncompatibleType.java:133-141 | the decision: the argument type and the type argument are subtypes of each other in neither direction; symmetric and never true of related types by the lemmas below |
| StrictCollectionIncompatibleType.TypeVariableNeverIncompatible | baseline-error-prone/src/main/java/com/palantir/baseline/errorprone/StrictCollectionIncompatibleType.java:133-141 | a type variable used as the type argument is compatible with every reference argument, since it erases to Object here (its bound is not modelled) |
| StrictCollectionIncompatibleType.ArgumentIncompatible | baseline-error-prone/src/main/java/com/palantir/baseline/errorprone/StrictCollectionIncompatibleType.java:117-142 | the per-entry lambda: each guard (argument present, view found, type argument present, argument typed) gives up, and otherwise the boxed argument is tested; the guards are the `...NeverMatches` lemmas |
| StrictCollectionIncompatibleType.EntryMatches | baseline-error-prone/src/main/java/com/palantir/baseline/errorprone/StrictCollectionIncompatibleType.java:108-143 | one catalog entry: the method matcher and the argument test together; decided by `EntryMatchesThroughDeclaration` |
| StrictCollectionIncompatibleType.AnyEntryMatches | baseline-error-prone/src/main/java/com/palantir/baseline/errorprone/StrictCollectionIncompatibleType.java:45-63 | the `anyOf` over a list of entries, tried in order; equal to "some entry matches" by `AnyEntryMatchesIff` |
| StrictCollectionIncompatibleType.MatchMethodInvocation | baseline-error-prone/src/main/java/com/palantir/baseline/errorprone/StrictCollectionIncompatibleType.java:66-71 | the check reports exactly when some catalog entry matches (`AnyEntryMatchesIff`, `CatalogEntryReports`) |
| StrictCollectionIncompatibleType.IncompatibleSymmetric | baseline-error-prone/src/main/java/com/palantir/baseline/errorprone/StrictCollectionIncompatibleType.java:137-141 | the decision does not depend on which side is the type argument and which the argument |
| StrictCollectionIncompatibleType.RelatedNeverIncompatible | baseline-error-prone/src/main/java/com/palantir/baseline/errorprone/StrictCollectionIncompatibleType.java:133-141 | equal types, and types related by subtyping in either direction, are never reported |
| StrictCollectionIncompatibleType.ObjectNeverIncompatible | baseline-error-prone/src/main/java/com/palantir/baseline/errorprone/StrictCollectionIncompatibleType.java:138-140 | `Object` is compatible with every reference type, on either side |
| StrictCollectionIncompatibleType.IncompatibleMeansIncomparable | baseline-error-prone/src/main/java/com/palantir/baseline/errorprone/StrictCollectionIncompatibleType.java:133-141 | reported types have distinct erasures, and no type lies between them in subtyping |
| StrictCollectionIncompatibleType.MissingArgumentNeverMatches | baseline-error-prone/src/main/java/com/palantir/baseline/errorprone/StrictCollectionIncompatibleType.java:118-120 | a call without the entry's argument is not matched |
| StrictCollectionIncompatibleType.NoReceiverViewNeverMatches | baseline-error-prone/src/main/java/com/palantir/baseline/errorprone/StrictCollectionIncompatibleType.java:121-124 | an unqualified call, or one whose base type does not resolve, is not matched |
| StrictCollectionIncompatibleType.UntypedArgumentNeverMatches | baseline-error-prone/src/main/java/com/palantir/baseline/errorprone/StrictCollectionIncompatibleType.java:129-132 | an argument without a type is not matched |
| StrictCollectionIncompatibleType.ShortViewNeverMatches | baseline-error-prone/src/main/java/com/palantir/baseline/errorprone/StrictCollectionIncompatibleType.java:125-127 | a view of the base type that lacks the entry's type argument is not matched |
| StrictCollectionIncompatibleType.RawReceiverNeverMatches | baseline-error-prone/src/main/java/com/palantir/baseline/errorprone/StrictCollectionIncompatibleType.java:121-127 | raw usage is never reported: a generic receiver without type arguments, with a generic ancestry, matches no entry |
| StrictCollectionIncompatibleType.DeclaredView | baseline-error-prone/src/main/java/com/palantir/baseline/errorprone/StrictCollectionIncompatibleType.java:95 | a class's declared view of an ancestor carries exactly the ancestor's number of type arguments |
| StrictCollectionIncompatibleType.EntryMatchesThroughDeclaration | baseline-error-prone/src/main/java/com/palantir/baseline/errorprone/StrictCollectionIncompatibleType.java:113-142 | for a fully parameterised receiver below the base type, an entry matches exactly when the boxed argument type is unrelated to the declared type argument with the receiver's arguments substituted |
| StrictCollectionIncompatibleType.AnyEntryMatchesIff | baseline-error-prone/src/main/java/com/palantir/baseline/errorprone/StrictCollectionIncompatibleType.java:45-63 | the combined matcher holds exactly when some entry matches |
| StrictCollectionIncompatibleType.CatalogEntryReports | baseline-error-prone/src/main/java/com/palantir/baseline/errorprone/StrictCollectionIncompatibleType.java:66-71 | one matching catalog entry is enough for the check to report |
| StrictCollectionIncompatibleType.CatalogUnion | baseline-error-prone/src/main/java/com/palantir/baseline/errorprone/StrictCollectionIncompatibleType.java:45-63 | a catalog made of two parts matches exactly when one part matches, so entries are independent |
| StrictCollectionIncompatibleType.CatalogArgumentIndices | baseline-error-prone/src/main/java/com/palantir/baseline/errorprone/StrictCollectionIncompatibleType.java:47-63 | every entry compares argument 0 of the call, against type argument 0 or 1 |
| StrictCollectionIncompatibleType.CatalogValueEntry | baseline-error-prone/src/main/java/com/palantir/baseline/errorprone/StrictCollectionIncompatibleType.java:56 | `Map.containsValue` is the only entry that compares type argument 1, the value type |
| UnexpectedType.MapMatcher | baseline-error-prone/src/main/java/com/palantir/baseline/errorprone/UnexpectedType.java:49-62 | `get`, `containsKey` or `remove` with one `java.lang.Object` parameter, on a subtype of `Map` |
| UnexpectedType.CollectionMatcher | baseline-error-prone/src/main/java/com/palantir/baseline/errorprone/UnexpectedType.java:64-76 | `contains` or `remove` with one `java.lang.Object` parameter, on a subtype of `Collection` |
| UnexpectedType.CheckFirstArgument | baseline-error-prone/src/main/java/com/palantir/baseline/errorprone/UnexpectedType.java:81-93 | one branch: no view or a view of the wrong arity is no match, a missing argument throws, an argument without a type is reported, otherwise report when the argument cannot be cast to type argument 0; decided by the `...FindingIffNotCastable` lemmas |
| UnexpectedType.MatchMethodInvocation | baseline-error-prone/src/main/java/com/palantir/baseline/errorprone/UnexpectedType.java:79-110 | the map branch first, then the collection branch, else no match (`MapBranchFirst`, `FullyAppliedNeverFaults`) |
| UnexpectedType.FullyAppliedNeverFaults | baseline-error-prone/src/main/java/com/palantir/baseline/errorprone/UnexpectedType.java:88-90 | on a call with one argument per declared parameter, the unguarded read of argument 0 never throws |
| UnexpectedType.UntypedArgumentReported | baseline-error-prone/src/main/java/com/palantir/baseline/errorprone/UnexpectedType.java:89-93 | a matched call whose first argument has no type is reported exactly when the view has the branch's arity |
| UnexpectedType.MapBranchFirst | baseline-error-prone/src/main/java/com/palantir/baseline/errorprone/UnexpectedType.java:80-94 | when a map matcher applies, the map branch decides and the collection matcher is not consulted |
| UnexpectedType.MapNeedsTwoTypeArguments | baseline-error-prone/src/main/java/com/palantir/baseline/errorprone/UnexpectedType.java:81-87 | a map call without a `Map` view, or with a view that does not have two type arguments, is not reported |
| UnexpectedType.CollectionNeedsOneTypeArgument | baseline-error-prone/src/main/java/com/palantir/baseline/errorprone/UnexpectedType.java:95-101 | a collection call without a `Collection` view, or with a view that does not have one type argument, is not reported |
| UnexpectedType.MapFindingIffNotCastable | baseline-error-prone/src/main/java/com/palantir/baseline/errorprone/UnexpectedType.java:80-93 | for a map call with a two-argument view, the check does not throw, and reports exactly when the argument type cannot be cast to the key type |
| UnexpectedType.CollectionFindingIffNotCastable | baseline-error-prone/src/main/java/com/palantir/baseline/errorprone/UnexpectedType.java:94-107 | for a collection call with a one-argument view, the check does not throw, and reports exactly when the argument type cannot be cast to the element type |
| UnexpectedType.RelatedArgumentNeverReported | baseline-error-prone/src/main/java/com/palantir/baseline/errorprone/UnexpectedType.java:90-106 | an argument related by subtyping to the key or element type is never reported |
| CollectionCheckers.StrictEntryMatches | baseline-error-prone/src/main/java/com/palantir/baseline/errorprone/StrictCollectionIncompatibleType.java:113-142 | a finding of one UnexpectedType branch is matched by the stricter check's catalog entry for the same method |
| CollectionCheckers.FindingsAreStrictFindings | baseline-error-prone/src/main/java/com/palantir/baseline/errorprone/UnexpectedType.java:79-110 | for a reference-typed argument, every UnexpectedType finding is also a StrictCollectionIncompatibleType finding |
| PreferExpressionLambda.VisitAsWritten | baseline-error-prone/src/main/java/com/palantir/baseline/errorprone/PreferExpressionLambda.java:79-101 | the visitor as written, including the exception on `return;`; related to `Visit` by `VisitAsWrittenAgrees` |
| PreferExpressionLambda.Visit | baseline-error-prone/src/main/java/com/palantir/baseline/errorprone/PreferExpressionLambda.java:79-101 | the visitor as intended: `return;` gives no replacement; characterised by `VisitPresentIff` |
| PreferExpressionLambda.MatchLambdaExpression | baseline-error-prone/src/main/java/com/palantir/baseline/errorprone/PreferExpressionLambda.java:46-64 | an expression body, a non-block body, or a block not of one statement gives nothing; otherwise the visitor decides |
| PreferExpressionLambda.MatchLambdaAsWritten | baseline-error-prone/src/main/java/com/palantir/baseline/errorprone/PreferExpressionLambda.java:46-64 | the same check with the visitor as written |
| PreferExpressionLambda.ApplyFix | baseline-error-prone/src/main/java/com/palantir/baseline/errorprone/PreferExpressionLambda.java:65-69 | the reported lambda with its body replaced by the replacement expression; idempotent by `FixIsFinal` |
| PreferExpressionLambda.Peel | baseline-error-prone/src/main/java/com/palantir/baseline/errorprone/PreferExpressionLambda.java:80-91 | the visitor's walk, through single-statement blocks and expression statements, reaches the node it stops at, and that node is neither kind |
| PreferExpressionLambda.ReachedStopIsPeel | baseline-error-prone/src/main/java/com/palantir/baseline/errorprone/PreferExpressionLambda.java:80-91 | the walk is deterministic: a stopping node that can be reached is the one the walk stops at |
| PreferExpressionLambda.VisitIsVisitOfPeel | baseline-error-prone/src/main/java/com/palantir/baseline/errorprone/PreferExpressionLambda.java:79-101 | both visitors' verdicts are decided by the node where the walk stops |
| PreferExpressionLambda.VisitPresentIff | baseline-error-prone/src/main/java/com/palantir/baseline/errorprone/PreferExpressionLambda.java:79-101 | the visitor yields `r` exactly when `r` is a reached method invocation, or `return r;` is reached |
| PreferExpressionLambda.NestedBlocksUnwrapped | baseline-error-prone/src/main/java/com/palantir/baseline/errorprone/PreferExpressionLambda.java:80-86 | any number of single-statement blocks around a statement change neither the verdict nor the walk's stop |
| PreferExpressionLambda.NestedOtherBlockGivesNothing | baseline-error-prone/src/main/java/com/palantir/baseline/errorprone/PreferExpressionLambda.java:82-85 | a block of any size other than one gives nothing, however deeply nested |
| PreferExpressionLambda.VisitAsWrittenAgrees | baseline-error-prone/src/main/java/com/palantir/baseline/errorprone/PreferExpressionLambda.java:99-101 | the visitor as written throws exactly when the walk reaches `return;`; elsewhere it agrees with the intended visitor |
| PreferExpressionLambda.EmptyReturnThrows | baseline-error-prone/src/main/java/com/palantir/baseline/errorprone/PreferExpressionLambda.java:99-101 | `() -> { return; }` makes the check as written throw; the corrected check reports nothing |
| PreferExpressionLambda.ExpressionBodyNeverFlagged | baseline-error-prone/src/main/java/com/palantir/baseline/errorprone/PreferExpressionLambda.java:47-50 | a lambda whose body is already an expression is never reported, by either version |
| PreferExpressionLambda.OtherBlockSizeNeverFlagged | baseline-error-prone/src/main/java/com/palantir/baseline/errorprone/PreferExpressionLambda.java:55-59 | a block body with no statements, or with several, is never reported |
| PreferExpressionLambda.ExpressionStatementNeedsInvocation | baseline-error-prone/src/main/java/com/palantir/baseline/errorprone/PreferExpressionLambda.java:89-96 | a single expression statement is rewritten to its expression exactly when that expression is a method invocation |
| PreferExpressionLambda.ReplacementIsExpression | baseline-error-prone/src/main/java/com/palantir/baseline/errorprone/PreferExpressionLambda.java:60-68 | on a parsed statement, the replacement is always an expression, so the rewritten lambda has an expression body |
| PreferExpressionLambda.FixIsFinal | baseline-error-prone/src/main/java/com/palantir/baseline/errorprone/PreferExpressionLambda.java:65-69 | the fix gives an expression body equal to the replacement, and the fixed lambda is not reported again |
| PreferExpressionLambda.FixExactlyWhenReported | baseline-error-prone/src/main/java/com/palantir/baseline/errorprone/PreferExpressionLambda.java:46-70 | a fix exists exactly when the lambda is reported, and only for a block body holding one statement |
| PreferExpressionLambda.ReturnBlockBecomesItsExpression | baseline-error-prone/src/test/java/com/palantir/baseline/errorprone/PreferExpressionLambdaTest.java:88-97 | `{ return e; }` is rewritten to `e`, whatever the expression (a call, a variable, a concatenation) |
| PreferExpressionLambda.CallStatementBecomesTheCall | baseline-error-prone/src/test/java/com/palantir/baseline/errorprone/PreferExpressionLambdaTest.java:64-73 | `{ consumer.accept(key); }` is rewritten to `consumer.accept(key)` |
| ThrowSafeLoggableExceptions.MatchThrow | baseline-error-prone/src/main/java/com/palantir/baseline/errorprone/ThrowSafeLoggableExceptions.java:60-73 | `throw new E(...)`, parentheses stripped, of a non-SafeLoggable E, is reported unless it passes nothing or only a Throwable; decided by `NewExceptionFlaggedIff` |
| ThrowSafeLoggableExceptions.CommonValidator | baseline-error-prone/src/main/java/com/palantir/baseline/errorprone/ThrowSafeLoggableExceptions.java:45-52 | the seven static validator methods on exactly the three classes; equal to the list of pairs by `ValidatorFlaggedIff` |
| ThrowSafeLoggableExceptions.MatchMethodInvocation | baseline-error-prone/src/main/java/com/palantir/baseline/errorprone/ThrowSafeLoggableExceptions.java:76-85 | a validator call gets the message naming the SafeLoggable replacement, every other call nothing |
| ThrowSafeLoggableExceptions.ParenthesesIgnored | baseline-error-prone/src/main/java/com/palantir/baseline/errorprone/ThrowSafeLoggableExceptions.java:62 | parentheses around the thrown expression make no difference |
| ThrowSafeLoggableExceptions.RethrowNeverFlagged | baseline-error-prone/src/main/java/com/palantir/baseline/errorprone/ThrowSafeLoggableExceptions.java:61-63 | throwing anything other than a `new` expression is never reported |
| ThrowSafeLoggableExceptions.NewExceptionFlaggedIff | baseline-error-prone/src/main/java/com/palantir/baseline/errorprone/ThrowSafeLoggableExceptions.java:63-70 | a new exception that is not SafeLoggable is reported exactly when it has two or more arguments, or one argument that is not a Throwable |
| ThrowSafeLoggableExceptions.SafeLoggableNeverFlagged | baseline-error-prone/src/main/java/com/palantir/baseline/errorprone/ThrowSafeLoggableExceptions.java:54-55 | a SafeLoggable exception is never reported, whatever its arguments |
| ThrowSafeLoggableExceptions.CauseOrDefaultNeverFlagged | baseline-error-prone/src/main/java/com/palantir/baseline/errorprone/ThrowSafeLoggableExceptions.java:66-67 | neither `new E()` nor `new E(cause)` is ever reported |
| ThrowSafeLoggableExceptions.ValidatorFlaggedIff | baseline-error-prone/src/main/java/com/palantir/baseline/errorprone/ThrowSafeLoggableExceptions.java:45-52 | a call is reported exactly when it is a static call, declared by the named class itself, of one of the seven validator methods; every such finding carries the same message |
| ThrowSafeLoggableExceptions.InstanceCallNeverFlagged | baseline-error-prone/src/main/java/com/palantir/baseline/errorprone/ThrowSafeLoggableExceptions.java:76-85 | instance methods are never reported |
| CustomExceptionsAreLogSafe.AllGenerated | baseline-error-prone/src/main/java/com/palantir/baseline/errorprone/CustomExceptionsAreLogSafe.java:50 | `allMatch(isGeneratedConstructor)`, true of none; equal to the quantified form by `AllGeneratedIff` |
| CustomExceptionsAreLogSafe.MatchClass | baseline-error-prone/src/main/java/com/palantir/baseline/errorprone/CustomExceptionsAreLogSafe.java:39-54 | a Throwable that is not SafeLoggable and has a constructor of its own; decided by `MatchClassIff` |
| CustomExceptionsAreLogSafe.AllGeneratedIff | baseline-error-prone/src/main/java/com/palantir/baseline/errorprone/CustomExceptionsAreLogSafe.java:50 | the recursive all-generated test holds exactly when every constructor is generated |
| CustomExceptionsAreLogSafe.MatchClassIff | baseline-error-prone/src/main/java/com/palantir/baseline/errorprone/CustomExceptionsAreLogSafe.java:39-54 | a class is reported exactly when it is a Throwable, is not SafeLoggable, and has a constructor that was not generated |
| CustomExceptionsAreLogSafe.NonThrowableNeverFlagged | baseline-error-prone/src/main/java/com/palantir/baseline/errorprone/CustomExceptionsAreLogSafe.java:39-46 | a class that is not a Throwable is never reported |
| CustomExceptionsAreLogSafe.SafeLoggableNeverFlagged | baseline-error-prone/src/main/java/com/palantir/baseline/errorprone/CustomExceptionsAreLogSafe.java:39-46 | a SafeLoggable class is never reported |
| CustomExceptionsAreLogSafe.GeneratedConstructorsNeverFlagged | baseline-error-prone/src/main/java/com/palantir/baseline/errorprone/CustomExceptionsAreLogSafe.java:48-52 | a class whose constructors are all generated is never reported, whatever it extends |
| CustomExceptionsAreLogSafe.GeneratedConstructorIrrelevant | baseline-error-prone/src/main/java/com/palantir/baseline/errorprone/CustomExceptionsAreLogSafe.java:50 | inserting a generated constructor anywhere in the list never changes the verdict |
| CollectionScenarios.JdkWellFormed | baseline-error-prone/src/test/java/com/palantir/baseline/errorprone/UnexpectedTypeTest.java:49 | the test class table, with `CustomMap extends Map<Integer, String>`, satisfies the compiler's table invariants |
| CollectionScenarios.AsSuperSubstitutes | baseline-error-prone/src/main/java/com/palantir/baseline/errorprone/StrictCollectionIncompatibleType.java:95 | `A<String>`, where `A<X> extends B<List<X>>`, is seen as `B<List<String>>` |
| CollectionScenarios.CustomMapView | baseline-error-prone/src/test/java/com/palantir/baseline/errorprone/UnexpectedTypeTest.java:49 | `CustomMap` is a `Map`, and is seen as `Map<Integer, String>` |
| CollectionScenarios.ListView | baseline-error-prone/src/test/java/com/palantir/baseline/errorprone/UnexpectedTypeTest.java:66-68 | `List<E>` is a `Collection`, and is seen as `Collection<E>` |
| CollectionScenarios.CustomView | baseline-error-prone/src/test/java/com/palantir/baseline/errorprone/UnexpectedTypeTest.java:78 | `Custom extends List<CharSequence>` is seen as `Collection<CharSequence>` |
| CollectionScenarios.UnrelatedTypes | baseline-error-prone/src/test/java/com/palantir/baseline/errorprone/UnexpectedTypeTest.java:62-73 | `String` cannot be cast to `Integer`, nor `Integer` to `CharSequence`, because `String` and `Integer` are final |
| CollectionScenarios.WrongMapKeyFlagged | baseline-error-prone/src/test/java/com/palantir/baseline/errorprone/UnexpectedTypeTest.java:33-40 | `map.get(key)` and `map.containsKey(key)` with a `String` key on `Map<Integer, String>` are reported |
| CollectionScenarios.WrongCustomMapKeyFlagged | baseline-error-prone/src/test/java/com/palantir/baseline/errorprone/UnexpectedTypeTest.java:41-49 | the same two calls on `CustomMap` are reported |
| CollectionScenarios.ContainsNotMapCall | baseline-error-prone/src/main/java/com/palantir/baseline/errorprone/UnexpectedType.java:74 | `contains` on a receiver that is not a `Map` is not taken by the map matcher |
| CollectionScenarios.ContainsCollectionCall | baseline-error-prone/src/main/java/com/palantir/baseline/errorprone/UnexpectedType.java:64-67 | `contains(Object)` on a `Collection` is matched, and the receiver is viewed as its `Collection` view |
| CollectionScenarios.WrongCollectionElementFlagged | baseline-error-prone/src/test/java/com/palantir/baseline/errorprone/UnexpectedTypeTest.java:62-65 | `in.contains(key)` with a `String` on `Collection<Integer>` is reported |
| CollectionScenarios.WrongListElementFlagged | baseline-error-prone/src/test/java/com/palantir/baseline/errorprone/UnexpectedTypeTest.java:66-69 | the same call on `List<Integer>` is reported |
| CollectionScenarios.WrongCustomElementFlagged | baseline-error-prone/src/test/java/com/palantir/baseline/errorprone/UnexpectedTypeTest.java:70-73 | an `Integer` on `Custom extends List<CharSequence>` is reported |
| CollectionScenarios.NullAndBoxedElementAllowed | baseline-error-prone/src/test/java/com/palantir/baseline/errorprone/UnexpectedTypeTest.java:84-94 | `in.contains(null)` and `in.contains(3)` on `Collection<Integer>` are not reported |
| CollectionScenarios.AmbiguousKeyAllowed | baseline-error-prone/src/test/java/com/palantir/baseline/errorprone/UnexpectedTypeTest.java:96-112 | an `Object` key on `Map<String, String>`, and a `String` key on a raw `Map`, are not reported |
| CollectionScenarios.StrictWrongMapKey | baseline-error-prone/src/main/java/com/palantir/baseline/errorprone/StrictCollectionIncompatibleType.java:57 | the stricter check also reports `get` with a `String` key on `CustomMap` |
| CollectionScenarios.StrictRawMapSilent | baseline-error-prone/src/main/java/com/palantir/baseline/errorprone/StrictCollectionIncompatibleType.java:125-127 | the stricter check reports nothing for `get` on a raw `Map`, whatever the key |
| CollectionScenarios.OnlyStrictReportsInterfaceMismatch | baseline-error-prone/src/main/java/com/palantir/baseline/errorprone/StrictCollectionIncompatibleType.java:133-141 | a `Number` on `Collection<CharSequence>` can be cast, so UnexpectedType is silent, but it is unrelated by subtyping, so the stricter check reports it |
| ExceptionScenarios.ExceptionsWellFormed | baseline-error-prone/src/test/java/com/palantir/baseline/errorprone/CustomExceptionsAreLogSafeTest.java:28-43 | the exception class table satisfies the compiler's table invariants |
| ExceptionScenarios.ExceptionTypes | baseline-error-prone/src/test/java/com/palantir/baseline/errorprone/CustomExceptionsAreLogSafeTest.java:28-43 | `RuntimeException` and `Test extends RuntimeException` are Throwables and not SafeLoggable; `String` is no Throwable; `Test implements SafeLoggable` is SafeLoggable |
| ExceptionScenarios.NoArgumentsAndCausePass | baseline-error-prone/src/test/java/com/palantir/baseline/errorprone/ThrowSafeLoggableExceptionsTest.java:24-40 | `throw new RuntimeException();` and `throw new RuntimeException(cause);` are not reported |
| ExceptionScenarios.MessageFails | baseline-error-prone/src/test/java/com/palantir/baseline/errorprone/ThrowSafeLoggableExceptionsTest.java:43-66 | `new RuntimeException("foo")` and `new RuntimeException("foo", cause)` are reported, with or without parentheses |
| ExceptionScenarios.ValidatorsFlagged | baseline-error-prone/src/test/java/com/palantir/baseline/errorprone/ThrowSafeLoggableExceptionsTest.java:69-93 | each of the test's validator calls is reported, with the message that names the replacement |
| ExceptionScenarios.OtherClassesPass | baseline-error-prone/src/main/java/com/palantir/baseline/errorprone/ThrowSafeLoggableExceptions.java:45-52 | a validator name on a class outside the table, or on the wrong validator class, is not reported |
| ExceptionScenarios.CustomExceptionFlagged | baseline-error-prone/src/test/java/com/palantir/baseline/errorprone/CustomExceptionsAreLogSafeTest.java:23-34 | `Test extends RuntimeException` with an explicit `Test(String)` constructor is reported |
| ExceptionScenarios.SafeOrDefaultPasses | baseline-error-prone/src/test/java/com/palantir/baseline/errorprone/CustomExceptionsAreLogSafeTest.java:36-58 | the SafeLoggable test class is not reported, whatever its constructors, and neither is a class with only the default constructor |

## Left out

- The compiler's own machinery is approximated by the class table: symbol resolution, `asSuper`, the erased subtype test, and castability. Wildcards, type variables used as receiver types, intersection and array types are not modelled.
- JavaTypes.Erase: type parameters carry no bound, so a type variable used as a type argument is compared as `Object` whatever its bound; `TypeVariableNeverIncompatible` states the consequence. The compiler erases `T extends Number` to `Number`, so both checks report `contains("x")` on a `Collection<T>`, which the model never reports.
- JavaTypes.IsCastable: the analysis library's `ASTHelpers.isCastable`, which UnexpectedType calls at UnexpectedType.java:90 and 104, is not part of this model. It is modelled as its documented behaviour: the erasures are compared by the cast rules in section 5.5 of the Java Language Specification (classes, interfaces, `final`, boxing and unboxing), and a missing type gives false.
- Method matchers work on symbols. `withSignature("name(type,...)")` and `named(...).withParameters(...)` compare a simple name and a list of parameter type names. `withNameMatching` with a regular-expression alternation, which must match the whole name, is set membership.
- Overriding is not modelled: a matcher on a descendant reads the declared parameters from the call's resolved method symbol.
- Diagnostics, message text other than the validator message, and fix rendering through source text are not modelled. The fix is modelled as the replacement tree.
- Supertypes.AsSuperArity, Supertypes.AsSuperThroughArguments and StrictCollectionIncompatibleType.EntryMatchesThroughDeclaration require a well-formed table (acyclic, fully parameterised supertypes). The compiler guarantees this for code that compiles.
- StrictCollectionIncompatibleType.RawReceiverNeverMatches requires every ancestor of the raw class to be generic. A raw class with a non-generic parameterised ancestor such as `Map<Integer, String>` still sees that ancestor with its arguments, as the compiler does.
- UnexpectedType reads `getArguments().get(0)` without a guard (UnexpectedType.java:89, 103), so a call without arguments throws. The model gives that path the outcome `Fault`, meaning an exception escapes the check, rather than a silent non-match. An argument without a result type is reported, because the library's castability test answers false for a missing type.
- CollectionCheckers.FindingsAreStrictFindings is stated only for reference-typed arguments. For a primitive argument, UnexpectedType compares the unboxed type while the stricter check boxes it first.
- CollectionCheckers.FindingsAreStrictFindings relates the two checks; the source makes no such inclusion promise. It holds because both checks compare erasures: UnexpectedType's castability test and the stricter check's subtype test.
- The `in.keySet().contains(key)` case on `ImmutableMap` (UnexpectedTypeTest.java:74-77) is not replayed. The model takes a receiver's type as attributed by the compiler, so that case reduces to `contains` on the `Set<Integer>` returned by `keySet()`, which the `Collection<Integer>` scenario covers.
- Other checks and Refaster templates in the repository are not part of this model: JacksonConvertValueGenericMigration, ExecutorSubmitRunnableFutureIgnored, JUnit5SuiteUsage, ConjureMigrator, AssertjDescription, JdkImmutableList.

## Findings

| source | as written | input that shows it | evidently intended | confidence | as-written member | corrected member |
|---|---|---|---|---|---|---|
| baseline-error-prone/src/main/java/com/palantir/baseline/errorprone/PreferExpressionLambda.java:99-101 | `visitReturn` wraps the return statement's expression with `Optional.of`, which throws on `return;` because that statement has no expression | the lambda `() -> { return; }` | `return;` offers no replacement, so the lambda is not reported (`Optional.ofNullable`) | not executed | PreferExpressionLambda.EmptyReturnThrows | PreferExpressionLambda.VisitPresentIff |
