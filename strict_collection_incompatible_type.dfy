/**
 * StrictCollectionIncompatibleType: a call such as `Collection.contains(Object)` or
 * `Map.get(Object)` whose argument type is unrelated to the collection's corresponding type
 * argument. Each catalog entry names the container type, the method signature, which type
 * argument of the container constrains the value, and which argument of the call carries it.
 */
module StrictCollectionIncompatibleType {
  import opened Wrappers
  import opened JavaTypes
  import opened Supertypes
  import opened JavaTrees

  /**
   * A catalog entry; the method's signature, written `name(type,type)` in the source, is kept
   * as its name and its list of parameter types.
   */
  datatype CatalogEntry = CatalogEntry(
    baseType: string, methodName: string, parameters: seq<string>, typeArgumentIndex: nat, argumentIndex: nat)

  /** The methods checked, the ones error-prone's own CollectionIncompatibleType check inspects. */
  const Catalog: seq<CatalogEntry> := [
    CatalogEntry("java.util.Collection", "contains", ["java.lang.Object"], 0, 0),
    CatalogEntry("java.util.Collection", "remove", ["java.lang.Object"], 0, 0),
    CatalogEntry("java.util.Deque", "removeFirstOccurrence", ["java.lang.Object"], 0, 0),
    CatalogEntry("java.util.Deque", "removeLastOccurrence", ["java.lang.Object"], 0, 0),
    CatalogEntry("java.util.Dictionary", "get", ["java.lang.Object"], 0, 0),
    CatalogEntry("java.util.Dictionary", "remove", ["java.lang.Object"], 0, 0),
    CatalogEntry("java.util.List", "indexOf", ["java.lang.Object"], 0, 0),
    CatalogEntry("java.util.List", "lastIndexOf", ["java.lang.Object"], 0, 0),
    CatalogEntry("java.util.Map", "containsKey", ["java.lang.Object"], 0, 0),
    CatalogEntry("java.util.Map", "containsValue", ["java.lang.Object"], 1, 0),
    CatalogEntry("java.util.Map", "get", ["java.lang.Object"], 0, 0),
    CatalogEntry("java.util.Map", "getOrDefault", ["java.lang.Object", "V"], 0, 0),
    CatalogEntry("java.util.Map", "remove", ["java.lang.Object"], 0, 0),
    CatalogEntry("java.util.Stack", "search", ["java.lang.Object"], 0, 0),
    CatalogEntry("java.util.Vector", "indexOf", ["java.lang.Object", "int"], 0, 0),
    CatalogEntry("java.util.Vector", "lastIndexOf", ["java.lang.Object", "int"], 0, 0),
    CatalogEntry("java.util.Vector", "removeElement", ["java.lang.Object"], 0, 0)
  ]

  /**
   * The decision on erased types: flag only when the argument type and the type argument are
   * unrelated, a subtype in neither direction. Either direction of subtyping is accepted, so
   * `Object` (delegation) and narrower types pass.
   */
  predicate Incompatible(env: Env, typeArgument: Type, argument: Type) {
    !IsSubtype(env, argument, typeArgument) && !IsSubtype(env, typeArgument, argument)
  }

  /** The method half of an entry: an instance method of a subtype of the base type, by signature. */
  predicate MethodMatches(env: Env, e: CatalogEntry, call: Invocation) {
    InstanceMethodOnDescendantOf(env, call, e.baseType) && HasSignature(call.symbol, e.methodName, e.parameters)
  }

  /**
   * The argument half of an entry, a series of guards each of which gives up (no match): the
   * argument must exist, the receiver must be an explicit expression viewable as the base type,
   * that view must have the type argument, and the argument must have a type, which is boxed.
   */
  predicate ArgumentIncompatible(env: Env, e: CatalogEntry, call: Invocation) {
    if |call.arguments| <= e.argumentIndex then false
    else
      match TargetTypeAsSuper(env, call, e.baseType)
      case None => false
      case Some(targetType) =>
        if |targetType.args| <= e.typeArgumentIndex then false
        else
          var typeArgumentType := targetType.args[e.typeArgumentIndex];
          match BoxedResult(env, call.arguments[e.argumentIndex])
          case None => false
          case Some(argumentType) => Incompatible(env, typeArgumentType, argumentType)
  }

  predicate EntryMatches(env: Env, e: CatalogEntry, call: Invocation) {
    MethodMatches(env, e, call) && ArgumentIncompatible(env, e, call)
  }

  /** Whether any of `entries` matches, trying them in order. */
  predicate AnyEntryMatches(env: Env, entries: seq<CatalogEntry>, call: Invocation) {
    if entries == [] then false
    else EntryMatches(env, entries[0], call) || AnyEntryMatches(env, entries[1..], call)
  }

  /** The checker reports a call exactly when some catalog entry matches it. */
  predicate MatchMethodInvocation(env: Env, call: Invocation) {
    AnyEntryMatches(env, Catalog, call)
  }

  // ---------------------------------------------------------------------------------------
  // The decision

  lemma IncompatibleSymmetric(env: Env, p: Type, a: Type)
    ensures Incompatible(env, p, a) == Incompatible(env, a, p)
  {
  }

  /** A type is never incompatible with itself, with a subtype, or with a supertype. */
  lemma RelatedNeverIncompatible(env: Env, p: Type, a: Type)
    requires p == a || IsSubtype(env, a, p) || IsSubtype(env, p, a)
    ensures !Incompatible(env, p, a)
  {
    IsSubtypeReflexive(env, p);
  }

  /** `Object` is compatible with every reference type, on either side of the test. */
  lemma ObjectNeverIncompatible(env: Env, t: Type)
    requires !t.Prim?
    ensures !Incompatible(env, Ref(ObjectId, []), t) && !Incompatible(env, t, Ref(ObjectId, []))
  {
    ObjectIsTop(env, t);
  }

  /**
   * A type variable as the type argument erases to Object here, whatever its bound, so it is
   * compatible with every reference argument.
   */
  lemma TypeVariableNeverIncompatible(env: Env, i: nat, a: Type)
    requires !a.Prim?
    ensures !Incompatible(env, Param(i), a)
  {
    ObjectIsTop(env, a);
  }

  /** Flagging means the two erased types are incomparable, so also distinct. */
  lemma IncompatibleMeansIncomparable(env: Env, p: Type, a: Type)
    requires Incompatible(env, p, a)
    ensures Erase(p) != Erase(a)
    ensures forall t :: IsSubtype(env, a, t) && IsSubtype(env, t, p) ==> false
  {
    forall t | IsSubtype(env, a, t) && IsSubtype(env, t, p) ensures false {
      IsSubtypeTransitive(env, a, t, p);
    }
  }

  // ---------------------------------------------------------------------------------------
  // One entry

  /** A call without the entry's argument is not matched. */
  lemma MissingArgumentNeverMatches(env: Env, e: CatalogEntry, call: Invocation)
    requires |call.arguments| <= e.argumentIndex
    ensures !EntryMatches(env, e, call)
  {
  }

  /** An unqualified call, or one whose base type is not on the classpath, is not matched. */
  lemma NoReceiverViewNeverMatches(env: Env, e: CatalogEntry, call: Invocation)
    requires call.select.ImplicitThis? || e.baseType !in env.symbols
    ensures !EntryMatches(env, e, call)
  {
  }

  /** An argument without a type is not matched. */
  lemma UntypedArgumentNeverMatches(env: Env, e: CatalogEntry, call: Invocation)
    requires e.argumentIndex < |call.arguments|
    requires ResultType(call.arguments[e.argumentIndex]).None?
    ensures !EntryMatches(env, e, call)
  {
  }

  /** A receiver whose view as the base type lacks the type argument (a raw receiver) is not matched. */
  lemma ShortViewNeverMatches(env: Env, e: CatalogEntry, call: Invocation)
    requires TargetTypeAsSuper(env, call, e.baseType).Some?
    requires |TargetTypeAsSuper(env, call, e.baseType).value.args| <= e.typeArgumentIndex
    ensures !EntryMatches(env, e, call)
  {
  }

  /**
   * Raw usage is never flagged: a receiver of a generic class used without type arguments,
   * whose declared ancestry is generic throughout, has no type argument to compare with.
   */
  lemma RawReceiverNeverMatches(env: Env, e: CatalogEntry, call: Invocation, id: ClassId)
    requires call.select.MemberSelect? && ResultType(call.select.receiver) == Some(Ref(id, []))
    requires Arity(env, id) > 0 && GenericAncestry(env, id)
    ensures !EntryMatches(env, e, call)
  {
    var view := TargetTypeAsSuper(env, call, e.baseType);
    if view.Some? && env.symbols[e.baseType] != ObjectId {
      RawViewIsRaw(env, id, env.symbols[e.baseType]);
    }
  }

  /**
   * The type arguments of class `base` as `id` declares them, over `id`'s own type parameters:
   * for `A<X> extends B<List<X>>` the declared view of `B` from `A` is `[List<X>]`.
   */
  function DeclaredView(env: Env, id: ClassId, base: ClassId): (r: seq<Type>)
    requires WellFormed(env) && IsSubclass(env, id, base)
    ensures |r| == Arity(env, base)
  {
    AsSuperDefinedIff(env, id, Params(Arity(env, id)), base);
    AsSuperArity(env, id, Params(Arity(env, id)), base);
    AsSuper(env, Ref(id, Params(Arity(env, id))), base).value.args
  }

  /**
   * What an entry decides for a fully parameterised receiver `Ref(id, args)` that is a subtype
   * of the base type: the call is flagged exactly when the boxed argument type is unrelated to
   * the base type's type argument as `id` declares it, with the receiver's arguments substituted.
   */
  lemma EntryMatchesThroughDeclaration(
    env: Env, e: CatalogEntry, call: Invocation, id: ClassId, args: seq<Type>, argumentType: Type)
    requires WellFormed(env) && MethodMatches(env, e, call)
    requires call.select.MemberSelect? && ResultType(call.select.receiver) == Some(Ref(id, args))
    requires |args| == Arity(env, id)
    requires e.baseType in env.symbols && IsSubclass(env, id, env.symbols[e.baseType])
    requires e.typeArgumentIndex < Arity(env, env.symbols[e.baseType])
    requires e.argumentIndex < |call.arguments|
    requires ResultType(call.arguments[e.argumentIndex]) == Some(argumentType)
    ensures EntryMatches(env, e, call) <==>
      Incompatible(env,
        Subst(DeclaredView(env, id, env.symbols[e.baseType])[e.typeArgumentIndex], args),
        BoxedTypeOrType(env, argumentType))
  {
    var base := env.symbols[e.baseType];
    AsSuperThroughArguments(env, id, args, base);
    AsSuperDefinedIff(env, id, args, base);
    AsSuperArity(env, id, args, base);
  }

  // ---------------------------------------------------------------------------------------
  // The catalog

  /** The checker reports iff some entry matches (the entries are alternatives). */
  lemma {:induction false} AnyEntryMatchesIff(env: Env, entries: seq<CatalogEntry>, call: Invocation)
    ensures AnyEntryMatches(env, entries, call) <==>
      exists i :: 0 <= i < |entries| && EntryMatches(env, entries[i], call)
  {
    if entries != [] {
      AnyEntryMatchesIff(env, entries[1..], call);
      assert forall i :: 1 <= i < |entries| ==> entries[i] == entries[1..][i - 1];
    }
  }

  /** One matching catalog entry is enough for the checker to report. */
  lemma CatalogEntryReports(env: Env, call: Invocation, i: nat)
    requires i < |Catalog| && EntryMatches(env, Catalog[i], call)
    ensures MatchMethodInvocation(env, call)
  {
    AnyEntryMatchesIff(env, Catalog, call);
  }

  /**
   * Entries are independent: a catalog made of two parts matches exactly when one part does,
   * so adding entries can only add findings.
   */
  lemma CatalogUnion(env: Env, first: seq<CatalogEntry>, second: seq<CatalogEntry>, call: Invocation)
    ensures AnyEntryMatches(env, first + second, call)
        <==> AnyEntryMatches(env, first, call) || AnyEntryMatches(env, second, call)
  {
    var both := first + second;
    AnyEntryMatchesIff(env, both, call);
    AnyEntryMatchesIff(env, first, call);
    AnyEntryMatchesIff(env, second, call);
    if AnyEntryMatches(env, first, call) {
      var i :| 0 <= i < |first| && EntryMatches(env, first[i], call);
      assert both[i] == first[i];
    }
    if AnyEntryMatches(env, second, call) {
      var i :| 0 <= i < |second| && EntryMatches(env, second[i], call);
      assert both[|first| + i] == second[i];
    }
    if AnyEntryMatches(env, both, call) {
      var i :| 0 <= i < |both| && EntryMatches(env, both[i], call);
      if i < |first| { assert both[i] == first[i]; } else { assert both[i] == second[i - |first|]; }
    }
  }

  /** Every entry compares the call's argument 0, and a type argument that is 0 or 1. */
  lemma CatalogArgumentIndices()
    ensures forall e :: e in Catalog ==> e.argumentIndex == 0 && e.typeArgumentIndex <= 1
  {
  }

  /** Only `Map.containsValue` compares type argument 1, the value type; every other entry compares type argument 0. */
  lemma CatalogValueEntry()
    ensures forall i :: 0 <= i < |Catalog| ==> (Catalog[i].typeArgumentIndex == 1 <==> i == 9)
    ensures Catalog[9].baseType == "java.util.Map" && Catalog[9].methodName == "containsValue"
  {
  }
}
