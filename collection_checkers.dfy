/**
 * The two collection checkers compared: UnexpectedType reports an argument that cannot even be
 * cast to the type argument, StrictCollectionIncompatibleType one that is unrelated to it by
 * subtyping. The first check's castability test, like the second's subtype test, compares
 * erasures, so its findings on reference-typed arguments are among the second's.
 */
module CollectionCheckers {
  import opened Wrappers
  import opened JavaTypes
  import opened Supertypes
  import opened JavaTrees
  import Strict = StrictCollectionIncompatibleType
  import opened UnexpectedType

  /** The first argument has a reference type (primitives are boxed by the stricter check only). */
  predicate ReferenceFirstArgument(call: Invocation) {
    |call.arguments| > 0 && ResultType(call.arguments[0]).Some? && !ResultType(call.arguments[0]).value.Prim?
  }

  /** The catalog entry of StrictCollectionIncompatibleType for the same method matches a finding of this check. */
  lemma StrictEntryMatches(env: Env, call: Invocation, superTarget: string, arity: nat, e: Strict.CatalogEntry)
    requires arity > 0 && CheckFirstArgument(env, call, superTarget, arity) == Finding
    requires e.baseType == superTarget && e.argumentIndex == 0 && e.typeArgumentIndex == 0
    requires InstanceMethodOnDescendantOf(env, call, superTarget) && HasSignature(call.symbol, e.methodName, e.parameters)
    requires ReferenceFirstArgument(call)
    ensures Strict.EntryMatches(env, e, call)
  {
    var view := TargetTypeAsSuper(env, call, superTarget).value;
    var a := ResultType(call.arguments[0]).value;
    if IsSubtype(env, a, view.args[0]) || IsSubtype(env, view.args[0], a) {
      SubtypeImpliesCastable(env, a, view.args[0]);
    }
    assert BoxedResult(env, call.arguments[0]) == Some(a);
  }

  /**
   * For a reference-typed argument, every finding of this check is
   * also a finding of StrictCollectionIncompatibleType: an argument that cannot be cast to the
   * type argument is a subtype of it in neither direction, and each of the five methods is in
   * that catalog.
   */
  lemma FindingsAreStrictFindings(env: Env, call: Invocation)
    requires MatchMethodInvocation(env, call) == Finding
    requires ReferenceFirstArgument(call)
    ensures Strict.MatchMethodInvocation(env, call)
  {
    var i: nat;
    if ObjectMethod(env, call, MapName, "get") {
      i := 10;
      StrictEntryMatches(env, call, MapName, 2, Strict.Catalog[i]);
    } else if ObjectMethod(env, call, MapName, "containsKey") {
      i := 8;
      StrictEntryMatches(env, call, MapName, 2, Strict.Catalog[i]);
    } else if ObjectMethod(env, call, MapName, "remove") {
      i := 12;
      StrictEntryMatches(env, call, MapName, 2, Strict.Catalog[i]);
    } else if ObjectMethod(env, call, CollectionName, "contains") {
      i := 0;
      StrictEntryMatches(env, call, CollectionName, 1, Strict.Catalog[i]);
    } else {
      i := 1;
      StrictEntryMatches(env, call, CollectionName, 1, Strict.Catalog[i]);
    }
    Strict.CatalogEntryReports(env, call, i);
  }
}
