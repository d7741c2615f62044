/**
 * UnexpectedType: `Map.get/containsKey/remove(Object)` with an argument that cannot even be
 * cast to the map's key type, and `Collection.contains/remove(Object)` with one that cannot be
 * cast to the element type. The map methods are tried first.
 */
module UnexpectedType {
  import opened Wrappers
  import opened JavaTypes
  import opened Supertypes
  import opened JavaTrees
  import Strict = StrictCollectionIncompatibleType

  const MapName: string := "java.util.Map"
  const CollectionName: string := "java.util.Collection"
  const ObjectName: string := "java.lang.Object"

  /** What the check produces; `Fault` is an exception escaping the check. */
  datatype Outcome = NoMatch | Finding | Fault

  /** An instance method `name(java.lang.Object)` invoked on a subtype of the class named. */
  predicate ObjectMethod(env: Env, call: Invocation, className: string, name: string) {
    && InstanceMethodOnDescendantOf(env, call, className)
    && HasSignature(call.symbol, name, [ObjectName])
  }

  predicate MapMatcher(env: Env, call: Invocation) {
    || ObjectMethod(env, call, MapName, "get")
    || ObjectMethod(env, call, MapName, "containsKey")
    || ObjectMethod(env, call, MapName, "remove")
  }

  predicate CollectionMatcher(env: Env, call: Invocation) {
    || ObjectMethod(env, call, CollectionName, "contains")
    || ObjectMethod(env, call, CollectionName, "remove")
  }

  /**
   * One branch of the check: view the receiver as `superTarget`, insist on exactly `arity` type
   * arguments, and report when the first argument cannot be cast to type argument 0. The
   * source reads argument 0 without a guard, so a missing argument is an exception. The
   * castability test of the analysis library compares erasures and answers false for a missing
   * type, so an argument without a type is reported.
   */
  function CheckFirstArgument(env: Env, call: Invocation, superTarget: string, arity: nat): Outcome
    requires arity > 0
  {
    match TargetTypeAsSuper(env, call, superTarget)
    case None => NoMatch
    case Some(containerType) =>
      if |containerType.args| != arity then NoMatch
      else if |call.arguments| == 0 then Fault
      else
        match ResultType(call.arguments[0])
        case None => Finding
        case Some(argumentType) =>
          if IsCastable(env, argumentType, containerType.args[0]) then NoMatch else Finding
  }

  function MatchMethodInvocation(env: Env, call: Invocation): Outcome {
    if MapMatcher(env, call) then CheckFirstArgument(env, call, MapName, 2)
    else if CollectionMatcher(env, call) then CheckFirstArgument(env, call, CollectionName, 1)
    else NoMatch
  }

  /** A call as the compiler attributes it: one argument per declared parameter. */
  predicate FullyApplied(call: Invocation) {
    |call.arguments| == |call.symbol.params|
  }

  // ---------------------------------------------------------------------------------------

  /** On a call the compiler accepted, the check never throws. */
  lemma FullyAppliedNeverFaults(env: Env, call: Invocation)
    requires FullyApplied(call)
    ensures MatchMethodInvocation(env, call) != Fault
  {
  }

  /** The map branch takes precedence: the collection matcher is not consulted. */
  lemma MapBranchFirst(env: Env, call: Invocation)
    requires MapMatcher(env, call)
    ensures MatchMethodInvocation(env, call) == CheckFirstArgument(env, call, MapName, 2)
  {
  }

  /**
   * A map call is judged only when the receiver's view as `Map` has exactly two type
   * arguments: no view, a raw `Map`, or any other count, is no match.
   */
  lemma MapNeedsTwoTypeArguments(env: Env, call: Invocation)
    requires MapMatcher(env, call)
    requires match TargetTypeAsSuper(env, call, MapName)
             case None => true
             case Some(view) => |view.args| != 2
    ensures MatchMethodInvocation(env, call) == NoMatch
  {
  }

  /** A collection call is judged only when the view as `Collection` has exactly one type argument. */
  lemma CollectionNeedsOneTypeArgument(env: Env, call: Invocation)
    requires !MapMatcher(env, call) && CollectionMatcher(env, call)
    requires match TargetTypeAsSuper(env, call, CollectionName)
             case None => true
             case Some(view) => |view.args| != 1
    ensures MatchMethodInvocation(env, call) == NoMatch
  {
  }

  /** A map call is reported exactly when its argument cannot be cast to the key type. */
  lemma MapFindingIffNotCastable(env: Env, call: Invocation, mapType: Type, argumentType: Type)
    requires MapMatcher(env, call)
    requires TargetTypeAsSuper(env, call, MapName) == Some(mapType) && |mapType.args| == 2
    requires |call.arguments| > 0 && ResultType(call.arguments[0]) == Some(argumentType)
    ensures MatchMethodInvocation(env, call) != Fault
    ensures MatchMethodInvocation(env, call) == Finding <==> !IsCastable(env, argumentType, mapType.args[0])
  {
  }

  /** A collection call is reported exactly when its argument cannot be cast to the element type. */
  lemma CollectionFindingIffNotCastable(env: Env, call: Invocation, collectionType: Type, argumentType: Type)
    requires !MapMatcher(env, call) && CollectionMatcher(env, call)
    requires TargetTypeAsSuper(env, call, CollectionName) == Some(collectionType) && |collectionType.args| == 1
    requires |call.arguments| > 0 && ResultType(call.arguments[0]) == Some(argumentType)
    ensures MatchMethodInvocation(env, call) != Fault
    ensures MatchMethodInvocation(env, call) == Finding <==> !IsCastable(env, argumentType, collectionType.args[0])
  {
  }

  /** A matched call whose first argument has no type is reported once the view has the right arity. */
  lemma UntypedArgumentReported(env: Env, call: Invocation, superTarget: string, arity: nat)
    requires arity > 0 && |call.arguments| > 0 && ResultType(call.arguments[0]).None?
    requires TargetTypeAsSuper(env, call, superTarget).Some?
    ensures CheckFirstArgument(env, call, superTarget, arity) == Finding
        <==> |TargetTypeAsSuper(env, call, superTarget).value.args| == arity
  {
  }

  /** `null`, and any argument related to the key or element type by subtyping, is never reported. */
  lemma RelatedArgumentNeverReported(env: Env, call: Invocation)
    requires |call.arguments| > 0 && ResultType(call.arguments[0]).Some?
    requires forall superTarget :: superTarget in {MapName, CollectionName} ==>
      match TargetTypeAsSuper(env, call, superTarget)
      case None => true
      case Some(view) =>
        |view.args| > 0 ==>
          var a := ResultType(call.arguments[0]).value;
          var p := view.args[0];
          IsSubtype(env, a, p) || IsSubtype(env, p, a)
    ensures MatchMethodInvocation(env, call) == NoMatch
  {
    var a := ResultType(call.arguments[0]).value;
    var superTarget := if MapMatcher(env, call) then MapName else CollectionName;
    var view := TargetTypeAsSuper(env, call, superTarget);
    if view.Some? && |view.value.args| > 0 {
      SubtypeImpliesCastable(env, a, view.value.args[0]);
    }
  }
}
