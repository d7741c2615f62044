/**
 * Viewing a type as one of its supertypes (the compiler's `asSuper`): the ancestor's type
 * arguments as seen through a concrete receiver type, substituted at every inheritance step.
 */
module Supertypes {
  import opened Wrappers
  import opened JavaTypes

  /**
   * The type arguments of `owner`'s declared supertype `s`, seen through `Ref(owner, args)`.
   * A raw use of `owner` (wrong number of arguments, normally none) sees its supertypes erased.
   */
  function SuperArgs(env: Env, owner: ClassId, args: seq<Type>, s: Supertype): seq<Type> {
    if |args| == Arity(env, owner) then SubstAll(s.args, args) else []
  }

  /**
   * `t` viewed as the class `target`: `t` itself when it is a `target`, Object when `target` is
   * Object, otherwise the view through the first declared supertype that has one. `None` when
   * `target` is not a supertype of `t`, and for types that are not class types.
   */
  function AsSuper(env: Env, t: Type, target: ClassId): (r: Option<Type>)
    ensures r.Some? ==> r.value.Ref? && r.value.id == target
    decreases if t.Ref? then t.id else 0, 1
  {
    match t
    case Ref(id, args) =>
      if id == target then Some(t)
      else if target == ObjectId then Some(Ref(ObjectId, []))
      else AsSuperAmong(env, id, args, Supers(env, id), target)
    case _ => None
  }

  function AsSuperAmong(env: Env, owner: ClassId, args: seq<Type>, supers: seq<Supertype>, target: ClassId)
    : (r: Option<Type>)
    ensures r.Some? ==> r.value.Ref? && r.value.id == target
    decreases owner, 0, |supers|
  {
    if supers == [] then None
    else
      var s := supers[0];
      var found := if s.id < owner then AsSuper(env, Ref(s.id, SuperArgs(env, owner, args, s)), target) else None;
      if found.Some? then found else AsSuperAmong(env, owner, args, supers[1..], target)
  }

  /** Applying a receiver's type arguments to a view computed over the declaration's own parameters. */
  function SubstView(view: Option<Type>, args: seq<Type>): Option<Type> {
    match view
    case Some(t) => Some(Subst(t, args))
    case None => None
  }

  // ---------------------------------------------------------------------------------------

  /** A view exists exactly when `target` is an (erased) supertype of the receiver's class. */
  lemma {:induction false} AsSuperDefinedIff(env: Env, id: ClassId, args: seq<Type>, target: ClassId)
    ensures AsSuper(env, Ref(id, args), target).Some? <==> IsSubclass(env, id, target)
    decreases id, 1
  {
    if id != target && target != ObjectId {
      AsSuperAmongDefinedIff(env, id, args, Supers(env, id), target);
    }
  }

  lemma {:induction false} AsSuperAmongDefinedIff(
    env: Env, owner: ClassId, args: seq<Type>, supers: seq<Supertype>, target: ClassId)
    ensures AsSuperAmong(env, owner, args, supers, target).Some?
        <==> exists s :: s in supers && s.id < owner && IsSubclass(env, s.id, target)
    decreases owner, 0, |supers|
  {
    if supers != [] {
      var s := supers[0];
      if s.id < owner {
        AsSuperDefinedIff(env, s.id, SuperArgs(env, owner, args, s), target);
      }
      AsSuperAmongDefinedIff(env, owner, args, supers[1..], target);
      assert forall x :: x in supers <==> x == s || x in supers[1..];
    }
  }

  /** Through a fully parameterised receiver, the view carries exactly the ancestor's arity of arguments. */
  lemma {:induction false} AsSuperArity(env: Env, id: ClassId, args: seq<Type>, target: ClassId)
    requires WellFormed(env) && |args| == Arity(env, id)
    requires AsSuper(env, Ref(id, args), target).Some?
    ensures |AsSuper(env, Ref(id, args), target).value.args| == Arity(env, target)
    decreases id, 1
  {
    if id != target && target != ObjectId {
      AsSuperAmongArity(env, id, args, Supers(env, id), target);
    }
  }

  lemma {:induction false} AsSuperAmongArity(
    env: Env, owner: ClassId, args: seq<Type>, supers: seq<Supertype>, target: ClassId)
    requires WellFormed(env) && |args| == Arity(env, owner)
    requires forall s :: s in supers ==> s in Supers(env, owner)
    requires AsSuperAmong(env, owner, args, supers, target).Some?
    ensures |AsSuperAmong(env, owner, args, supers, target).value.args| == Arity(env, target)
    decreases owner, 0, |supers|
  {
    var s := supers[0];
    assert s in supers;
    assert owner < |env.classes|;
    assert s in env.classes[owner].supers;
    var found := if s.id < owner then AsSuper(env, Ref(s.id, SuperArgs(env, owner, args, s)), target) else None;
    if found.Some? {
      AsSuperArity(env, s.id, SuperArgs(env, owner, args, s), target);
    } else {
      AsSuperAmongArity(env, owner, args, supers[1..], target);
    }
  }

  /** A view never mentions type parameters the receiver's arguments do not mention. */
  lemma {:induction false} AsSuperParamsBelow(env: Env, id: ClassId, args: seq<Type>, target: ClassId, n: nat)
    requires WellFormed(env) && AllParamsBelow(args, n)
    requires AsSuper(env, Ref(id, args), target).Some?
    ensures AllParamsBelow(AsSuper(env, Ref(id, args), target).value.args, n)
    decreases id, 1
  {
    if id != target && target != ObjectId {
      AsSuperAmongParamsBelow(env, id, args, Supers(env, id), target, n);
    }
  }

  lemma {:induction false} AsSuperAmongParamsBelow(
    env: Env, owner: ClassId, args: seq<Type>, supers: seq<Supertype>, target: ClassId, n: nat)
    requires WellFormed(env) && AllParamsBelow(args, n)
    requires forall s :: s in supers ==> s in Supers(env, owner)
    requires AsSuperAmong(env, owner, args, supers, target).Some?
    ensures AllParamsBelow(AsSuperAmong(env, owner, args, supers, target).value.args, n)
    decreases owner, 0, |supers|
  {
    var s := supers[0];
    assert s in supers;
    assert owner < |env.classes|;
    assert s in env.classes[owner].supers;
    var sargs := SuperArgs(env, owner, args, s);
    if |args| == Arity(env, owner) {
      SubstAllParamsBelow(s.args, args, n);
    }
    var found := if s.id < owner then AsSuper(env, Ref(s.id, sargs), target) else None;
    if found.Some? {
      AsSuperParamsBelow(env, s.id, sargs, target, n);
    } else {
      AsSuperAmongParamsBelow(env, owner, args, supers[1..], target, n);
    }
  }

  /**
   * Chained substitution is correct: viewing `Ref(id, args)` as `target` gives the view of the
   * generic declaration `Ref(id, Param(0), ...)` with `args` substituted for its parameters.
   * For `A<X> extends B<List<X>>`, `A<String>` is seen as `B<List<String>>`, over any number
   * of inheritance steps.
   */
  lemma {:induction false} AsSuperThroughArguments(env: Env, id: ClassId, args: seq<Type>, target: ClassId)
    requires WellFormed(env) && |args| == Arity(env, id)
    ensures AsSuper(env, Ref(id, args), target)
         == SubstView(AsSuper(env, Ref(id, Params(Arity(env, id))), target), args)
    decreases id, 1
  {
    var n := Arity(env, id);
    if id == target {
      assert SubstAll(Params(n), args) == args;
    } else if target != ObjectId {
      AsSuperAmongThroughArguments(env, id, args, Supers(env, id), target);
      assert AsSuper(env, Ref(id, args), target) == AsSuperAmong(env, id, args, Supers(env, id), target);
      assert AsSuper(env, Ref(id, Params(n)), target) == AsSuperAmong(env, id, Params(n), Supers(env, id), target);
    } else {
      assert Subst(Ref(ObjectId, []), args).args == [];
    }
  }

  lemma {:induction false} AsSuperAmongThroughArguments(
    env: Env, owner: ClassId, args: seq<Type>, supers: seq<Supertype>, target: ClassId)
    requires WellFormed(env) && |args| == Arity(env, owner)
    requires forall s :: s in supers ==> s in Supers(env, owner)
    ensures AsSuperAmong(env, owner, args, supers, target)
         == SubstView(AsSuperAmong(env, owner, Params(Arity(env, owner)), supers, target), args)
    decreases owner, 0, |supers|
  {
    if supers != [] {
      var n := Arity(env, owner);
      var s := supers[0];
      assert s in supers;
      assert owner < |env.classes|;
      assert s in env.classes[owner].supers;
      var m := Arity(env, s.id);
      var actual := SubstAll(s.args, args);
      assert SuperArgs(env, owner, args, s) == actual;
      SubstAllIdentity(s.args, n);
      assert SuperArgs(env, owner, Params(n), s) == s.args;
      var found := AsSuper(env, Ref(s.id, actual), target);
      var generic := AsSuper(env, Ref(s.id, s.args), target);
      var view := AsSuper(env, Ref(s.id, Params(m)), target);
      AsSuperThroughArguments(env, s.id, actual, target);
      AsSuperThroughArguments(env, s.id, s.args, target);
      assert found == SubstView(view, actual);
      assert generic == SubstView(view, s.args);
      if view.Some? {
        assert AllParamsBelow(Params(m), m);
        AsSuperParamsBelow(env, s.id, Params(m), target, m);
        SubstCompose(view.value, s.args, args);
        assert found == SubstView(generic, args);
      }
      AsSuperAmongThroughArguments(env, owner, args, supers[1..], target);
    }
  }

  /** Every declared supertype on the way up is itself generic. */
  ghost predicate GenericAncestry(env: Env, id: ClassId)
    decreases id
  {
    forall s :: s in Supers(env, id) && s.id < id ==> Arity(env, s.id) > 0 && GenericAncestry(env, s.id)
  }

  /**
   * A raw receiver (a generic class used without type arguments) whose ancestry is generic
   * sees every ancestor raw as well: no type argument is available anywhere in the chain.
   */
  lemma {:induction false} RawViewIsRaw(env: Env, id: ClassId, target: ClassId)
    requires Arity(env, id) > 0 && GenericAncestry(env, id) && target != ObjectId
    requires AsSuper(env, Ref(id, []), target).Some?
    ensures AsSuper(env, Ref(id, []), target).value.args == []
    decreases id, 1
  {
    if id != target {
      RawAmongIsRaw(env, id, Supers(env, id), target);
    }
  }

  lemma {:induction false} RawAmongIsRaw(env: Env, owner: ClassId, supers: seq<Supertype>, target: ClassId)
    requires Arity(env, owner) > 0 && GenericAncestry(env, owner) && target != ObjectId
    requires forall s :: s in supers ==> s in Supers(env, owner)
    requires AsSuperAmong(env, owner, [], supers, target).Some?
    ensures AsSuperAmong(env, owner, [], supers, target).value.args == []
    decreases owner, 0, |supers|
  {
    var s := supers[0];
    assert SuperArgs(env, owner, [], s) == [];
    var found := if s.id < owner then AsSuper(env, Ref(s.id, []), target) else None;
    if found.Some? {
      RawViewIsRaw(env, s.id, target);
    } else {
      RawAmongIsRaw(env, owner, supers[1..], target);
    }
  }
}
