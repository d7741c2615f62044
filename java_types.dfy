/**
 * The part of the Java type system the checkers consult, as an explicit class table.
 *
 * A class (or interface) is identified by a `ClassId`, an index into `Env.classes`; id 0 is
 * `java.lang.Object`. A declaration lists its number of type parameters and its direct
 * supertypes, whose type arguments may mention the declaration's own parameters as
 * `Param(i)`. Every declared supertype has a smaller id than the declaring class, which is how
 * the table stays acyclic; the functions below simply ignore a supertype that breaks that rule,
 * so they are total on any table. `Env.symbols` resolves fully qualified names to classes, as
 * the compiler's symbol table does; a name missing from it is a class not on the classpath.
 */
module JavaTypes {
  import opened Wrappers

  type ClassId = nat

  /** `java.lang.Object`, the root of the class table. */
  const ObjectId: ClassId := 0

  datatype PrimKind = Boolean | Byte | Short | Char | Int | Long | Float | Double

  datatype Type =
    | Ref(id: ClassId, args: seq<Type>)   // a class or interface type; `args == []` when raw or not generic
    | Param(index: nat)                   // a type parameter of the declaration a supertype belongs to
    | Prim(kind: PrimKind)
    | NullType                            // the type of the `null` literal

  datatype Supertype = Supertype(id: ClassId, args: seq<Type>)

  datatype ClassDecl = ClassDecl(arity: nat, supers: seq<Supertype>, isInterface: bool, isFinal: bool)

  datatype Env = Env(classes: seq<ClassDecl>, symbols: map<string, ClassId>)

  function Arity(env: Env, id: ClassId): nat {
    if id < |env.classes| then env.classes[id].arity else 0
  }

  function Supers(env: Env, id: ClassId): seq<Supertype> {
    if id < |env.classes| then env.classes[id].supers else []
  }

  predicate IsInterface(env: Env, id: ClassId) {
    id < |env.classes| && env.classes[id].isInterface
  }

  predicate IsFinal(env: Env, id: ClassId) {
    id < |env.classes| && env.classes[id].isFinal
  }

  /** Resolution of a fully qualified name; `None` when the class is not on the classpath. */
  function LookupSymbol(env: Env, name: string): Option<ClassId> {
    if name in env.symbols then Some(env.symbols[name]) else None
  }

  // ---------------------------------------------------------------------------------------
  // Substitution of type arguments for type parameters

  /** `t` with every `Param(i)` replaced by `actuals[i]`. */
  function Subst(t: Type, actuals: seq<Type>): Type
    decreases t
  {
    match t
    case Ref(id, args) => Ref(id, seq(|args|, i requires 0 <= i < |args| => Subst(args[i], actuals)))
    case Param(i) => if i < |actuals| then actuals[i] else t
    case Prim(_) => t
    case NullType => t
  }

  function SubstAll(ts: seq<Type>, actuals: seq<Type>): (r: seq<Type>)
    ensures |r| == |ts|
    ensures forall i :: 0 <= i < |ts| ==> r[i] == Subst(ts[i], actuals)
  {
    seq(|ts|, i requires 0 <= i < |ts| => Subst(ts[i], actuals))
  }

  /** The declaration's own parameters `Param(0), ..., Param(n-1)`: the generic view of a class. */
  function Params(n: nat): (r: seq<Type>)
    ensures |r| == n
    ensures forall i :: 0 <= i < n ==> r[i] == Param(i)
  {
    seq(n, i requires 0 <= i < n => Param(i))
  }

  /** Every type parameter that `t` mentions is one of the first `n`. */
  predicate ParamsBelow(t: Type, n: nat) {
    match t
    case Ref(_, args) => forall i :: 0 <= i < |args| ==> ParamsBelow(args[i], n)
    case Param(i) => i < n
    case Prim(_) => true
    case NullType => true
  }

  predicate AllParamsBelow(ts: seq<Type>, n: nat) {
    forall i :: 0 <= i < |ts| ==> ParamsBelow(ts[i], n)
  }

  /** Substituting a declaration's own parameters for themselves changes nothing. */
  lemma {:induction false} SubstIdentity(t: Type, n: nat)
    requires ParamsBelow(t, n)
    ensures Subst(t, Params(n)) == t
  {
    match t
    case Ref(id, args) =>
      forall i | 0 <= i < |args| ensures Subst(args[i], Params(n)) == args[i] {
        SubstIdentity(args[i], n);
      }
      assert Subst(t, Params(n)).args == args;
    case Param(i) =>
    case Prim(_) =>
    case NullType =>
  }

  lemma SubstAllIdentity(ts: seq<Type>, n: nat)
    requires AllParamsBelow(ts, n)
    ensures SubstAll(ts, Params(n)) == ts
  {
    forall i | 0 <= i < |ts| ensures SubstAll(ts, Params(n))[i] == ts[i] {
      SubstIdentity(ts[i], n);
    }
  }

  /** A type that mentions no type parameter is left alone by every substitution. */
  lemma {:induction false} SubstClosed(t: Type, actuals: seq<Type>)
    requires ParamsBelow(t, 0)
    ensures Subst(t, actuals) == t
  {
    match t
    case Ref(id, args) =>
      forall i | 0 <= i < |args| ensures Subst(args[i], actuals) == args[i] {
        SubstClosed(args[i], actuals);
      }
      assert Subst(t, actuals).args == args;
    case Param(i) =>
    case Prim(_) =>
    case NullType =>
  }

  lemma SubstAllClosed(ts: seq<Type>, actuals: seq<Type>)
    requires AllParamsBelow(ts, 0)
    ensures SubstAll(ts, actuals) == ts
  {
    forall i | 0 <= i < |ts| ensures SubstAll(ts, actuals)[i] == ts[i] {
      SubstClosed(ts[i], actuals);
    }
  }

  /**
   * Substitution composes: substituting `a` and then `b` is substituting `a` with `b`
   * already applied. This is what makes substitution through a chain of supertypes correct.
   */
  lemma {:induction false} SubstCompose(t: Type, a: seq<Type>, b: seq<Type>)
    requires ParamsBelow(t, |a|)
    ensures Subst(Subst(t, a), b) == Subst(t, SubstAll(a, b))
  {
    match t
    case Ref(id, args) =>
      forall i | 0 <= i < |args| ensures Subst(Subst(args[i], a), b) == Subst(args[i], SubstAll(a, b)) {
        SubstCompose(args[i], a, b);
      }
      assert Subst(Subst(t, a), b).args == Subst(t, SubstAll(a, b)).args;
    case Param(i) =>
    case Prim(_) =>
    case NullType =>
  }

  lemma SubstAllCompose(ts: seq<Type>, a: seq<Type>, b: seq<Type>)
    requires AllParamsBelow(ts, |a|)
    ensures SubstAll(SubstAll(ts, a), b) == SubstAll(ts, SubstAll(a, b))
  {
    forall i | 0 <= i < |ts| ensures SubstAll(SubstAll(ts, a), b)[i] == SubstAll(ts, SubstAll(a, b))[i] {
      SubstCompose(ts[i], a, b);
    }
  }

  /** Substituting types over the first `n` parameters yields a type over the first `n` parameters. */
  lemma {:induction false} SubstParamsBelow(t: Type, a: seq<Type>, n: nat)
    requires ParamsBelow(t, |a|) && AllParamsBelow(a, n)
    ensures ParamsBelow(Subst(t, a), n)
  {
    match t
    case Ref(id, args) =>
      forall i | 0 <= i < |args| ensures ParamsBelow(Subst(args[i], a), n) {
        SubstParamsBelow(args[i], a, n);
      }
    case Param(i) =>
    case Prim(_) =>
    case NullType =>
  }

  lemma SubstAllParamsBelow(ts: seq<Type>, a: seq<Type>, n: nat)
    requires AllParamsBelow(ts, |a|) && AllParamsBelow(a, n)
    ensures AllParamsBelow(SubstAll(ts, a), n)
  {
    forall i | 0 <= i < |ts| ensures ParamsBelow(SubstAll(ts, a)[i], n) {
      SubstParamsBelow(ts[i], a, n);
    }
  }

  /**
   * The host compiler's invariants on the class table: Object has no type parameters, every
   * supertype is declared earlier (no cycles), is fully parameterised, and mentions only the
   * declaring class's own parameters.
   */
  ghost predicate WellFormed(env: Env) {
    && Arity(env, ObjectId) == 0
    && forall id, s :: 0 <= id < |env.classes| && s in env.classes[id].supers ==>
         && s.id < id
         && |s.args| == Arity(env, s.id)
         && AllParamsBelow(s.args, env.classes[id].arity)
  }

  // ---------------------------------------------------------------------------------------
  // Erased subclassing

  /**
   * `a` is `b`, or `b` is Object (every class and interface is a subtype of Object), or some
   * declared supertype of `a` is a subclass of `b`.
   */
  predicate IsSubclass(env: Env, a: ClassId, b: ClassId)
    decreases a
  {
    || a == b
    || b == ObjectId
    || exists s :: s in Supers(env, a) && s.id < a && IsSubclass(env, s.id, b)
  }

  lemma {:induction false} IsSubclassTransitive(env: Env, a: ClassId, b: ClassId, c: ClassId)
    requires IsSubclass(env, a, b) && IsSubclass(env, b, c)
    ensures IsSubclass(env, a, c)
    decreases a
  {
    if a == b || c == ObjectId {
    } else {
      // Object's declared supertypes would need negative ids, so Object reaches only itself.
      assert b != ObjectId;
      var s :| s in Supers(env, a) && s.id < a && IsSubclass(env, s.id, b);
      IsSubclassTransitive(env, s.id, b, c);
    }
  }

  /**
   * A type with its type arguments discarded. Type parameters carry no bound in this table, so
   * every type parameter erases to Object, as an unbounded one does.
   */
  datatype Erased = EClass(id: ClassId) | EPrim(kind: PrimKind) | ENull

  function Erase(t: Type): Erased {
    match t
    case Ref(id, _) => EClass(id)
    case Param(_) => EClass(ObjectId)
    case Prim(p) => EPrim(p)
    case NullType => ENull
  }

  /** Widening order of the numeric kinds; `Short` and `Char` share a rank and are unrelated. */
  function PrimRank(p: PrimKind): nat {
    match p
    case Boolean => 0
    case Byte => 1
    case Short => 2
    case Char => 2
    case Int => 3
    case Long => 4
    case Float => 5
    case Double => 6
  }

  /** Primitive subtyping: byte < short < int < long < float < double and char < int. */
  predicate PrimSubtype(p: PrimKind, q: PrimKind) {
    p == q || (p != Boolean && q != Boolean && q != Char && PrimRank(p) < PrimRank(q))
  }

  predicate ErasedSubtype(env: Env, s: Erased, t: Erased) {
    match (s, t)
    case (EClass(a), EClass(b)) => IsSubclass(env, a, b)
    case (ENull, EClass(_)) => true
    case (ENull, ENull) => true
    case (EPrim(p), EPrim(q)) => PrimSubtype(p, q)
    case _ => false
  }

  /** Subtyping of erased types, as the analysis library's subtype test is. */
  predicate IsSubtype(env: Env, s: Type, t: Type) {
    ErasedSubtype(env, Erase(s), Erase(t))
  }

  lemma IsSubtypeReflexive(env: Env, t: Type)
    ensures IsSubtype(env, t, t)
  {
  }

  lemma IsSubtypeTransitive(env: Env, s: Type, t: Type, u: Type)
    requires IsSubtype(env, s, t) && IsSubtype(env, t, u)
    ensures IsSubtype(env, s, u)
  {
    if Erase(s).EClass? && Erase(t).EClass? && Erase(u).EClass? {
      IsSubclassTransitive(env, Erase(s).id, Erase(t).id, Erase(u).id);
    }
  }

  /** Every reference type, and the null type, is a subtype of Object. */
  lemma ObjectIsTop(env: Env, t: Type)
    requires !t.Prim?
    ensures IsSubtype(env, t, Ref(ObjectId, []))
  {
  }

  // ---------------------------------------------------------------------------------------
  // Boxing

  function BoxName(p: PrimKind): string {
    match p
    case Boolean => "java.lang.Boolean"
    case Byte => "java.lang.Byte"
    case Short => "java.lang.Short"
    case Char => "java.lang.Character"
    case Int => "java.lang.Integer"
    case Long => "java.lang.Long"
    case Float => "java.lang.Float"
    case Double => "java.lang.Double"
  }

  function BoxId(env: Env, p: PrimKind): Option<ClassId> {
    LookupSymbol(env, BoxName(p))
  }

  /**
   * A primitive type becomes its box class; every other type is returned as it is. The result
   * is never a primitive that has a box, and a value converts to it and back by a cast (boxing
   * and unboxing).
   */
  function BoxedTypeOrType(env: Env, t: Type): (r: Type)
    ensures !t.Prim? ==> r == t
    ensures t.Prim? && BoxId(env, t.kind).Some? ==> r == Ref(BoxId(env, t.kind).value, [])
    ensures !r.Prim? || BoxId(env, r.kind).None?
    ensures IsCastable(env, t, r) && IsCastable(env, r, t)
  {
    match t
    case Prim(p) =>
      if BoxId(env, p).Some? then
        assert BoxId(env, p) == Some(BoxId(env, p).value) && PrimSubtype(p, p);
        Ref(BoxId(env, p).value, [])
      else t
    case _ => t
  }

  /** Boxing a boxed type changes nothing. */
  lemma BoxingIdempotent(env: Env, t: Type)
    ensures BoxedTypeOrType(env, BoxedTypeOrType(env, t)) == BoxedTypeOrType(env, t)
  {
  }

  // ---------------------------------------------------------------------------------------
  // Castability

  /**
   * A cast between erased class types: related by subclassing, or one side an interface that
   * the other side could still implement (it is an interface, or a class that is not final).
   */
  predicate ReferenceCastable(env: Env, a: ClassId, b: ClassId) {
    || IsSubclass(env, a, b)
    || IsSubclass(env, b, a)
    || (IsInterface(env, a) && IsInterface(env, b))
    || (IsInterface(env, b) && !IsFinal(env, a))
    || (IsInterface(env, a) && !IsFinal(env, b))
  }

  predicate ErasedCastable(env: Env, s: Erased, t: Erased) {
    match (s, t)
    case (ENull, EPrim(_)) => false
    case (ENull, _) => true
    case (EPrim(p), EPrim(q)) => p == q || (p != Boolean && q != Boolean)
    // boxing, then a widening reference conversion
    case (EPrim(p), EClass(c)) => BoxId(env, p).Some? && IsSubclass(env, BoxId(env, p).value, c)
    case (EPrim(_), ENull) => false
    // unboxing then widening, or a narrowing reference conversion to the box, then unboxing
    case (EClass(c), EPrim(q)) =>
      || (exists p :: BoxId(env, p) == Some(c) && PrimSubtype(p, q))
      || (BoxId(env, q).Some? && IsSubclass(env, BoxId(env, q).value, c))
    case (EClass(_), ENull) => true
    case (EClass(a), EClass(b)) => ReferenceCastable(env, a, b)
  }

  /** Whether a value of static type `s` may be cast to `t`, judged on the erasures of both, as the analysis library does. */
  predicate IsCastable(env: Env, s: Type, t: Type) {
    ErasedCastable(env, Erase(s), Erase(t))
  }

  /** Subtyping in either direction makes a cast legal. */
  lemma SubtypeImpliesCastable(env: Env, s: Type, t: Type)
    requires IsSubtype(env, s, t) || IsSubtype(env, t, s)
    ensures IsCastable(env, s, t)
  {
  }

  /** Between two classes (no interface involved) a cast is legal exactly when they are related. */
  lemma ClassCastableIffRelated(env: Env, a: ClassId, b: ClassId)
    requires !IsInterface(env, a) && !IsInterface(env, b)
    ensures IsCastable(env, Ref(a, []), Ref(b, [])) <==> IsSubclass(env, a, b) || IsSubclass(env, b, a)
  {
  }

  /** `null` may be cast to every reference type. */
  lemma NullCastableToReference(env: Env, t: Type)
    requires !t.Prim?
    ensures IsCastable(env, NullType, t)
  {
  }
}
