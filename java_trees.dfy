/**
 * The fragment of the compiler's syntax tree the checkers inspect, each expression carrying
 * the static type the compiler attributed to it, plus the tree helpers and method matchers
 * the checkers share.
 */
module JavaTrees {
  import opened Wrappers
  import opened JavaTypes
  import opened Supertypes

  /** A resolved method: declaring class, simple name, declared parameter types as written. */
  datatype MethodSymbol = MethodSymbol(owner: ClassId, name: string, params: seq<string>, isStatic: bool)

  datatype Tree =
    | MethodInvocation(call: Invocation)
    | NewClass(created: Type, arguments: seq<Tree>)
    | Parenthesized(expression: Tree)
    | Identifier(name: string, identType: Option<Type>)
    | Literal(literalType: Type)
    | Binary(left: Tree, right: Tree, binaryType: Option<Type>)
    | OtherExpression(otherType: Option<Type>)    // assignments, lambdas, casts, ...
    | Block(statements: seq<Tree>)
    | ExpressionStatement(expression: Tree)
    | Return(value: Option<Tree>)                 // `return e;`, or `return;` with no value
    | OtherStatement                              // declarations, if, loops, throw, ...

  /** How the invoked method is named: `receiver.name(...)`, or an unqualified `name(...)`. */
  datatype MethodSelect = MemberSelect(receiver: Tree) | ImplicitThis(enclosing: Type)

  datatype Invocation = Invocation(
    symbol: MethodSymbol, select: MethodSelect, arguments: seq<Tree>, resultType: Option<Type>)

  predicate IsExpression(t: Tree) {
    !(t.Block? || t.ExpressionStatement? || t.Return? || t.OtherStatement?)
  }

  /** The static type of an expression (a method call's is its return type); statements have none. */
  function ResultType(t: Tree): (r: Option<Type>)
    ensures !IsExpression(t) ==> r.None?
  {
    match t
    case MethodInvocation(call) => call.resultType
    case NewClass(created, _) => Some(created)
    case Parenthesized(e) => ResultType(e)
    case Identifier(_, ty) => ty
    case Literal(ty) => Some(ty)
    case Binary(_, _, ty) => ty
    case OtherExpression(ty) => ty
    case _ => None
  }

  /** The expression inside any number of parentheses. */
  function StripParentheses(t: Tree): (r: Tree)
    ensures !r.Parenthesized?
    ensures ResultType(r) == ResultType(t)
  {
    if t.Parenthesized? then StripParentheses(t.expression) else t
  }

  lemma {:induction false} StripParenthesesIdempotent(t: Tree)
    ensures StripParentheses(StripParentheses(t)) == StripParentheses(t)
  {
  }

  /** A method's signature, `name(type,type)`: its simple name and its parameter types as written. */
  predicate HasSignature(m: MethodSymbol, name: string, params: seq<string>) {
    m.name == name && m.params == params
  }

  /** The type of the object a method is invoked on; `this`'s class for an unqualified call. */
  function ReceiverType(call: Invocation): Option<Type> {
    match call.select
    case MemberSelect(receiver) => ResultType(receiver)
    case ImplicitThis(enclosing) => Some(enclosing)
  }

  /** The type of an explicit receiver expression; none for an unqualified call. */
  function TargetType(call: Invocation): Option<Type> {
    match call.select
    case MemberSelect(receiver) => ResultType(receiver)
    case ImplicitThis(_) => None
  }

  /**
   * The explicit receiver's type viewed as the class named `superTarget`: none when there is no
   * explicit receiver, when it has no type, when the name does not resolve, or when the class
   * named is not a supertype of the receiver's.
   */
  function TargetTypeAsSuper(env: Env, call: Invocation, superTarget: string): (r: Option<Type>)
    ensures r.Some? ==> call.select.MemberSelect? && superTarget in env.symbols
    ensures r.Some? ==> r.value.Ref? && r.value.id == env.symbols[superTarget]
    ensures superTarget !in env.symbols || call.select.ImplicitThis? ==> r.None?
  {
    match TargetType(call)
    case None => None
    case Some(targetType) =>
      match LookupSymbol(env, superTarget)
      case None => None
      case Some(symbol) => AsSuper(env, targetType, symbol)
  }

  /**
   * The receiver has a view as the class named exactly when the call is qualified, the name
   * resolves, and the receiver expression's type is a class type below that class.
   */
  lemma TargetTypeAsSuperDefinedIff(env: Env, call: Invocation, superTarget: string)
    ensures TargetTypeAsSuper(env, call, superTarget).Some? <==>
      && call.select.MemberSelect?
      && superTarget in env.symbols
      && ResultType(call.select.receiver).Some?
      && ResultType(call.select.receiver).value.Ref?
      && IsSubclass(env, ResultType(call.select.receiver).value.id, env.symbols[superTarget])
  {
    if call.select.MemberSelect? && superTarget in env.symbols {
      var t := ResultType(call.select.receiver);
      if t.Some? && t.value.Ref? {
        AsSuperDefinedIff(env, t.value.id, t.value.args, env.symbols[superTarget]);
      }
    }
  }

  /** The boxed static type of an expression; none when it has no type. */
  function BoxedResult(env: Env, t: Tree): (r: Option<Type>)
    ensures r.Some? <==> ResultType(t).Some?
    ensures ResultType(t).Some? && !ResultType(t).value.Prim? ==> r == ResultType(t)
    ensures ResultType(t).Some? && ResultType(t).value.Prim? && BoxId(env, ResultType(t).value.kind).Some? ==>
      r == Some(Ref(BoxId(env, ResultType(t).value.kind).value, []))
    ensures r.Some? ==> !r.value.Prim? || BoxId(env, r.value.kind).None?
  {
    match ResultType(t)
    case None => None
    case Some(rawType) => Some(BoxedTypeOrType(env, rawType))
  }

  // ---------------------------------------------------------------------------------------
  // Method and type matchers

  /** An instance method invoked on an object whose type is a subtype of the class named. */
  predicate InstanceMethodOnDescendantOf(env: Env, call: Invocation, className: string) {
    && !call.symbol.isStatic
    && className in env.symbols
    && ReceiverType(call).Some?
    && IsSubtype(env, ReceiverType(call).value, Ref(env.symbols[className], []))
  }

  /** A static method declared by exactly the class named. */
  predicate StaticMethodOnClass(env: Env, call: Invocation, className: string) {
    && call.symbol.isStatic
    && className in env.symbols
    && call.symbol.owner == env.symbols[className]
  }

  /** An expression whose type is a subtype of the class named; false when either is unknown. */
  predicate IsSubtypeOf(env: Env, t: Tree, className: string) {
    && className in env.symbols
    && ResultType(t).Some?
    && IsSubtype(env, ResultType(t).value, Ref(env.symbols[className], []))
  }
}
