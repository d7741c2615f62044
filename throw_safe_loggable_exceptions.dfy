/**
 * ThrowSafeLoggableExceptions: `throw new E(...)` of an exception that is not SafeLoggable is
 * reported unless the constructor call passes nothing or only a cause; and a call to one of the
 * common argument validators of Guava, the JDK or Commons Lang is reported with a message
 * pointing at the SafeLoggable replacement.
 */
module ThrowSafeLoggableExceptions {
  import opened Wrappers
  import opened JavaTypes
  import opened JavaTrees

  const SafeLoggableName: string := "com.palantir.logsafe.SafeLoggable"
  const ThrowableName: string := "java.lang.Throwable"
  const GuavaPreconditions: string := "com.google.common.base.Preconditions"
  const JdkObjects: string := "java.util.Objects"
  const CommonsValidate: string := "org.apache.commons.lang3.Validate"

  const ValidatorMessage: string :=
    "This call can be replaced with an equivalent one from com.palantir.logsafe.Preconditions"

  /** `new E()` or `new E(cause)`: a constructor call that carries no message. */
  predicate IsCauseOrDefaultConstructor(env: Env, arguments: seq<Tree>) {
    |arguments| == 0 || (|arguments| == 1 && IsSubtypeOf(env, arguments[0], ThrowableName))
  }

  /**
   * Whether `throw thrown;` is reported: only a new instance is considered, never a rethrown
   * value, and a SafeLoggable one never.
   */
  predicate MatchThrow(env: Env, thrown: Tree) {
    var expression := StripParentheses(thrown);
    && expression.NewClass?
    && !IsSubtypeOf(env, expression, SafeLoggableName)
    && !IsCauseOrDefaultConstructor(env, expression.arguments)
  }

  /** The validators, each a static method of exactly the class named, its name matched in full against an alternation. */
  predicate CommonValidator(env: Env, call: Invocation) {
    || (StaticMethodOnClass(env, call, GuavaPreconditions)
        && call.symbol.name in {"checkArgument", "checkState", "checkNotNull"})
    || (StaticMethodOnClass(env, call, JdkObjects) && call.symbol.name == "requireNonNull")
    || (StaticMethodOnClass(env, call, CommonsValidate)
        && call.symbol.name in {"isTrue", "notNull", "validState"})
  }

  /** The message of the finding for a validator call, if the call is one. */
  function MatchMethodInvocation(env: Env, call: Invocation): Option<string> {
    if CommonValidator(env, call) then Some(ValidatorMessage) else None
  }

  // ---------------------------------------------------------------------------------------
  // Throwing

  /** Parentheses around the thrown expression make no difference. */
  lemma ParenthesesIgnored(env: Env, thrown: Tree)
    ensures MatchThrow(env, Parenthesized(thrown)) == MatchThrow(env, thrown)
  {
  }

  /** Rethrowing a variable, a call's result or anything else that is not `new` is never reported. */
  lemma RethrowNeverFlagged(env: Env, thrown: Tree)
    requires !StripParentheses(thrown).NewClass?
    ensures !MatchThrow(env, thrown)
  {
  }

  /**
   * A new exception that is not SafeLoggable is reported exactly when it is given two or more
   * arguments, or one that is not known to be a Throwable, such as a message.
   */
  lemma NewExceptionFlaggedIff(env: Env, created: Type, arguments: seq<Tree>)
    requires !(SafeLoggableName in env.symbols && IsSubtype(env, created, Ref(env.symbols[SafeLoggableName], [])))
    ensures MatchThrow(env, NewClass(created, arguments)) <==>
      |arguments| >= 2 || (|arguments| == 1 && !IsSubtypeOf(env, arguments[0], ThrowableName))
  {
  }

  /** A SafeLoggable exception is never reported, whatever its arguments. */
  lemma SafeLoggableNeverFlagged(env: Env, thrown: Tree, created: Type, arguments: seq<Tree>)
    requires StripParentheses(thrown) == NewClass(created, arguments)
    requires SafeLoggableName in env.symbols && IsSubtype(env, created, Ref(env.symbols[SafeLoggableName], []))
    ensures !MatchThrow(env, thrown)
  {
  }

  /** Neither `new E()` nor `new E(cause)` is ever reported. */
  lemma CauseOrDefaultNeverFlagged(env: Env, created: Type, cause: Tree)
    requires IsSubtypeOf(env, cause, ThrowableName)
    ensures !MatchThrow(env, NewClass(created, []))
    ensures !MatchThrow(env, NewClass(created, [cause]))
  {
  }

  // ---------------------------------------------------------------------------------------
  // Validators

  /** The seven validator methods, as (class, method) pairs. */
  const ValidatorMethods: set<(string, string)> := {
    (GuavaPreconditions, "checkArgument"), (GuavaPreconditions, "checkState"), (GuavaPreconditions, "checkNotNull"),
    (JdkObjects, "requireNonNull"),
    (CommonsValidate, "isTrue"), (CommonsValidate, "notNull"), (CommonsValidate, "validState")
  }

  /**
   * A call is reported exactly when it is a static call of one of the seven validators, declared
   * by that very class, and every finding carries the same message.
   */
  lemma ValidatorFlaggedIff(env: Env, call: Invocation)
    ensures MatchMethodInvocation(env, call).Some? <==>
      call.symbol.isStatic &&
      exists m :: m in ValidatorMethods && m.0 in env.symbols
        && env.symbols[m.0] == call.symbol.owner && m.1 == call.symbol.name
    ensures MatchMethodInvocation(env, call).Some? ==> MatchMethodInvocation(env, call).value == ValidatorMessage
  {
    var name := call.symbol.name;
    if CommonValidator(env, call) {
      if StaticMethodOnClass(env, call, GuavaPreconditions) && name in {"checkArgument", "checkState", "checkNotNull"} {
        assert (GuavaPreconditions, name) in ValidatorMethods;
      } else if StaticMethodOnClass(env, call, JdkObjects) && name == "requireNonNull" {
        assert (JdkObjects, name) in ValidatorMethods;
      } else {
        assert (CommonsValidate, name) in ValidatorMethods;
      }
    }
  }

  /** An instance method is never reported, whatever its name and class. */
  lemma InstanceCallNeverFlagged(env: Env, call: Invocation)
    requires !call.symbol.isStatic
    ensures MatchMethodInvocation(env, call).None?
  {
  }
}
