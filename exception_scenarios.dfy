/**
 * The two exception checkers on a small class table holding the JDK's exception types, the
 * SafeLoggable interface, the three validator classes and the test code's own exceptions.
 */
module ExceptionScenarios {
  import opened Wrappers
  import opened JavaTypes
  import opened JavaTrees
  import Throws = ThrowSafeLoggableExceptions
  import Custom = CustomExceptionsAreLogSafe

  const ThrowableT := Ref(1, [])
  const RuntimeExceptionT := Ref(2, [])
  const StringT := Ref(4, [])
  const TestT := Ref(5, [])
  const SafeTestT := Ref(6, [])

  const Classes: seq<ClassDecl> := [
    ClassDecl(0, [], false, false),                                  // 0 java.lang.Object
    ClassDecl(0, [], false, false),                                  // 1 java.lang.Throwable
    ClassDecl(0, [Supertype(1, [])], false, false),                  // 2 java.lang.RuntimeException
    ClassDecl(0, [], true, false),                                   // 3 com.palantir.logsafe.SafeLoggable
    ClassDecl(0, [], false, true),                                   // 4 java.lang.String
    ClassDecl(0, [Supertype(2, [])], false, true),                   // 5 Test extends RuntimeException
    ClassDecl(0, [Supertype(2, []), Supertype(3, [])], false, true), // 6 Test extends RuntimeException implements SafeLoggable
    ClassDecl(0, [], false, true),                                   // 7 com.google.common.base.Preconditions
    ClassDecl(0, [], false, true),                                   // 8 java.util.Objects
    ClassDecl(0, [], false, false)                                   // 9 org.apache.commons.lang3.Validate
  ]

  const Exceptions := Env(Classes, map[
    "java.lang.Object" := 0, "java.lang.Throwable" := 1, "java.lang.RuntimeException" := 2,
    "com.palantir.logsafe.SafeLoggable" := 3, "java.lang.String" := 4,
    "com.google.common.base.Preconditions" := 7, "java.util.Objects" := 8,
    "org.apache.commons.lang3.Validate" := 9])

  lemma ExceptionsWellFormed()
    ensures WellFormed(Exceptions)
  {
    forall id, s | 0 <= id < |Exceptions.classes| && s in Exceptions.classes[id].supers
      ensures s.id < id && |s.args| == Arity(Exceptions, s.id) && AllParamsBelow(s.args, Exceptions.classes[id].arity)
    {
    }
  }

  lemma Symbols()
    ensures Throws.ThrowableName in Exceptions.symbols && Exceptions.symbols[Throws.ThrowableName] == 1
    ensures Throws.SafeLoggableName in Exceptions.symbols && Exceptions.symbols[Throws.SafeLoggableName] == 3
    ensures Throws.GuavaPreconditions in Exceptions.symbols && Exceptions.symbols[Throws.GuavaPreconditions] == 7
    ensures Throws.JdkObjects in Exceptions.symbols && Exceptions.symbols[Throws.JdkObjects] == 8
    ensures Throws.CommonsValidate in Exceptions.symbols && Exceptions.symbols[Throws.CommonsValidate] == 9
  {
  }

  /** `RuntimeException` and the test's own exception are Throwables; neither, nor `String`, is SafeLoggable. */
  lemma ExceptionTypes()
    ensures IsSubtype(Exceptions, RuntimeExceptionT, ThrowableT) && IsSubtype(Exceptions, TestT, ThrowableT)
    ensures !IsSubtype(Exceptions, RuntimeExceptionT, Ref(3, [])) && !IsSubtype(Exceptions, TestT, Ref(3, []))
    ensures !IsSubtype(Exceptions, StringT, ThrowableT)
    ensures IsSubtype(Exceptions, SafeTestT, Ref(3, []))
  {
    assert Supers(Exceptions, 2) == [Supertype(1, [])];
    assert Supers(Exceptions, 5) == [Supertype(2, [])];
    assert Supers(Exceptions, 6)[1] == Supertype(3, []);
    assert IsSubclass(Exceptions, 2, 1);
  }

  function Cause(): Tree { Identifier("cause", Some(ThrowableT)) }
  function Message(): Tree { Literal(StringT) }

  // ---------------------------------------------------------------------------------------
  // ThrowSafeLoggableExceptions

  /** `throw new RuntimeException();` and `throw new RuntimeException(cause);` pass. */
  lemma NoArgumentsAndCausePass()
    ensures !Throws.MatchThrow(Exceptions, NewClass(RuntimeExceptionT, []))
    ensures !Throws.MatchThrow(Exceptions, NewClass(RuntimeExceptionT, [Cause()]))
  {
    Symbols();
    ExceptionTypes();
    Throws.CauseOrDefaultNeverFlagged(Exceptions, RuntimeExceptionT, Cause());
  }

  /** `throw new RuntimeException("foo");` and `throw new RuntimeException("foo", cause);` are reported, in parentheses or not. */
  lemma MessageFails()
    ensures Throws.MatchThrow(Exceptions, NewClass(RuntimeExceptionT, [Message()]))
    ensures Throws.MatchThrow(Exceptions, NewClass(RuntimeExceptionT, [Message(), Cause()]))
    ensures Throws.MatchThrow(Exceptions, Parenthesized(NewClass(RuntimeExceptionT, [Message()])))
  {
    Symbols();
    ExceptionTypes();
    Throws.NewExceptionFlaggedIff(Exceptions, RuntimeExceptionT, [Message()]);
    Throws.NewExceptionFlaggedIff(Exceptions, RuntimeExceptionT, [Message(), Cause()]);
    Throws.ParenthesesIgnored(Exceptions, NewClass(RuntimeExceptionT, [Message()]));
  }

  /** `Owner.name(...)`, a static call with an argument. */
  function StaticCall(owner: ClassId, name: string): Invocation {
    Invocation(MethodSymbol(owner, name, ["boolean"], true), ImplicitThis(Ref(0, [])), [Literal(Prim(Boolean))], None)
  }

  /** The test's eight validator calls are each reported with the message naming the replacement. */
  lemma ValidatorsFlagged(owner: ClassId, name: string)
    requires || (owner == 7 && name in {"checkArgument", "checkState", "checkNotNull"})
             || (owner == 8 && name == "requireNonNull")
             || (owner == 9 && name in {"isTrue", "validState", "notNull"})
    ensures Throws.MatchMethodInvocation(Exceptions, StaticCall(owner, name)) == Some(Throws.ValidatorMessage)
  {
    Symbols();
  }

  /** A validator of the same name on a class outside the table, or on the wrong class, is not reported. */
  lemma OtherClassesPass(name: string)
    ensures Throws.MatchMethodInvocation(Exceptions, StaticCall(10, name)).None?
    ensures Throws.MatchMethodInvocation(Exceptions, StaticCall(8, "checkArgument")).None?
  {
    Symbols();
  }

  // ---------------------------------------------------------------------------------------
  // CustomExceptionsAreLogSafe

  /** `class Test extends RuntimeException` with a constructor `Test(String message)` is reported. */
  lemma CustomExceptionFlagged()
    ensures Custom.MatchClass(Exceptions, Custom.ClassTree(TestT, [Custom.Constructor(false)]))
  {
    Symbols();
    ExceptionTypes();
    var tree := Custom.ClassTree(TestT, [Custom.Constructor(false)]);
    Custom.MatchClassIff(Exceptions, tree);
    assert !tree.constructors[0].generated;
  }

  /** The same class implementing SafeLoggable passes, and so does one with only the default constructor. */
  lemma SafeOrDefaultPasses(constructors: seq<Custom.Constructor>)
    ensures !Custom.MatchClass(Exceptions, Custom.ClassTree(SafeTestT, constructors))
    ensures !Custom.MatchClass(Exceptions, Custom.ClassTree(TestT, [Custom.Constructor(true)]))
  {
    Symbols();
    ExceptionTypes();
    Custom.SafeLoggableNeverFlagged(Exceptions, Custom.ClassTree(SafeTestT, constructors));
    Custom.GeneratedConstructorsNeverFlagged(Exceptions, Custom.ClassTree(TestT, [Custom.Constructor(true)]));
  }
}
