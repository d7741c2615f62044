/**
 * CustomExceptionsAreLogSafe: a class declaration that is a Throwable but not SafeLoggable is
 * reported, unless all its constructors are generated by the compiler (only the implicit
 * default constructor), in which case there is no data that could be marked safe.
 */
module CustomExceptionsAreLogSafe {
  import opened JavaTypes

  const SafeLoggableName: string := "com.palantir.logsafe.SafeLoggable"
  const ThrowableName: string := "java.lang.Throwable"

  /** A constructor of the declared class; `generated` for the implicit default constructor. */
  datatype Constructor = Constructor(generated: bool)

  /** A class declaration: the class's type and its constructors, explicit or generated. */
  datatype ClassTree = ClassTree(classType: Type, constructors: seq<Constructor>)

  /** The declared class is a subtype of the class named; false when that name does not resolve. */
  predicate DeclaresSubtypeOf(env: Env, tree: ClassTree, className: string) {
    className in env.symbols && IsSubtype(env, tree.classType, Ref(env.symbols[className], []))
  }

  /** Every constructor is generated, checked one after the other; vacuously true of none. */
  predicate AllGenerated(constructors: seq<Constructor>) {
    |constructors| == 0 || (constructors[0].generated && AllGenerated(constructors[1..]))
  }

  predicate MatchClass(env: Env, tree: ClassTree) {
    && DeclaresSubtypeOf(env, tree, ThrowableName)
    && !DeclaresSubtypeOf(env, tree, SafeLoggableName)
    && !AllGenerated(tree.constructors)
  }

  // ---------------------------------------------------------------------------------------

  lemma {:induction false} AllGeneratedIff(constructors: seq<Constructor>)
    ensures AllGenerated(constructors) <==> forall i :: 0 <= i < |constructors| ==> constructors[i].generated
  {
    if |constructors| > 0 {
      AllGeneratedIff(constructors[1..]);
      assert forall i :: 1 <= i < |constructors| ==> constructors[i] == constructors[1..][i - 1];
    }
  }

  /**
   * A class is reported exactly when it is a Throwable, is not SafeLoggable, and declares at
   * least one constructor of its own.
   */
  lemma MatchClassIff(env: Env, tree: ClassTree)
    ensures MatchClass(env, tree) <==>
      && DeclaresSubtypeOf(env, tree, ThrowableName)
      && !DeclaresSubtypeOf(env, tree, SafeLoggableName)
      && exists i :: 0 <= i < |tree.constructors| && !tree.constructors[i].generated
  {
    AllGeneratedIff(tree.constructors);
  }

  /** Only exceptions and errors are considered. */
  lemma NonThrowableNeverFlagged(env: Env, tree: ClassTree)
    requires !DeclaresSubtypeOf(env, tree, ThrowableName)
    ensures !MatchClass(env, tree)
  {
  }

  /** An exception implementing SafeLoggable is never reported. */
  lemma SafeLoggableNeverFlagged(env: Env, tree: ClassTree)
    requires DeclaresSubtypeOf(env, tree, SafeLoggableName)
    ensures !MatchClass(env, tree)
  {
  }

  /** An exception with only generated constructors is never reported, whatever it extends. */
  lemma GeneratedConstructorsNeverFlagged(env: Env, tree: ClassTree)
    requires forall i :: 0 <= i < |tree.constructors| ==> tree.constructors[i].generated
    ensures !MatchClass(env, tree)
  {
    AllGeneratedIff(tree.constructors);
  }

  /** Adding a generated constructor to a declaration does not change the verdict. */
  lemma {:induction false} GeneratedConstructorIrrelevant(env: Env, tree: ClassTree, k: nat)
    requires k <= |tree.constructors|
    ensures MatchClass(env, ClassTree(tree.classType, tree.constructors[..k] + [Constructor(true)] + tree.constructors[k..]))
         == MatchClass(env, tree)
  {
    var original := tree.constructors;
    var cs := original[..k] + [Constructor(true)] + original[k..];
    MatchClassIff(env, tree);
    MatchClassIff(env, ClassTree(tree.classType, cs));
    if exists i :: 0 <= i < |original| && !original[i].generated {
      var i :| 0 <= i < |original| && !original[i].generated;
      var j := if i < k then i else i + 1;
      assert cs[j] == original[i];
    }
    if exists j :: 0 <= j < |cs| && !cs[j].generated {
      var j :| 0 <= j < |cs| && !cs[j].generated;
      assert j != k;
      var i := if j < k then j else j - 1;
      assert original[i] == cs[j];
    }
  }
}
