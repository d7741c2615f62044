/**
 * The collection checkers on a small class table: the JDK types the test cases use, the
 * test code's own `CustomMap extends Map<Integer, String>` and `Custom extends List<CharSequence>`,
 * and a pair `B<T>`, `A<X> extends B<List<X>>` for substitution through a supertype.
 */
module CollectionScenarios {
  import opened Wrappers
  import opened JavaTypes
  import opened Supertypes
  import opened JavaTrees
  import UnexpectedType
  import CollectionCheckers
  import Strict = StrictCollectionIncompatibleType

  const ObjectT := Ref(ObjectId, [])
  const CharSequenceT := Ref(1, [])
  const StringT := Ref(2, [])
  const NumberT := Ref(3, [])
  const IntegerT := Ref(4, [])

  function CollectionOf(e: Type): Type { Ref(5, [e]) }
  function ListOf(e: Type): Type { Ref(6, [e]) }
  function MapOf(k: Type, v: Type): Type { Ref(7, [k, v]) }

  const CustomMapT := Ref(8, [])
  const CustomT := Ref(9, [])
  const RawMapT := Ref(7, [])

  const Classes: seq<ClassDecl> := [
    ClassDecl(0, [], false, false),                                   // 0 java.lang.Object
    ClassDecl(0, [], true, false),                                    // 1 java.lang.CharSequence
    ClassDecl(0, [Supertype(1, [])], false, true),                    // 2 java.lang.String
    ClassDecl(0, [], false, false),                                   // 3 java.lang.Number
    ClassDecl(0, [Supertype(3, [])], false, true),                    // 4 java.lang.Integer
    ClassDecl(1, [], true, false),                                    // 5 java.util.Collection<E>
    ClassDecl(1, [Supertype(5, [Param(0)])], true, false),            // 6 java.util.List<E> extends Collection<E>
    ClassDecl(2, [], true, false),                                    // 7 java.util.Map<K, V>
    ClassDecl(0, [Supertype(7, [IntegerT, StringT])], true, false),   // 8 CustomMap extends Map<Integer, String>
    ClassDecl(0, [Supertype(6, [CharSequenceT])], true, false),       // 9 Custom extends List<CharSequence>
    ClassDecl(1, [], false, false),                                   // 10 B<T>
    ClassDecl(1, [Supertype(10, [ListOf(Param(0))])], false, false)   // 11 A<X> extends B<List<X>>
  ]

  const Jdk := Env(Classes, map[
    "java.lang.Object" := 0, "java.lang.CharSequence" := 1, "java.lang.String" := 2,
    "java.lang.Number" := 3, "java.lang.Integer" := 4, "java.util.Collection" := 5,
    "java.util.List" := 6, "java.util.Map" := 7])

  /** Each declared supertype has a smaller id, the right number of arguments, and only the declaring class's parameters. */
  lemma ClassWellFormed(id: nat, s: Supertype)
    requires id < |Classes| && s in Classes[id].supers
    ensures s.id < id && |s.args| == Arity(Jdk, s.id) && AllParamsBelow(s.args, Classes[id].arity)
  {
    if id == 6 || id == 11 {
      assert s == Classes[id].supers[0];
    }
  }

  lemma JdkWellFormed()
    ensures WellFormed(Jdk)
  {
    forall id, s | 0 <= id < |Jdk.classes| && s in Jdk.classes[id].supers
      ensures s.id < id && |s.args| == Arity(Jdk, s.id) && AllParamsBelow(s.args, Jdk.classes[id].arity)
    {
      ClassWellFormed(id, s);
    }
  }

  /** `A<String>` seen as a `B` is `B<List<String>>`, the declared `B<List<X>>` with `X := String`. */
  lemma AsSuperSubstitutes()
    ensures AsSuper(Jdk, Ref(11, [StringT]), 10) == Some(Ref(10, [ListOf(StringT)]))
  {
    var s := Supertype(10, [ListOf(Param(0))]);
    assert Supers(Jdk, 11) == [s];
    assert Subst(ListOf(Param(0)), [StringT]).args == [StringT];
    assert SuperArgs(Jdk, 11, [StringT], s) == [ListOf(StringT)];
  }

  // The views of the test code's receivers as `Map` and `Collection`

  lemma CustomMapView()
    ensures AsSuper(Jdk, CustomMapT, 7) == Some(MapOf(IntegerT, StringT)) && IsSubclass(Jdk, 8, 7)
  {
    var s := Supertype(7, [IntegerT, StringT]);
    assert Supers(Jdk, 8) == [s];
    SubstAllClosed(s.args, []);
    assert SuperArgs(Jdk, 8, [], s) == s.args;
    AsSuperDefinedIff(Jdk, 8, [], 7);
  }

  lemma ListView(e: Type)
    ensures AsSuper(Jdk, ListOf(e), 5) == Some(CollectionOf(e)) && IsSubclass(Jdk, 6, 5)
  {
    var s := Supertype(5, [Param(0)]);
    assert Supers(Jdk, 6) == [s];
    assert SuperArgs(Jdk, 6, [e], s) == [e];
    AsSuperDefinedIff(Jdk, 6, [e], 5);
  }

  lemma CustomView()
    ensures AsSuper(Jdk, CustomT, 5) == Some(CollectionOf(CharSequenceT)) && IsSubclass(Jdk, 9, 5)
  {
    var s := Supertype(6, [CharSequenceT]);
    assert Supers(Jdk, 9) == [s];
    SubstAllClosed(s.args, []);
    assert SuperArgs(Jdk, 9, [], s) == s.args;
    ListView(CharSequenceT);
    AsSuperDefinedIff(Jdk, 9, [], 5);
  }

  // Facts about the table the test cases rely on

  lemma JdkSymbols()
    ensures Jdk.symbols["java.util.Map"] == 7 && Jdk.symbols["java.util.Collection"] == 5
    ensures "java.util.Map" in Jdk.symbols && "java.util.Collection" in Jdk.symbols
    ensures "java.lang.Integer" in Jdk.symbols && Jdk.symbols["java.lang.Integer"] == 4
  {
  }

  /** `String` and `Integer` are unrelated final classes, and `Integer` does not implement `CharSequence`. */
  lemma UnrelatedTypes()
    ensures !IsCastable(Jdk, StringT, IntegerT)
    ensures !IsCastable(Jdk, IntegerT, CharSequenceT)
  {
    assert Supers(Jdk, 2) == [Supertype(1, [])];
    assert Supers(Jdk, 4) == [Supertype(3, [])];
    assert !IsSubclass(Jdk, 1, 4) && !IsSubclass(Jdk, 3, 1);
  }

  /** `receiver.name(argument)` for a method `name(java.lang.Object)` declared by `owner`. */
  function Call(owner: ClassId, name: string, receiver: Type, argument: Tree): Invocation {
    Invocation(MethodSymbol(owner, name, ["java.lang.Object"], false),
      MemberSelect(Identifier("in", Some(receiver))), [argument], Some(Prim(Boolean)))
  }

  function Variable(t: Type): Tree { Identifier("key", Some(t)) }

  // ---------------------------------------------------------------------------------------
  // UnexpectedType

  /** `in.get(argument)` or `in.containsKey(argument)` on a `Map` with the given view reaches the map branch with that view. */
  lemma MapCall(name: string, receiver: Type, view: Type, argument: Tree)
    requires name == "get" || name == "containsKey"
    requires receiver.Ref? && IsSubclass(Jdk, receiver.id, 7)
    requires AsSuper(Jdk, receiver, 7) == Some(view)
    ensures UnexpectedType.MapMatcher(Jdk, Call(7, name, receiver, argument))
    ensures TargetTypeAsSuper(Jdk, Call(7, name, receiver, argument), UnexpectedType.MapName) == Some(view)
  {
    JdkSymbols();
  }

  /** `map.get(key)` and `map.containsKey(key)` with a `String` key on `Map<Integer, String>`. */
  lemma WrongMapKeyFlagged(name: string)
    requires name == "get" || name == "containsKey"
    ensures UnexpectedType.MatchMethodInvocation(Jdk, Call(7, name, MapOf(IntegerT, StringT), Variable(StringT)))
         == UnexpectedType.Finding
  {
    var call := Call(7, name, MapOf(IntegerT, StringT), Variable(StringT));
    JdkSymbols();
    UnrelatedTypes();
    assert UnexpectedType.MapMatcher(Jdk, call);
    assert TargetTypeAsSuper(Jdk, call, UnexpectedType.MapName) == Some(MapOf(IntegerT, StringT));
    UnexpectedType.MapFindingIffNotCastable(Jdk, call, MapOf(IntegerT, StringT), StringT);
  }

  /** The same on `CustomMap`, whose key type `Integer` is found through its supertype. */
  lemma WrongCustomMapKeyFlagged(name: string)
    requires name == "get" || name == "containsKey"
    ensures UnexpectedType.MatchMethodInvocation(Jdk, Call(7, name, CustomMapT, Variable(StringT)))
         == UnexpectedType.Finding
  {
    var call := Call(7, name, CustomMapT, Variable(StringT));
    CustomMapView();
    MapCall(name, CustomMapT, MapOf(IntegerT, StringT), Variable(StringT));
    UnrelatedTypes();
    UnexpectedType.MapFindingIffNotCastable(Jdk, call, MapOf(IntegerT, StringT), StringT);
  }

  /** None of the test's collection receivers is a `Map`. */
  lemma NotMaps()
    ensures !IsSubclass(Jdk, 5, 7) && !IsSubclass(Jdk, 6, 7) && !IsSubclass(Jdk, 9, 7)
  {
    assert Supers(Jdk, 5) == [];
    assert Supers(Jdk, 6) == [Supertype(5, [Param(0)])];
    assert Supers(Jdk, 9) == [Supertype(6, [CharSequenceT])];
  }

  /** `in.contains(argument)` on a receiver that is no `Map` is not taken by the map branch. */
  lemma ContainsNotMapCall(receiver: Type, argument: Tree)
    requires receiver.Ref? && !IsSubclass(Jdk, receiver.id, 7)
    ensures !UnexpectedType.MapMatcher(Jdk, Call(5, "contains", receiver, argument))
  {
    JdkSymbols();
  }

  /** `in.contains(argument)` on a `Collection` with the given view reaches the collection branch with that view. */
  lemma ContainsCollectionCall(receiver: Type, view: Type, argument: Tree)
    requires receiver.Ref? && IsSubclass(Jdk, receiver.id, 5)
    requires AsSuper(Jdk, receiver, 5) == Some(view)
    ensures UnexpectedType.CollectionMatcher(Jdk, Call(5, "contains", receiver, argument))
    ensures TargetTypeAsSuper(Jdk, Call(5, "contains", receiver, argument), UnexpectedType.CollectionName) == Some(view)
  {
    JdkSymbols();
    assert UnexpectedType.ObjectMethod(Jdk, Call(5, "contains", receiver, argument), UnexpectedType.CollectionName, "contains");
  }

  /** `in.contains(key)` with a `String` on `Collection<Integer>`. */
  lemma WrongCollectionElementFlagged()
    ensures UnexpectedType.MatchMethodInvocation(Jdk, Call(5, "contains", CollectionOf(IntegerT), Variable(StringT)))
         == UnexpectedType.Finding
  {
    var call := Call(5, "contains", CollectionOf(IntegerT), Variable(StringT));
    NotMaps();
    assert AsSuper(Jdk, CollectionOf(IntegerT), 5) == Some(CollectionOf(IntegerT));
    ContainsNotMapCall(CollectionOf(IntegerT), Variable(StringT));
    ContainsCollectionCall(CollectionOf(IntegerT), CollectionOf(IntegerT), Variable(StringT));
    UnrelatedTypes();
    UnexpectedType.CollectionFindingIffNotCastable(Jdk, call, CollectionOf(IntegerT), StringT);
  }

  /** The same on `List<Integer>`, viewed as `Collection<Integer>`. */
  lemma WrongListElementFlagged()
    ensures UnexpectedType.MatchMethodInvocation(Jdk, Call(5, "contains", ListOf(IntegerT), Variable(StringT)))
         == UnexpectedType.Finding
  {
    var call := Call(5, "contains", ListOf(IntegerT), Variable(StringT));
    NotMaps();
    ListView(IntegerT);
    ContainsNotMapCall(ListOf(IntegerT), Variable(StringT));
    ContainsCollectionCall(ListOf(IntegerT), CollectionOf(IntegerT), Variable(StringT));
    UnrelatedTypes();
    UnexpectedType.CollectionFindingIffNotCastable(Jdk, call, CollectionOf(IntegerT), StringT);
  }

  /** An `Integer` on `Custom extends List<CharSequence>`: `Integer` is final and no `CharSequence`. */
  lemma WrongCustomElementFlagged()
    ensures UnexpectedType.MatchMethodInvocation(Jdk, Call(5, "contains", CustomT, Variable(IntegerT)))
         == UnexpectedType.Finding
  {
    var call := Call(5, "contains", CustomT, Variable(IntegerT));
    NotMaps();
    CustomView();
    ContainsNotMapCall(CustomT, Variable(IntegerT));
    ContainsCollectionCall(CustomT, CollectionOf(CharSequenceT), Variable(IntegerT));
    UnrelatedTypes();
    UnexpectedType.CollectionFindingIffNotCastable(Jdk, call, CollectionOf(CharSequenceT), IntegerT);
  }

  /** `in.contains(null)` and `in.contains(3)` on `Collection<Integer>` are legal and not reported. */
  lemma NullAndBoxedElementAllowed()
    ensures UnexpectedType.MatchMethodInvocation(Jdk, Call(5, "contains", CollectionOf(IntegerT), Literal(NullType)))
         == UnexpectedType.NoMatch
    ensures UnexpectedType.MatchMethodInvocation(Jdk, Call(5, "contains", CollectionOf(IntegerT), Literal(Prim(Int))))
         == UnexpectedType.NoMatch
  {
  }

  /** An `Object` key on `Map<String, String>`, and any key on a raw `Map`, is not reported. */
  lemma AmbiguousKeyAllowed()
    ensures UnexpectedType.MatchMethodInvocation(Jdk, Call(7, "get", MapOf(StringT, StringT), Variable(ObjectT)))
         == UnexpectedType.NoMatch
    ensures UnexpectedType.MatchMethodInvocation(Jdk, Call(7, "get", RawMapT, Variable(StringT)))
         == UnexpectedType.NoMatch
  {
  }

  // ---------------------------------------------------------------------------------------
  // StrictCollectionIncompatibleType

  /** The stricter check reports the same wrong key on `CustomMap`. */
  lemma StrictWrongMapKey()
    ensures Strict.MatchMethodInvocation(Jdk, Call(7, "get", CustomMapT, Variable(StringT)))
  {
    var call := Call(7, "get", CustomMapT, Variable(StringT));
    WrongCustomMapKeyFlagged("get");
    CollectionCheckers.FindingsAreStrictFindings(Jdk, call);
  }

  /** Nor is a raw `Map` reported by the stricter check, whatever the key. */
  lemma StrictRawMapSilent(key: Tree)
    ensures !Strict.MatchMethodInvocation(Jdk, Call(7, "get", RawMapT, key))
  {
    var call := Call(7, "get", RawMapT, key);
    assert Supers(Jdk, 7) == [];
    assert GenericAncestry(Jdk, 7);
    Strict.AnyEntryMatchesIff(Jdk, Strict.Catalog, call);
    forall i | 0 <= i < |Strict.Catalog| ensures !Strict.EntryMatches(Jdk, Strict.Catalog[i], call) {
      Strict.RawReceiverNeverMatches(Jdk, Strict.Catalog[i], call, 7);
    }
  }

  /**
   * A `Number` passed to `contains` of a `Collection<CharSequence>` may be cast (a subclass of
   * `Number` could implement `CharSequence`), so only the stricter check reports it.
   */
  lemma OnlyStrictReportsInterfaceMismatch()
    ensures UnexpectedType.MatchMethodInvocation(Jdk, Call(5, "contains", CollectionOf(CharSequenceT), Variable(NumberT)))
         == UnexpectedType.NoMatch
    ensures Strict.MatchMethodInvocation(Jdk, Call(5, "contains", CollectionOf(CharSequenceT), Variable(NumberT)))
  {
    var call := Call(5, "contains", CollectionOf(CharSequenceT), Variable(NumberT));
    assert Strict.EntryMatches(Jdk, Strict.Catalog[0], call);
    Strict.CatalogEntryReports(Jdk, call, 0);
  }
}
