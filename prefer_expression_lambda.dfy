/**
 * PreferExpressionLambda: a lambda whose block body is a single `return e;` or a single call
 * statement `f(...);` can be written with an expression body, `e` or `f(...)`. A visitor walks
 * from the only statement of the block through nested single-statement blocks and expression
 * statements, and produces the replacement expression or nothing.
 */
module PreferExpressionLambda {
  import opened Wrappers
  import opened JavaTrees

  datatype BodyKind = ExpressionBody | StatementBody

  datatype Lambda = Lambda(bodyKind: BodyKind, body: Tree)

  /** What the visitor as written produces; `NullPointerThrown` is an exception escaping the check. */
  datatype Visited = Empty | Present(replacement: Tree) | NullPointerThrown

  /**
   * The visitor as written: `return;` has no expression, and wrapping that absent expression
   * in a present optional throws.
   */
  function VisitAsWritten(t: Tree): Visited {
    match t
    case Block(statements) => if |statements| == 1 then VisitAsWritten(statements[0]) else Empty
    case ExpressionStatement(e) => VisitAsWritten(e)
    case MethodInvocation(_) => Present(t)
    case Return(value) => if value.Some? then Present(value.value) else NullPointerThrown
    case _ => Empty
  }

  /** The visitor as intended: as written, except that `return;` offers no replacement. */
  function Visit(t: Tree): Option<Tree> {
    match t
    case Block(statements) => if |statements| == 1 then Visit(statements[0]) else None
    case ExpressionStatement(e) => Visit(e)
    case MethodInvocation(_) => Some(t)
    case Return(value) => value
    case _ => None
  }

  /** The replacement for a lambda's body, if the lambda should be an expression lambda. */
  function MatchLambdaExpression(lam: Lambda): Option<Tree> {
    if lam.bodyKind == ExpressionBody then None
    else if !lam.body.Block? then None
    else if |lam.body.statements| != 1 then None
    else Visit(lam.body.statements[0])
  }

  /** The check as written, with the visitor as written. */
  function MatchLambdaAsWritten(lam: Lambda): Visited {
    if lam.bodyKind == ExpressionBody then Empty
    else if !lam.body.Block? then Empty
    else if |lam.body.statements| != 1 then Empty
    else VisitAsWritten(lam.body.statements[0])
  }

  /** The suggested fix: the whole body replaced by the replacement expression. */
  function ApplyFix(lam: Lambda): Option<Lambda> {
    match MatchLambdaExpression(lam)
    case Some(replacement) => Some(Lambda(ExpressionBody, replacement))
    case None => None
  }

  // ---------------------------------------------------------------------------------------
  // Which nodes the visitor reaches

  /** `n` is `t`, or is reached from `t` through single-statement blocks and expression statements. */
  predicate Reaches(t: Tree, n: Tree) {
    || t == n
    || (t.Block? && |t.statements| == 1 && Reaches(t.statements[0], n))
    || (t.ExpressionStatement? && Reaches(t.expression, n))
  }

  /** Where the walk from `t` stops: the first node that is neither a single-statement block nor an expression statement. */
  function Peel(t: Tree): (r: Tree)
    ensures Reaches(t, r)
    ensures !(r.Block? && |r.statements| == 1) && !r.ExpressionStatement?
  {
    match t
    case Block(statements) => if |statements| == 1 then Peel(statements[0]) else t
    case ExpressionStatement(e) => Peel(e)
    case _ => t
  }

  /** A stopping node reached from `t` is the one the walk stops at. */
  lemma {:induction false} ReachedStopIsPeel(t: Tree, n: Tree)
    requires Reaches(t, n) && !(n.Block? && |n.statements| == 1) && !n.ExpressionStatement?
    ensures n == Peel(t)
  {
    if t != n {
      if t.Block? && |t.statements| == 1 && Reaches(t.statements[0], n) {
        ReachedStopIsPeel(t.statements[0], n);
      } else {
        ReachedStopIsPeel(t.expression, n);
      }
    }
  }

  /** The visitor's verdict is decided by the node the walk stops at. */
  lemma {:induction false} VisitIsVisitOfPeel(t: Tree)
    ensures Visit(t) == Visit(Peel(t))
    ensures VisitAsWritten(t) == VisitAsWritten(Peel(t))
  {
    match t
    case Block(statements) =>
      if |statements| == 1 {
        VisitIsVisitOfPeel(statements[0]);
      }
    case ExpressionStatement(e) => VisitIsVisitOfPeel(e);
    case _ =>
  }

  /**
   * The visitor produces a replacement exactly for a method invocation reached through
   * single-statement blocks and expression statements (the invocation itself), or a reached
   * `return e;` (its expression `e`); every other node gives nothing.
   */
  lemma VisitPresentIff(t: Tree, r: Tree)
    ensures Visit(t) == Some(r) <==>
      (Reaches(t, r) && r.MethodInvocation?) || Reaches(t, Return(Some(r)))
  {
    VisitIsVisitOfPeel(t);
    if Reaches(t, r) && r.MethodInvocation? {
      ReachedStopIsPeel(t, r);
    } else if Reaches(t, Return(Some(r))) {
      ReachedStopIsPeel(t, Return(Some(r)));
    }
  }

  /** Any number of single-statement blocks around a statement change nothing. */
  function WrapInBlocks(t: Tree, depth: nat): Tree {
    if depth == 0 then t else Block([WrapInBlocks(t, depth - 1)])
  }

  lemma {:induction false} NestedBlocksUnwrapped(t: Tree, depth: nat)
    ensures Visit(WrapInBlocks(t, depth)) == Visit(t)
    ensures Peel(WrapInBlocks(t, depth)) == Peel(t)
  {
    if depth > 0 {
      NestedBlocksUnwrapped(t, depth - 1);
    }
  }

  /** A block of any other size than one, however deep, gives nothing. */
  lemma NestedOtherBlockGivesNothing(statements: seq<Tree>, depth: nat)
    requires |statements| != 1
    ensures Visit(WrapInBlocks(Block(statements), depth)).None?
  {
    NestedBlocksUnwrapped(Block(statements), depth);
  }

  // ---------------------------------------------------------------------------------------
  // The as-written visitor against the intended one

  /** The two visitors differ only where the walk stops at `return;`, and there the source throws. */
  lemma VisitAsWrittenAgrees(t: Tree)
    ensures VisitAsWritten(t) == NullPointerThrown <==> Reaches(t, Return(None))
    ensures VisitAsWritten(t) != NullPointerThrown ==>
      (VisitAsWritten(t).Present? <==> Visit(t).Some?) &&
      (Visit(t).Some? ==> VisitAsWritten(t) == Present(Visit(t).value))
  {
    VisitIsVisitOfPeel(t);
    if Reaches(t, Return(None)) {
      ReachedStopIsPeel(t, Return(None));
    }
  }

  /** `() -> { return; }` makes the check as written throw. */
  lemma EmptyReturnThrows()
    ensures MatchLambdaAsWritten(Lambda(StatementBody, Block([Return(None)]))) == NullPointerThrown
    ensures MatchLambdaExpression(Lambda(StatementBody, Block([Return(None)]))).None?
  {
  }

  // ---------------------------------------------------------------------------------------
  // The check

  /** A lambda whose body is already an expression is never reported. */
  lemma ExpressionBodyNeverFlagged(body: Tree)
    ensures MatchLambdaExpression(Lambda(ExpressionBody, body)).None?
    ensures MatchLambdaAsWritten(Lambda(ExpressionBody, body)) == Empty
  {
  }

  /** A block body with no statements, or with more than one, is never reported. */
  lemma OtherBlockSizeNeverFlagged(statements: seq<Tree>)
    requires |statements| != 1
    ensures MatchLambdaExpression(Lambda(StatementBody, Block(statements))).None?
    ensures MatchLambdaAsWritten(Lambda(StatementBody, Block(statements))) == Empty
  {
  }

  /** A single expression statement is reported only when its expression is a method invocation. */
  lemma ExpressionStatementNeedsInvocation(e: Tree)
    requires IsExpression(e)
    ensures MatchLambdaExpression(Lambda(StatementBody, Block([ExpressionStatement(e)])))
         == (if e.MethodInvocation? then Some(e) else None)
  {
    assert Visit(ExpressionStatement(e)) == Visit(e);
  }

  /** A statement tree as the parser builds it: statements in blocks, expressions under expression statements and returns. */
  predicate WellFormedStatement(t: Tree) {
    match t
    case Block(statements) =>
      forall i :: 0 <= i < |statements| ==> !IsExpression(statements[i]) && WellFormedStatement(statements[i])
    case ExpressionStatement(e) => IsExpression(e)
    case Return(value) => value.Some? ==> IsExpression(value.value)
    case _ => !IsExpression(t)
  }

  /** On parsed code the replacement is always an expression. */
  lemma {:induction false} ReplacementIsExpression(t: Tree)
    requires WellFormedStatement(t) && Visit(t).Some?
    ensures IsExpression(Visit(t).value)
  {
    if t.Block? {
      ReplacementIsExpression(t.statements[0]);
    }
  }

  /** After the fix the lambda has an expression body and is not reported again. */
  lemma FixIsFinal(lam: Lambda)
    requires ApplyFix(lam).Some?
    ensures ApplyFix(lam).value.bodyKind == ExpressionBody
    ensures ApplyFix(lam).value.body == MatchLambdaExpression(lam).value
    ensures ApplyFix(ApplyFix(lam).value).None?
  {
  }

  /** A reported lambda is fixed, and the fix always exists for a reported lambda. */
  lemma FixExactlyWhenReported(lam: Lambda)
    ensures ApplyFix(lam).Some? <==> MatchLambdaExpression(lam).Some?
    ensures ApplyFix(lam).Some? ==> lam.bodyKind == StatementBody && lam.body.Block? && |lam.body.statements| == 1
  {
  }

  // ---------------------------------------------------------------------------------------
  // The test cases: `{ return e; }` for a call, a variable and a string concatenation, and
  // `{ call(); }`, each rewritten to its expression

  lemma ReturnBlockBecomesItsExpression(e: Tree)
    ensures ApplyFix(Lambda(StatementBody, Block([Return(Some(e))]))) == Some(Lambda(ExpressionBody, e))
  {
  }

  lemma CallStatementBecomesTheCall(call: Invocation)
    ensures ApplyFix(Lambda(StatementBody, Block([ExpressionStatement(MethodInvocation(call))])))
         == Some(Lambda(ExpressionBody, MethodInvocation(call)))
  {
    assert Visit(ExpressionStatement(MethodInvocation(call))) == Some(MethodInvocation(call));
  }
}
