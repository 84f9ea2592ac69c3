/**
 * The arithmetic expression tree of the interpreter pattern demo: a numeric leaf and
 * four binary operators, with evaluation (`interpret`), leaf substitution (`replace`)
 * and deep copy (`copy`).
 *
 * Numbers are modelled as `real`. Where JavaScript's floating-point division by zero
 * yields Infinity or NaN, evaluation here reports `DivisionByZero` instead.
 */
module Interpreter {

  datatype Expr =
    | Number(value: real)
    | Add(left: Expr, right: Expr)
    | Sub(left: Expr, right: Expr)
    | Mul(left: Expr, right: Expr)
    | Div(left: Expr, right: Expr)

  /** The result of interpreting a tree. */
  datatype Outcome = Value(v: real) | DivisionByZero

  /** `interpret`: the left operand is evaluated before the right one, then the node's operator is applied. */
  function Interpret(e: Expr): Outcome
  {
    match e
    case Number(v) => Value(v)
    case Add(l, r) => Apply(e, Interpret(l), Interpret(r))
    case Sub(l, r) => Apply(e, Interpret(l), Interpret(r))
    case Mul(l, r) => Apply(e, Interpret(l), Interpret(r))
    case Div(l, r) => Apply(e, Interpret(l), Interpret(r))
  }

  /** Applies the operator of the binary node `op` to the outcomes of its two operands. */
  function Apply(op: Expr, a: Outcome, b: Outcome): (r: Outcome)
    requires !op.Number?
    ensures (a.DivisionByZero? || b.DivisionByZero?) ==> r == DivisionByZero
    ensures r.DivisionByZero? && a.Value? && b.Value? ==> op.Div? && b.v == 0.0
  {
    if a.DivisionByZero? || b.DivisionByZero? then DivisionByZero
    else
      match op
      case Add(_, _) => Value(a.v + b.v)
      case Sub(_, _) => Value(a.v - b.v)
      case Mul(_, _) => Value(a.v * b.v)
      case Div(_, _) => if b.v == 0.0 then DivisionByZero else Value(a.v / b.v)
  }

  /** `copy`: rebuilds every node from the leaves up. */
  function Copy(e: Expr): Expr
  {
    match e
    case Number(v) => Number(v)
    case Add(l, r) => Add(Copy(l), Copy(r))
    case Sub(l, r) => Sub(Copy(l), Copy(r))
    case Mul(l, r) => Mul(Copy(l), Copy(r))
    case Div(l, r) => Div(Copy(l), Copy(r))
  }

  /**
   * `replace(n, x)`: every leaf holding `n` becomes a copy of `x`, every other leaf a copy
   * of itself, and every interior node is rebuilt with the same operator.
   */
  function Replace(e: Expr, n: real, x: Expr): Expr
  {
    match e
    case Number(v) => if v == n then Copy(x) else Copy(e)
    case Add(l, r) => Add(Replace(l, n, x), Replace(r, n, x))
    case Sub(l, r) => Sub(Replace(l, n, x), Replace(r, n, x))
    case Mul(l, r) => Mul(Replace(l, n, x), Replace(r, n, x))
    case Div(l, r) => Div(Replace(l, n, x), Replace(r, n, x))
  }

  /** The leaf values of a tree, left to right. */
  function Leaves(e: Expr): seq<real>
  {
    match e
    case Number(v) => [v]
    case Add(l, r) => Leaves(l) + Leaves(r)
    case Sub(l, r) => Leaves(l) + Leaves(r)
    case Mul(l, r) => Leaves(l) + Leaves(r)
    case Div(l, r) => Leaves(l) + Leaves(r)
  }

  /** Does some leaf of `e` hold `n`? */
  predicate Occurs(e: Expr, n: real)
  {
    n in Leaves(e)
  }

  /** Does `e` contain a division node? */
  predicate HasDivision(e: Expr)
  {
    match e
    case Number(_) => false
    case Add(l, r) => HasDivision(l) || HasDivision(r)
    case Sub(l, r) => HasDivision(l) || HasDivision(r)
    case Mul(l, r) => HasDivision(l) || HasDivision(r)
    case Div(_, _) => true
  }

  /** Splices `xs` into `s` in place of every element equal to `n`. */
  function SpliceAt(s: seq<real>, n: real, xs: seq<real>): seq<real>
  {
    if s == [] then []
    else (if s[0] == n then xs else [s[0]]) + SpliceAt(s[1..], n, xs)
  }

  lemma {:induction false} SpliceAtAppend(a: seq<real>, b: seq<real>, n: real, xs: seq<real>)
    ensures SpliceAt(a + b, n, xs) == SpliceAt(a, n, xs) + SpliceAt(b, n, xs)
  {
    if a != [] {
      assert (a + b)[1..] == a[1..] + b;
      SpliceAtAppend(a[1..], b, n, xs);
    } else {
      assert a + b == b;
    }
  }

  // ---------------------------------------------------------------------------
  // interpret

  /** A leaf evaluates to the number it stores. */
  lemma InterpretNumber(v: real)
    ensures Interpret(Number(v)) == Value(v)
  {
  }

  /**
   * A binary node evaluates its left operand, then its right operand, and combines the two
   * values with its own operator; division by a zero value is the only failure.
   */
  lemma InterpretBinary(e: Expr)
    requires !e.Number?
    requires Interpret(e.left).Value? && Interpret(e.right).Value?
    ensures var a, b := Interpret(e.left).v, Interpret(e.right).v;
      match e
      case Add(_, _) => Interpret(e) == Value(a + b)
      case Sub(_, _) => Interpret(e) == Value(a - b)
      case Mul(_, _) => Interpret(e) == Value(a * b)
      case Div(_, _) => Interpret(e) == if b == 0.0 then DivisionByZero else Value(a / b)
  {
  }

  /** A tree without division nodes always evaluates to a value. */
  lemma {:induction false} NoDivisionNeverFails(e: Expr)
    requires !HasDivision(e)
    ensures Interpret(e).Value?
  {
    match e
    case Number(_) =>
    case Add(l, r) => NoDivisionNeverFails(l); NoDivisionNeverFails(r);
    case Sub(l, r) => NoDivisionNeverFails(l); NoDivisionNeverFails(r);
    case Mul(l, r) => NoDivisionNeverFails(l); NoDivisionNeverFails(r);
  }

  /** Evaluation fails only at a division node whose divisor is zero: a failed tree has a division. */
  lemma {:induction false} FailureNeedsDivision(e: Expr)
    requires Interpret(e).DivisionByZero?
    ensures HasDivision(e)
  {
    if !HasDivision(e) {
      NoDivisionNeverFails(e);
    }
  }

  // ---------------------------------------------------------------------------
  // copy

  /** A copy has the same shape, operators and leaf values as the original. */
  lemma {:induction false} CopyIsSameTree(e: Expr)
    ensures Copy(e) == e
  {
    match e
    case Number(_) =>
    case Add(l, r) => CopyIsSameTree(l); CopyIsSameTree(r);
    case Sub(l, r) => CopyIsSameTree(l); CopyIsSameTree(r);
    case Mul(l, r) => CopyIsSameTree(l); CopyIsSameTree(r);
    case Div(l, r) => CopyIsSameTree(l); CopyIsSameTree(r);
  }

  /** A copy evaluates to the same outcome as the original. */
  lemma CopyPreservesInterpret(e: Expr)
    ensures Interpret(Copy(e)) == Interpret(e)
  {
    CopyIsSameTree(e);
  }

  // ---------------------------------------------------------------------------
  // replace

  /**
   * The leaves of `Replace(e, n, x)` are those of `e`, left to right, with the leaves of `x`
   * spliced in wherever `e` had a leaf holding `n`; all other leaves are kept.
   */
  lemma {:induction false} ReplaceLeaves(e: Expr, n: real, x: Expr)
    ensures Leaves(Replace(e, n, x)) == SpliceAt(Leaves(e), n, Leaves(x))
  {
    match e
    case Number(v) =>
      CopyIsSameTree(x);
      CopyIsSameTree(e);
      assert Leaves(e)[1..] == [];
    case Add(l, r) => ReplaceLeaves(l, n, x); ReplaceLeaves(r, n, x); SpliceAtAppend(Leaves(l), Leaves(r), n, Leaves(x));
    case Sub(l, r) => ReplaceLeaves(l, n, x); ReplaceLeaves(r, n, x); SpliceAtAppend(Leaves(l), Leaves(r), n, Leaves(x));
    case Mul(l, r) => ReplaceLeaves(l, n, x); ReplaceLeaves(r, n, x); SpliceAtAppend(Leaves(l), Leaves(r), n, Leaves(x));
    case Div(l, r) => ReplaceLeaves(l, n, x); ReplaceLeaves(r, n, x); SpliceAtAppend(Leaves(l), Leaves(r), n, Leaves(x));
  }

  /** Interior nodes keep their operator, and both children are replaced recursively. */
  lemma ReplaceKeepsOperator(e: Expr, n: real, x: Expr)
    requires !e.Number?
    ensures var t := Replace(e, n, x);
      && t.left == Replace(e.left, n, x) && t.right == Replace(e.right, n, x)
      && (t.Add? <==> e.Add?) && (t.Sub? <==> e.Sub?) && (t.Mul? <==> e.Mul?) && (t.Div? <==> e.Div?)
  {
  }

  /** If no leaf holds `n`, replacing `n` gives back the same tree. */
  lemma {:induction false} ReplaceAbsentIsIdentity(e: Expr, n: real, x: Expr)
    requires !Occurs(e, n)
    ensures Replace(e, n, x) == e
  {
    match e
    case Number(_) => CopyIsSameTree(e);
    case Add(l, r) => ReplaceAbsentIsIdentity(l, n, x); ReplaceAbsentIsIdentity(r, n, x);
    case Sub(l, r) => ReplaceAbsentIsIdentity(l, n, x); ReplaceAbsentIsIdentity(r, n, x);
    case Mul(l, r) => ReplaceAbsentIsIdentity(l, n, x); ReplaceAbsentIsIdentity(r, n, x);
    case Div(l, r) => ReplaceAbsentIsIdentity(l, n, x); ReplaceAbsentIsIdentity(r, n, x);
  }

  /** Replacing `n` by a leaf holding `n` gives back the same tree. */
  lemma {:induction false} ReplaceBySameLeaf(e: Expr, n: real)
    ensures Replace(e, n, Number(n)) == e
  {
    match e
    case Number(_) =>
    case Add(l, r) => ReplaceBySameLeaf(l, n); ReplaceBySameLeaf(r, n);
    case Sub(l, r) => ReplaceBySameLeaf(l, n); ReplaceBySameLeaf(r, n);
    case Mul(l, r) => ReplaceBySameLeaf(l, n); ReplaceBySameLeaf(r, n);
    case Div(l, r) => ReplaceBySameLeaf(l, n); ReplaceBySameLeaf(r, n);
  }

  /** If `x` has no leaf holding `n`, neither has `Replace(e, n, x)`. */
  lemma {:induction false} ReplaceRemovesTarget(e: Expr, n: real, x: Expr)
    requires !Occurs(x, n)
    ensures !Occurs(Replace(e, n, x), n)
  {
    match e
    case Number(v) => CopyIsSameTree(x); CopyIsSameTree(e);
    case Add(l, r) => ReplaceRemovesTarget(l, n, x); ReplaceRemovesTarget(r, n, x);
    case Sub(l, r) => ReplaceRemovesTarget(l, n, x); ReplaceRemovesTarget(r, n, x);
    case Mul(l, r) => ReplaceRemovesTarget(l, n, x); ReplaceRemovesTarget(r, n, x);
    case Div(l, r) => ReplaceRemovesTarget(l, n, x); ReplaceRemovesTarget(r, n, x);
  }

  /** If `x` has no leaf holding `n`, replacing twice is the same as replacing once. */
  lemma ReplaceIdempotent(e: Expr, n: real, x: Expr)
    requires !Occurs(x, n)
    ensures Replace(Replace(e, n, x), n, x) == Replace(e, n, x)
  {
    ReplaceRemovesTarget(e, n, x);
    ReplaceAbsentIsIdentity(Replace(e, n, x), n, x);
  }

  /**
   * Substitution respects evaluation: substituting a subtree gives the same outcome as
   * substituting a leaf holding that subtree's value.
   */
  lemma {:induction false} ReplaceByValue(e: Expr, n: real, x: Expr, m: real)
    requires Interpret(x) == Value(m)
    ensures Interpret(Replace(e, n, x)) == Interpret(Replace(e, n, Number(m)))
  {
    match e
    case Number(v) => CopyIsSameTree(x); CopyIsSameTree(e);
    case Add(l, r) => ReplaceByValue(l, n, x, m); ReplaceByValue(r, n, x, m);
    case Sub(l, r) => ReplaceByValue(l, n, x, m); ReplaceByValue(r, n, x, m);
    case Mul(l, r) => ReplaceByValue(l, n, x, m); ReplaceByValue(r, n, x, m);
    case Div(l, r) => ReplaceByValue(l, n, x, m); ReplaceByValue(r, n, x, m);
  }

  // ---------------------------------------------------------------------------
  // usage

  /** The demo tree 25 / (5 * (16 + -8 / 4)) - 8. */
  function UsageTree(): Expr
  {
    Sub(Div(Number(25.0), Mul(Number(5.0), Add(Number(16.0), Div(Number(-8.0), Number(4.0))))), Number(8.0))
  }

  /** The demo tree evaluates to 25/70 - 8. */
  lemma UsageValue()
    ensures Interpret(UsageTree()) == Value(25.0 / 70.0 - 8.0)
  {
    var quarter := Div(Number(-8.0), Number(4.0));
    assert Interpret(quarter) == Value(-2.0);
    assert Interpret(Add(Number(16.0), quarter)) == Value(14.0);
    assert Interpret(Mul(Number(5.0), Add(Number(16.0), quarter))) == Value(70.0);
  }

  /** `replace(16, Number(30))` turns the demo's `16` leaf into `30` and keeps everything else. */
  lemma UsageReplaced()
    ensures Replace(UsageTree(), 16.0, Number(30.0))
         == Sub(Div(Number(25.0), Mul(Number(5.0), Add(Number(30.0), Div(Number(-8.0), Number(4.0))))), Number(8.0))
  {
    var quarter := Div(Number(-8.0), Number(4.0));
    assert Replace(quarter, 16.0, Number(30.0)) == quarter;
    assert Replace(Number(16.0), 16.0, Number(30.0)) == Number(30.0);
    assert Replace(Add(Number(16.0), quarter), 16.0, Number(30.0)) == Add(Number(30.0), quarter);
  }

  /** After `replace(16, Number(30))` the demo tree evaluates to 25/140 - 8. */
  lemma UsageReplacedValue()
    ensures Interpret(Replace(UsageTree(), 16.0, Number(30.0))) == Value(25.0 / 140.0 - 8.0)
  {
    UsageReplaced();
    var quarter := Div(Number(-8.0), Number(4.0));
    assert Interpret(quarter) == Value(-2.0);
    assert Interpret(Add(Number(30.0), quarter)) == Value(28.0);
    assert Interpret(Mul(Number(5.0), Add(Number(30.0), quarter))) == Value(140.0);
  }
}
