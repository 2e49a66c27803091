/**
 * The parse-tree nodes the validators inspect: function calls, constants
 * and column references, with the planner helpers exprType,
 * contain_volatile_functions and GetConstArg.
 */
module Nodes {
  import opened Wrappers

  /** A PostgreSQL type, identified by its pg_type name ("text", "int4", ...). */
  type TypeName = string

  const UnknownType: TypeName := "unknown"
  const TextType: TypeName := "text"
  const VarcharType: TypeName := "varchar"
  const BpcharType: TypeName := "bpchar"
  /** The single-byte internal type "char". */
  const CharType: TypeName := "char"
  const Int2Type: TypeName := "int2"
  const Int4Type: TypeName := "int4"
  const Int8Type: TypeName := "int8"
  const Float4Type: TypeName := "float4"
  const Float8Type: TypeName := "float8"
  const NumericType: TypeName := "numeric"
  const UuidType: TypeName := "uuid"
  const BoolType: TypeName := "bool"

  newtype int32 = x: int | -0x8000_0000 <= x < 0x8000_0000

  /** How a function call was written: as a call, as an explicit or implicit cast, or as SQL syntax. */
  datatype CoercionForm = CoerceExplicitCall | CoerceExplicitCast | CoerceImplicitCast | CoerceSqlSyntax

  /** The payload of a constant, read according to its type. */
  datatype Datum = TextDatum(text: string) | Int32Datum(int32: int32) | OtherDatum

  /**
   * An expression node. A FuncExpr records whether the function it calls
   * is volatile.
   */
  datatype Expr =
    | FuncExpr(funcname: string, funcresulttype: TypeName, args: seq<Expr>,
               funcformat: CoercionForm, volatile: bool)
    | Const(consttype: TypeName, constisnull: bool, constvalue: Datum)
    | Var(vartype: TypeName)

  /** exprType: the result type of an expression. */
  function ExprType(e: Expr): (t: TypeName)
    ensures e.FuncExpr? ==> t == e.funcresulttype
    ensures e.Const? ==> t == e.consttype
    ensures e.Var? ==> t == e.vartype
  {
    match e
    case FuncExpr(_, t, _, _, _) => t
    case Const(t, _, _) => t
    case Var(t) => t
  }

  /** contain_volatile_functions: some call in the tree calls a volatile function. */
  predicate ContainVolatileFunctions(e: Expr): (r: bool)
    ensures IsVolatileCall(e) ==> r
    ensures !e.FuncExpr? ==> !r
  {
    match e
    case FuncExpr(_, _, args, _, volatile) =>
      volatile || exists i :: 0 <= i < |args| && ContainVolatileFunctions(args[i])
    case _ => false
  }

  /** Every node of the tree, the root first. */
  function SubExprs(e: Expr): (r: seq<Expr>)
    ensures |r| > 0 && r[0] == e
  {
    match e
    case FuncExpr(_, _, args, _, _) => [e] + SubExprsOfList(args)
    case _ => [e]
  }

  function SubExprsOfList(es: seq<Expr>): seq<Expr> {
    if |es| == 0 then [] else SubExprs(es[0]) + SubExprsOfList(es[1..])
  }

  predicate IsVolatileCall(e: Expr) {
    e.FuncExpr? && e.volatile
  }

  /** The traversal finds a volatile call exactly when one of the tree's nodes is one. */
  lemma {:induction false} ContainVolatileIffSubExpr(e: Expr)
    ensures ContainVolatileFunctions(e) <==> exists s :: s in SubExprs(e) && IsVolatileCall(s)
    decreases e, 1
  {
    match e
    case FuncExpr(_, _, args, _, volatile) =>
      ContainVolatileIffSubExprList(args);
      assert SubExprs(e) == [e] + SubExprsOfList(args);
      if volatile {
        assert e in SubExprs(e) && IsVolatileCall(e);
      }
      if exists s :: s in SubExprsOfList(args) && IsVolatileCall(s) {
        var s :| s in SubExprsOfList(args) && IsVolatileCall(s);
        assert s in SubExprs(e);
      }
      if exists s :: s in SubExprs(e) && IsVolatileCall(s) {
        var s :| s in SubExprs(e) && IsVolatileCall(s);
        if s != e {
          assert s in SubExprsOfList(args);
        }
      }
    case Const(_, _, _) =>
    case Var(_) =>
  }

  lemma {:induction false} ContainVolatileIffSubExprList(es: seq<Expr>)
    ensures (exists i :: 0 <= i < |es| && ContainVolatileFunctions(es[i]))
        <==> exists s :: s in SubExprsOfList(es) && IsVolatileCall(s)
    decreases es, 0
  {
    if |es| > 0 {
      ContainVolatileIffSubExpr(es[0]);
      ContainVolatileIffSubExprList(es[1..]);
      assert SubExprsOfList(es) == SubExprs(es[0]) + SubExprsOfList(es[1..]);
      if exists i :: 0 <= i < |es| && ContainVolatileFunctions(es[i]) {
        var i :| 0 <= i < |es| && ContainVolatileFunctions(es[i]);
        if i > 0 {
          assert ContainVolatileFunctions(es[1..][i - 1]);
        }
      }
      if exists i :: 0 <= i < |es[1..]| && ContainVolatileFunctions(es[1..][i]) {
        var i :| 0 <= i < |es[1..]| && ContainVolatileFunctions(es[1..][i]);
        assert ContainVolatileFunctions(es[i + 1]);
      }
    }
  }

  /**
   * GetConstArg(node, n, &c): succeeds, handing back argument `n`, when the
   * node is a call whose argument `n` is a Const.
   */
  function GetConstArg(node: Expr, n: nat): (c: Option<Expr>)
    ensures c.Some? <==> node.FuncExpr? && n < |node.args| && node.args[n].Const?
    ensures c.Some? ==> c.value == node.args[n] && c.value.Const?
  {
    if node.FuncExpr? && n < |node.args| && node.args[n].Const? then Some(node.args[n]) else None
  }

  /**
   * A non-null constant holds a datum of its type: a text constant holds a
   * string without NUL characters, an int4 constant a 32-bit integer.
   */
  predicate WellTypedConst(e: Expr) {
    e.Const? && !e.constisnull ==>
      (e.consttype == TextType ==> e.constvalue.TextDatum? && '\0' !in e.constvalue.text)
      && (e.consttype == Int4Type ==> e.constvalue.Int32Datum?)
  }

  /** The direct arguments of a call are well-typed constants or other nodes. */
  predicate ArgsWellTyped(node: Expr) {
    node.FuncExpr? ==> forall i :: 0 <= i < |node.args| ==> WellTypedConst(node.args[i])
  }
}
