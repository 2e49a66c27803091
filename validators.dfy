/**
 * The call-site validators of shippable_builtin_functions.c. The table lets
 * a call through by signature; the validator named in its entry then looks
 * at the call itself and decides whether DuckDB would compute the same
 * result.
 */
module Validators {
  import opened Wrappers
  import opened Nodes
  import opened CaseFold
  import ShippableFunctions

  /** The argument types whose text form DuckDB renders as PostgreSQL does. */
  const ConcatArgTypes: set<TypeName> := {
    UnknownType, TextType, VarcharType, BpcharType, CharType, Int2Type,
    Int4Type, Int8Type, Float4Type, Float8Type, NumericType, UuidType
  }

  /** Every argument has one of the types of ConcatArgTypes. */
  predicate ConcatArgsShippable(args: seq<Expr>) {
    forall i :: 0 <= i < |args| ==> ExprType(args[i]) in ConcatArgTypes
  }

  /**
   * IsConcatShippable: walks the arguments of a concat or concat_ws call and
   * rejects the call at the first argument whose type is not on the list.
   */
  method IsConcatShippable(node: Expr) returns (shippable: bool)
    requires node.FuncExpr?
    ensures shippable <==> ConcatArgsShippable(node.args)
  {
    var args := node.args;
    var i := 0;
    while i < |args|
      invariant 0 <= i <= |args|
      invariant forall j :: 0 <= j < i ==> ExprType(args[j]) in ConcatArgTypes
    {
      var argType := ExprType(args[i]);
      if !(argType == UnknownType || argType == TextType
           || argType == VarcharType
           || argType == BpcharType || argType == CharType
           || argType == Int2Type || argType == Int4Type
           || argType == Int8Type || argType == Float4Type
           || argType == Float8Type || argType == NumericType
           || argType == UuidType)
      {
        return false;
      }
      i := i + 1;
    }
    return true;
  }

  /** A single bool argument, wherever it stands, makes concat unshippable. */
  lemma ConcatRejectsBool(args: seq<Expr>, i: nat)
    requires i < |args| && ExprType(args[i]) == BoolType
    ensures !ConcatArgsShippable(args)
  {
  }

  /** The check splits over the argument list: both parts must pass. */
  lemma {:induction false} ConcatArgsAppend(a: seq<Expr>, b: seq<Expr>)
    ensures ConcatArgsShippable(a + b) <==> ConcatArgsShippable(a) && ConcatArgsShippable(b)
  {
    if ConcatArgsShippable(a + b) {
      forall i | 0 <= i < |a| ensures ExprType(a[i]) in ConcatArgTypes {
        assert a[i] == (a + b)[i];
      }
      forall i | 0 <= i < |b| ensures ExprType(b[i]) in ConcatArgTypes {
        assert b[i] == (a + b)[|a| + i];
      }
    }
  }

  /**
   * For concat_ws the separator is checked like every other argument: the
   * call passes exactly when the separator and the remaining arguments do.
   */
  lemma ConcatWsChecksSeparator(separator: Expr, rest: seq<Expr>)
    ensures ConcatArgsShippable([separator] + rest)
        <==> ExprType(separator) in ConcatArgTypes && ConcatArgsShippable(rest)
  {
    ConcatArgsAppend([separator], rest);
    assert [separator][0] == separator;
  }

  /** A non-null text constant, the form in which a format argument is accepted. */
  predicate IsTextConst(e: Expr) {
    e.Const? && !e.constisnull && e.consttype == TextType
  }

  /** The binary formats DuckDB handles as PostgreSQL does. */
  const ByteaFormats: set<string> := {"base64", "hex"}

  /**
   * On a NUL-free string, comparing case-insensitively with "base64" and
   * with "hex" amounts to asking whether its lower-cased form is one of them.
   */
  lemma FormatNameIff(format: string)
    requires '\0' !in format
    ensures (PgStrCaseCmp(format, "base64") == 0 || PgStrCaseCmp(format, "hex") == 0)
        <==> AsciiLower(format) in ByteaFormats
  {
    PgStrCaseCmpZeroIff(format, "base64");
    PgStrCaseCmpZeroIff(format, "hex");
    assert AsciiLower("base64") == "base64";
    assert AsciiLower("hex") == "hex";
  }

  /**
   * The body shared by IsEncodeShippable and IsDecodeShippable: argument 1
   * must be a non-null text constant naming base64 or hex in any case.
   */
  function FormatArgIsBase64OrHex(node: Expr): (r: bool)
    requires ArgsWellTyped(node)
    ensures r <==> node.FuncExpr? && |node.args| > 1 && IsTextConst(node.args[1])
                   && AsciiLower(node.args[1].constvalue.text) in ByteaFormats
  {
    match GetConstArg(node, 1)
    case None => false
    case Some(formatConst) =>
      if formatConst.constisnull || formatConst.consttype != TextType then false
      else
        assert WellTypedConst(node.args[1]);
        var format := formatConst.constvalue.text;
        FormatNameIff(format);
        PgStrCaseCmp(format, "base64") == 0 || PgStrCaseCmp(format, "hex") == 0
  }

  /**
   * IsEncodeShippable: true exactly when argument 1 is a non-null text
   * constant equal to "base64" or "hex" ignoring ASCII case.
   */
  function IsEncodeShippable(node: Expr): (shippable: bool)
    requires node.FuncExpr? && ArgsWellTyped(node)
    ensures shippable
        <==> |node.args| > 1 && IsTextConst(node.args[1])
             && AsciiLower(node.args[1].constvalue.text) in ByteaFormats
  {
    FormatArgIsBase64OrHex(node)
  }

  /**
   * IsDecodeShippable: true exactly when argument 1 is a non-null text
   * constant equal to "base64" or "hex" ignoring ASCII case.
   */
  function IsDecodeShippable(node: Expr): (shippable: bool)
    requires node.FuncExpr? && ArgsWellTyped(node)
    ensures shippable
        <==> |node.args| > 1 && IsTextConst(node.args[1])
             && AsciiLower(node.args[1].constvalue.text) in ByteaFormats
  {
    FormatArgIsBase64OrHex(node)
  }

  /** encode and decode accept the same format arguments. */
  lemma EncodeDecodeAgree(node: Expr)
    requires node.FuncExpr? && ArgsWellTyped(node)
    ensures IsEncodeShippable(node) == IsDecodeShippable(node)
  {
  }

  /**
   * IsArrayLengthShippable: true exactly when argument 1 is a non-null int4
   * constant whose value is 1.
   */
  function IsArrayLengthShippable(node: Expr): (shippable: bool)
    requires node.FuncExpr? && ArgsWellTyped(node)
    ensures shippable
        <==> |node.args| > 1 && node.args[1].Const? && !node.args[1].constisnull
             && node.args[1].consttype == Int4Type && node.args[1].constvalue == Int32Datum(1)
  {
    match GetConstArg(node, 1)
    case None => false
    case Some(dimConst) =>
      assert WellTypedConst(node.args[1]);
      if dimConst.constisnull || dimConst.consttype != Int4Type then false
      else if dimConst.constvalue.int32 != 1 then false
      else true
  }

  /** Any dimension other than 1, given as an int4 constant, is refused. */
  lemma ArrayLengthOtherDimension(arrayArg: Expr, dim: int32)
    requires WellTypedConst(arrayArg) && dim != 1
    ensures !IsArrayLengthShippable(
      FuncExpr("array_length", Int4Type, [arrayArg, Const(Int4Type, false, Int32Datum(dim))],
               CoerceExplicitCall, false))
  {
  }

  /** IsCast: true exactly when the call was written as an explicit or implicit cast. */
  function IsCast(node: Expr): (shippable: bool)
    requires node.FuncExpr?
    ensures shippable <==> node.funcformat in {CoerceExplicitCast, CoerceImplicitCast}
  {
    var coercionForm := node.funcformat;
    coercionForm == CoerceExplicitCast || coercionForm == CoerceImplicitCast
  }

  /**
   * Spelled as a function call, numeric(x, 5) is not treated as a cast, while
   * the same call written as x::numeric(5) is.
   */
  lemma IsCastDistinguishesSpelling(node: Expr)
    requires node.FuncExpr?
    ensures node.funcformat == CoerceExplicitCall ==> !IsCast(node)
    ensures node.funcformat == CoerceSqlSyntax ==> !IsCast(node)
  {
  }

  /**
   * IsConvertibleToChar: a call that contains a volatile function is
   * refused; otherwise argument 1 must be a non-null text constant, and
   * then `formatConvertible` (the check-only run of BuildStrftimeChain) on
   * that format decides.
   */
  function IsConvertibleToChar(node: Expr, formatConvertible: string -> bool): (shippable: bool)
    requires ArgsWellTyped(node)
    ensures shippable
        <==> (forall s :: s in SubExprs(node) ==> !IsVolatileCall(s))
             && node.FuncExpr? && |node.args| > 1 && IsTextConst(node.args[1])
             && formatConvertible(node.args[1].constvalue.text)
  {
    ContainVolatileIffSubExpr(node);
    if ContainVolatileFunctions(node) then false
    else
      match GetConstArg(node, 1)
      case None => false
      case Some(formatConst) =>
        if formatConst.constisnull || formatConst.consttype != TextType then false
        else formatConvertible(formatConst.constvalue.text)
  }

  /** A volatile call anywhere in the tree refuses the call, whatever the format. */
  lemma VolatileNeverConvertible(node: Expr, formatConvertible: string -> bool)
    requires ArgsWellTyped(node) && ContainVolatileFunctions(node)
    ensures !IsConvertibleToChar(node, formatConvertible)
  {
    ContainVolatileIffSubExpr(node);
  }

  /**
   * The volatility test comes first: when it refuses, the format translator
   * has no say, and when it passes with a text format, the translator alone
   * decides.
   */
  lemma ConvertibleToCharOrder(node: Expr, conv1: string -> bool, conv2: string -> bool)
    requires ArgsWellTyped(node)
    ensures ContainVolatileFunctions(node) ==> IsConvertibleToChar(node, conv1) == IsConvertibleToChar(node, conv2)
    ensures !ContainVolatileFunctions(node) && node.FuncExpr? && |node.args| > 1 && IsTextConst(node.args[1])
        ==> IsConvertibleToChar(node, conv1) == conv1(node.args[1].constvalue.text)
  {
    ContainVolatileIffSubExpr(node);
  }

  /**
   * The validator a table entry names, applied to a call: the entry's tag
   * selects which of the checks above decides whether the call ships.
   */
  method RunValidator(v: ShippableFunctions.Validator, node: Expr, formatConvertible: string -> bool)
    returns (shippable: bool)
    requires node.FuncExpr? && ArgsWellTyped(node)
    ensures v.Concat? ==> (shippable <==> ConcatArgsShippable(node.args))
    ensures v.Encode? || v.Decode? ==>
      (shippable <==> |node.args| > 1 && IsTextConst(node.args[1])
                      && AsciiLower(node.args[1].constvalue.text) in ByteaFormats)
    ensures v.ArrayLength? ==>
      (shippable <==> |node.args| > 1 && node.args[1].Const? && !node.args[1].constisnull
                      && node.args[1].consttype == Int4Type && node.args[1].constvalue == Int32Datum(1))
    ensures v.Cast? ==> (shippable <==> node.funcformat in {CoerceExplicitCast, CoerceImplicitCast})
    ensures v.ToChar? ==>
      (shippable <==> (forall s :: s in SubExprs(node) ==> !IsVolatileCall(s))
                      && |node.args| > 1 && IsTextConst(node.args[1])
                      && formatConvertible(node.args[1].constvalue.text))
  {
    match v
    case Concat => shippable := IsConcatShippable(node);
    case Encode => shippable := IsEncodeShippable(node);
    case Decode => shippable := IsDecodeShippable(node);
    case ArrayLength => shippable := IsArrayLengthShippable(node);
    case Cast => shippable := IsCast(node);
    case ToChar => shippable := IsConvertibleToChar(node, formatConvertible);
  }
}
